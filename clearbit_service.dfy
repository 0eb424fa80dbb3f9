/** The company search service: a case-insensitive name filter over a fixed table of
    ten companies, and the logo-URL convention of the logo host. */
module ClearbitService {
  import opened Wrappers
  import opened Text
  import opened Sequences
  import opened Domain

  const LogoHost: string := "https://logo.clearbit.com/"

  /** The logo URL of a company domain: the host prefix followed by the domain. */
  function GetLogoUrl(domain: string): (r: string)
    ensures StartsWith(r, LogoHost)
    ensures r[|LogoHost|..] == domain
  {
    LogoHost + domain
  }

  /** Distinct domains give distinct logo URLs. */
  lemma LogoUrlInjective(a: string, b: string)
    requires GetLogoUrl(a) == GetLogoUrl(b)
    ensures a == b
  {
    assert a == GetLogoUrl(a)[|LogoHost|..];
  }

  /** A fixture entry: id, name, logo, industry, location and domain are set. */
  function Listed(id: string, name: string, logo: string, industry: string, location: string, domain: string): Company {
    Company(id, name, Some(logo), Some(industry), Some(location), Some(domain), None, None, None, None)
  }

  const MockCompanies: seq<Company> := [
    Listed("1", "Snowflake", "https://logo.clearbit.com/" + "snowflake.com", "Cloud Data Platform", "Bozeman, MT", "snowflake.com"),
    Listed("2", "Salesforce", "https://logo.clearbit.com/" + "salesforce.com", "CRM Software", "San Francisco, CA", "salesforce.com"),
    Listed("3", "Microsoft", "https://logo.clearbit.com/" + "microsoft.com", "Technology", "Redmond, WA", "microsoft.com"),
    Listed("4", "Adobe", "https://logo.clearbit.com/" + "adobe.com", "Software", "San Jose, CA", "adobe.com"),
    Listed("5", "Slack", "https://logo.clearbit.com/" + "slack.com", "Communication", "San Francisco, CA", "slack.com"),
    Listed("6", "Google", "https://logo.clearbit.com/" + "google.com", "Technology", "Mountain View, CA", "google.com"),
    Listed("7", "Amazon", "https://logo.clearbit.com/" + "amazon.com", "E-commerce", "Seattle, WA", "amazon.com"),
    Listed("8", "Apple", "https://logo.clearbit.com/" + "apple.com", "Technology", "Cupertino, CA", "apple.com"),
    Listed("9", "Facebook", "https://logo.clearbit.com/" + "facebook.com", "Social Media", "Menlo Park, CA", "facebook.com"),
    Listed("10", "Tesla", "https://logo.clearbit.com/" + "tesla.com", "Automotive", "Palo Alto, CA", "tesla.com")
  ]

  /** The fixture ids "1" to "10" tell the ten companies apart. */
  lemma FixtureIdsDistinct()
    ensures |MockCompanies| == 10
    ensures forall i, j :: 0 <= i < j < |MockCompanies| ==> MockCompanies[i].id != MockCompanies[j].id
  {
    forall i, j | 0 <= i < j < |MockCompanies|
      ensures MockCompanies[i].id != MockCompanies[j].id
    {
      var a, b := MockCompanies[i].id, MockCompanies[j].id;
      assert |a| == 1;
      assert |b| == 1 ==> a[0] != b[0];
    }
  }

  lemma FixtureLogoAt(k: nat)
    requires k < |MockCompanies|
    ensures MockCompanies[k].domain.Some?
    ensures MockCompanies[k].logo == Some(GetLogoUrl(MockCompanies[k].domain.value))
  {
    var c := MockCompanies[k];
    assert c.logo.value == LogoHost + c.domain.value;
  }

  /** Every fixture has a domain, and its logo is the logo URL of that domain. */
  lemma FixtureLogosFollowConvention()
    ensures forall k :: 0 <= k < |MockCompanies| ==>
              MockCompanies[k].domain.Some? && MockCompanies[k].logo == Some(GetLogoUrl(MockCompanies[k].domain.value))
  {
    forall k | 0 <= k < |MockCompanies|
      ensures MockCompanies[k].domain.Some?
      ensures MockCompanies[k].logo == Some(GetLogoUrl(MockCompanies[k].domain.value))
    {
      FixtureLogoAt(k);
    }
  }

  /** The filter's test: the lower-cased query occurs somewhere in the lower-cased name. */
  function Matches(c: Company, query: string): (m: bool)
    ensures m <==> exists k :: OccursAt(Lower(c.name), Lower(query), k)
  {
    ContainsIffOccurs(Lower(c.name), Lower(query));
    Contains(Lower(c.name), Lower(query))
  }

  /** `companies.filter(c => Matches(c, query))`. */
  function FilterByName(companies: seq<Company>, query: string): (r: seq<Company>)
    ensures forall c :: c in r <==> c in companies && Matches(c, query)
    ensures IsSubsequence(r, companies)
    decreases |companies|
  {
    if companies == [] then []
    else
      var rest := FilterByName(companies[1..], query);
      assert forall c :: c in companies <==> c == companies[0] || c in companies[1..];
      if Matches(companies[0], query) then
        assert ([companies[0]] + rest)[1..] == rest;
        [companies[0]] + rest
      else
        rest
  }

  /** `searchCompanies(query)`: the fixture companies whose name includes the query,
      ignoring case, in table order. The filter cannot throw, so the source's
      fallback to an empty list on error is never taken. */
  function SearchCompanies(query: string): (r: seq<Company>)
    ensures forall c :: c in r <==> c in MockCompanies && Matches(c, query)
    ensures IsSubsequence(r, MockCompanies)
    ensures |r| <= |MockCompanies| == 10
  {
    var r := FilterByName(MockCompanies, query);
    SubsequenceLength(r, MockCompanies);
    r
  }

  lemma {:induction false} FilterIgnoresQueryCase(companies: seq<Company>, query: string)
    ensures FilterByName(companies, query) == FilterByName(companies, Lower(query))
    decreases |companies|
  {
    LowerIdempotent(query);
    if companies != [] {
      FilterIgnoresQueryCase(companies[1..], query);
    }
  }

  /** Searching is insensitive to the case of the query. */
  lemma SearchIgnoresQueryCase(query: string)
    ensures SearchCompanies(query) == SearchCompanies(Lower(query))
  {
    FilterIgnoresQueryCase(MockCompanies, query);
  }

  lemma {:induction false} FilterEmptyQueryKeepsAll(companies: seq<Company>)
    ensures FilterByName(companies, "") == companies
    decreases |companies|
  {
    if companies != [] {
      ContainsEmpty(Lower(companies[0].name));
      FilterEmptyQueryKeepsAll(companies[1..]);
    }
  }

  /** At the service level the empty query matches every company. */
  lemma EmptyQueryReturnsAll()
    ensures SearchCompanies("") == MockCompanies
  {
    FilterEmptyQueryKeepsAll(MockCompanies);
  }

  lemma {:induction false} FilterNoneMatch(companies: seq<Company>, query: string)
    requires forall k :: 0 <= k < |companies| ==> !Matches(companies[k], query)
    ensures FilterByName(companies, query) == []
    decreases |companies|
  {
    if companies != [] {
      FilterNoneMatch(companies[1..], query);
    }
  }

  /** No fixture but the first has "sno" in its lower-cased name. */
  lemma OnlySnowflakeMatchesSno(k: nat)
    requires 1 <= k < |MockCompanies|
    ensures !Matches(MockCompanies[k], "sno")
  {
    assert Lower("sno") == "sno";
    var name := Lower(MockCompanies[k].name);
    if k <= 3 {
      LowerNamesUpTo3(k);
    } else if k <= 6 {
      LowerNamesUpTo6(k);
    } else {
      LowerNamesUpTo9(k);
    }
    ContainsNoBigram(name, "sno");
  }

  /** The lower-cased fixture names, three at a time; none has "sn" in it. */
  lemma LowerNamesUpTo3(k: nat)
    requires 1 <= k <= 3
    ensures var name := Lower(MockCompanies[k].name);
      forall i :: 0 <= i < |name| - 1 ==> !(name[i] == 's' && name[i + 1] == 'n')
  {
    var name := Lower(MockCompanies[k].name);
    if k == 1 { assert name == "salesforce"; }
    else if k == 2 { assert name == "microsoft"; }
    else { assert name == "adobe"; }
  }

  lemma LowerNamesUpTo6(k: nat)
    requires 4 <= k <= 6
    ensures var name := Lower(MockCompanies[k].name);
      forall i :: 0 <= i < |name| - 1 ==> !(name[i] == 's' && name[i + 1] == 'n')
  {
    var name := Lower(MockCompanies[k].name);
    if k == 4 { assert name == "slack"; }
    else if k == 5 { assert name == "google"; }
    else { assert name == "amazon"; }
  }

  lemma LowerNamesUpTo9(k: nat)
    requires 7 <= k < |MockCompanies|
    ensures var name := Lower(MockCompanies[k].name);
      forall i :: 0 <= i < |name| - 1 ==> !(name[i] == 's' && name[i + 1] == 'n')
  {
    var name := Lower(MockCompanies[k].name);
    if k == 7 { assert name == "apple"; }
    else if k == 8 { assert name == "facebook"; }
    else { assert name == "tesla"; }
  }

  lemma FilterOnlyHead(companies: seq<Company>, query: string)
    requires companies != [] && Matches(companies[0], query)
    requires forall k :: 1 <= k < |companies| ==> !Matches(companies[k], query)
    ensures FilterByName(companies, query) == [companies[0]]
  {
    FilterNoneMatch(companies[1..], query);
  }

  /** "sno" finds Snowflake and nothing else. */
  lemma SearchSnoFindsSnowflake()
    ensures SearchCompanies("sno") == [MockCompanies[0]]
    ensures SearchCompanies("sno")[0].name == "Snowflake"
  {
    forall k | 1 <= k < |MockCompanies| ensures !Matches(MockCompanies[k], "sno") {
      OnlySnowflakeMatchesSno(k);
    }
    assert Lower("Snowflake") == "snowflake" && Lower("sno") == "sno";
    assert StartsWith("snowflake", "sno");
    FilterOnlyHead(MockCompanies, "sno");
  }
}
