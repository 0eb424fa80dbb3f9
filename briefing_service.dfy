/** The briefing service: a mock generator that fills a briefing from its inputs and
    fixed content, a list of three recent briefings, and a lookup that knows only the
    briefing with id "1". All three settle a promise after a simulated delay, so they are
    methods here and callers see only their contracts. The random id, the clock and the
    derived dates are inputs: `Ambient` carries them. */
module BriefingService {
  import opened Wrappers
  import opened Text
  import opened Domain

  const DayMillis: int := 24 * 60 * 60 * 1000

  /** What the generator takes from outside the code: the random id it draws, the current
      time, and the ISO dates of 5, 15 and 30 days ago. */
  datatype Ambient = Ambient(randomId: string, now: int, fiveDaysAgo: string, fifteenDaysAgo: string, thirtyDaysAgo: string)

  /** How a template string renders an optional string: `undefined` when absent. */
  function Rendered(o: Option<string>): (r: string)
    ensures o.None? ==> r == "undefined"
    ensures o.Some? ==> r == o.value
  {
    if o.Some? then o.value else "undefined"
  }

  /** `${x || 'N/A'}` for an optional number: absent and 0 are falsy. */
  function NumberOrNA(o: Option<int>): (r: string)
    ensures r == "N/A" <==> o.None? || o.value == 0
    ensures o.Some? && o.value != 0 ==> r == IntToString(o.value)
  {
    if o.Some? && o.value != 0 then
      var s := IntToString(o.value);
      assert s[0] == '-' || '0' <= s[0] <= '9';
      s
    else "N/A"
  }

  /** `${x || 'N/A'}` for an optional string: absent and "" are falsy. */
  function TextOrNA(o: Option<string>): (r: string)
    ensures IsTruthy(o) ==> r == o.value
    ensures !IsTruthy(o) ==> r == "N/A"
  {
    if IsTruthy(o) then o.value else "N/A"
  }

  /** The title template shared by the generator and the fixtures: the meeting type's
      label, " with ", then the company name. */
  function BriefingTitle(meetingType: MeetingType, companyName: string): (r: string)
    ensures StartsWith(r, MeetingTypeLabel(meetingType) + " with ")
    ensures |r| == |MeetingTypeLabel(meetingType)| + 6 + |companyName|
    ensures r[|r| - |companyName|..] == companyName
  {
    MeetingTypeLabel(meetingType) + " with " + companyName
  }

  /** A title names one meeting type and one company: the labels begin with different
      letters, and the name is what follows the label and " with ". */
  lemma BriefingTitleInjective(m1: MeetingType, n1: string, m2: MeetingType, n2: string)
    requires BriefingTitle(m1, n1) == BriefingTitle(m2, n2)
    ensures m1 == m2 && n1 == n2
  {
    var t := BriefingTitle(m1, n1);
    assert t[0] == MeetingTypeLabel(m1)[0] && t[0] == MeetingTypeLabel(m2)[0];
    assert n1 == t[|t| - |n1|..] && n2 == t[|t| - |n2|..];
  }

  /** The company description of a generated briefing: it opens with the company name
      and closes with the size (or "N/A") and " employees worldwide.". */
  function GeneratedDescription(company: Company): (r: string)
    ensures StartsWith(r, company.name + " is a leading provider of ")
    ensures var tail := TextOrNA(company.size) + " employees worldwide.";
            |tail| <= |r| && r[|r| - |tail|..] == tail
  {
    var head := company.name + " is a leading provider of ";
    var tail := TextOrNA(company.size) + " employees worldwide.";
    var middle := Rendered(company.industry)
      + " solutions. Founded in " + NumberOrNA(company.foundedYear)
      + ", they have grown to become a " + "significant player in the " + "industry with ";
    assert (head + middle + tail)[..|head|] == head;
    head + middle + tail
  }

  /** The four summary points of a generated briefing; only the first names the company. */
  method GeneratedSummary(name: string) returns (r: seq<string>)
    ensures |r| == 4
    ensures r[0] == name + " is looking to improve their " + "data infrastructure."
  {
    r := [ name + " is looking to improve their " + "data infrastructure.",
           "Recent leadership changes " + "indicate a shift towards " + "cloud-first strategy.",
           "Q2 financial results exceeded " + "expectations, suggesting " + "available budget.",
           "Competitive pressure from " + "industry leaders might " + "accelerate decision timeline." ];
  }

  /** The overview of a generated briefing: the templated description, three news items
      about the company dated 5, 15 and 30 days back, and a "Strong" financial health. */
  method GeneratedOverview(company: Company, env: Ambient) returns (o: CompanyOverview)
    ensures o.description == GeneratedDescription(company)
    ensures |o.recentNews| == 3
    ensures o.recentNews[0].date == env.fiveDaysAgo && o.recentNews[1].date == env.fifteenDaysAgo
            && o.recentNews[2].date == env.thirtyDaysAgo
    ensures forall n :: n in o.recentNews ==> StartsWith(n.title, company.name) && n.url.None?
    ensures o.financialHealth.status == "Strong" && o.financialHealth.metrics.Some?
  {
    var name := company.name;
    var news := [
      NewsItem(name + " Announces New Cloud " + "Partnership", env.fiveDaysAgo, "TechCrunch",
               name + " has announced a new " + "strategic partnership to " + "enhance their cloud " + "capabilities and expand " + "market reach.", None),
      NewsItem(name + " Reports Strong Q2 Earnings", env.fifteenDaysAgo, "Bloomberg",
               name + " reported Q2 earnings above " + "analyst expectations, with " + "revenue growth of 25% " + "year-over-year.", None),
      NewsItem(name + " Appoints New CTO", env.thirtyDaysAgo, "Business Insider",
               name + " has appointed a new Chief " + "Technology Officer to lead " + "their digital transformation " + "initiatives.", None) ];
    assert forall k :: 0 <= k < 3 ==> news[k].title[..|name|] == name;
    o := CompanyOverview(
      GeneratedDescription(company),
      news,
      FinancialHealth("Strong",
        name + " has demonstrated solid " + "financial performance with " + "consistent revenue growth " + "over the past four quarters.",
        Some([("Revenue Growth", "+25% YoY"), ("Profit Margin", "18.5%"), ("Cash Reserves", "$350M"),
              ("R&D Investment", "12% of revenue")])));
  }

  /** The three key contacts of a generated briefing, ids "1" to "3", all working for
      `companyName`, each with a LinkedIn profile and three recent activities. */
  method GeneratedContacts(companyName: string) returns (r: seq<Contact>)
    ensures |r| == 3 && r[0].id == "1" && r[1].id == "2" && r[2].id == "3"
    ensures forall c :: c in r ==> c.company == Some(companyName) && IsTruthy(c.linkedin) && c.photo.None?
    ensures forall c :: c in r ==> c.recentActivity.Some? && |c.recentActivity.value| == 3
  {
    r := [
      Contact("1", "Jane Smith", "Chief Technology Officer", Some(companyName), None,
              Some("https://linkedin.com/in/janesmith"),
              Some(["Spoke at Cloud Computing " + "Summit about data " + "modernization",
                    "Published article on future " + "of cloud data warehousing",
                    "Mentioned scalability " + "challenges in quarterly " + "investor call"])),
      Contact("2", "John Rogers", "VP of Data Engineering", Some(companyName), None,
              Some("https://linkedin.com/in/johnrogers"),
              Some(["Hired three senior data " + "engineers in the last quarter",
                    "Commented on LinkedIn about " + "challenges with current data " + "processing pipeline",
                    "Attended workshop on modern " + "data stack architecture"])),
      Contact("3", "Sarah Chen", "Chief Financial Officer", Some(companyName), None,
              Some("https://linkedin.com/in/sarahchen"),
              Some(["Mentioned technology " + "investment priorities in " + "recent earnings call",
                    "Emphasized cost optimization " + "in company town hall",
                    "Quoted in industry " + "publication about strategic " + "technology investments"])) ];
  }

  /** The three insight sections of a generated briefing, four items each. */
  method GeneratedInsights() returns (r: seq<Insight>)
    ensures |r| == 3
    ensures r[0].title == "Technology Stack" && r[1].title == "Business Initiatives" && r[2].title == "Decision Process"
    ensures forall i :: i in r ==> |i.items| == 4
  {
    r := [
      Insight("Technology Stack", "Current technology " + "infrastructure and potential " + "pain points",
              ["Currently using legacy data " + "warehouse solution with " + "scalability issues",
               "Struggles with data " + "integration across multiple " + "business units",
               "Recently started cloud " + "migration initiative for core " + "applications",
               "Engineering team " + "investigating real-time " + "analytics solutions"]),
      Insight("Business Initiatives", "Strategic priorities and " + "ongoing projects",
              ["Digital transformation " + "program launched in Q1 with " + "3-year roadmap",
               "Expansion into European " + "market planned for next " + "fiscal year",
               "New product launch scheduled " + "for Q4 with data-intensive " + "requirements",
               "Cost optimization initiative " + "targeting 15% reduction in " + "operational expenses"]),
      Insight("Decision Process", "Understanding of their buying " + "journey and timeline",
              ["Technology purchases above " + "$250K require executive " + "committee approval",
               "Currently in research phase " + "for data infrastructure " + "modernization",
               "Typical purchase cycle runs " + "3-6 months from initial " + "evaluation",
               "IT and Finance departments " + "have joint decision-making " + "authority"]) ];
  }

  /** The four sales hypotheses of a generated briefing; the first names the company. */
  method GeneratedHypotheses(name: string) returns (r: seq<string>)
    ensures |r| == 4 && StartsWith(r[0], name)
  {
    r := [ name + " is likely facing data " + "scalability challenges as " + "they grow, making them " + "receptive to our cloud-based " + "solution.",
           "Their recent cloud " + "partnership announcement " + "indicates readiness to invest " + "in modern data infrastructure.",
           "The new CTO may be looking to " + "make strategic technology " + "decisions to establish their " + "vision.",
           "Strong financial performance " + "suggests available budget for " + "technology investments with " + "demonstrable ROI." ];
    assert r[0][..|name|] == name;
  }

  /** The competitor analysis of a generated briefing: three anonymous competitors. */
  method GeneratedCompetitors() returns (r: CompetitorAnalysis)
    ensures |r.competitors| == 3
    ensures r.competitors[0].name == "Competitor A" && r.competitors[1].name == "Competitor B"
            && r.competitors[2].name == "Competitor C"
  {
    r := CompetitorAnalysis(
      [ Competitor("Competitor A", "Established relationship with " + "target account", "Legacy technology with " + "limited cloud capabilities"),
        Competitor("Competitor B", "Aggressive pricing and " + "packaging", "Limited support for complex " + "data integration"),
        Competitor("Competitor C", "Strong presence in their " + "industry vertical", "Recent security and " + "reliability issues") ],
      "Our solution offers superior " + "cloud-native architecture " + "with better scalability and " + "lower TCO than competitor " + "alternatives.");
  }

  /** The five talking points of a generated briefing, all questions. */
  method GeneratedTalkingPoints() returns (r: seq<string>)
    ensures |r| == 5
    ensures forall p :: p in r ==> |p| > 0 && p[|p| - 1] == '?'
  {
    r := [ "How are they currently " + "handling data integration " + "across business units?",
           "What are their biggest pain " + "points with their current " + "data infrastructure?",
           "What business outcomes are " + "they looking to achieve with " + "improved data capabilities?",
           "Who are the key stakeholders " + "involved in technology " + "purchase decisions?",
           "What is their timeline for " + "implementing new data " + "solutions?" ];
  }

  /** `generateMockBriefing`, which `generateBriefing` forwards to: a completed briefing
      titled after the meeting type and company, echoing the inputs, with a fresh id and
      the current time, and three key contacts of that company. */
  method GenerateMockBriefing(company: Company, meetingType: MeetingType, primaryContact: Option<Contact>,
                              customFocus: Option<seq<string>>, env: Ambient) returns (b: Briefing)
    ensures b.id == env.randomId && b.createdAt == env.now
    ensures b.title == MeetingTypeLabel(meetingType) + " with " + company.name
    ensures b.company == company && b.meetingType == meetingType
    ensures b.primaryContact == primaryContact && b.customFocus == customFocus
    ensures b.status == Completed && b.notes.None?
    ensures |b.summary| == 4 && b.summary[0] == company.name + " is looking to improve their " + "data infrastructure."
    ensures b.companyOverview.description == GeneratedDescription(company)
    ensures |b.keyContacts| == 3
    ensures forall c :: c in b.keyContacts ==> c.company == Some(company.name) && IsTruthy(c.linkedin)
    ensures |b.insights| == 3 && |b.salesHypotheses| == 4 && |b.talkingPoints| == 5
    ensures b.competitorAnalysis.Some? && |b.competitorAnalysis.value.competitors| == 3
  {
    var summary := GeneratedSummary(company.name);
    var overview := GeneratedOverview(company, env);
    var contacts := GeneratedContacts(company.name);
    var insights := GeneratedInsights();
    var hypotheses := GeneratedHypotheses(company.name);
    var competitors := GeneratedCompetitors();
    var talkingPoints := GeneratedTalkingPoints();
    b := Briefing(env.randomId, BriefingTitle(meetingType, company.name), company, meetingType,
                  primaryContact, customFocus, summary, overview, contacts, insights, hypotheses,
                  Some(competitors), talkingPoints, env.now, Completed, None);
  }

  /** A company without an industry is described as a provider of "undefined" solutions,
      and a missing founding year or size reads "N/A". */
  lemma DescriptionOfBareCompany(id: string, name: string)
    ensures GeneratedDescription(BareCompany(id, name))
            == name + " is a leading provider of " + "undefined"
               + " solutions. Founded in " + "N/A"
               + ", they have grown to become a " + "significant player in the " + "industry with "
               + "N/A" + " employees worldwide."
  {
  }

  /** A briefing of the recent list: fixed placeholder content around the given company
      and status. It has no contacts, insights, hypotheses, talking points, competitors,
      focus, primary contact or notes, and a single sample summary point. */
  function RecentEntry(id: string, title: string, company: Company, meetingType: MeetingType, createdAt: int,
                       status: BriefingStatus): (b: Briefing)
    ensures b.id == id && b.title == title && b.company == company && b.meetingType == meetingType
    ensures b.createdAt == createdAt && b.status == status
    ensures b.summary == ["Sample summary point"] && b.companyOverview.recentNews == []
    ensures b.keyContacts == [] && b.insights == [] && b.salesHypotheses == [] && b.talkingPoints == []
    ensures b.primaryContact.None? && b.customFocus.None? && b.competitorAnalysis.None? && b.notes.None?
  {
    Briefing(id, title, company, meetingType, None, None, ["Sample summary point"],
             CompanyOverview("Brief description", [], FinancialHealth("Strong", "Details", None)),
             [], [], [], None, [], createdAt, status, None)
  }

  function RecentCompany(id: string, name: string, logo: string, industry: string): Company {
    Company(id, name, Some(logo), Some(industry), None, None, None, None, None, None)
  }

  /** `getRecentBriefings()` as settled at time `now`: three briefings with ids "1" to
      "3", created 2, 5 and 10 days ago, of which only the third is still generating.
      The second is titled "Renewal Meeting with ...", which is not the generator's title. */
  method GetRecentBriefings(now: int) returns (r: seq<Briefing>)
    ensures |r| == 3 && r[0].id == "1" && r[1].id == "2" && r[2].id == "3"
    ensures forall k :: 0 <= k < |r| ==> (r[k].status == Generating <==> r[k].id == "3")
    ensures r[0].createdAt == now - 2 * DayMillis && r[1].createdAt == now - 5 * DayMillis
            && r[2].createdAt == now - 10 * DayMillis
    ensures r[0].title == BriefingTitle(IntroCall, r[0].company.name) && r[0].company.name == "Snowflake"
    ensures r[1].title != BriefingTitle(Renewal, r[1].company.name)
    ensures forall k :: 0 <= k < |r| ==> r[k].company.id == r[k].id && r[k].keyContacts == []
  {
    r := [ RecentEntry("1", "Intro Call with Snowflake",
                       RecentCompany("1", "Snowflake", "https://logo.clearbit.com/snowflake.com", "Cloud Data Platform"),
                       IntroCall, now - 2 * DayMillis, Completed),
           RecentEntry("2", "Renewal Meeting with " + "Salesforce",
                       RecentCompany("2", "Salesforce", "https://logo.clearbit.com/salesforce.com", "CRM Software"),
                       Renewal, now - 5 * DayMillis, Completed),
           RecentEntry("3", "Competitive Deal with Adobe",
                       RecentCompany("3", "Adobe", "https://logo.clearbit.com/adobe.com", "Software"),
                       CompetitiveDeal, now - 10 * DayMillis, Generating) ];
    SnowflakeIntroTitle();
    assert r[1].title[8] == 'M' && BriefingTitle(Renewal, "Salesforce")[8] == 'w';
  }

  /** The fixtures' literal title is the one the generator's template gives. */
  lemma SnowflakeIntroTitle()
    ensures BriefingTitle(IntroCall, "Snowflake") == "Intro Call with Snowflake"
  {
  }

  const SnowflakeCompany: Company := Company("1", "Snowflake", Some("https://logo.clearbit.com/snowflake.com"),
    Some("Cloud Data Platform"), Some("Bozeman, MT"), None, Some(2012), Some("2,000+ employees"),
    Some("$1.2B annually"), Some("https://snowflake.com"))

  function SnowflakeContact(id: string, name: string, title: string, linkedin: string, activity: seq<string>): Contact {
    Contact(id, name, title, Some("Snowflake"), None, Some(linkedin), Some(activity))
  }

  /** The overview of the Snowflake briefing: its description, three dated news items
      and its financial health. */
  method SnowflakeOverview() returns (o: CompanyOverview)
    ensures |o.recentNews| == 3 && o.financialHealth.status == "Strong Growth"
  {
    o := CompanyOverview(
      "Snowflake delivers the Data " + "Cloud \U{00E2}\U{20AC}\U{201D} a global network " + "where thousands of " + "organizations mobilize data " + "with near-unlimited scale, " + "concurrency, and performance.",
      [ NewsItem("Snowflake Announces Enhanced " + "AI Features", "2023-10-15", "TechCrunch",
                 "Snowflake unveiled new " + "AI-powered features to help " + "customers derive insights " + "from their data more " + "efficiently.", None),
        NewsItem("Snowflake Reports Strong Q2 " + "Earnings", "2023-08-24", "Bloomberg",
                 "Snowflake reported Q2 " + "earnings above analyst " + "expectations, with revenue " + "growth of 83% year-over-year.", None),
        NewsItem("Snowflake Appoints New CTO", "2023-07-12", "Business Insider",
                 "Snowflake has appointed a new " + "Chief Technology Officer with " + "extensive experience in cloud " + "technologies and AI.", None) ],
      FinancialHealth("Strong Growth",
        "Snowflake has demonstrated " + "exceptional financial " + "performance with consistent " + "revenue growth over the past " + "four quarters.",
        Some([("Revenue Growth", "+83% YoY"), ("Customers", "7,000+"), ("Net Revenue Retention", "171%"),
              ("Cash Reserves", "$4.1B")])));
  }

  /** The three key contacts of the Snowflake briefing, all working for Snowflake. */
  method SnowflakeContacts() returns (r: seq<Contact>)
    ensures |r| == 3 && r[0].id == "1" && r[1].id == "2" && r[2].id == "3"
    ensures forall c :: c in r ==> c.company == Some("Snowflake") && IsTruthy(c.linkedin)
  {
    r := [
      SnowflakeContact("1", "Frank Slootman", "Chairman and CEO", "https://linkedin.com/in/frankslootman",
        ["Emphasized focus on AI/ML " + "capabilities in recent " + "earnings call",
         "Published article on future " + "of data cloud",
         "Spoke at industry conference " + "about data-driven " + "transformation"]),
      SnowflakeContact("2", "Benoit Dageville", "Co-Founder and President of " + "Products", "https://linkedin.com/in/benoitdageville",
        ["Announced product roadmap at " + "Snowflake Summit",
         "Spoke about data sharing " + "ecosystem",
         "Participated in panel " + "discussion on modern data " + "architecture"]),
      SnowflakeContact("3", "Mike Scarpelli", "Chief Financial Officer", "https://linkedin.com/in/mikescarpelli",
        ["Presented financial results " + "at investor conference",
         "Discussed strategic " + "investments in technology " + "infrastructure",
         "Mentioned increasing " + "investment in partner " + "ecosystem"]) ];
  }

  /** The three insight sections of the Snowflake briefing, four items each. */
  method SnowflakeInsights() returns (r: seq<Insight>)
    ensures |r| == 3 && forall i :: i in r ==> |i.items| == 4
  {
    r := [
      Insight("Technology Strategy", "Current data platform and " + "strategic direction",
              ["Heavily invested in " + "cloud-native data architecture",
               "Expanding capabilities in " + "AI/ML and data science",
               "Building stronger data " + "sharing and marketplace " + "offerings",
               "Focus on industry-specific " + "solutions and accelerators"]),
      Insight("Business Initiatives", "Strategic priorities and " + "ongoing projects",
              ["International expansion, " + "particularly in APAC region",
               "Strengthening enterprise " + "customer base",
               "Developing industry-specific " + "solutions",
               "Building developer ecosystem " + "around Snowpark"]),
      Insight("Competitive Landscape", "Understanding of market " + "position and challenges",
              ["Competing with established " + "data warehouse vendors",
               "Facing pressure from cloud " + "hyperscalers",
               "Differentiating through " + "performance and ease of use",
               "Expanding partner ecosystem " + "for implementation support"]) ];
  }

  /** The competitor analysis of the Snowflake briefing: three named competitors. */
  method SnowflakeCompetitors() returns (r: CompetitorAnalysis)
    ensures |r.competitors| == 3 && r.competitors[0].name == "Databricks"
  {
    r := CompetitorAnalysis(
      [ Competitor("Databricks", "Strong in data engineering " + "and ML workloads", "Less mature data warehousing " + "capabilities"),
        Competitor("Amazon Redshift", "Tight AWS integration and " + "competitive pricing", "Performance at scale compared " + "to Snowflake"),
        Competitor("Google BigQuery", "Serverless architecture with " + "ML capabilities", "More complex administration " + "and optimization") ],
      "Our solution complements " + "Snowflake by providing " + "advanced analytics " + "capabilities that integrate " + "seamlessly with their data " + "cloud platform.");
  }

  /** The summary, hypotheses and talking points of the Snowflake briefing. */
  method SnowflakeBullets() returns (summary: seq<string>, hypotheses: seq<string>, talkingPoints: seq<string>)
    ensures |summary| == 4 && |hypotheses| == 4 && |talkingPoints| == 5
    ensures forall p :: p in talkingPoints ==> |p| > 0 && p[|p| - 1] == '?'
  {
    summary := [ "Snowflake is expanding their " + "data analytics capabilities",
                 "Recently appointed new CTO " + "with cloud-native background",
                 "Q2 financial results showed " + "80% YoY growth",
                 "Investing heavily in AI/ML " + "capabilities" ];
    hypotheses := [ "Snowflake is looking to " + "enhance their data analytics " + "capabilities to better serve " + "enterprise customers.",
                    "Their focus on AI/ML aligns " + "with our advanced analytics " + "offerings.",
                    "The new CTO may be open to " + "exploring complementary " + "technologies.",
                    "Strong financial position " + "suggests available budget for " + "strategic technology " + "investments." ];
    talkingPoints := [ "How are they currently " + "leveraging their data for " + "business insights?",
                       "What challenges are they " + "facing with their current " + "analytics approach?",
                       "How are they planning to " + "implement AI/ML capabilities?",
                       "What business outcomes are " + "they looking to achieve with " + "improved analytics?",
                       "Who are the key stakeholders " + "involved in analytics " + "decisions?" ];
  }

  /** `getBriefingById(id)` as settled at time `now`: resolves only for "1", with the
      Snowflake intro-call briefing that the first recent briefing also names, and
      otherwise rejects with "Briefing not found". */
  method GetBriefingById(id: string, now: int) returns (r: Result<Briefing, string>)
    ensures r.Ok? <==> id == "1"
    ensures r.Err? ==> r.error == "Briefing not found"
    ensures r.Ok? ==> r.value.id == id && r.value.company == SnowflakeCompany
                      && r.value.title == BriefingTitle(IntroCall, SnowflakeCompany.name)
    ensures r.Ok? ==> r.value.meetingType == IntroCall && r.value.status == Completed
                      && r.value.createdAt == now - 2 * DayMillis
    ensures r.Ok? ==> r.value.primaryContact.None? && r.value.customFocus.None? && r.value.notes.None?
    ensures r.Ok? ==> |r.value.keyContacts| == 3 && r.value.competitorAnalysis.Some?
  {
    if id == "1" {
      var overview := SnowflakeOverview();
      var contacts := SnowflakeContacts();
      var insights := SnowflakeInsights();
      var competitors := SnowflakeCompetitors();
      var summary, hypotheses, talkingPoints := SnowflakeBullets();
      SnowflakeIntroTitle();
      r := Ok(Briefing("1", "Intro Call with Snowflake", SnowflakeCompany, IntroCall, None, None,
                       summary, overview, contacts, insights, hypotheses, Some(competitors), talkingPoints,
                       now - 2 * DayMillis, Completed, None));
    } else {
      r := Err("Briefing not found");
    }
  }
}
