/** The briefing result page: it loads the briefing named by the route, shows a loading,
    not-found or loaded view, and keeps the user's notes and feedback. The pure pieces
    are the text helpers it renders with: the website without its scheme and a
    contact's initials. */
module BriefingResult {
  import opened Wrappers
  import opened Text
  import opened Domain
  import BriefingService

  /** `website.replace(/^https?:\/\//, '')`: one leading "https://" or "http://" is
      dropped; anything else is left as it is. */
  function StripScheme(website: string): (r: string)
    ensures StartsWith(website, "https://") ==> r == website[8..]
    ensures StartsWith(website, "http://") ==> r == website[7..]
    ensures r == website <==> !StartsWith(website, "https://") && !StartsWith(website, "http://")
  {
    if StartsWith(website, "https://") then
      assert website[..7] != "http://" by { assert website[..8][4] == 's'; }
      website[8..]
    else if StartsWith(website, "http://") then website[7..]
    else website
  }

  /** Putting a scheme in front and stripping it gives the address back, whatever it is. */
  lemma StripSchemeUndoesScheme(address: string)
    ensures StripScheme("https://" + address) == address
    ensures StripScheme("http://" + address) == address
  {
    assert ("https://" + address)[..8] == "https://";
    assert ("http://" + address)[..7] == "http://";
    assert ("http://" + address)[4] != 's';
  }

  /** Only one scheme goes: a doubled scheme keeps its second copy. */
  lemma StripSchemeStripsOnce()
    ensures StripScheme("https://https://a") == "https://a"
  {
    assert "https://https://a"[..8] == "https://";
  }

  /** `s.split(' ')`: the pieces between single spaces, empty pieces included, and
      always at least one piece. */
  function Split(s: string): (r: seq<string>)
    ensures |r| >= 1
    ensures forall w :: w in r ==> ' ' !in w
    decreases |s|
  {
    if s == [] then [""]
    else
      var rest := Split(s[1..]);
      assert rest[0] in rest;
      if s[0] == ' ' then [""] + rest
      else [[s[0]] + rest[0]] + rest[1..]
  }

  /** The inverse of `split(' ')`: the words separated by single spaces. */
  function Join(words: seq<string>): (r: string)
    ensures words == [] ==> r == ""
    ensures words != [] ==> StartsWith(r, words[0])
    ensures |words| > 1 ==> |words[0]| < |r| && r[|words[0]|] == ' '
    decreases |words|
  {
    if words == [] then ""
    else if |words| == 1 then words[0]
    else words[0] + " " + Join(words[1..])
  }

  /** Joining the pieces with spaces gives the string back. */
  lemma {:induction false} JoinSplit(s: string)
    ensures Join(Split(s)) == s
    decreases |s|
  {
    if s != [] {
      var rest := Split(s[1..]);
      JoinSplit(s[1..]);
      if s[0] == ' ' {
        assert Split(s) == [""] + rest;
        assert (([""] + rest)[1..]) == rest;
        assert s == [' '] + s[1..];
      } else {
        assert Split(s) == [[s[0]] + rest[0]] + rest[1..];
        if |rest| == 1 {
          assert s == [s[0]] + rest[0];
        } else {
          assert ([[s[0]] + rest[0]] + rest[1..])[1..] == rest[1..];
          assert Join(rest) == rest[0] + " " + Join(rest[1..]);
          assert s == [s[0]] + s[1..];
        }
      }
    }
  }

  /** A string with no space is one piece. */
  lemma {:induction false} SplitWord(w: string)
    requires ' ' !in w
    ensures Split(w) == [w]
    decreases |w|
  {
    if w != [] {
      assert ' ' !in w[1..] by {
        forall i | 0 <= i < |w[1..]| ensures w[1..][i] != ' ' {
          assert w[1..][i] == w[i + 1];
        }
      }
      SplitWord(w[1..]);
      assert w == [w[0]] + w[1..];
    }
  }

  /** Splitting at a space splits the two sides separately. */
  lemma {:induction false} SplitAtSpace(a: string, b: string)
    ensures Split(a + " " + b) == Split(a) + Split(b)
    decreases |a|
  {
    if a == [] {
      assert a + " " + b == [' '] + b;
      assert ([' '] + b)[1..] == b;
    } else {
      assert (a + " " + b)[0] == a[0];
      assert (a + " " + b)[1..] == a[1..] + " " + b;
      SplitAtSpace(a[1..], b);
    }
  }

  /** Splitting the joined words gives the words back, when none of them holds a space. */
  lemma {:induction false} SplitJoin(words: seq<string>)
    requires |words| >= 1
    requires forall w :: w in words ==> ' ' !in w
    ensures Split(Join(words)) == words
    decreases |words|
  {
    assert words[0] in words;
    if |words| == 1 {
      SplitWord(words[0]);
    } else {
      assert forall w :: w in words[1..] ==> w in words;
      SplitJoin(words[1..]);
      SplitAtSpace(words[0], Join(words[1..]));
      SplitWord(words[0]);
      assert words == [words[0]] + words[1..];
    }
  }

  /** `words.map(n => n[0]).join('')`: the first character of each non-empty word, in
      order; an empty word adds nothing. */
  function FirstChars(words: seq<string>): (r: string)
    ensures |r| <= |words|
    ensures (forall w :: w in words ==> ' ' !in w) ==> ' ' !in r
    decreases |words|
  {
    if words == [] then ""
    else
      assert words[0] in words;
      assert forall w :: w in words[1..] ==> w in words;
      (if words[0] == "" then "" else [words[0][0]]) + FirstChars(words[1..])
  }

  lemma {:induction false} FirstCharsAppend(a: seq<string>, b: seq<string>)
    ensures FirstChars(a + b) == FirstChars(a) + FirstChars(b)
    decreases |a|
  {
    if a == [] {
      assert a + b == b;
    } else {
      assert (a + b)[0] == a[0];
      assert (a + b)[1..] == a[1..] + b;
      FirstCharsAppend(a[1..], b);
    }
  }

  /** A contact's initials: `name.split(' ').map(n => n[0]).join('')`. */
  function Initials(name: string): (r: string)
    ensures ' ' !in r
  {
    FirstChars(Split(name))
  }

  /** The initials of two names joined by a space are the initials of each, in order. */
  lemma InitialsAtSpace(a: string, b: string)
    ensures Initials(a + " " + b) == Initials(a) + Initials(b)
  {
    SplitAtSpace(a, b);
    FirstCharsAppend(Split(a), Split(b));
  }

  /** A single word's initial is its first character; extra spaces add nothing. */
  lemma InitialsOfWord(w: string)
    requires ' ' !in w
    ensures w != "" ==> Initials(w) == [w[0]]
    ensures w == "" ==> Initials(w) == ""
  {
    SplitWord(w);
  }

  lemma InitialsExample()
    ensures Initials("Jane" + " " + "Smith") == "JS"
  {
    var first, last := "Jane", "Smith";
    assert ' ' !in first && ' ' !in last;
    InitialsOfWord(first);
    InitialsOfWord(last);
    InitialsAtSpace(first, last);
    assert Initials(first) + Initials(last) == "JS";
  }

  /** `data.notes || ''`. */
  function NotesOf(b: Briefing): (r: string)
    ensures IsTruthy(b.notes) ==> r == b.notes.value
    ensures !IsTruthy(b.notes) ==> r == ""
  {
    if IsTruthy(b.notes) then b.notes.value else ""
  }

  /** A contact's avatar: the photo when there is one, else the initials. */
  datatype Avatar = Photo(url: string) | InitialsBadge(text: string)

  function AvatarOf(c: Contact): (a: Avatar)
    ensures a.Photo? <==> IsTruthy(c.photo)
    ensures a.InitialsBadge? ==> a.text == Initials(c.name)
  {
    if IsTruthy(c.photo) then Photo(c.photo.value) else InitialsBadge(Initials(c.name))
  }

  /** The company's logo when there is one, else the first character of its name
      (`charAt(0)`, empty for an empty name). */
  datatype CompanyMark = Logo(url: string) | Letter(text: string)

  function CompanyMarkOf(c: Company): (m: CompanyMark)
    ensures m.Logo? <==> IsTruthy(c.logo)
    ensures m.Letter? ==> |m.text| <= 1 && (c.name != "" ==> m.text == [c.name[0]])
  {
    if IsTruthy(c.logo) then Logo(c.logo.value) else Letter(if c.name == "" then "" else [c.name[0]])
  }

  /** The website line: shown only for a website, without its scheme. */
  function WebsiteText(c: Company): (r: Option<string>)
    ensures r.Some? <==> IsTruthy(c.website)
    ensures r.Some? ==> r.value == StripScheme(c.website.value)
  {
    if IsTruthy(c.website) then Some(StripScheme(c.website.value)) else None
  }

  /** The competitor section: rendered only when the briefing has a competitor analysis. */
  function CompetitorSection(b: Briefing): (r: Option<CompetitorAnalysis>)
    ensures r.Some? <==> b.competitorAnalysis.Some?
    ensures r.Some? ==> r.value == b.competitorAnalysis.value
  {
    if b.competitorAnalysis.Some? then b.competitorAnalysis else None
  }

  /** A contact's recent-activity list: rendered only when present and non-empty. */
  function RecentActivityList(c: Contact): (r: Option<seq<string>>)
    ensures r.Some? <==> c.recentActivity.Some? && |c.recentActivity.value| > 0
    ensures r.Some? ==> r.value == c.recentActivity.value && |r.value| > 0
  {
    if c.recentActivity.Some? && |c.recentActivity.value| > 0 then c.recentActivity else None
  }

  /** A news item's "Read more" link: rendered only for a non-empty url. */
  function ReadMoreLink(n: NewsItem): (r: Option<string>)
    ensures r.Some? <==> IsTruthy(n.url)
    ensures r.Some? ==> r.value == n.url.value && r.value != ""
  {
    if IsTruthy(n.url) then n.url else None
  }

  /** Which of the three page bodies renders. */
  datatype PageView = LoadingView | NotFoundView | LoadedView(briefing: Briefing)

  function ViewOf(isLoading: bool, briefing: Option<Briefing>): (v: PageView)
    ensures v.LoadingView? <==> isLoading
    ensures v.NotFoundView? <==> !isLoading && briefing.None?
    ensures v.LoadedView? ==> briefing == Some(v.briefing)
  {
    if isLoading then LoadingView
    else if briefing.None? then NotFoundView
    else LoadedView(briefing.value)
  }

  class ResultPage {
    var briefing: Option<Briefing>
    var isLoading: bool
    var notes: string
    var feedback: Option<Feedback>
    var notices: seq<Notice>

    constructor ()
      ensures briefing == None && isLoading && notes == "" && feedback == None && notices == []
    {
      briefing := None;
      isLoading := true;
      notes := "";
      feedback := None;
      notices := [];
    }

    function View(): PageView
      reads this
    {
      ViewOf(isLoading, briefing)
    }

    /** `loadBriefing()` for the route's id at time `now`. Without an id nothing happens
        and the page keeps loading; otherwise the lookup settles, a found briefing and
        its notes are taken over, a missing one raises a notice, and loading ends. */
    method LoadBriefing(routeId: Option<string>, now: int)
      modifies this
      ensures !IsTruthy(routeId) ==>
                briefing == old(briefing) && isLoading == old(isLoading) && notes == old(notes)
                && notices == old(notices)
      ensures IsTruthy(routeId) ==> !isLoading
      ensures IsTruthy(routeId) && routeId.value == "1" ==>
                briefing.Some? && briefing.value.id == "1" && notes == NotesOf(briefing.value) && notes == ""
                && briefing.value.company == BriefingService.SnowflakeCompany
                && briefing.value.title == BriefingService.BriefingTitle(IntroCall, BriefingService.SnowflakeCompany.name)
                && notices == old(notices) && View().LoadedView?
      ensures IsTruthy(routeId) && routeId.value != "1" ==>
                briefing == old(briefing) && notes == old(notes)
                && notices == old(notices) + [BriefingLoadFailed]
                && (old(briefing).None? ==> View() == NotFoundView)
      ensures feedback == old(feedback)
    {
      if !IsTruthy(routeId) {
        return;
      }
      var r := BriefingService.GetBriefingById(routeId.value, now);
      if r.Ok? {
        briefing := Some(r.value);
        notes := NotesOf(r.value);
      } else {
        notices := notices + [BriefingLoadFailed];
      }
      isLoading := false;
    }

    /** The notes textarea's `onChange`. */
    method SetNotes(text: string)
      modifies this
      ensures notes == text
      ensures briefing == old(briefing) && isLoading == old(isLoading) && feedback == old(feedback)
      ensures notices == old(notices)
    {
      notes := text;
    }

    /** `handleSaveNotes()`: only a notice; the notes are not written anywhere. */
    method HandleSaveNotes()
      modifies this
      ensures notices == old(notices) + [NotesSaved]
      ensures notes == old(notes) && briefing == old(briefing) && isLoading == old(isLoading)
      ensures feedback == old(feedback)
    {
      notices := notices + [NotesSaved];
    }

    /** `handleFeedback(kind)`: the last click wins. */
    method HandleFeedback(kind: Feedback)
      modifies this
      ensures feedback == Some(kind)
      ensures notices == old(notices) + [FeedbackThanks(kind)]
      ensures notes == old(notes) && briefing == old(briefing) && isLoading == old(isLoading)
    {
      feedback := Some(kind);
      notices := notices + [FeedbackThanks(kind)];
    }

    /** `handleDownload()`: only a notice. */
    method HandleDownload()
      modifies this
      ensures notices == old(notices) + [PdfDownloaded]
      ensures notes == old(notes) && briefing == old(briefing) && isLoading == old(isLoading)
      ensures feedback == old(feedback)
    {
      notices := notices + [PdfDownloaded];
    }

    /** `handleShare()`: only a notice. */
    method HandleShare()
      modifies this
      ensures notices == old(notices) + [ShareLinkCopied]
      ensures notes == old(notes) && briefing == old(briefing) && isLoading == old(isLoading)
      ensures feedback == old(feedback)
    {
      notices := notices + [ShareLinkCopied];
    }
  }
}
