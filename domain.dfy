/** The records the briefing pages pass around: the `Company`, `Contact` and `Briefing`
    interfaces of the briefing service, the `Company` of the lookup widget (the same record
    with fewer optional fields), the signed-in user, and the notifications ("toasts") the
    handlers raise. Optional properties are `Option`s; JavaScript `Date`s are integer
    milliseconds since the epoch. */
module Domain {
  import opened Wrappers

  datatype MeetingType = IntroCall | Renewal | CompetitiveDeal

  /** The string a meeting type stands for in the source. */
  function MeetingTypeLabel(m: MeetingType): string {
    match m
    case IntroCall => "Intro Call"
    case Renewal => "Renewal"
    case CompetitiveDeal => "Competitive Deal"
  }

  datatype BriefingStatus = Completed | Generating | Failed

  datatype Feedback = Like | Dislike

  /** The signed-in user; only its id is read by the modelled code. */
  datatype User = User(id: string)

  datatype Company = Company(
    id: string,
    name: string,
    logo: Option<string>,
    industry: Option<string>,
    location: Option<string>,
    domain: Option<string>,
    foundedYear: Option<int>,
    size: Option<string>,
    revenue: Option<string>,
    website: Option<string>)

  /** A company given by id and name only, every optional property absent. */
  function BareCompany(id: string, name: string): (c: Company)
    ensures c.id == id && c.name == name
    ensures c.logo.None? && c.industry.None? && c.location.None? && c.domain.None?
    ensures c.foundedYear.None? && c.size.None? && c.revenue.None? && c.website.None?
  {
    Company(id, name, None, None, None, None, None, None, None, None)
  }

  datatype Contact = Contact(
    id: string,
    name: string,
    title: string,
    company: Option<string>,
    photo: Option<string>,
    linkedin: Option<string>,
    recentActivity: Option<seq<string>>)

  /** A contact given by id, name and title only (the forms' `ContactPerson`). */
  function ContactPerson(id: string, name: string, title: string): (c: Contact)
    ensures c.id == id && c.name == name && c.title == title
    ensures c.company.None? && c.photo.None? && c.linkedin.None? && c.recentActivity.None?
  {
    Contact(id, name, title, None, None, None, None)
  }

  /** The three selectable contacts both briefing forms offer. */
  const ReferenceContacts: seq<Contact> := [
    ContactPerson("1", "Jane Smith", "Chief Technology Officer"),
    ContactPerson("2", "John Rogers", "VP of Data Engineering"),
    ContactPerson("3", "Sarah Chen", "Chief Financial Officer")
  ]

  /** `contacts.find(c => c.id === id)`: the first contact with that id, if any. */
  function FindById(contacts: seq<Contact>, id: string): (r: Option<Contact>)
    ensures r.Some? ==> r.value in contacts && r.value.id == id
    ensures r.None? <==> forall c :: c in contacts ==> c.id != id
    ensures r.Some? ==> exists k :: 0 <= k < |contacts| && contacts[k] == r.value
                                   && forall j :: 0 <= j < k ==> contacts[j].id != id
    decreases |contacts|
  {
    if contacts == [] then None
    else if contacts[0].id == id then Some(contacts[0])
    else
      var r := FindById(contacts[1..], id);
      if r.Some? then
        var k :| 0 <= k < |contacts[1..]| && contacts[1..][k] == r.value
                 && forall j :: 0 <= j < k ==> contacts[1..][j].id != id;
        assert contacts[k + 1] == r.value;
        r
      else r
  }

  /** The contact object a form hands to the generator for the picked contact id: none
      when no id or the empty id is picked, otherwise the reference contact with that id. */
  function SelectedContactObject(selected: Option<string>): (r: Option<Contact>)
    ensures r.Some? ==> selected.Some? && r.value in ReferenceContacts && r.value.id == selected.value
    ensures r.None? <==> selected.None? || selected.value == ""
                         || forall c :: c in ReferenceContacts ==> c.id != selected.value
  {
    if selected.Some? && selected.value != "" then FindById(ReferenceContacts, selected.value) else None
  }

  /** Picking contact "2" hands over John Rogers; an id no reference contact has hands
      over nothing. */
  lemma SelectedContactExamples()
    ensures SelectedContactObject(Some("2")) == Some(ReferenceContacts[1])
    ensures SelectedContactObject(Some("4")).None?
  {
    assert ReferenceContacts[0].id != "2";
    assert forall c :: c in ReferenceContacts ==> c.id != "4";
  }

  datatype NewsItem = NewsItem(title: string, date: string, source: string, summary: string, url: Option<string>)

  /** `metrics` is an object whose entries the page lists in insertion order. */
  datatype FinancialHealth = FinancialHealth(status: string, details: string, metrics: Option<seq<(string, string)>>)

  datatype CompanyOverview = CompanyOverview(description: string, recentNews: seq<NewsItem>, financialHealth: FinancialHealth)

  datatype Insight = Insight(title: string, description: string, items: seq<string>)

  datatype Competitor = Competitor(name: string, strength: string, weakness: string)

  datatype CompetitorAnalysis = CompetitorAnalysis(competitors: seq<Competitor>, comparison: string)

  datatype Briefing = Briefing(
    id: string,
    title: string,
    company: Company,
    meetingType: MeetingType,
    primaryContact: Option<Contact>,
    customFocus: Option<seq<string>>,
    summary: seq<string>,
    companyOverview: CompanyOverview,
    keyContacts: seq<Contact>,
    insights: seq<Insight>,
    salesHypotheses: seq<string>,
    competitorAnalysis: Option<CompetitorAnalysis>,
    talkingPoints: seq<string>,
    createdAt: int,
    status: BriefingStatus,
    notes: Option<string>)

  /** The notifications the handlers show, one constructor per distinct toast. */
  datatype Notice =
    | CompanyRequired            // "Company required" (destructive)
    | BriefingGenerated          // "Briefing generated successfully"
    | GenerationFailed           // "Failed to generate briefing" (destructive)
    | BriefingLoadFailed         // "Error loading briefing" (destructive)
    | NotesSaved                 // "Notes saved"
    | FeedbackThanks(kind: Feedback)  // "Feedback: Helpful" / "Feedback: Not helpful"
    | BriefingDownloaded(title: string)  // "Briefing downloaded", naming the briefing
    | PdfDownloaded              // "Briefing downloaded", as a PDF
    | ShareLinkCopied
}
