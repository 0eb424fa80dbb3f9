/** The two-step "new briefing" page: pick a company, fill in the meeting details, then
    generate. Generating writes a request row and then a briefing row to the store, runs
    the mock generator in between, and navigates to the stored briefing. The store's
    answers, the interval's random ticks, the signed-in user and the generator's
    rejection are inputs of `HandleGenerate`. */
module BriefingFormPage {
  import opened Wrappers
  import opened Text
  import opened Domain
  import opened FocusAreas
  import opened ProgressClamp
  import BriefingService
  import CompanyLookup

  datatype FormStep = CompanyStep | DetailsStep

  /** What one `insert(...).select('id').single()` yields: the new row's id, which may be
      missing, or an error. */
  datatype InsertOutcome = Inserted(id: Option<string>) | InsertFailed

  /** A row of `briefing_requests`. */
  datatype RequestRow = RequestRow(
    userId: string,
    companyId: string,
    companyName: string,
    companyLogo: Option<string>,
    meetingType: MeetingType,
    contactId: Option<string>,
    focusAreas: Option<seq<string>>,
    status: BriefingStatus)

  /** A key contact as stored in the `key_contacts` JSON column. */
  datatype ContactJson = ContactJson(
    id: string,
    name: string,
    title: string,
    company: Option<string>,
    linkedin: Option<string>,
    recentActivity: Option<seq<string>>)

  /** A row of `briefings`. */
  datatype BriefingRow = BriefingRow(
    requestId: string,
    title: string,
    summary: seq<string>,
    companyOverview: CompanyOverview,
    keyContacts: seq<ContactJson>,
    insights: seq<Insight>,
    salesHypotheses: seq<string>,
    competitorAnalysis: Option<CompetitorAnalysis>,
    talkingPoints: seq<string>,
    status: BriefingStatus)

  datatype StoreWrite = RequestInsert(request: RequestRow) | BriefingInsert(briefing: BriefingRow)

  /** The request row for the given user, company and form fields. */
  function RequestRowOf(user: User, company: Company, meetingType: MeetingType, contact: Option<string>,
                        focus: seq<string>): (r: RequestRow)
    ensures r.userId == user.id && r.companyId == company.id && r.companyName == company.name
    ensures r.companyLogo == company.logo && r.meetingType == meetingType && r.contactId == contact
    ensures r.status == Generating
    ensures r.focusAreas.None? <==> focus == []
    ensures r.focusAreas.Some? ==> r.focusAreas.value == focus
  {
    RequestRow(user.id, company.id, company.name, company.logo, meetingType, contact, AsOptional(focus), Generating)
  }

  /** One contact reshaped for the JSON column: id, name, title, company and activity
      are kept, and a falsy LinkedIn becomes null. */
  function ContactToJson(c: Contact): (j: ContactJson)
    ensures j.id == c.id && j.name == c.name && j.title == c.title && j.company == c.company
    ensures j.linkedin.None? <==> !IsTruthy(c.linkedin)
    ensures j.linkedin.Some? ==> j.linkedin == c.linkedin
    ensures j.recentActivity == c.recentActivity
  {
    ContactJson(c.id, c.name, c.title, c.company, if IsTruthy(c.linkedin) then c.linkedin else None,
                c.recentActivity)
  }

  /** `briefing.keyContacts.map(...)`: every contact in order, keeping id, name, title and
      company; a missing or empty LinkedIn becomes null and the activity list is kept as
      it is (an array is never falsy). */
  function KeyContactsJson(contacts: seq<Contact>): (r: seq<ContactJson>)
    ensures |r| == |contacts|
    ensures forall i :: 0 <= i < |r| ==> r[i].id == contacts[i].id && r[i].name == contacts[i].name
                                         && r[i].title == contacts[i].title && r[i].company == contacts[i].company
    ensures forall i :: 0 <= i < |r| ==> (r[i].linkedin.None? <==> !IsTruthy(contacts[i].linkedin))
                                         && (r[i].linkedin.Some? ==> r[i].linkedin == contacts[i].linkedin)
    ensures forall i :: 0 <= i < |r| ==> r[i].recentActivity == contacts[i].recentActivity
    decreases |contacts|
  {
    if contacts == [] then [] else [ContactToJson(contacts[0])] + KeyContactsJson(contacts[1..])
  }

  /** The reshaping works contact by contact, so it distributes over concatenation. */
  lemma {:induction false} KeyContactsJsonAppend(a: seq<Contact>, b: seq<Contact>)
    ensures KeyContactsJson(a + b) == KeyContactsJson(a) + KeyContactsJson(b)
    decreases |a|
  {
    if a == [] {
      assert a + b == b;
    } else {
      assert (a + b)[1..] == a[1..] + b;
      KeyContactsJsonAppend(a[1..], b);
    }
  }

  /** The briefing row for a generated briefing under the given request: the briefing's
      content with its contacts reshaped, stored as completed whatever the briefing's
      own status. Its id, company, meeting type and date are not stored. */
  function BriefingRowOf(requestId: string, b: Briefing): (r: BriefingRow)
    ensures r.requestId == requestId && r.title == b.title && r.summary == b.summary
    ensures r.companyOverview == b.companyOverview && r.insights == b.insights
    ensures r.salesHypotheses == b.salesHypotheses && r.competitorAnalysis == b.competitorAnalysis
    ensures r.talkingPoints == b.talkingPoints
    ensures |r.keyContacts| == |b.keyContacts|
    ensures forall i :: 0 <= i < |r.keyContacts| ==> r.keyContacts[i] == ContactToJson(b.keyContacts[i])
    ensures r.status == Completed
  {
    BriefingRow(requestId, b.title, b.summary, b.companyOverview, KeyContactsJson(b.keyContacts), b.insights,
                b.salesHypotheses, b.competitorAnalysis, b.talkingPoints, Completed)
  }

  /** Where the page goes after a success: the stored briefing, or the dashboard when the
      store returned no briefing id. */
  function NavigationTarget(briefingId: Option<string>): (r: string)
    ensures IsTruthy(briefingId) ==> r == "/briefing/" + briefingId.value
    ensures !IsTruthy(briefingId) ==> r == "/dashboard"
  {
    if IsTruthy(briefingId) then "/briefing/" + briefingId.value else "/dashboard"
  }

  /** The page opens a briefing exactly when the store returned a briefing id. */
  lemma NavigationOpensBriefingIffId(briefingId: Option<string>)
    ensures StartsWith(NavigationTarget(briefingId), "/briefing/") <==> IsTruthy(briefingId)
  {
    if !IsTruthy(briefingId) {
      assert NavigationTarget(briefingId)[1] == 'd';
    } else {
      assert NavigationTarget(briefingId)[..10] == "/briefing/";
    }
  }

  /** The submit guard: no company, a company with the empty id, or nobody signed in.
      For a signed-in user it blocks exactly while the lookup shows its search box. */
  function Blocked(company: Option<Company>, user: Option<User>): (blocked: bool)
    ensures user.None? ==> blocked
    ensures user.Some? ==> (blocked <==> CompanyLookup.ShowsSearch(company))
  {
    company.None? || company.value.id == "" || user.None?
  }

  /** Whether a generation attempt that passed the guard ends in the success branch:
      the request was stored, the generator resolved, and the briefing row was stored
      or not attempted because the request came back without an id. */
  function Succeeds(requestOutcome: InsertOutcome, generatorRejects: bool, briefingOutcome: InsertOutcome)
    : (succeeded: bool)
    ensures requestOutcome.InsertFailed? || generatorRejects ==> !succeeded
    ensures requestOutcome.Inserted? && !generatorRejects && !IsTruthy(requestOutcome.id) ==> succeeded
    ensures requestOutcome.Inserted? && !generatorRejects && IsTruthy(requestOutcome.id) ==>
              (succeeded <==> briefingOutcome.Inserted?)
  {
    requestOutcome.Inserted? && !generatorRejects
    && (!IsTruthy(requestOutcome.id) || briefingOutcome.Inserted?)
  }

  /** The briefing id the page navigates with after a success: the briefing insert's id,
      which exists only when the request came back with an id and the briefing row was
      stored. */
  function StoredBriefingId(requestOutcome: InsertOutcome, briefingOutcome: InsertOutcome): (r: Option<string>)
    ensures r.Some? ==> requestOutcome.Inserted? && IsTruthy(requestOutcome.id) && briefingOutcome.Inserted?
                        && r == briefingOutcome.id
    ensures requestOutcome.Inserted? && IsTruthy(requestOutcome.id) && briefingOutcome.Inserted? ==>
              r == briefingOutcome.id
  {
    if requestOutcome.Inserted? && IsTruthy(requestOutcome.id) && briefingOutcome.Inserted?
    then briefingOutcome.id else None
  }

  /** The rows a generation that passed the guard asks the store for: the request, then
      the briefing when the generator ran and the request came back with an id. */
  function GenerationWrites(user: User, company: Company, meetingType: MeetingType, contact: Option<string>,
                            focus: seq<string>, requestOutcome: InsertOutcome, generated: Option<Briefing>)
    : (r: seq<StoreWrite>)
    ensures 1 <= |r| <= 2 && r[0] == RequestInsert(RequestRowOf(user, company, meetingType, contact, focus))
    ensures |r| == 2 <==> generated.Some? && requestOutcome.Inserted? && IsTruthy(requestOutcome.id)
    ensures |r| == 2 ==> r[1] == BriefingInsert(BriefingRowOf(requestOutcome.id.value, generated.value))
  {
    [RequestInsert(RequestRowOf(user, company, meetingType, contact, focus))]
    + if generated.Some? && requestOutcome.Inserted? && IsTruthy(requestOutcome.id)
      then [BriefingInsert(BriefingRowOf(requestOutcome.id.value, generated.value))] else []
  }

  /** The `try` block of `handleGenerate` for a signed-in user and a company with an id:
      insert the request; on success run the generator with the picked contact and the
      focus list (undefined when empty); when the request has an id, insert the briefing
      under it. Reports what was written, the generated briefing, whether the block ran
      to its end, and the stored briefing's id. */
  method RunGeneration(user: User, company: Company, meetingType: MeetingType, contact: Option<string>,
                       focus: seq<string>, requestOutcome: InsertOutcome, generatorRejects: bool,
                       briefingOutcome: InsertOutcome, env: BriefingService.Ambient)
    returns (inserted: seq<StoreWrite>, generated: Option<Briefing>, succeeded: bool, briefingId: Option<string>)
    ensures inserted == GenerationWrites(user, company, meetingType, contact, focus, requestOutcome, generated)
    ensures generated.Some? <==> requestOutcome.Inserted? && !generatorRejects
    ensures generated.Some? ==> generated.value.company == company && generated.value.meetingType == meetingType
                                && generated.value.primaryContact == SelectedContactObject(contact)
                                && generated.value.customFocus == AsOptional(focus)
                                && generated.value.title == BriefingService.BriefingTitle(meetingType, company.name)
                                && generated.value.status == Completed
    ensures succeeded <==> Succeeds(requestOutcome, generatorRejects, briefingOutcome)
    ensures succeeded ==> briefingId == StoredBriefingId(requestOutcome, briefingOutcome)
  {
    inserted := [RequestInsert(RequestRowOf(user, company, meetingType, contact, focus))];
    generated := None;
    briefingId := None;
    if requestOutcome.InsertFailed? || generatorRejects {
      succeeded := false;
      return;
    }
    var b := BriefingService.GenerateMockBriefing(company, meetingType, SelectedContactObject(contact),
                                                  AsOptional(focus), env);
    generated := Some(b);
    succeeded := true;
    if IsTruthy(requestOutcome.id) {
      inserted := inserted + [BriefingInsert(BriefingRowOf(requestOutcome.id.value, b))];
      if briefingOutcome.InsertFailed? {
        succeeded := false;
      } else {
        briefingId := briefingOutcome.id;
      }
    }
  }

  class Page {
    var selectedCompany: Option<Company>
    var meetingType: MeetingType
    var selectedContact: Option<string>
    var focusAreas: seq<string>
    var isGenerating: bool
    var generationProgress: real
    var formStep: FormStep
    /** The rows the page has asked the store to insert, in order. */
    var writes: seq<StoreWrite>
    var notices: seq<Notice>
    var navigatedTo: Option<string>

    constructor ()
      ensures selectedCompany == None && meetingType == IntroCall && selectedContact == None
      ensures focusAreas == [] && !isGenerating && generationProgress == 0.0 && formStep == CompanyStep
      ensures writes == [] && notices == [] && navigatedTo == None
    {
      selectedCompany := None;
      meetingType := IntroCall;
      selectedContact := None;
      focusAreas := [];
      isGenerating := false;
      generationProgress := 0.0;
      formStep := CompanyStep;
      writes := [];
      notices := [];
      navigatedTo := None;
    }

    /** The meeting-details step shows only while the form is shown (not generating), on
        the details step, and with a selected company that has an id, i.e. while the
        lookup shows a selection. */
    function ShowsDetails(): (shows: bool)
      reads this
      ensures shows <==> !isGenerating && formStep == DetailsStep && !CompanyLookup.ShowsSearch(selectedCompany)
    {
      !isGenerating && formStep == DetailsStep && selectedCompany.Some? && selectedCompany.value.id != ""
    }

    /** `handleCompanySelect`: the company is always stored; the step moves to the
        details only for a company with an id. */
    method HandleCompanySelect(company: Company)
      modifies this
      ensures selectedCompany == Some(company)
      ensures company.id != "" ==> formStep == DetailsStep
      ensures company.id == "" ==> formStep == old(formStep)
      ensures ShowsDetails() <==> company.id != "" && !isGenerating
      ensures meetingType == old(meetingType) && selectedContact == old(selectedContact)
      ensures focusAreas == old(focusAreas) && isGenerating == old(isGenerating)
      ensures generationProgress == old(generationProgress) && writes == old(writes)
      ensures notices == old(notices) && navigatedTo == old(navigatedTo)
    {
      selectedCompany := Some(company);
      if company.id != "" {
        formStep := DetailsStep;
      }
    }

    /** `handleFocusChange(checked, value)`. */
    method HandleFocusChange(checked: bool, value: string)
      modifies this
      ensures focusAreas == Toggled(old(focusAreas), checked, value)
      ensures selectedCompany == old(selectedCompany) && meetingType == old(meetingType)
      ensures selectedContact == old(selectedContact) && formStep == old(formStep)
      ensures isGenerating == old(isGenerating) && generationProgress == old(generationProgress)
      ensures writes == old(writes) && notices == old(notices) && navigatedTo == old(navigatedTo)
    {
      if checked {
        focusAreas := focusAreas + [value];
      } else {
        focusAreas := Without(focusAreas, value);
      }
    }

    /** `handleGenerate()`. The interval fires once per element of `ticks` before the
        handler settles; `requestOutcome` and `briefingOutcome` are the store's answers to
        the two inserts; `generatorRejects` says whether the generator's promise rejects.
        Returns the generated briefing, if the generator ran. */
    method HandleGenerate(user: Option<User>, ticks: seq<real>, requestOutcome: InsertOutcome,
                          generatorRejects: bool, briefingOutcome: InsertOutcome, env: BriefingService.Ambient)
      returns (generated: Option<Briefing>)
      requires forall k :: 0 <= k < |ticks| ==> 0.0 <= ticks[k] < 15.0
      modifies this
      ensures selectedCompany == old(selectedCompany) && meetingType == old(meetingType)
      ensures selectedContact == old(selectedContact) && focusAreas == old(focusAreas) && formStep == old(formStep)
      // the guard: a notice and nothing else
      ensures Blocked(old(selectedCompany), user) ==>
                notices == old(notices) + [CompanyRequired] && generated.None?
                && isGenerating == old(isGenerating) && generationProgress == old(generationProgress)
                && writes == old(writes) && navigatedTo == old(navigatedTo)
      // past the guard: the request row, then the briefing row when there is one
      ensures !Blocked(old(selectedCompany), user) ==>
                writes == old(writes) + GenerationWrites(user.value, old(selectedCompany).value, old(meetingType),
                                                         old(selectedContact), old(focusAreas), requestOutcome, generated)
                && (generated.Some? <==> requestOutcome.Inserted? && !generatorRejects)
                && (generated.Some? ==> generated.value.company == old(selectedCompany).value
                                        && generated.value.primaryContact == SelectedContactObject(old(selectedContact))
                                        && generated.value.customFocus == AsOptional(old(focusAreas)))
      // success: 100%, still generating, a notice, and navigation
      ensures !Blocked(old(selectedCompany), user) && Succeeds(requestOutcome, generatorRejects, briefingOutcome) ==>
                isGenerating && generationProgress == 100.0
                && notices == old(notices) + [BriefingGenerated]
                && navigatedTo == Some(NavigationTarget(StoredBriefingId(requestOutcome, briefingOutcome)))
      // failure: the bar keeps its last clamped value and the form comes back
      ensures !Blocked(old(selectedCompany), user) && !Succeeds(requestOutcome, generatorRejects, briefingOutcome) ==>
                !isGenerating && generationProgress == AfterTicks(old(generationProgress), ticks)
                && notices == old(notices) + [GenerationFailed] && navigatedTo == old(navigatedTo)
    {
      generated := None;
      if selectedCompany.None? || selectedCompany.value.id == "" || user.None? {
        notices := notices + [CompanyRequired];
        return;
      }
      generated := GenerateAfterGuard(user.value, ticks, requestOutcome, generatorRejects, briefingOutcome, env);
    }

    /** The part of `handleGenerate` after its guard, for a signed-in user and a selected
        company with an id. */
    method GenerateAfterGuard(user: User, ticks: seq<real>, requestOutcome: InsertOutcome,
                              generatorRejects: bool, briefingOutcome: InsertOutcome, env: BriefingService.Ambient)
      returns (generated: Option<Briefing>)
      requires forall k :: 0 <= k < |ticks| ==> 0.0 <= ticks[k] < 15.0
      requires selectedCompany.Some? && selectedCompany.value.id != ""
      modifies this
      ensures selectedCompany == old(selectedCompany) && meetingType == old(meetingType)
      ensures selectedContact == old(selectedContact) && focusAreas == old(focusAreas) && formStep == old(formStep)
      ensures writes == old(writes) + GenerationWrites(user, selectedCompany.value, meetingType,
                                                       selectedContact, focusAreas, requestOutcome, generated)
      ensures generated.Some? <==> requestOutcome.Inserted? && !generatorRejects
      ensures generated.Some? ==> generated.value.company == selectedCompany.value
                                  && generated.value.primaryContact == SelectedContactObject(selectedContact)
                                  && generated.value.customFocus == AsOptional(focusAreas)
      ensures Succeeds(requestOutcome, generatorRejects, briefingOutcome) ==>
                isGenerating && generationProgress == 100.0
                && notices == old(notices) + [BriefingGenerated]
                && navigatedTo == Some(NavigationTarget(StoredBriefingId(requestOutcome, briefingOutcome)))
      ensures !Succeeds(requestOutcome, generatorRejects, briefingOutcome) ==>
                !isGenerating && generationProgress == AfterTicks(old(generationProgress), ticks)
                && notices == old(notices) + [GenerationFailed] && navigatedTo == old(navigatedTo)
    {
      // The interval and the awaited calls touch no field of the page, so they are run
      // first and the page's fields are then set from their results.
      var progress := RunTicks(generationProgress, ticks);
      var inserted, succeeded, briefingId;
      inserted, generated, succeeded, briefingId :=
        RunGeneration(user, selectedCompany.value, meetingType, selectedContact, focusAreas,
                      requestOutcome, generatorRejects, briefingOutcome, env);
      writes := writes + inserted;
      if succeeded {
        isGenerating := true;
        generationProgress := 100.0;
        notices := notices + [BriefingGenerated];
        navigatedTo := Some(NavigationTarget(briefingId));
      } else {
        isGenerating := false;
        generationProgress := progress;
        notices := notices + [GenerationFailed];
      }
    }
  }
}
