/** The older single-page briefing form: no store and no signed-in user. It runs the
    mock generator and always navigates to the briefing with id "1". While generating it
    shows its own stage message under the progress bar. */
module BriefingForm {
  import opened Wrappers
  import opened Text
  import opened Domain
  import opened FocusAreas
  import opened ProgressClamp
  import GenerationProgress
  import BriefingService
  import CompanyLookup

  /** The form's own message under the progress bar. It uses the same thresholds and
      texts as the progress panel of the two-step page. */
  function StatusMessage(progress: real): (r: string)
    ensures r == GenerationProgress.ProgressMessage(progress)
  {
    if progress < 30.0 then "Gathering company information..."
    else if progress < 60.0 then "Analyzing recent news and trends..."
    else if progress < 85.0 then "Identifying key contacts and insights..."
    else "Finalizing your briefing..."
  }

  /** The Generate button's enablement, `!(!selectedCompany || !selectedCompany.id)`: it
      is enabled exactly when the lookup widget shows a selected company. */
  function GenerateEnabled(company: Option<Company>): (enabled: bool)
    ensures enabled <==> company.Some? && IsTruthy(Some(company.value.id))
    ensures enabled <==> !CompanyLookup.ShowsSearch(company)
  {
    company.Some? && company.value.id != ""
  }

  class Form {
    var selectedCompany: Option<Company>
    var meetingType: MeetingType
    var selectedContact: Option<string>
    var focusAreas: seq<string>
    var isGenerating: bool
    var generationProgress: real
    var notices: seq<Notice>
    var navigatedTo: Option<string>

    constructor ()
      ensures selectedCompany == None && meetingType == IntroCall && selectedContact == None
      ensures focusAreas == [] && !isGenerating && generationProgress == 0.0
      ensures notices == [] && navigatedTo == None
    {
      selectedCompany := None;
      meetingType := IntroCall;
      selectedContact := None;
      focusAreas := [];
      isGenerating := false;
      generationProgress := 0.0;
      notices := [];
      navigatedTo := None;
    }

    /** What the form area shows: the progress message while generating, else nothing. */
    function ProgressText(): (r: Option<string>)
      reads this
      ensures r.Some? <==> isGenerating
      ensures r.Some? ==> r.value == GenerationProgress.ProgressMessage(generationProgress)
      ensures r.Some? ==> r.value in GenerationProgress.Messages
    {
      if isGenerating then Some(StatusMessage(generationProgress)) else None
    }

    /** `handleCompanySelect`: stores the company whatever its id. */
    method HandleCompanySelect(company: Company)
      modifies this
      ensures selectedCompany == Some(company)
      ensures GenerateEnabled(selectedCompany) <==> company.id != ""
      ensures meetingType == old(meetingType) && selectedContact == old(selectedContact)
      ensures focusAreas == old(focusAreas) && isGenerating == old(isGenerating)
      ensures generationProgress == old(generationProgress) && notices == old(notices)
      ensures navigatedTo == old(navigatedTo)
    {
      selectedCompany := Some(company);
    }

    /** `handleFocusChange(checked, value)`, the same as on the two-step page. */
    method HandleFocusChange(checked: bool, value: string)
      modifies this
      ensures focusAreas == Toggled(old(focusAreas), checked, value)
      ensures selectedCompany == old(selectedCompany) && meetingType == old(meetingType)
      ensures selectedContact == old(selectedContact) && isGenerating == old(isGenerating)
      ensures generationProgress == old(generationProgress) && notices == old(notices)
      ensures navigatedTo == old(navigatedTo)
    {
      if checked {
        focusAreas := focusAreas + [value];
      } else {
        focusAreas := Without(focusAreas, value);
      }
    }

    /** `handleGenerate()`. The interval fires once per element of `ticks` before the
        generator settles; `generatorRejects` says whether its promise rejects. Returns
        the generated briefing, which the form then ignores. */
    method HandleGenerate(ticks: seq<real>, generatorRejects: bool, env: BriefingService.Ambient)
      returns (generated: Option<Briefing>)
      requires forall k :: 0 <= k < |ticks| ==> 0.0 <= ticks[k] < 15.0
      modifies this
      ensures selectedCompany == old(selectedCompany) && meetingType == old(meetingType)
      ensures selectedContact == old(selectedContact) && focusAreas == old(focusAreas)
      // the guard is exactly the disabled button's condition
      ensures !GenerateEnabled(old(selectedCompany)) ==>
                notices == old(notices) + [CompanyRequired] && generated.None?
                && isGenerating == old(isGenerating) && generationProgress == old(generationProgress)
                && navigatedTo == old(navigatedTo)
      ensures GenerateEnabled(old(selectedCompany)) && !generatorRejects ==>
                generated.Some?
                && generated.value.company == old(selectedCompany).value
                && generated.value.meetingType == old(meetingType)
                && generated.value.primaryContact == SelectedContactObject(old(selectedContact))
                && generated.value.customFocus == AsOptional(old(focusAreas))
                && isGenerating && generationProgress == 100.0
                && notices == old(notices) + [BriefingGenerated]
                && navigatedTo == Some("/briefing/1")
      ensures GenerateEnabled(old(selectedCompany)) && generatorRejects ==>
                generated.None? && !isGenerating
                && generationProgress == AfterTicks(old(generationProgress), ticks)
                && notices == old(notices) + [GenerationFailed] && navigatedTo == old(navigatedTo)
    {
      generated := None;
      if selectedCompany.None? || selectedCompany.value.id == "" {
        notices := notices + [CompanyRequired];
        return;
      }
      isGenerating := true;
      var progress := RunTicks(generationProgress, ticks);
      if generatorRejects {
        generationProgress := progress;
        notices := notices + [GenerationFailed];
        isGenerating := false;
      } else {
        var b := BriefingService.GenerateMockBriefing(selectedCompany.value, meetingType,
                                                      SelectedContactObject(selectedContact),
                                                      AsOptional(focusAreas), env);
        generated := Some(b);
        generationProgress := 100.0;
        notices := notices + [BriefingGenerated];
        navigatedTo := Some("/briefing/1");
      }
    }
  }
}
