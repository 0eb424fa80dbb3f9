/** A briefing's card on the dashboard: the status badge, which actions are enabled, and
    the helpful / not-helpful feedback it remembers. */
module BriefingCard {
  import opened Wrappers
  import opened Domain

  datatype BadgeVariant = DefaultVariant | OutlineVariant | DestructiveVariant

  /** The badge text: "Complete" for a completed briefing, "Generating" for one in
      progress, and "Failed" for any other status. */
  function BadgeLabel(status: BriefingStatus): (r: string)
    ensures r == "Complete" <==> status == Completed
    ensures r == "Generating" <==> status == Generating
    ensures status != Completed && status != Generating ==> r == "Failed"
  {
    match status
    case Completed => "Complete"
    case Generating => "Generating"
    case Failed => "Failed"
  }

  /** The badge style, chosen by the same tests as the text: default for completed,
      outline for generating, destructive otherwise. */
  function BadgeVariantOf(status: BriefingStatus): (v: BadgeVariant)
    ensures v == DefaultVariant <==> BadgeLabel(status) == "Complete"
    ensures v == OutlineVariant <==> BadgeLabel(status) == "Generating"
    ensures v == DestructiveVariant <==> BadgeLabel(status) == "Failed"
  {
    match status
    case Completed => DefaultVariant
    case Generating => OutlineVariant
    case Failed => DestructiveVariant
  }

  /** The badge (label and variant) tells every status apart, and the two halves agree:
      the variant can be read off the label. */
  lemma BadgeIdentifiesStatus(a: BriefingStatus, b: BriefingStatus)
    ensures BadgeLabel(a) == BadgeLabel(b) <==> a == b
    ensures BadgeVariantOf(a) == BadgeVariantOf(b) <==> a == b
  {
  }

  /** Share, Download and View are disabled unless the briefing is completed, that is,
      exactly unless the badge reads "Complete". */
  function ActionsEnabled(status: BriefingStatus): (enabled: bool)
    ensures enabled <==> BadgeLabel(status) == "Complete"
    ensures enabled <==> BadgeVariantOf(status) == DefaultVariant
  {
    status == Completed
  }

  class Card {
    const title: string
    const status: BriefingStatus
    var feedback: Option<Feedback>
    var notices: seq<Notice>

    constructor (title: string, status: BriefingStatus)
      ensures this.title == title && this.status == status
      ensures feedback == None && notices == []
    {
      this.title := title;
      this.status := status;
      feedback := None;
      notices := [];
    }

    /** `handleFeedback(kind)`: the last click wins. */
    method HandleFeedback(kind: Feedback)
      modifies this
      ensures feedback == Some(kind)
      ensures notices == old(notices) + [FeedbackThanks(kind)]
    {
      feedback := Some(kind);
      notices := notices + [FeedbackThanks(kind)];
    }

    /** `handleDownload`: only a notice naming the briefing. */
    method HandleDownload()
      requires ActionsEnabled(status)
      modifies this
      ensures notices == old(notices) + [BriefingDownloaded(title)]
      ensures feedback == old(feedback)
    {
      notices := notices + [BriefingDownloaded(title)];
    }

    /** `handleShare`: only a notice. */
    method HandleShare()
      requires ActionsEnabled(status)
      modifies this
      ensures notices == old(notices) + [ShareLinkCopied]
      ensures feedback == old(feedback)
    {
      notices := notices + [ShareLinkCopied];
    }
  }
}
