/** The stage message shown under the progress bar while a briefing is generated. */
module GenerationProgress {

  /** How many of the thresholds 30, 60 and 85 the progress has reached: the branch of
      `getProgressMessage` that answers. */
  function Stage(progress: real): (k: nat)
    ensures k < 4
    ensures k == (if progress >= 30.0 then 1 else 0) + (if progress >= 60.0 then 1 else 0)
                 + (if progress >= 85.0 then 1 else 0)
  {
    if progress < 30.0 then 0
    else if progress < 60.0 then 1
    else if progress < 85.0 then 2
    else 3
  }

  const Messages: seq<string> := [
    "Gathering company information...",
    "Analyzing recent news and trends...",
    "Identifying key contacts and insights...",
    "Finalizing your briefing..."
  ]

  /** `getProgressMessage()` for the given progress. */
  function ProgressMessage(progress: real): (r: string)
    ensures r in Messages
    ensures progress < 30.0 ==> r == "Gathering company information..."
    ensures 30.0 <= progress < 60.0 ==> r == "Analyzing recent news and trends..."
    ensures 60.0 <= progress < 85.0 ==> r == "Identifying key contacts and insights..."
    ensures 85.0 <= progress ==> r == "Finalizing your briefing..."
  {
    Messages[Stage(progress)]
  }

  /** A boundary value belongs to the later stage. */
  lemma BoundariesBelongToLaterStage()
    ensures Stage(30.0) == 1 && Stage(60.0) == 2 && Stage(85.0) == 3
    ensures ProgressMessage(30.0) == Messages[1]
    ensures ProgressMessage(60.0) == Messages[2]
    ensures ProgressMessage(85.0) == Messages[3]
  {
  }

  /** More progress never shows an earlier stage. */
  lemma StageMonotone(p: real, q: real)
    requires p <= q
    ensures Stage(p) <= Stage(q)
  {
  }

  /** Each progress value shows exactly one message: the four are pairwise distinct, so
      the message determines the stage. */
  lemma MessageDeterminesStage(p: real, q: real)
    ensures ProgressMessage(p) == ProgressMessage(q) <==> Stage(p) == Stage(q)
  {
  }
}
