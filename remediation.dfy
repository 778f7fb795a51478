/** The state of the risk-analysis panel (src/components/RiskAnalysis.tsx,
    lines 344-414): which document class's findings are shown, which of them the
    reviewer has fixed and what feedback was given.

    The 2.5-second timer of the selection effect is a pending payload
    (`pendingRisks`) that `TimerFires` publishes; the 1.5-second wait inside
    `handleFix` is collapsed into the one step. */
module Remediation {
  import opened Wrappers
  import opened Catalog
  import opened Sampler

  const DefaultFixMessage: string := "The issue has been automatically resolved."

  /** `displayedRisks.find(r => r.id === riskId)`: the first member with that id. */
  function FindRisk(risks: seq<Risk>, riskId: string): (found: Option<Risk>)
    ensures found.Some? ==> found.value in risks && found.value.id == riskId
    ensures found.Some? ==>
              exists k :: 0 <= k < |risks| && risks[k] == found.value
                          && forall m :: 0 <= m < k ==> risks[m].id != riskId
    ensures found.None? <==> forall x :: x in risks ==> x.id != riskId
  {
    if risks == [] then None
    else if risks[0].id == riskId then Some(risks[0])
    else FindRisk(risks[1..], riskId)
  }

  /** The description of the "Risk Fixed" toast:
      `risk?.fix || "The issue has been automatically resolved."`; an empty fix
      text is falsy in JavaScript and also gives the default. */
  function FixMessage(displayed: seq<Risk>, riskId: string): (message: string)
    ensures message != ""
    ensures message == DefaultFixMessage
            || exists x :: x in displayed && x.id == riskId && x.fix == Some(message)
  {
    match FindRisk(displayed, riskId)
    case Some(r) => if r.fix.Some? && r.fix.value != "" then r.fix.value else DefaultFixMessage
    case None => DefaultFixMessage
  }

  /** In a list with distinct ids, looking a member up by its id finds that member. */
  lemma FindDisplayedRisk(displayed: seq<Risk>, r: Risk)
    requires DistinctIds(displayed) && r in displayed
    ensures FindRisk(displayed, r.id) == Some(r)
  {
    var found := FindRisk(displayed, r.id);
    SameIdSameRisk(displayed, found.value, r);
  }

  /** Fixing a displayed risk that has a fix text reports exactly that text. */
  lemma FixMessageOfDisplayed(displayed: seq<Risk>, r: Risk)
    requires DistinctIds(displayed) && r in displayed
    requires r.fix.Some? && r.fix.value != ""
    ensures FixMessage(displayed, r.id) == r.fix.value
  {
    FindDisplayedRisk(displayed, r);
  }

  /** Fixing an id that is not displayed, or a displayed risk without a fix text,
      reports the default message. */
  lemma FixMessageDefault(displayed: seq<Risk>, riskId: string)
    requires forall x :: x in displayed && x.id == riskId ==> x.fix.None? || x.fix.value == ""
    ensures FixMessage(displayed, riskId) == DefaultFixMessage
  {
  }

  /** What the panel may show: three risks with distinct ids, exactly one high. */
  predicate IsSelection(r: seq<Risk>) {
    |r| == 3 && DistinctIds(r) && |HighRisks(r)| == 1
  }

  /** Every sample is a selection the panel may show, drawn from its class's catalog. */
  lemma SampleIsSelection(ft: FileType, highPicks: seq<nat>, otherPicks: seq<nat>, finalPicks: seq<nat>)
    requires SamplePicks(AllRisks(ft), highPicks, otherPicks, finalPicks)
    ensures IsSelection(Sample(ft, highPicks, otherPicks, finalPicks))
    ensures forall x :: x in Sample(ft, highPicks, otherPicks, finalPicks) ==> x in AllRisks(ft)
  {
    SampleIsValid(ft, highPicks, otherPicks, finalPicks);
  }

  class RiskSession {
    var fixedRisks: seq<string>
    var feedback: map<string, bool>
    var analyzing: bool
    var displayedRisks: seq<Risk>
    /** The selection the pending `setTimeout` callback will publish, when one is pending. */
    var pendingRisks: Option<seq<Risk>>

    /** Whatever is shown, or about to be shown, is a valid selection, and a
        pending timer means the panel is still analyzing. */
    ghost predicate Valid()
      reads this
    {
      && (displayedRisks == [] || IsSelection(displayedRisks))
      && (pendingRisks.Some? ==> analyzing && IsSelection(pendingRisks.value))
    }

    /** `fixedRisks.includes(risk.id)`. */
    predicate IsFixed(riskId: string)
      reads this
    {
      riskId in fixedRisks
    }

    /** The initial `useState` values. */
    constructor ()
      ensures Valid()
      ensures fixedRisks == [] && feedback == map[] && analyzing
      ensures displayedRisks == [] && pendingRisks == None
    {
      fixedRisks := [];
      feedback := map[];
      analyzing := true;
      displayedRisks := [];
      pendingRisks := None;
    }

    /** The selection effect, run on mount and on every change of `fileType`
        (lines 351-388): reset the remediation state, draw a new selection and
        start the timer that will publish it. The cleanup of the previous run
        clears its timer, so the new payload replaces any pending one. */
    method SelectFileType(ft: FileType, highPicks: seq<nat>, otherPicks: seq<nat>, finalPicks: seq<nat>)
      requires Valid()
      requires SamplePicks(AllRisks(ft), highPicks, otherPicks, finalPicks)
      modifies this
      ensures Valid()
      ensures analyzing && fixedRisks == [] && feedback == map[]
      ensures displayedRisks == old(displayedRisks)
      ensures pendingRisks == Some(Sample(ft, highPicks, otherPicks, finalPicks))
      ensures forall x :: x in pendingRisks.value ==> x in AllRisks(ft)
    {
      analyzing := true;
      fixedRisks := [];
      feedback := map[];
      var finalRisks := SampleRisks(ft, highPicks, otherPicks, finalPicks);
      SampleIsSelection(ft, highPicks, otherPicks, finalPicks);
      pendingRisks := Some(finalRisks);
    }

    /** The timer callback (lines 382-385): publish the selection and stop analyzing.
        Without a pending timer nothing happens. */
    method TimerFires()
      requires Valid()
      modifies this
      ensures Valid()
      ensures fixedRisks == old(fixedRisks) && feedback == old(feedback)
      ensures old(pendingRisks).Some? ==>
                displayedRisks == old(pendingRisks).value && !analyzing && pendingRisks == None
      ensures old(pendingRisks).None? ==>
                displayedRisks == old(displayedRisks) && analyzing == old(analyzing) && pendingRisks == None
    {
      if pendingRisks.Some? {
        displayedRisks := pendingRisks.value;
        analyzing := false;
        pendingRisks := None;
      }
    }

    /** `handleFix` (lines 390-406): append the id to `fixedRisks` (no membership or
        duplicate check) and return the toast text, looked up among the risks
        displayed when the fix was requested. */
    method HandleFix(riskId: string) returns (message: string)
      requires Valid()
      modifies this`fixedRisks
      ensures Valid()
      ensures fixedRisks == old(fixedRisks) + [riskId]
      ensures IsFixed(riskId)
      ensures forall id :: old(IsFixed(id)) ==> IsFixed(id)
      ensures message == FixMessage(displayedRisks, riskId)
    {
      message := FixMessage(displayedRisks, riskId);
      fixedRisks := fixedRisks + [riskId];
    }

    /** `handleFeedback` (lines 408-414): record the latest verdict for the id,
        overwriting an earlier one; every other entry is unchanged. */
    method HandleFeedback(riskId: string, isPositive: bool)
      requires Valid()
      modifies this`feedback
      ensures Valid()
      ensures feedback == old(feedback)[riskId := isPositive]
      ensures riskId in feedback && feedback[riskId] == isPositive
      ensures forall id :: id != riskId ==>
                (id in feedback <==> id in old(feedback)) && (id in feedback ==> feedback[id] == old(feedback)[id])
    {
      feedback := feedback[riskId := isPositive];
    }
  }
}
