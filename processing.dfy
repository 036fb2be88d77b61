/**
 * The simulated processing on page 2: each idea of the ranking passes
 * through five timed stages, is then appended to the processed ideas and
 * selected, until the chosen number of ideas is done.
 *
 * `Advance` is one call of `process_ideas_dynamically` as a function of
 * the state and a clock reading; `DemoSession` holds the session fields
 * the pages update, and its `Step` is proved to perform `Advance`.
 */
module Processing {
  import opened Wrappers
  import opened JsonValues
  import opened Catalog
  import opened Ideas

  /** Seconds each stage takes: reading, implementing, training, evaluating, finalizing. */
  const StageDurations: seq<real> := [3.0, 4.0, 5.0, 3.0, 2.0]

  const MaxShown: nat := 25
  const DefaultShown: nat := 5

  /** The slider's upper bound, `min(25, total_available)`. */
  function MaxIdeas(total: nat): (m: nat)
    ensures m <= MaxShown && m <= total
    ensures m == MaxShown || m == total
  {
    if total < MaxShown then total else MaxShown
  }

  /** The slider's first value, `min(5, max_ideas)`. */
  function DefaultIdeaCount(total: nat): (c: nat)
    ensures c <= DefaultShown && c <= MaxIdeas(total)
    ensures c == DefaultShown || c == MaxIdeas(total)
    ensures total >= 1 ==> c >= 1
  {
    if MaxIdeas(total) < DefaultShown then MaxIdeas(total) else DefaultShown
  }

  /** The session fields the processing step reads and writes. */
  datatype ProcState = ProcState(
    processing: bool,
    processed: seq<ProcessedIdea>,
    selected: Option<ProcessedIdea>,
    stage: nat,
    stageStart: real)

  /** More ideas are wanted and the ranking still has one. */
  predicate Pending(s: ProcState, allResults: seq<IdeaResult>, count: nat) {
    |s.processed| < count && |s.processed| < |allResults|
  }

  /** One call of the processing step at clock reading `now`. */
  function Advance(s: ProcState, now: real, allResults: seq<IdeaResult>, ideas: seq<Json>, count: nat): ProcState
    requires AllObjects(ideas)
    requires Pending(s, allResults, count) ==> s.stage < |StageDurations|
  {
    if !Pending(s, allResults, count) || now - s.stageStart < StageDurations[s.stage] then s
    else if s.stage + 1 < |StageDurations| then s.(stage := s.stage + 1, stageStart := now)
    else
      var idea := ProcessedFor(allResults[|s.processed|], ideas);
      var processed := s.processed + [idea];
      if |processed| >= count then
        s.(processing := false, processed := processed, selected := Some(idea), stage := s.stage + 1, stageStart := now)
      else
        s.(processed := processed, selected := Some(idea), stage := 0, stageStart := now)
  }

  /** The processed ideas are the first records of the ranking, each with its idea data. */
  predicate IsRankingPrefix(processed: seq<ProcessedIdea>, allResults: seq<IdeaResult>, ideas: seq<Json>)
    requires AllObjects(ideas)
  {
    |processed| <= |allResults| && forall i :: 0 <= i < |processed| ==> processed[i] == ProcessedFor(allResults[i], ideas)
  }

  /** What holds of the processing fields on every page. */
  predicate Consistent(s: ProcState, allResults: seq<IdeaResult>, ideas: seq<Json>)
    requires AllObjects(ideas)
  {
    && IsRankingPrefix(s.processed, allResults, ideas)
    && s.stage <= |StageDurations|
    && (s.processing ==> s.stage < |StageDurations|)
    && (s.selected.Some? ==> s.selected.value in s.processed)
  }

  /** What holds while the processing page is shown for `count` ideas. */
  predicate Bounded(s: ProcState, count: nat) {
    |s.processed| <= count && (s.processing ==> |s.processed| < count)
  }

  /** A step keeps the processed ideas a prefix of the ranking and their number within the chosen count. */
  lemma AdvanceKeepsInvariant(s: ProcState, now: real, allResults: seq<IdeaResult>, ideas: seq<Json>, count: nat)
    requires AllObjects(ideas)
    requires Consistent(s, allResults, ideas) && s.processing
    ensures Consistent(Advance(s, now, allResults, ideas, count), allResults, ideas)
    ensures Bounded(s, count) ==> Bounded(Advance(s, now, allResults, ideas, count), count)
  {
    var t := Advance(s, now, allResults, ideas, count);
    if t.processed != s.processed {
      var k := |s.processed|;
      assert t.processed == s.processed + [ProcessedFor(allResults[k], ideas)];
      assert t.selected == Some(t.processed[k]);
    }
  }

  /**
   * A step does nothing unless an idea is pending and the current stage's
   * time is up. Otherwise it moves on exactly one stage; passing the last
   * stage appends the next record of the ranking, selects it, and either
   * finishes (once `count` ideas are done) or starts the next idea at
   * stage 0. A step that changes anything restarts the stage clock.
   */
  lemma AdvanceSteps(s: ProcState, now: real, allResults: seq<IdeaResult>, ideas: seq<Json>, count: nat)
    requires AllObjects(ideas)
    requires Consistent(s, allResults, ideas) && s.processing
    ensures var t := Advance(s, now, allResults, ideas, count);
      var due := Pending(s, allResults, count) && now - s.stageStart >= StageDurations[s.stage];
      var k := |s.processed|;
      && (!due <==> t == s)
      && (due ==> t.stageStart == now)
      && (t.processed == s.processed || (due && k < |allResults| && t.processed == s.processed + [ProcessedFor(allResults[k], ideas)]))
      && (t.processed == s.processed ==> t.selected == s.selected && t.processing && (t.stage == s.stage || t.stage == s.stage + 1))
      && (due && t.processed == s.processed ==> t.stage == s.stage + 1)
      && (t.processed != s.processed ==>
            && s.stage + 1 == |StageDurations|
            && t.selected == Some(t.processed[k])
            && (t.processing <==> k + 1 < count)
            && (t.processing ==> t.stage == 0)
            && (!t.processing ==> t.stage == |StageDurations|))
  {
    var t := Advance(s, now, allResults, ideas, count);
    var due := Pending(s, allResults, count) && now - s.stageStart >= StageDurations[s.stage];
    if due {
      assert t.stage != s.stage;
    }
  }

  /** The number of due steps left: five per idea still to do, less the stages already passed. */
  function Remaining(s: ProcState, count: nat): int {
    if s.processing then (count - |s.processed|) * |StageDurations| - s.stage else 0
  }

  /** Every due step brings completion exactly one step closer; no other step changes anything. */
  lemma AdvanceProgress(s: ProcState, now: real, allResults: seq<IdeaResult>, ideas: seq<Json>, count: nat)
    requires AllObjects(ideas)
    requires Consistent(s, allResults, ideas) && Bounded(s, count) && s.processing
    requires count <= |allResults|
    ensures Remaining(s, count) >= 1
    ensures Remaining(Advance(s, now, allResults, ideas, count), count)
      == if now - s.stageStart >= StageDurations[s.stage] then Remaining(s, count) - 1 else Remaining(s, count)
  {
    AdvanceSteps(s, now, allResults, ideas, count);
  }

  /** Each clock reading comes at least five seconds (the longest stage) after the one before. */
  predicate LateReadings(start: real, nows: seq<real>)
    decreases |nows|
  {
    nows == [] || (nows[0] - start >= 5.0 && LateReadings(nows[0], nows[1..]))
  }

  /** The page reruns at the clock readings `nows`, stepping while processing lasts. */
  function Run(s: ProcState, nows: seq<real>, allResults: seq<IdeaResult>, ideas: seq<Json>, count: nat): ProcState
    requires AllObjects(ideas)
    requires Consistent(s, allResults, ideas)
    decreases |nows|
  {
    if nows == [] || !s.processing then s
    else
      AdvanceKeepsInvariant(s, nows[0], allResults, ideas, count);
      Run(Advance(s, nows[0], allResults, ideas, count), nows[1..], allResults, ideas, count)
  }

  /**
   * With readings far enough apart, processing ends after `Remaining` reruns
   * holding exactly the first `count` records of the ranking.
   */
  lemma {:induction false} RunCompletes(s: ProcState, nows: seq<real>, allResults: seq<IdeaResult>, ideas: seq<Json>, count: nat)
    requires AllObjects(ideas)
    requires Consistent(s, allResults, ideas) && Bounded(s, count) && s.processing
    requires count <= |allResults|
    requires LateReadings(s.stageStart, nows) && |nows| >= Remaining(s, count)
    ensures var r := Run(s, nows, allResults, ideas, count);
      && !r.processing
      && |r.processed| == count
      && forall i :: 0 <= i < count ==> r.processed[i] == ProcessedFor(allResults[i], ideas)
    decreases |nows|
  {
    var t := Advance(s, nows[0], allResults, ideas, count);
    assert StageDurations[s.stage] <= 5.0;
    AdvanceKeepsInvariant(s, nows[0], allResults, ideas, count);
    AdvanceSteps(s, nows[0], allResults, ideas, count);
    AdvanceProgress(s, nows[0], allResults, ideas, count);
    assert Run(s, nows, allResults, ideas, count) == Run(t, nows[1..], allResults, ideas, count);
    if t.processing {
      RunCompletes(t, nows[1..], allResults, ideas, count);
    } else {
      assert nows[1..] == [] || !t.processing;
    }
  }

  /** The reset of the start and run-again buttons. */
  function Fresh(now: real): (s: ProcState)
    ensures s.processing && s.processed == [] && s.selected == None && s.stage == 0 && s.stageStart == now
  {
    ProcState(true, [], None, 0, now)
  }

  /** A reset starts a run that completes, for any count the slider allows. */
  lemma FreshRunCompletes(now: real, nows: seq<real>, allResults: seq<IdeaResult>, ideas: seq<Json>, count: nat)
    requires AllObjects(ideas)
    requires 1 <= count <= MaxIdeas(|allResults|)
    requires LateReadings(now, nows) && |nows| >= count * |StageDurations|
    ensures var r := Run(Fresh(now), nows, allResults, ideas, count);
      !r.processing && r.processed == seq(count, i requires 0 <= i < count && i < |allResults| => ProcessedFor(allResults[i], ideas))
  {
    RunCompletes(Fresh(now), nows, allResults, ideas, count);
  }

  /**
   * The control whose click started a rerun of the deployment page. A
   * Streamlit button reads true only in the rerun its own click starts.
   */
  datatype DeploymentClick = NoClick | BackToResultsClick | DeployModelClick | ReturnHomeClick

  /**
   * The page after a rerun of the deployment page, as written: the home
   * button is created only inside the branch of the deploy-model button,
   * so it is read only in a rerun started by the deploy-model button.
   */
  function DeploymentPageAsWritten(click: DeploymentClick): (page: int)
    ensures page == 2 <==> click == BackToResultsClick
  {
    if click == BackToResultsClick then 2
    else if click == DeployModelClick then
      if click == ReturnHomeClick then 1 else 3
    else 3
  }

  /** As written, no rerun leads from the deployment page back home: a click on the home button leaves page 3. */
  lemma HomeUnreachableAsWritten(click: DeploymentClick)
    ensures DeploymentPageAsWritten(click) != 1
    ensures DeploymentPageAsWritten(ReturnHomeClick) == 3
  {
  }

  /** The page after a rerun of the deployment page, with the home button doing what it says. */
  function DeploymentPage(click: DeploymentClick): (page: int)
    ensures 1 <= page <= 3
    ensures page == 1 <==> click == ReturnHomeClick
    ensures page == 2 <==> click == BackToResultsClick
  {
    match click
    case BackToResultsClick => 2
    case ReturnHomeClick => 1
    case _ => 3
  }

  /** The correction changes the outcome of the home button's click and of no other. */
  lemma DeploymentPageCorrection(click: DeploymentClick)
    ensures DeploymentPage(click) != DeploymentPageAsWritten(click) <==> click == ReturnHomeClick
  {
  }

  /** The session fields of the demo's pages. */
  class DemoSession {
    const allResults: seq<IdeaResult>
    const ideasData: seq<Json>
    var processing: bool
    var processedIdeas: seq<ProcessedIdea>
    var selectedIdea: Option<ProcessedIdea>
    var currentStage: nat
    var stageStartTime: real
    /** 0 until the slider is first shown, since the slider never gives 0. */
    var selectedIdeaCount: nat
    var currentPage: nat
    var selectedDeploymentIdea: Option<ProcessedIdea>

    function State(): ProcState
      reads this
    {
      ProcState(processing, processedIdeas, selectedIdea, currentStage, stageStartTime)
    }

    ghost predicate Valid()
      reads this
    {
      && AllObjects(ideasData)
      && Consistent(State(), allResults, ideasData)
      && selectedIdeaCount <= MaxIdeas(|allResults|)
      && 1 <= currentPage <= 3
      && (currentPage != 1 ==> 1 <= selectedIdeaCount && Bounded(State(), selectedIdeaCount))
    }

    /** The session as `main` initializes it, with the ranking and ideas already loaded. */
    constructor(results: seq<IdeaResult>, ideas: seq<Json>)
      requires AllObjects(ideas)
      ensures Valid()
      ensures allResults == results && ideasData == ideas
      ensures !processing && processedIdeas == [] && selectedIdea == None
      ensures selectedIdeaCount == 0 && currentPage == 1 && selectedDeploymentIdea == None
    {
      allResults := results;
      ideasData := ideas;
      processing := false;
      processedIdeas := [];
      selectedIdea := None;
      currentStage := 0;
      stageStartTime := 0.0;
      selectedIdeaCount := 0;
      currentPage := 1;
      selectedDeploymentIdea := None;
    }

    /** The slider on the setup page: `pick` is the user's choice, `None` when the slider is left alone. */
    method ChooseIdeaCount(pick: Option<nat>)
      requires Valid() && currentPage == 1 && |allResults| >= 1
      requires pick.Some? ==> 1 <= pick.value <= MaxIdeas(|allResults|)
      modifies this
      ensures Valid()
      ensures selectedIdeaCount ==
        if pick.Some? then pick.value
        else if old(selectedIdeaCount) == 0 then DefaultIdeaCount(|allResults|)
        else old(selectedIdeaCount)
      ensures 1 <= selectedIdeaCount <= MaxIdeas(|allResults|)
      ensures State() == old(State()) && currentPage == 1 && selectedDeploymentIdea == old(selectedDeploymentIdea)
    {
      if selectedIdeaCount == 0 {
        selectedIdeaCount := DefaultIdeaCount(|allResults|);
      }
      if pick.Some? {
        selectedIdeaCount := pick.value;
      }
    }

    /** The start button: a fresh run, and on to the processing page. */
    method Start(now: real)
      requires Valid() && currentPage == 1 && selectedIdeaCount >= 1
      modifies this
      ensures Valid()
      ensures State() == Fresh(now) && currentPage == 2
      ensures selectedIdeaCount == old(selectedIdeaCount) && selectedDeploymentIdea == old(selectedDeploymentIdea)
    {
      processing := true;
      processedIdeas := [];
      selectedIdea := None;
      currentStage := 0;
      stageStartTime := now;
      currentPage := 2;
    }

    /** The back button of the processing page; processing pauses while the page is not shown. */
    method BackToSetup()
      requires Valid() && currentPage == 2
      modifies this
      ensures Valid()
      ensures currentPage == 1 && State() == old(State())
      ensures selectedIdeaCount == old(selectedIdeaCount) && selectedDeploymentIdea == old(selectedDeploymentIdea)
    {
      currentPage := 1;
    }

    /** The run-again button, shown once processing is over. */
    method RunAgain(now: real)
      requires Valid() && currentPage == 2 && !processing
      modifies this
      ensures Valid()
      ensures State() == Fresh(now) && currentPage == 2
      ensures selectedIdeaCount == old(selectedIdeaCount) && selectedDeploymentIdea == old(selectedDeploymentIdea)
    {
      processing := true;
      processedIdeas := [];
      selectedIdea := None;
      currentStage := 0;
      stageStartTime := now;
    }

    /** A click on a processed idea in the middle panel. */
    method SelectIdea(idea: ProcessedIdea)
      requires Valid() && currentPage == 2 && idea in processedIdeas
      modifies this
      ensures Valid()
      ensures selectedIdea == Some(idea)
      ensures processing == old(processing) && processedIdeas == old(processedIdeas)
      ensures currentStage == old(currentStage) && stageStartTime == old(stageStartTime)
      ensures currentPage == 2 && selectedIdeaCount == old(selectedIdeaCount) && selectedDeploymentIdea == old(selectedDeploymentIdea)
    {
      selectedIdea := Some(idea);
    }

    /** The deploy button beside the selected idea: on to the deployment page with that idea. */
    method Deploy()
      requires Valid() && currentPage == 2 && selectedIdea.Some?
      modifies this
      ensures Valid()
      ensures selectedDeploymentIdea == selectedIdea && currentPage == 3
      ensures State() == old(State()) && selectedIdeaCount == old(selectedIdeaCount)
    {
      selectedDeploymentIdea := selectedIdea;
      currentPage := 3;
    }

    /** The back button of the deployment page. */
    method BackToResults()
      requires Valid() && currentPage == 3
      modifies this
      ensures Valid()
      ensures currentPage == DeploymentPage(BackToResultsClick) == 2 && State() == old(State())
      ensures selectedIdeaCount == old(selectedIdeaCount) && selectedDeploymentIdea == old(selectedDeploymentIdea)
    {
      currentPage := 2;
    }

    /**
     * The home button shown after a deployment, as evidently intended
     * (`DeploymentPage`); as written the click is lost (`DeploymentPageAsWritten`).
     */
    method ReturnHome()
      requires Valid() && currentPage == 3
      modifies this
      ensures Valid()
      ensures currentPage == DeploymentPage(ReturnHomeClick) == 1 && State() == old(State())
      ensures selectedIdeaCount == old(selectedIdeaCount) && selectedDeploymentIdea == old(selectedDeploymentIdea)
    {
      currentPage := 1;
    }

    /** `process_ideas_dynamically`, run by the processing page while processing lasts. */
    method Step(now: real)
      requires Valid() && currentPage == 2 && processing
      modifies this
      ensures Valid()
      ensures State() == Advance(old(State()), now, allResults, ideasData, selectedIdeaCount)
      ensures currentPage == 2 && selectedIdeaCount == old(selectedIdeaCount) && selectedDeploymentIdea == old(selectedDeploymentIdea)
    {
      ghost var before := State();
      AdvanceKeepsInvariant(before, now, allResults, ideasData, selectedIdeaCount);
      var processedCount := |processedIdeas|;
      var totalCount := selectedIdeaCount;
      if processedCount < totalCount && processedCount < |allResults| {
        var elapsed := now - stageStartTime;
        if elapsed >= StageDurations[currentStage] {
          currentStage := currentStage + 1;
          stageStartTime := now;
          if currentStage >= |StageDurations| {
            var nextResult := allResults[processedCount];
            var ideaData := FindIdeaData(ideasData, nextResult.idea);
            var processedIdea := ToProcessed(nextResult, ideaData);
            processedIdeas := processedIdeas + [processedIdea];
            selectedIdea := Some(processedIdea);
            if |processedIdeas| >= totalCount {
              processing := false;
            } else {
              currentStage := 0;
              stageStartTime := now;
            }
          }
        }
      }
    }
  }
}
