/** The 11-step writing workflow of `WorkflowManager`: a state machine over
    the flags `is_running` / `is_paused`, the current step and the workflow
    state dictionary (`project_id`, `current_step`, `completed_steps`,
    `step_data`) that is saved to the database's content cache.

    The database's `workflow_state` cache is the field `store`, keyed by the
    project id (`str(project_id)` is injective). The AI reply of steps 1-5
    is an input to `ExecuteCurrentStep`. */
module Workflow {
  import opened Wrappers
  import opened ApiManager
  import opened Sequences

  /** `WorkflowStep`, numbered 1 to 11. */
  datatype WorkflowStep =
    | ProjectInitialization
    | CharacterDevelopment
    | WorldBuilding
    | PlotOutlining
    | ScenePlanning
    | FirstDraftWriting
    | EditingPass1
    | EditingPass2
    | BetaReaderFeedback
    | FinalRevisions
    | ExportPublishing
  {
    /** The enum value. */
    function Value(): (v: int)
      ensures 1 <= v <= 11
    {
      match this
      case ProjectInitialization => 1
      case CharacterDevelopment => 2
      case WorldBuilding => 3
      case PlotOutlining => 4
      case ScenePlanning => 5
      case FirstDraftWriting => 6
      case EditingPass1 => 7
      case EditingPass2 => 8
      case BetaReaderFeedback => 9
      case FinalRevisions => 10
      case ExportPublishing => 11
    }

    /** The enum member name. */
    function Name(): string {
      match this
      case ProjectInitialization => "PROJECT_INITIALIZATION"
      case CharacterDevelopment => "CHARACTER_DEVELOPMENT"
      case WorldBuilding => "WORLD_BUILDING"
      case PlotOutlining => "PLOT_OUTLINING"
      case ScenePlanning => "SCENE_PLANNING"
      case FirstDraftWriting => "FIRST_DRAFT_WRITING"
      case EditingPass1 => "EDITING_PASS_1"
      case EditingPass2 => "EDITING_PASS_2"
      case BetaReaderFeedback => "BETA_READER_FEEDBACK"
      case FinalRevisions => "FINAL_REVISIONS"
      case ExportPublishing => "EXPORT_PUBLISHING"
    }
  }

  const TotalSteps: int := 11

  /** `WorkflowStep(v)`: the member with value `v`; `None` where Python
      raises `ValueError`. */
  function FromValue(v: int): (r: Option<WorkflowStep>)
    ensures r.Some? <==> 1 <= v <= TotalSteps
    ensures r.Some? ==> r.value.Value() == v
  {
    if v == 1 then Some(ProjectInitialization)
    else if v == 2 then Some(CharacterDevelopment)
    else if v == 3 then Some(WorldBuilding)
    else if v == 4 then Some(PlotOutlining)
    else if v == 5 then Some(ScenePlanning)
    else if v == 6 then Some(FirstDraftWriting)
    else if v == 7 then Some(EditingPass1)
    else if v == 8 then Some(EditingPass2)
    else if v == 9 then Some(BetaReaderFeedback)
    else if v == 10 then Some(FinalRevisions)
    else if v == 11 then Some(ExportPublishing)
    else None
  }

  /** Members and values correspond one to one. */
  lemma ValueRoundTrip(step: WorkflowStep)
    ensures FromValue(step.Value()) == Some(step)
  {
  }

  /** What steps 1-5 keep in `step_data` (the timestamp is left out). */
  datatype StepRecord = StepRecord(userInput: string, aiResponse: string)

  /** The workflow state dictionary (`started_at` is left out). */
  datatype WorkflowState = WorkflowState(
    projectId: int,
    currentStep: int,
    completedSteps: seq<int>,
    stepData: map<string, StepRecord>)

  /** The state `start_workflow` creates when none is saved. */
  function FreshState(projectId: int): WorkflowState {
    WorkflowState(projectId, ProjectInitialization.Value(), [], map[])
  }

  /** `completed_steps` is duplicate-free and holds step numbers only. */
  predicate CompletedWellFormed(s: seq<int>) {
    Distinct(s) && forall i :: 0 <= i < |s| ==> 1 <= s[i] <= TotalSteps
  }

  /** `s` without the element `v`. */
  function Without(s: seq<int>, v: int): (r: seq<int>)
    ensures forall i :: 0 <= i < |r| ==> r[i] in s && r[i] != v
    ensures v !in s ==> r == s
    ensures Distinct(s) ==> Distinct(r) && |r| >= |s| - 1
  {
    if s == [] then []
    else (if s[0] == v then [] else [s[0]]) + Without(s[1..], v)
  }

  /** Pigeonhole: a duplicate-free list of numbers in `1..n` has at most `n`
      entries. */
  lemma {:induction false} DistinctInRangeBound(s: seq<int>, n: nat)
    requires Distinct(s)
    requires forall i :: 0 <= i < |s| ==> 1 <= s[i] <= n
    ensures |s| <= n
    decreases n
  {
    if n == 0 {
      if s != [] {
        assert false;
      }
    } else {
      var t := Without(s, n);
      forall i | 0 <= i < |t| ensures 1 <= t[i] <= n - 1 {
        assert t[i] in s;
      }
      DistinctInRangeBound(t, n - 1);
    }
  }

  /** The key under which steps 1-5 record their result in `step_data`. */
  function StepDataKey(step: WorkflowStep): Option<string> {
    match step
    case ProjectInitialization => Some("project_init")
    case CharacterDevelopment => Some("character_dev")
    case WorldBuilding => Some("world_building")
    case PlotOutlining => Some("plot_outlining")
    case ScenePlanning => Some("scene_planning")
    case _ => None
  }

  /** The fixed text steps 6-11 return (their guidance lists are left out). */
  function GuidanceText(step: WorkflowStep): string {
    match step
    case FirstDraftWriting => "First draft step - write freely without editing. Focus on getting the story down."
    case EditingPass1 => "First editing pass - focus on big picture elements"
    case EditingPass2 => "Second editing pass - focus on prose and style"
    case BetaReaderFeedback => "Collect and organize beta reader feedback"
    case FinalRevisions => "Make final revisions based on feedback"
    case ExportPublishing => "Prepare for publication"
    case _ => ""
  }

  /** Steps 1-5 ask the AI and steps 6-11 do not. */
  lemma AiStepsAreTheFirstFive(step: WorkflowStep)
    ensures StepDataKey(step).Some? <==> step.Value() <= 5
    ensures GuidanceText(step) != "" <==> step.Value() >= 6
  {
  }

  /** The dictionary `execute_current_step` returns. */
  datatype StepResult =
    | Refused(error: string)
    | AiResult(response: Response)
    | Guidance(text: string)

  /** `_save_workflow_state` on the store: nothing is written for an empty
      state or a falsy (0) project id; otherwise the state is stored under
      its project id. */
  function Saved(store: map<int, WorkflowState>, state: Option<WorkflowState>): map<int, WorkflowState> {
    if state.None? || state.value.projectId == 0 then store
    else store[state.value.projectId := state.value]
  }

  /** The value `get_workflow_progress` returns; `NotStarted` is the reply
      for an empty workflow state. */
  datatype Progress =
    | NotStarted
    | Report(started: bool, paused: bool, percent: real, currentStep: Option<string>,
             currentStepNumber: int, completedSteps: seq<int>, totalSteps: int)

  class WorkflowManager {
    var currentStep: WorkflowStep
    /** `None` for the empty dictionary. */
    var workflowState: Option<WorkflowState>
    var isRunning: bool
    var isPaused: bool
    /** The database's saved workflow states, by project id. */
    var store: map<int, WorkflowState>

    /** Paused implies running, and while running the state exists and
        mirrors the current step. */
    predicate Valid()
      reads this
    {
      && (isPaused ==> isRunning)
      && (isRunning ==> workflowState.Some? && workflowState.value.currentStep == currentStep.Value())
    }

    /** Every completed-steps list, in memory and saved, is duplicate-free
        and within 1..11. */
    predicate WellFormed()
      reads this
    {
      && (workflowState.Some? ==> CompletedWellFormed(workflowState.value.completedSteps))
      && (forall k :: k in store ==> CompletedWellFormed(store[k].completedSteps))
    }

    constructor (store: map<int, WorkflowState>)
      ensures Valid()
      ensures currentStep == ProjectInitialization && workflowState == None
      ensures !isRunning && !isPaused && this.store == store
      ensures (forall k :: k in store ==> CompletedWellFormed(store[k].completedSteps)) ==> WellFormed()
    {
      this.currentStep := ProjectInitialization;
      this.workflowState := None;
      this.isRunning := false;
      this.isPaused := false;
      this.store := store;
    }

    /** `_save_workflow_state`. */
    method SaveWorkflowState() returns (saved: bool)
      modifies this`store
      ensures saved <==> workflowState.Some? && workflowState.value.projectId != 0
      ensures store == Saved(old(store), workflowState)
    {
      if workflowState.None? || workflowState.value.projectId == 0 {
        return false;
      }
      store := store[workflowState.value.projectId := workflowState.value];
      return true;
    }

    /** `start_workflow`: refused while running; otherwise the saved state
        (or a fresh one) replaces the workflow state, and the workflow runs
        from its step. A saved step outside 1..11 makes it fail after the
        state was already replaced. */
    method StartWorkflow(projectId: int) returns (ok: bool)
      requires Valid()
      modifies this
      ensures Valid()
      ensures old(isRunning) ==> !ok && unchanged(this)
      ensures !old(isRunning) ==>
        var st := if projectId in old(store) then old(store)[projectId] else FreshState(projectId);
        && workflowState == Some(st) && store == old(store)
        && (ok <==> FromValue(st.currentStep).Some?)
        && (ok ==> currentStep == FromValue(st.currentStep).value && isRunning && !isPaused)
        && (!ok ==> currentStep == old(currentStep) && !isRunning && !isPaused)
      ensures old(WellFormed()) ==> WellFormed()
    {
      if isRunning {
        return false;
      }
      if projectId in store {
        workflowState := Some(store[projectId]);
      } else {
        workflowState := Some(FreshState(projectId));
      }
      var step := FromValue(workflowState.value.currentStep);
      if step.None? {
        return false;
      }
      currentStep := step.value;
      isRunning := true;
      isPaused := false;
      return true;
    }

    /** `pause_workflow`: refused unless running; pauses and saves. */
    method PauseWorkflow() returns (ok: bool)
      requires Valid()
      modifies this
      ensures Valid()
      ensures ok <==> old(isRunning)
      ensures !ok ==> unchanged(this)
      ensures ok ==> isRunning && isPaused && currentStep == old(currentStep)
                     && workflowState == old(workflowState) && store == Saved(old(store), workflowState)
      ensures old(WellFormed()) ==> WellFormed()
    {
      if !isRunning {
        return false;
      }
      isPaused := true;
      var _ := SaveWorkflowState();
      return true;
    }

    /** `resume_workflow`: refused unless running and paused. */
    method ResumeWorkflow() returns (ok: bool)
      requires Valid()
      modifies this
      ensures Valid()
      ensures ok <==> old(isRunning) && old(isPaused)
      ensures !ok ==> unchanged(this)
      ensures ok ==> isRunning && !isPaused && currentStep == old(currentStep)
                     && workflowState == old(workflowState) && store == old(store)
    {
      if !isRunning || !isPaused {
        return false;
      }
      isPaused := false;
      return true;
    }

    /** `stop_workflow`: refused unless running; saves and clears both flags. */
    method StopWorkflow() returns (ok: bool)
      requires Valid()
      modifies this
      ensures Valid()
      ensures ok <==> old(isRunning)
      ensures !ok ==> unchanged(this)
      ensures ok ==> !isRunning && !isPaused && currentStep == old(currentStep)
                     && workflowState == old(workflowState) && store == Saved(old(store), workflowState)
      ensures old(WellFormed()) ==> WellFormed()
    {
      if !isRunning {
        return false;
      }
      var _ := SaveWorkflowState();
      isRunning := false;
      isPaused := false;
      return true;
    }

    /** `next_step`: refused unless running and not paused. Marks the current
        step completed (once), then advances by one and saves, or at the last
        step stops the workflow and returns false. */
    method NextStep() returns (ok: bool)
      requires Valid()
      modifies this
      ensures Valid()
      ensures !old(isRunning) || old(isPaused) ==> !ok && unchanged(this)
      ensures old(isRunning) && !old(isPaused) ==>
        var st := old(workflowState).value;
        var v := old(currentStep).Value();
        var done := if v in st.completedSteps then st.completedSteps else st.completedSteps + [v];
        && v in done && st.completedSteps <= done
        && (v < TotalSteps ==>
              && ok && currentStep.Value() == v + 1 && isRunning && !isPaused
              && workflowState == Some(st.(completedSteps := done, currentStep := v + 1))
              && store == Saved(old(store), workflowState))
        && (v == TotalSteps ==>
              && !ok && currentStep == old(currentStep) && !isRunning && !isPaused
              && workflowState == Some(st.(completedSteps := done))
              && store == Saved(old(store), workflowState))
      ensures old(WellFormed()) ==> WellFormed()
    {
      if !isRunning || isPaused {
        return false;
      }
      var st := workflowState.value;
      if currentStep.Value() !in st.completedSteps {
        st := st.(completedSteps := st.completedSteps + [currentStep.Value()]);
        workflowState := Some(st);
      }
      if currentStep.Value() < TotalSteps {
        currentStep := FromValue(currentStep.Value() + 1).value;
        workflowState := Some(st.(currentStep := currentStep.Value()));
        var _ := SaveWorkflowState();
        return true;
      }
      var _ := StopWorkflow();
      return false;
    }

    /** `previous_step`: refused unless running and not paused; goes back one
        step above step 1 and saves; `completed_steps` is never touched. */
    method PreviousStep() returns (ok: bool)
      requires Valid()
      modifies this
      ensures Valid()
      ensures ok <==> old(isRunning) && !old(isPaused) && old(currentStep).Value() > 1
      ensures !ok ==> unchanged(this)
      ensures ok ==>
        && currentStep.Value() == old(currentStep).Value() - 1 && isRunning && !isPaused
        && workflowState == Some(old(workflowState).value.(currentStep := currentStep.Value()))
        && store == Saved(old(store), workflowState)
      ensures old(WellFormed()) ==> WellFormed()
    {
      if !isRunning || isPaused {
        return false;
      }
      if currentStep.Value() > ProjectInitialization.Value() {
        currentStep := FromValue(currentStep.Value() - 1).value;
        workflowState := Some(workflowState.value.(currentStep := currentStep.Value()));
        var _ := SaveWorkflowState();
        return true;
      }
      return false;
    }

    /** `execute_current_step`: refused unless running and not paused. Steps
        1-5 return the AI reply `reply` and, when it succeeded, record it
        under the step's key and save; steps 6-11 return their fixed text. */
    method ExecuteCurrentStep(reply: Response, userInput: string := "") returns (result: StepResult)
      requires Valid()
      modifies this
      ensures Valid()
      ensures !old(isRunning) || old(isPaused) ==> result == Refused("Workflow not running") && unchanged(this)
      ensures old(isRunning) && !old(isPaused) ==>
        && currentStep == old(currentStep) && isRunning && !isPaused
        && match StepDataKey(currentStep)
           case None => result == Guidance(GuidanceText(currentStep)) && unchanged(this)
           case Some(key) =>
             && result == AiResult(reply)
             && (!reply.Success? ==> unchanged(this))
             && (reply.Success? ==>
                   var st := old(workflowState).value;
                   && workflowState == Some(st.(stepData := st.stepData[key := StepRecord(userInput, reply.text)]))
                   && store == Saved(old(store), workflowState))
      ensures old(WellFormed()) ==> WellFormed()
    {
      if !isRunning || isPaused {
        return Refused("Workflow not running");
      }
      var key := StepDataKey(currentStep);
      if key.None? {
        return Guidance(GuidanceText(currentStep));
      }
      if reply.Success? {
        var st := workflowState.value;
        workflowState := Some(st.(stepData := st.stepData[key.value := StepRecord(userInput, reply.text)]));
        var _ := SaveWorkflowState();
      }
      return AiResult(reply);
    }

    /** `get_workflow_progress`. */
    function GetWorkflowProgress(): (p: Progress)
      reads this
      ensures p.NotStarted? <==> workflowState.None?
      ensures p.Report? ==>
        && p.totalSteps == TotalSteps
        && p.completedSteps == workflowState.value.completedSteps
        && p.percent * (TotalSteps as real) == (|p.completedSteps| as real) * 100.0
        && p.started == isRunning && p.paused == isPaused
        && (isRunning ==> p.currentStep == Some(currentStep.Name()) && p.currentStepNumber == currentStep.Value())
        && (!isRunning ==> p.currentStep == None && p.currentStepNumber == 0)
    {
      match workflowState
      case None => NotStarted
      case Some(st) =>
        Report(isRunning, isPaused, (|st.completedSteps| as real) / (TotalSteps as real) * 100.0,
               if isRunning then Some(currentStep.Name()) else None,
               if isRunning then currentStep.Value() else 0,
               st.completedSteps, TotalSteps)
    }

    /** With well-formed completed steps, progress lies in [0, 100]. */
    lemma ProgressBounded()
      requires WellFormed()
      ensures GetWorkflowProgress().Report? ==>
                0.0 <= GetWorkflowProgress().percent <= 100.0
    {
      if workflowState.Some? {
        DistinctInRangeBound(workflowState.value.completedSteps, TotalSteps);
      }
    }
  }
}
