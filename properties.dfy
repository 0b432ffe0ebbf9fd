/**
 * What the build lifecycle controller promises about the calls it makes: their order, how often
 * they happen, where a fault ends the build, and what the result reports.
 */
module LifecycleProperties {
  import opened Wrappers
  import opened Lifecycle

  /** A call on a stage listener: the build listener, `onConfigure` or `onTasksFinished`. */
  predicate IsListenerCall(e: Event) {
    e.Notified? || e.BuildFinished?
  }

  /** `doBuild`'s try block makes a prefix of the try plan, and stops right after the faulting call. */
  lemma TryWorkSpec(upTo: Stage, configureOnDemand: bool, faultAt: Option<Event>)
    ensures var o := TryWork(upTo, configureOnDemand, faultAt);
      var plan := TryPlan(upTo, configureOnDemand);
      0 < |o.events| <= |plan| && o.events == plan[..|o.events|] &&
      (o.thrown.None? <==> (faultAt.None? || faultAt.value !in plan)) &&
      (o.thrown.None? ==> o.events == plan) &&
      (o.thrown.Some? ==>
         o.events[|o.events| - 1] == faultAt.value && o.thrown == Some(Raised(faultAt.value)) &&
         faultAt.value !in o.events[..|o.events| - 1])
  {
    TryFollowsPlan(upTo, configureOnDemand, faultAt);
    AttemptSpec(TryPlan(upTo, configureOnDemand), faultAt);
  }

  /**
   * The position of a call in a full run's try plan, or -1 for a call that is not planned.
   * With configure-on-demand the eager projects-evaluation bracket is absent and
   * `projectsEvaluated` moves after `select`.
   */
  function Position(e: Event, configureOnDemand: bool): int {
    match e
    case Notified(BuildStarted) => 0
    case Invoked(ExecuteScripts) => 1
    case Started(SettingsEvalType) => 2
    case Invoked(FindAndLoadSettings) => 3
    case Notified(SettingsEvaluated) => 4
    case Finished(SettingsEvalType) => 5
    case Started(ProjectsLoadingType) => 6
    case Invoked(LoadProjects) => 7
    case Notified(ProjectsLoaded) => 8
    case Finished(ProjectsLoadingType) => 9
    case Invoked(ConfigureBuild) => 10
    case Started(ProjectsEvaluationType) => if configureOnDemand then -1 else 11
    case Notified(ProjectsEvaluated) => if configureOnDemand then 13 else 12
    case Finished(ProjectsEvaluationType) => if configureOnDemand then -1 else 13
    case Notified(ModelConfigured) => if configureOnDemand then 11 else 14
    case Invoked(SelectTasks) => if configureOnDemand then 12 else 15
    case Invoked(ExecuteTasks) => if configureOnDemand then 14 else 16
    case Notified(TasksFinished) => if configureOnDemand then 15 else 17
    case _ => -1
  }

  /** Every planned call sits at its own position: the try plan lists each call once, in order. */
  lemma PlanPositions(upTo: Stage, configureOnDemand: bool)
    ensures var plan := TryPlan(upTo, configureOnDemand);
      forall i :: 0 <= i < |plan| ==> Position(plan[i], configureOnDemand) == i
  {
  }

  /**
   * The i-th call of the try block is the call at position i, whatever the fault: the calls
   * come in the fixed phase order, and none is made twice.
   */
  lemma TryOrder(upTo: Stage, configureOnDemand: bool, faultAt: Option<Event>)
    ensures var t := TryWork(upTo, configureOnDemand, faultAt).events;
      forall i :: 0 <= i < |t| ==> Position(t[i], configureOnDemand) == i
  {
    var t := TryWork(upTo, configureOnDemand, faultAt).events;
    var plan := TryPlan(upTo, configureOnDemand);
    TryWorkSpec(upTo, configureOnDemand, faultAt);
    PlanPositions(upTo, configureOnDemand);
    forall i | 0 <= i < |t|
      ensures Position(t[i], configureOnDemand) == i
    {
      assert t[i] == plan[i];
    }
  }

  /** Along a plan whose calls sit at their own positions, a prefix holds exactly the calls before its end. */
  lemma PlannedCallsMade(t: seq<Event>, plan: seq<Event>, configureOnDemand: bool)
    requires forall i :: 0 <= i < |plan| ==> Position(plan[i], configureOnDemand) == i
    requires |t| <= |plan| && t == plan[..|t|]
    ensures forall k :: 0 <= k < |plan| ==> (plan[k] in t <==> k < |t|)
  {
    forall k | 0 <= k < |plan| && plan[k] in t
      ensures k < |t|
    {
      var i :| 0 <= i < |t| && t[i] == plan[k];
      assert plan[i] == plan[k];
    }
  }

  /**
   * `doBuild`'s result reports exactly the caught fault: the transformed fault of the call that
   * threw inside the try block, and no failure when no call there threw.
   */
  lemma ResultReportsCaughtFault(upTo: Stage, configureOnDemand: bool, transform: Throwable -> Throwable,
                                 faultAt: Option<Event>)
    ensures ResultOf(upTo, configureOnDemand, transform, faultAt).failure
         == if faultAt.Some? && faultAt.value in TryPlan(upTo, configureOnDemand)
            then Some(transform(Raised(faultAt.value))) else None
  {
    TryWorkSpec(upTo, configureOnDemand, faultAt);
  }

  /** No call is made twice. */
  predicate Distinct(s: seq<Event>) {
    forall i, j :: 0 <= i < j < |s| ==> s[i] != s[j]
  }

  /**
   * Whatever the fault, the trace of `doBuild` is a prefix of the completed trace `BuildTrace`.
   * It falls short exactly when the fault escapes: then it was raised by logging, a BUILD timing
   * call or `buildFinished`, and `doBuild` throws it unchanged.
   */
  lemma DoBuildTraceIsPrefix(upTo: Stage, configureOnDemand: bool, transform: Throwable -> Throwable,
                             faultAt: Option<Event>)
    ensures var w := DoBuildWork(upTo, configureOnDemand, transform, faultAt);
      var result := ResultOf(upTo, configureOnDemand, transform, faultAt);
      w.events <= BuildTrace(upTo, configureOnDemand, transform, faultAt) &&
      (w.thrown.None? ==> w.events == BuildTrace(upTo, configureOnDemand, transform, faultAt)) &&
      (w.thrown.Some? ==>
         faultAt.Some? && w.thrown == Some(Raised(faultAt.value)) &&
         faultAt.value in [StartLogging, Started(BuildType), BuildFinished(result), Finished(BuildType)]) &&
      (Caught(faultAt) ==> w.thrown.None?)
  {
    BuildBracketEscapes(TryWork(upTo, configureOnDemand, faultAt).events,
                        ResultOf(upTo, configureOnDemand, transform, faultAt), faultAt);
  }

  /** `DoBuildTraceIsPrefix` for any try trace and result. */
  lemma BuildBracketEscapes(tried: seq<Event>, result: BuildResult, faultAt: Option<Event>)
    ensures var w := Then(Single(StartLogging, faultAt),
                          Bracket(BuildType, Then(Outcome(tried, None), Single(BuildFinished(result), faultAt)), faultAt));
      var full := [StartLogging, Started(BuildType)] + tried + [BuildFinished(result), Finished(BuildType)];
      w.events <= full &&
      (w.thrown.None? ==> w.events == full) &&
      (w.thrown.Some? ==>
         faultAt.Some? && w.thrown == Some(Raised(faultAt.value)) &&
         faultAt.value in [StartLogging, Started(BuildType), BuildFinished(result), Finished(BuildType)]) &&
      (Caught(faultAt) ==> w.thrown.None?)
  {
    var full := [StartLogging, Started(BuildType)] + tried + [BuildFinished(result), Finished(BuildType)];
    if Caught(faultAt) {
      BuildBracketCloses(tried, result, faultAt);
    } else if faultAt.value == StartLogging {
      assert [StartLogging] == full[..1];
    } else if faultAt.value == Started(BuildType) {
      assert [StartLogging] + [Started(BuildType)] == full[..2];
    } else if faultAt.value == Finished(BuildType) {
      BuildBracketCloses(tried, result, None);
    } else if faultAt.value == BuildFinished(result) {
      assert [StartLogging] + ([Started(BuildType)] + (tried + [BuildFinished(result)]))
          == full[..|tried| + 3];
    } else {
      BuildBracketCloses(tried, result, None);
    }
  }

  /**
   * The completed trace of a try block that made the calls `tried`, in position order, starting
   * with `buildStarted`.
   */
  lemma CompletedTraceShape(tried: seq<Event>, result: BuildResult, configureOnDemand: bool)
    requires 0 < |tried| && tried[0] == Notified(BuildStarted)
    requires forall i :: 0 <= i < |tried| ==> Position(tried[i], configureOnDemand) == i
    ensures var t := [StartLogging, Started(BuildType)] + tried + [BuildFinished(result), Finished(BuildType)];
      |t| >= 5 && t[2] == Notified(BuildStarted) && !IsListenerCall(t[0]) && !IsListenerCall(t[1]) &&
      t[|t| - 2] == BuildFinished(result) &&
      t[|t| - 1] == Finished(BuildType) && !IsListenerCall(t[|t| - 1]) &&
      (forall i :: 0 <= i < |t| && t[i].BuildFinished? ==> i == |t| - 2) &&
      Distinct(t)
  {
    var t := [StartLogging, Started(BuildType)] + tried + [BuildFinished(result), Finished(BuildType)];
    forall k | 2 <= k < |tried| + 2
      ensures t[k] == tried[k - 2] && Position(t[k], configureOnDemand) == k - 2
    {
    }
  }

  /**
   * The build listener: `buildStarted` is the first listener call, and `buildFinished` is made
   * exactly once, with the result `doBuild` returns, followed only by the BUILD `finished`. This
   * holds whichever call inside the try block throws, `buildStarted` included. No call is made
   * twice.
   */
  lemma BuildListenerCalls(upTo: Stage, configureOnDemand: bool, transform: Throwable -> Throwable,
                           faultAt: Option<Event>)
    requires Caught(faultAt)
    ensures var t := BuildTrace(upTo, configureOnDemand, transform, faultAt);
      |t| >= 5 && t[2] == Notified(BuildStarted) && !IsListenerCall(t[0]) && !IsListenerCall(t[1]) &&
      t[|t| - 2] == BuildFinished(ResultOf(upTo, configureOnDemand, transform, faultAt)) &&
      t[|t| - 1] == Finished(BuildType) && !IsListenerCall(t[|t| - 1]) &&
      (forall i :: 0 <= i < |t| && t[i].BuildFinished? ==> i == |t| - 2) &&
      Distinct(t)
  {
    var tried := TryWork(upTo, configureOnDemand, faultAt).events;
    TryOrder(upTo, configureOnDemand, faultAt);
    assert tried[0] == Notified(BuildStarted);
    CompletedTraceShape(tried, ResultOf(upTo, configureOnDemand, transform, faultAt), configureOnDemand);
  }

  /** The try plan of `run`, written out. */
  lemma RunPlan(configureOnDemand: bool)
    ensures TryPlan(Build, configureOnDemand)
         == [Notified(BuildStarted), Invoked(ExecuteScripts),
             Started(SettingsEvalType), Invoked(FindAndLoadSettings), Notified(SettingsEvaluated),
             Finished(SettingsEvalType),
             Started(ProjectsLoadingType), Invoked(LoadProjects), Notified(ProjectsLoaded),
             Finished(ProjectsLoadingType),
             Invoked(ConfigureBuild)]
          + (if configureOnDemand then []
             else [Started(ProjectsEvaluationType), Notified(ProjectsEvaluated), Finished(ProjectsEvaluationType)])
          + [Notified(ModelConfigured), Invoked(SelectTasks)]
          + (if configureOnDemand then [Notified(ProjectsEvaluated)] else [])
          + [Invoked(ExecuteTasks), Notified(TasksFinished)]
  {
  }

  /**
   * When no call inside the try block throws, `run` makes every call of the try plan
   * (`RunPlan`) between the BUILD `started` and `buildFinished`, and the result has no failure.
   */
  lemma SuccessfulRunOrder(configureOnDemand: bool, transform: Throwable -> Throwable, faultAt: Option<Event>)
    requires Caught(faultAt)
    requires faultAt.None? || faultAt.value !in TryPlan(Build, configureOnDemand)
    ensures ResultOf(Build, configureOnDemand, transform, faultAt).failure.None?
    ensures BuildTrace(Build, configureOnDemand, transform, faultAt)
         == [StartLogging, Started(BuildType)] + TryPlan(Build, configureOnDemand)
          + [BuildFinished(BuildResult(None)), Finished(BuildType)]
  {
    TryWorkSpec(Build, configureOnDemand, faultAt);
  }

  /**
   * Without configure-on-demand, `projectsEvaluated` is notified inside the PROJECTS_EVALUATION
   * bracket, before task selection.
   */
  lemma EagerProjectsEvaluation(upTo: Stage, faultAt: Option<Event>)
    ensures var t := TryWork(upTo, false, faultAt).events;
      forall i :: 0 <= i < |t| && t[i] == Notified(ProjectsEvaluated) ==>
        0 < i && t[i - 1] == Started(ProjectsEvaluationType) &&
        (i + 1 < |t| ==> t[i + 1] == Finished(ProjectsEvaluationType)) &&
        forall j :: 0 <= j < |t| && t[j] == Invoked(SelectTasks) ==> i < j
  {
    var plan := TryPlan(upTo, false);
    TryOrder(upTo, false, faultAt);
    TryWorkSpec(upTo, false, faultAt);
    assert plan[11] == Started(ProjectsEvaluationType) && plan[13] == Finished(ProjectsEvaluationType);
    EagerFromPositions(TryWork(upTo, false, faultAt).events, plan);
  }

  /** `EagerProjectsEvaluation` for any calls made in position order along a plan. */
  lemma EagerFromPositions(t: seq<Event>, plan: seq<Event>)
    requires forall i :: 0 <= i < |t| ==> Position(t[i], false) == i
    requires |t| <= |plan| && t == plan[..|t|] && |plan| > 13
    requires plan[11] == Started(ProjectsEvaluationType) && plan[13] == Finished(ProjectsEvaluationType)
    ensures forall i :: 0 <= i < |t| && t[i] == Notified(ProjectsEvaluated) ==>
        0 < i && t[i - 1] == Started(ProjectsEvaluationType) &&
        (i + 1 < |t| ==> t[i + 1] == Finished(ProjectsEvaluationType)) &&
        forall j :: 0 <= j < |t| && t[j] == Invoked(SelectTasks) ==> i < j
  {
  }

  /**
   * With configure-on-demand, there is no PROJECTS_EVALUATION bracket, `projectsEvaluated` is
   * notified after task selection, and so never when only configuring.
   */
  lemma LateProjectsEvaluation(upTo: Stage, faultAt: Option<Event>)
    ensures var t := TryWork(upTo, true, faultAt).events;
      Started(ProjectsEvaluationType) !in t && Finished(ProjectsEvaluationType) !in t &&
      (forall i, j | 0 <= i < |t| && 0 <= j < |t| &&
         t[i] == Notified(ProjectsEvaluated) && t[j] == Invoked(SelectTasks) :: j < i) &&
      (upTo == Configure ==> Notified(ProjectsEvaluated) !in t)
  {
    TryOrder(upTo, true, faultAt);
    TryWorkSpec(upTo, true, faultAt);
    assert |TryPlan(Configure, true)| == 12;
    LateFromPositions(TryWork(upTo, true, faultAt).events, upTo == Configure);
  }

  /** `LateProjectsEvaluation` for any calls made in position order, at most 12 when only configuring. */
  lemma LateFromPositions(t: seq<Event>, configuring: bool)
    requires forall i :: 0 <= i < |t| ==> Position(t[i], true) == i
    requires configuring ==> |t| <= 12
    ensures Started(ProjectsEvaluationType) !in t && Finished(ProjectsEvaluationType) !in t
    ensures forall i, j | 0 <= i < |t| && 0 <= j < |t| &&
      t[i] == Notified(ProjectsEvaluated) && t[j] == Invoked(SelectTasks) :: j < i
    ensures configuring ==> Notified(ProjectsEvaluated) !in t
  {
  }

  /**
   * A fault inside the try block ends the build: the faulting call is followed only by
   * `buildFinished` and the BUILD `finished`, and no call that comes later in the phase order
   * is made.
   */
  lemma FaultEndsBuild(upTo: Stage, configureOnDemand: bool, transform: Throwable -> Throwable,
                       faultAt: Option<Event>)
    requires Caught(faultAt)
    requires faultAt.Some? && faultAt.value in TryPlan(upTo, configureOnDemand)
    ensures var t := BuildTrace(upTo, configureOnDemand, transform, faultAt);
      var k := |TryWork(upTo, configureOnDemand, faultAt).events| + 1;
      k + 2 < |t| && t[k] == faultAt.value &&
      t[k + 1..] == [BuildFinished(ResultOf(upTo, configureOnDemand, transform, faultAt)), Finished(BuildType)] &&
      forall e :: Position(e, configureOnDemand) > Position(faultAt.value, configureOnDemand) ==> e !in t
  {
    TryWorkSpec(upTo, configureOnDemand, faultAt);
    TryOrder(upTo, configureOnDemand, faultAt);
    FaultEndsFromPositions(TryWork(upTo, configureOnDemand, faultAt).events,
                           ResultOf(upTo, configureOnDemand, transform, faultAt), configureOnDemand);
  }

  /** `FaultEndsBuild` for any try trace in position order whose last call threw. */
  lemma FaultEndsFromPositions(tried: seq<Event>, result: BuildResult, configureOnDemand: bool)
    requires forall i :: 0 <= i < |tried| ==> Position(tried[i], configureOnDemand) == i
    requires 0 < |tried|
    ensures var t := [StartLogging, Started(BuildType)] + tried + [BuildFinished(result), Finished(BuildType)];
      var fault := tried[|tried| - 1];
      t[|tried| + 1] == fault && t[|tried| + 2..] == [BuildFinished(result), Finished(BuildType)] &&
      forall e :: Position(e, configureOnDemand) > Position(fault, configureOnDemand) ==> e !in t
  {
  }

  /**
   * A fault inside the body of the SETTINGS_EVAL unit of work leaves its `started` without the
   * matching `finished`.
   */
  lemma SettingsFaultLeavesBracketOpen(upTo: Stage, configureOnDemand: bool, faultAt: Option<Event>)
    requires faultAt.Some? && faultAt.value in SettingsEvalBody()
    ensures var t := TryWork(upTo, configureOnDemand, faultAt).events;
      Started(SettingsEvalType) in t && Finished(SettingsEvalType) !in t
  {
    var plan := TryPlan(upTo, configureOnDemand);
    TryWorkSpec(upTo, configureOnDemand, faultAt);
    PlanPositions(upTo, configureOnDemand);
    LoadingPlan(upTo, configureOnDemand);
    OpenBracket(TryWork(upTo, configureOnDemand, faultAt).events, plan, configureOnDemand, 2, 5);
  }

  /**
   * A fault inside the body of the PROJECTS_LOADING unit of work leaves its `started` without the
   * matching `finished`.
   */
  lemma LoadingFaultLeavesBracketOpen(upTo: Stage, configureOnDemand: bool, faultAt: Option<Event>)
    requires faultAt.Some? && faultAt.value in ProjectsLoadingBody()
    ensures var t := TryWork(upTo, configureOnDemand, faultAt).events;
      Started(ProjectsLoadingType) in t && Finished(ProjectsLoadingType) !in t
  {
    var plan := TryPlan(upTo, configureOnDemand);
    TryWorkSpec(upTo, configureOnDemand, faultAt);
    PlanPositions(upTo, configureOnDemand);
    LoadingPlan(upTo, configureOnDemand);
    OpenBracket(TryWork(upTo, configureOnDemand, faultAt).events, plan, configureOnDemand, 6, 9);
  }

  /**
   * A prefix of a plan whose last call is the one that threw, strictly between the opening and
   * the closing call of a bracket: the opening call was made and the closing one was not.
   */
  lemma OpenBracket(t: seq<Event>, plan: seq<Event>, configureOnDemand: bool, openAt: nat, closeAt: nat)
    requires forall i :: 0 <= i < |plan| ==> Position(plan[i], configureOnDemand) == i
    requires 0 < |t| <= |plan| && t == plan[..|t|]
    requires openAt < Position(t[|t| - 1], configureOnDemand) < closeAt < |plan|
    ensures plan[openAt] in t && plan[closeAt] !in t
  {
    PlannedCallsMade(t, plan, configureOnDemand);
    assert t[|t| - 1] == plan[|t| - 1];
  }

  /** The try plan begins with the init scripts, the settings and the projects loading. */
  lemma LoadingPlan(upTo: Stage, configureOnDemand: bool)
    ensures var plan := TryPlan(upTo, configureOnDemand);
      |plan| > 10 &&
      plan[2] == Started(SettingsEvalType) && plan[3] == Invoked(FindAndLoadSettings) &&
      plan[4] == Notified(SettingsEvaluated) && plan[5] == Finished(SettingsEvalType) &&
      plan[6] == Started(ProjectsLoadingType) && plan[7] == Invoked(LoadProjects) &&
      plan[8] == Notified(ProjectsLoaded) && plan[9] == Finished(ProjectsLoadingType)
  {
  }

  /**
   * `getBuildAnalysis` never selects or executes tasks nor notifies `onTasksFinished`, whatever
   * the fault; and when nothing inside the try block throws, `onConfigure` is its last stage call.
   */
  lemma ConfigureStageSkipsTaskGraph(configureOnDemand: bool, transform: Throwable -> Throwable,
                                     faultAt: Option<Event>)
    ensures var t := DoBuildWork(Configure, configureOnDemand, transform, faultAt).events;
      Invoked(SelectTasks) !in t && Invoked(ExecuteTasks) !in t && Notified(TasksFinished) !in t
    ensures var tried := TryWork(Configure, configureOnDemand, faultAt).events;
      (faultAt.None? || faultAt.value !in TryPlan(Configure, configureOnDemand)) ==>
        tried[|tried| - 1] == Notified(ModelConfigured)
  {
    var tried := TryWork(Configure, configureOnDemand, faultAt).events;
    DoBuildTraceIsPrefix(Configure, configureOnDemand, transform, faultAt);
    TryOrder(Configure, configureOnDemand, faultAt);
    TryWorkSpec(Configure, configureOnDemand, faultAt);
    var plan := TryPlan(Configure, configureOnDemand);
    assert |plan| == if configureOnDemand then 12 else 15;
    assert plan[|plan| - 1] == Notified(ModelConfigured);
    SkippedFromPositions(DoBuildWork(Configure, configureOnDemand, transform, faultAt).events,
                         BuildTrace(Configure, configureOnDemand, transform, faultAt),
                         tried, ResultOf(Configure, configureOnDemand, transform, faultAt), configureOnDemand);
  }

  /** `ConfigureStageSkipsTaskGraph` for a prefix of a completed trace around fewer calls than the whole plan. */
  lemma SkippedFromPositions(t: seq<Event>, full: seq<Event>, tried: seq<Event>, result: BuildResult,
                             configureOnDemand: bool)
    requires forall i :: 0 <= i < |tried| ==> Position(tried[i], configureOnDemand) == i
    requires |tried| <= if configureOnDemand then 12 else 15
    requires full == [StartLogging, Started(BuildType)] + tried + [BuildFinished(result), Finished(BuildType)]
    requires t <= full
    ensures Invoked(SelectTasks) !in t && Invoked(ExecuteTasks) !in t && Notified(TasksFinished) !in t
  {
    assert forall e :: e in t ==> e in full;
  }

  /**
   * `getBuildAnalysis` makes the same calls as `run` up to `onConfigure`, and when one of those
   * throws, exactly the same calls with the same fault.
   */
  lemma ConfigureIsPrefixOfRun(configureOnDemand: bool, faultAt: Option<Event>)
    ensures var c := TryWork(Configure, configureOnDemand, faultAt);
      var b := TryWork(Build, configureOnDemand, faultAt);
      c.events <= b.events && (c.thrown.Some? ==> b == c)
  {
    TryFollowsPlan(Configure, configureOnDemand, faultAt);
    TryFollowsPlan(Build, configureOnDemand, faultAt);
    assert TryPlan(Build, configureOnDemand) == TryPlan(Configure, configureOnDemand) + TaskGraphPlan(configureOnDemand);
    AttemptAppend(TryPlan(Configure, configureOnDemand), TaskGraphPlan(configureOnDemand), faultAt);
  }

  /**
   * `stop()`: the logging is stopped first, then the services unless stopping the logging threw,
   * then `completed` is notified, exactly once and last, whichever call throws; and the fault
   * `stop` throws is the one from `completed` if any, else the one from the try block.
   */
  lemma StopCompletesLast(faultAt: Option<Event>)
    ensures StopOutcome(faultAt).events
         == [StopLogging] + (if faultAt == Some(StopLogging) then [] else [StopServices]) + [BuildCompleted]
    ensures var o := StopOutcome(faultAt);
      0 < |o.events| && o.events[|o.events| - 1] == BuildCompleted &&
      BuildCompleted !in o.events[..|o.events| - 1] &&
      (StopServices in o.events <==> faultAt != Some(StopLogging)) &&
      o.thrown == (if faultAt == Some(BuildCompleted) then Some(Raised(BuildCompleted))
                   else if faultAt == Some(StopLogging) || faultAt == Some(StopServices) then Some(Raised(faultAt.value))
                   else None)
  {
  }

  /**
   * `internalBuildEvent`: `started` comes first, and when it throws nothing else runs; otherwise
   * `finished` follows the body only when the body returned normally, and else the body's fault
   * propagates and the bracket stays open.
   */
  lemma BracketClosesOnlyOnReturn(tag: Tag, body: Outcome, faultAt: Option<Event>)
    ensures var b := Bracket(tag, body, faultAt);
      faultAt == Some(Started(tag)) ==> b == Outcome([Started(tag)], Some(Raised(Started(tag))))
    ensures var b := Bracket(tag, body, faultAt);
      faultAt != Some(Started(tag)) ==>
      (body.thrown.Some? ==> b == Outcome([Started(tag)] + body.events, body.thrown)) &&
      (body.thrown.None? ==> b.events == [Started(tag)] + body.events + [Finished(tag)]) &&
      (body.thrown.None? ==> (b.thrown.Some? <==> faultAt == Some(Finished(tag))))
  {
  }
}
