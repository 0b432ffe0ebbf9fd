/**
 * The observable behaviour of the build lifecycle controller, as a reference definition.
 *
 * Everything the launcher does is a call on a collaborator or a listener. The model records
 * every call as an `Event`, in order, in a trace. Any call may throw; the fault to inject is
 * named by the event of the call that throws (`faultAt`). A call that throws is still recorded
 * (it was made), and nothing after it in the same unit of work is.
 */
module Lifecycle {
  import opened Wrappers

  /** How far one invocation goes: `getBuildAnalysis` stops after configuration, `run` executes. */
  datatype Stage = Configure | Build

  /** The event types reported to the internal build listener around a timed unit of work. */
  datatype Tag = BuildType | SettingsEvalType | ProjectsLoadingType | ProjectsEvaluationType

  /** Calls into the collaborators that do the real work of a phase. */
  datatype Call =
    | ExecuteScripts        // initScriptHandler.executeScripts
    | FindAndLoadSettings   // settingsHandler.findAndLoadSettings
    | LoadProjects          // buildLoader.load
    | ConfigureBuild        // buildConfigurer.configure
    | SelectTasks           // buildExecuter.select
    | ExecuteTasks          // buildExecuter.execute

  /** Stage notifications: the build listener's, `onConfigure` and `onTasksFinished`. */
  datatype Notification =
    | BuildStarted
    | SettingsEvaluated
    | ProjectsLoaded
    | ProjectsEvaluated
    | ModelConfigured       // modelConfigurationListener.onConfigure
    | TasksFinished         // tasksCompletionListener.onTasksFinished

  /** One call made by the launcher. */
  datatype Event =
    | StartLogging                      // loggingManager.start
    | Started(tag: Tag)                 // internalBuildListener.started
    | Finished(tag: Tag)                // internalBuildListener.finished
    | Invoked(call: Call)
    | Notified(notification: Notification)
    | BuildFinished(result: BuildResult)
    | StopLogging                       // loggingManager.stop
    | StopServices                      // stopping the build-scoped services
    | BuildCompleted                    // buildCompletionListener.completed

  /**
   * A fault raised by the call at `site`. The exception analyser's transform may map it to any
   * throwable.
   */
  datatype Throwable = Raised(site: Event)

  /** The outcome of one invocation: `failure` is Java's nullable `getFailure()`. */
  datatype BuildResult = BuildResult(failure: Option<Throwable>)

  /** What a unit of work did: the calls it made, and the fault it threw, if any. */
  datatype Outcome = Outcome(events: seq<Event>, thrown: Option<Throwable>)

  /**
   * Make the calls of `plan` in order; the call named by `faultAt` throws, and then no later
   * call of the plan is made.
   */
  function Attempt(plan: seq<Event>, faultAt: Option<Event>): Outcome
    decreases |plan|
  {
    if plan == [] then Outcome([], None)
    else if faultAt == Some(plan[0]) then Outcome([plan[0]], Some(Raised(plan[0])))
    else
      var rest := Attempt(plan[1..], faultAt);
      Outcome([plan[0]] + rest.events, rest.thrown)
  }

  /** One call, which throws when it is the injected fault. */
  function Single(e: Event, faultAt: Option<Event>): Outcome {
    Outcome([e], if faultAt == Some(e) then Some(Raised(e)) else None)
  }

  /** Java statement sequencing: `next` runs only when `first` returned normally. */
  function Then(first: Outcome, next: Outcome): Outcome {
    if first.thrown.Some? then first else Outcome(first.events + next.events, next.thrown)
  }

  /** One step of a sequential block: after `done`, run `first`, and `rest` only if `first` returned normally. */
  lemma ThenStep(done: seq<Event>, first: Outcome, rest: Outcome)
    ensures Then(Outcome(done, None), Then(first, rest)) ==
      if first.thrown.Some? then Outcome(done + first.events, first.thrown)
      else Then(Outcome(done + first.events, None), rest)
  {
    if first.thrown.None? {
      assert done + (first.events + rest.events) == done + first.events + rest.events;
    }
  }

  /** `try { body } finally { cleanup }`: cleanup always runs, and a fault it throws replaces the body's. */
  function Finally(body: Outcome, cleanup: Outcome): Outcome {
    Outcome(body.events + cleanup.events, if cleanup.thrown.Some? then cleanup.thrown else body.thrown)
  }

  /**
   * What Attempt does: it makes a prefix of the plan; it throws exactly when the fault is one of
   * the planned calls, and then it stops right after the first occurrence of that call.
   */
  lemma {:induction false} AttemptSpec(plan: seq<Event>, faultAt: Option<Event>)
    ensures var o := Attempt(plan, faultAt);
      |o.events| <= |plan| && o.events == plan[..|o.events|] &&
      (o.thrown.None? <==> (faultAt.None? || faultAt.value !in plan)) &&
      (o.thrown.None? ==> o.events == plan) &&
      (o.thrown.Some? ==>
         o.events != [] && Some(o.events[|o.events| - 1]) == faultAt &&
         o.thrown == Some(Raised(faultAt.value)) &&
         faultAt.value !in o.events[..|o.events| - 1])
    decreases |plan|
  {
    if plan != [] && faultAt != Some(plan[0]) {
      AttemptSpec(plan[1..], faultAt);
      var rest := Attempt(plan[1..], faultAt);
      assert plan[1..][..|rest.events|] == plan[1..|rest.events| + 1];
      assert plan == [plan[0]] + plan[1..];
    }
  }

  /** A plan of one call is that call. */
  lemma AttemptSingle(e: Event, faultAt: Option<Event>)
    ensures Attempt([e], faultAt) == Single(e, faultAt)
  {
    assert [e][1..] == [];
  }

  /** A plan of two calls is one call after the other. */
  lemma TwoCalls(a: Event, b: Event, faultAt: Option<Event>)
    ensures Attempt([a, b], faultAt) == Then(Single(a, faultAt), Single(b, faultAt))
  {
    assert [a, b] == [a] + [b];
    AttemptAppend([a], [b], faultAt);
    AttemptSingle(a, faultAt);
    AttemptSingle(b, faultAt);
  }

  /** Attempting two plans one after the other is attempting their concatenation. */
  lemma {:induction false} AttemptAppend(a: seq<Event>, b: seq<Event>, faultAt: Option<Event>)
    ensures Attempt(a + b, faultAt) == Then(Attempt(a, faultAt), Attempt(b, faultAt))
    decreases |a|
  {
    if a == [] {
      assert a + b == b;
    } else {
      assert (a + b)[0] == a[0];
      assert (a + b)[1..] == a[1..] + b;
      if faultAt != Some(a[0]) {
        AttemptAppend(a[1..], b, faultAt);
      }
    }
  }

  /**
   * internalBuildEvent: `started(tag)`, the body, then `finished(tag)` only if the body returned
   * normally. The started and finished calls may themselves throw.
   */
  function Bracket(tag: Tag, body: Outcome, faultAt: Option<Event>): Outcome {
    Then(Single(Started(tag), faultAt), Then(body, Single(Finished(tag), faultAt)))
  }

  /** The calls of a bracketed unit of work whose body makes the calls `body`. */
  function BracketPlan(tag: Tag, body: seq<Event>): seq<Event> {
    [Started(tag)] + body + [Finished(tag)]
  }

  /** Bracketing a body that attempts a plan is attempting the bracketed plan. */
  lemma BracketOfPlan(tag: Tag, body: seq<Event>, faultAt: Option<Event>)
    ensures Bracket(tag, Attempt(body, faultAt), faultAt) == Attempt(BracketPlan(tag, body), faultAt)
  {
    assert BracketPlan(tag, body) == [Started(tag)] + (body + [Finished(tag)]);
    AttemptAppend([Started(tag)], body + [Finished(tag)], faultAt);
    AttemptAppend(body, [Finished(tag)], faultAt);
    AttemptSingle(Started(tag), faultAt);
    AttemptSingle(Finished(tag), faultAt);
  }

  /** The calls of the settings-evaluation unit of work. */
  function SettingsEvalBody(): seq<Event> {
    [Invoked(FindAndLoadSettings), Notified(SettingsEvaluated)]
  }

  /** The calls of the projects-loading unit of work. */
  function ProjectsLoadingBody(): seq<Event> {
    [Invoked(LoadProjects), Notified(ProjectsLoaded)]
  }

  /** The calls of the timed projects-evaluation unit of work (not configure-on-demand). */
  function ProjectsEvaluationBody(): seq<Event> {
    [Notified(ProjectsEvaluated)]
  }

  /** The calls after the configuration checkpoint: task graph population and execution. */
  function TaskGraphPlan(configureOnDemand: bool): seq<Event> {
    [Invoked(SelectTasks)]
    + (if configureOnDemand then [Notified(ProjectsEvaluated)] else [])
    + [Invoked(ExecuteTasks), Notified(TasksFinished)]
  }

  /** The calls `doBuildStages` makes when nothing throws, in order. */
  function StagesPlan(upTo: Stage, configureOnDemand: bool): seq<Event> {
    [Invoked(ExecuteScripts)]
    + BracketPlan(SettingsEvalType, SettingsEvalBody())
    + BracketPlan(ProjectsLoadingType, ProjectsLoadingBody())
    + AfterLoadingPlan(upTo, configureOnDemand)
  }

  /** The calls inside `doBuild`'s try block when nothing throws: `buildStarted`, then the stages. */
  function TryPlan(upTo: Stage, configureOnDemand: bool): seq<Event> {
    [Notified(BuildStarted)] + StagesPlan(upTo, configureOnDemand)
  }

  /** What the settings-evaluation factory does: load the settings, then notify. */
  function SettingsEvalWork(faultAt: Option<Event>): Outcome {
    Then(Single(Invoked(FindAndLoadSettings), faultAt), Single(Notified(SettingsEvaluated), faultAt))
  }

  /** What the projects-loading factory does: load the projects, then notify. */
  function ProjectsLoadingWork(faultAt: Option<Event>): Outcome {
    Then(Single(Invoked(LoadProjects), faultAt), Single(Notified(ProjectsLoaded), faultAt))
  }

  /** What the projects-evaluation factory does: notify. */
  function ProjectsEvaluationWork(faultAt: Option<Event>): Outcome {
    Single(Notified(ProjectsEvaluated), faultAt)
  }

  /*
   * What `doBuildStages` does, statement by statement. Each function below is the rest of the
   * method from one statement on: that statement, then (if it returned normally) the rest.
   */

  /** The whole of `doBuildStages`: the init scripts, then the rest. */
  function StagesWork(upTo: Stage, configureOnDemand: bool, faultAt: Option<Event>): Outcome {
    Then(Single(Invoked(ExecuteScripts), faultAt), AfterInitScripts(upTo, configureOnDemand, faultAt))
  }

  /** From the timed settings evaluation on. */
  function AfterInitScripts(upTo: Stage, configureOnDemand: bool, faultAt: Option<Event>): Outcome {
    Then(Bracket(SettingsEvalType, SettingsEvalWork(faultAt), faultAt),
         AfterSettings(upTo, configureOnDemand, faultAt))
  }

  /** From the timed projects loading on. */
  function AfterSettings(upTo: Stage, configureOnDemand: bool, faultAt: Option<Event>): Outcome {
    Then(Bracket(ProjectsLoadingType, ProjectsLoadingWork(faultAt), faultAt),
         AfterProjectsLoaded(upTo, configureOnDemand, faultAt))
  }

  /** From `buildConfigurer.configure` on. */
  function AfterProjectsLoaded(upTo: Stage, configureOnDemand: bool, faultAt: Option<Event>): Outcome {
    Then(Single(Invoked(ConfigureBuild), faultAt), AfterConfigure(upTo, configureOnDemand, faultAt))
  }

  /** From the eager, timed projects evaluation on (skipped when configuring on demand). */
  function AfterConfigure(upTo: Stage, configureOnDemand: bool, faultAt: Option<Event>): Outcome {
    Then(if configureOnDemand then Outcome([], None)
         else Bracket(ProjectsEvaluationType, ProjectsEvaluationWork(faultAt), faultAt),
         AfterEagerEvaluation(upTo, configureOnDemand, faultAt))
  }

  /** From `modelConfigurationListener.onConfigure` on. */
  function AfterEagerEvaluation(upTo: Stage, configureOnDemand: bool, faultAt: Option<Event>): Outcome {
    Then(Single(Notified(ModelConfigured), faultAt), AfterModelConfigured(upTo, configureOnDemand, faultAt))
  }

  /** The configuration checkpoint: nothing more when only the configuration is asked for. */
  function AfterModelConfigured(upTo: Stage, configureOnDemand: bool, faultAt: Option<Event>): Outcome {
    if upTo == Configure then Outcome([], None) else TaskGraphWork(configureOnDemand, faultAt)
  }

  /** From `buildExecuter.select` on. */
  function TaskGraphWork(configureOnDemand: bool, faultAt: Option<Event>): Outcome {
    Then(Single(Invoked(SelectTasks), faultAt), AfterSelect(configureOnDemand, faultAt))
  }

  /** From the on-demand projects evaluation on (skipped when configuring eagerly). */
  function AfterSelect(configureOnDemand: bool, faultAt: Option<Event>): Outcome {
    Then(if configureOnDemand then Single(Notified(ProjectsEvaluated), faultAt) else Outcome([], None),
         AfterLateEvaluation(faultAt))
  }

  /** From `buildExecuter.execute` on. */
  function AfterLateEvaluation(faultAt: Option<Event>): Outcome {
    Then(Single(Invoked(ExecuteTasks), faultAt), Single(Notified(TasksFinished), faultAt))
  }

  /** What `doBuild`'s try block does: `buildStarted`, then the stages. */
  function TryWork(upTo: Stage, configureOnDemand: bool, faultAt: Option<Event>): Outcome {
    Then(Single(Notified(BuildStarted), faultAt), StagesWork(upTo, configureOnDemand, faultAt))
  }

  /** Each factory's work makes the calls of its plan, stopping at the first that throws. */
  lemma BodiesFollowPlans(faultAt: Option<Event>)
    ensures SettingsEvalWork(faultAt) == Attempt(SettingsEvalBody(), faultAt)
    ensures ProjectsLoadingWork(faultAt) == Attempt(ProjectsLoadingBody(), faultAt)
    ensures ProjectsEvaluationWork(faultAt) == Attempt(ProjectsEvaluationBody(), faultAt)
  {
    TwoCalls(Invoked(FindAndLoadSettings), Notified(SettingsEvaluated), faultAt);
    TwoCalls(Invoked(LoadProjects), Notified(ProjectsLoaded), faultAt);
    AttemptSingle(Notified(ProjectsEvaluated), faultAt);
  }

  /** The work after the checkpoint makes the calls of its plan, stopping at the first that throws. */
  lemma TaskGraphFollowsPlan(configureOnDemand: bool, faultAt: Option<Event>)
    ensures TaskGraphWork(configureOnDemand, faultAt) == Attempt(TaskGraphPlan(configureOnDemand), faultAt)
  {
    var f := faultAt;
    var t1 := [Invoked(SelectTasks)];
    var t2: seq<Event> := if configureOnDemand then [Notified(ProjectsEvaluated)] else [];
    var t3 := [Invoked(ExecuteTasks), Notified(TasksFinished)];
    assert TaskGraphPlan(configureOnDemand) == t1 + (t2 + t3);
    AttemptAppend(t1, t2 + t3, f);
    AttemptAppend(t2, t3, f);
    AttemptSingle(Invoked(SelectTasks), f);
    AttemptSingle(Notified(ProjectsEvaluated), f);
    TwoCalls(Invoked(ExecuteTasks), Notified(TasksFinished), f);
  }

  /** The calls of `doBuildStages` from `buildConfigurer.configure` on, when nothing throws. */
  function AfterLoadingPlan(upTo: Stage, configureOnDemand: bool): seq<Event> {
    [Invoked(ConfigureBuild)]
    + (if configureOnDemand then [] else BracketPlan(ProjectsEvaluationType, ProjectsEvaluationBody()))
    + [Notified(ModelConfigured)]
    + (if upTo == Configure then [] else TaskGraphPlan(configureOnDemand))
  }

  /** From `buildConfigurer.configure` on, `doBuildStages` makes the calls of its plan in order. */
  lemma AfterLoadingFollowsPlan(upTo: Stage, configureOnDemand: bool, faultAt: Option<Event>)
    ensures AfterProjectsLoaded(upTo, configureOnDemand, faultAt) == Attempt(AfterLoadingPlan(upTo, configureOnDemand), faultAt)
  {
    var f := faultAt;
    var s4 := [Invoked(ConfigureBuild)];
    var s5 := if configureOnDemand then [] else BracketPlan(ProjectsEvaluationType, ProjectsEvaluationBody());
    var s6 := [Notified(ModelConfigured)];
    var s7 := if upTo == Configure then [] else TaskGraphPlan(configureOnDemand);
    assert AfterLoadingPlan(upTo, configureOnDemand) == s4 + (s5 + (s6 + s7));
    AttemptAppend(s4, s5 + (s6 + s7), f);
    AttemptAppend(s5, s6 + s7, f);
    AttemptAppend(s6, s7, f);
    AttemptSingle(Invoked(ConfigureBuild), f);
    AttemptSingle(Notified(ModelConfigured), f);
    BodiesFollowPlans(f);
    BracketOfPlan(ProjectsEvaluationType, ProjectsEvaluationBody(), f);
    TaskGraphFollowsPlan(configureOnDemand, f);
  }

  /**
   * `doBuildStages`, statement by statement, makes the calls of the fixed stage plan in order and
   * stops at the first call that throws.
   */
  lemma StagesFollowPlan(upTo: Stage, configureOnDemand: bool, faultAt: Option<Event>)
    ensures StagesWork(upTo, configureOnDemand, faultAt) == Attempt(StagesPlan(upTo, configureOnDemand), faultAt)
  {
    var f := faultAt;
    var s1 := [Invoked(ExecuteScripts)];
    var s2 := BracketPlan(SettingsEvalType, SettingsEvalBody());
    var s3 := BracketPlan(ProjectsLoadingType, ProjectsLoadingBody());
    var rest := AfterLoadingPlan(upTo, configureOnDemand);
    assert StagesPlan(upTo, configureOnDemand) == s1 + (s2 + (s3 + rest));
    AttemptAppend(s1, s2 + (s3 + rest), f);
    AttemptAppend(s2, s3 + rest, f);
    AttemptAppend(s3, rest, f);
    AttemptSingle(Invoked(ExecuteScripts), f);
    BodiesFollowPlans(f);
    BracketOfPlan(SettingsEvalType, SettingsEvalBody(), f);
    BracketOfPlan(ProjectsLoadingType, ProjectsLoadingBody(), f);
    AfterLoadingFollowsPlan(upTo, configureOnDemand, f);
  }

  /** `doBuild`'s try block makes the calls of the try plan in order and stops at the first that throws. */
  lemma TryFollowsPlan(upTo: Stage, configureOnDemand: bool, faultAt: Option<Event>)
    ensures TryWork(upTo, configureOnDemand, faultAt) == Attempt(TryPlan(upTo, configureOnDemand), faultAt)
  {
    StagesFollowPlan(upTo, configureOnDemand, faultAt);
    AttemptAppend([Notified(BuildStarted)], StagesPlan(upTo, configureOnDemand), faultAt);
    AttemptSingle(Notified(BuildStarted), faultAt);
  }

  /** The failure `doBuild` reports: the caught fault, transformed by the exception analyser. */
  function Failure(upTo: Stage, configureOnDemand: bool, transform: Throwable -> Throwable,
                   faultAt: Option<Event>): Option<Throwable>
  {
    match TryWork(upTo, configureOnDemand, faultAt).thrown
    case None => None
    case Some(t) => Some(transform(t))
  }

  /** The result `doBuild` returns and passes to `buildFinished`. */
  function ResultOf(upTo: Stage, configureOnDemand: bool, transform: Throwable -> Throwable,
                    faultAt: Option<Event>): BuildResult
  {
    BuildResult(Failure(upTo, configureOnDemand, transform, faultAt))
  }

  /**
   * What the BUILD factory does: the try block, whose every fault is caught, then
   * `buildFinished` with the result.
   */
  function BuildWork(upTo: Stage, configureOnDemand: bool, transform: Throwable -> Throwable,
                     faultAt: Option<Event>): Outcome
  {
    Then(Outcome(TryWork(upTo, configureOnDemand, faultAt).events, None),
         Single(BuildFinished(ResultOf(upTo, configureOnDemand, transform, faultAt)), faultAt))
  }

  /**
   * The fault, if any, is raised inside `doBuild`'s catch: not by `loggingManager.start`, the
   * BUILD timing calls or `buildFinished`, whose faults would escape `doBuild`.
   */
  predicate Caught(faultAt: Option<Event>) {
    faultAt.None? ||
    !(faultAt.value == StartLogging || faultAt.value == Started(BuildType) ||
      faultAt.value == Finished(BuildType) || faultAt.value.BuildFinished?)
  }

  /** The trace of one `doBuild`. */
  function BuildTrace(upTo: Stage, configureOnDemand: bool, transform: Throwable -> Throwable,
                      faultAt: Option<Event>): seq<Event>
  {
    [StartLogging, Started(BuildType)]
    + TryWork(upTo, configureOnDemand, faultAt).events
    + [BuildFinished(ResultOf(upTo, configureOnDemand, transform, faultAt)), Finished(BuildType)]
  }

  /**
   * What `doBuild` does: `loggingManager.start()`, then the BUILD unit of work. Only a fault
   * outside the catch (logging, the BUILD timing calls, `buildFinished`) escapes it.
   */
  function DoBuildWork(upTo: Stage, configureOnDemand: bool, transform: Throwable -> Throwable,
                       faultAt: Option<Event>): Outcome
  {
    Then(Single(StartLogging, faultAt),
         Bracket(BuildType, BuildWork(upTo, configureOnDemand, transform, faultAt), faultAt))
  }

  /** When every fault is raised inside the catch, `doBuild` returns normally and its trace is `BuildTrace`. */
  lemma CaughtBuildCompletes(upTo: Stage, configureOnDemand: bool, transform: Throwable -> Throwable,
                             faultAt: Option<Event>)
    requires Caught(faultAt)
    ensures DoBuildWork(upTo, configureOnDemand, transform, faultAt)
         == Outcome(BuildTrace(upTo, configureOnDemand, transform, faultAt), None)
  {
    BuildBracketCloses(TryWork(upTo, configureOnDemand, faultAt).events,
                       ResultOf(upTo, configureOnDemand, transform, faultAt), faultAt);
  }

  /** The BUILD bracket around a try block that caught everything, for any try trace and result. */
  lemma BuildBracketCloses(tried: seq<Event>, result: BuildResult, faultAt: Option<Event>)
    requires Caught(faultAt)
    ensures Then(Single(StartLogging, faultAt),
                 Bracket(BuildType, Then(Outcome(tried, None), Single(BuildFinished(result), faultAt)), faultAt))
         == Outcome([StartLogging, Started(BuildType)] + tried + [BuildFinished(result), Finished(BuildType)], None)
  {
    var body := Then(Outcome(tried, None), Single(BuildFinished(result), faultAt));
    assert body == Outcome(tried + [BuildFinished(result)], None);
    assert [StartLogging] + ([Started(BuildType)] + (body.events + [Finished(BuildType)]))
        == [StartLogging, Started(BuildType)] + tried + [BuildFinished(result), Finished(BuildType)];
  }

  /** `stop()`: stop logging, then the services, in a try; notify completion in the finally. */
  function StopOutcome(faultAt: Option<Event>): Outcome {
    Finally(Then(Single(StopLogging, faultAt), Single(StopServices, faultAt)), Single(BuildCompleted, faultAt))
  }
}
