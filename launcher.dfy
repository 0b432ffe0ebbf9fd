/**
 * DefaultGradleLauncher: drives one build through its stages, notifying listeners at the phase
 * boundaries, and tears the build down. Every collaborator and listener call is appended to
 * `trace`; a call may throw, which the model writes as a returned `thrown` value followed by an
 * early return, just as a Java exception leaves the rest of the block unexecuted.
 */
module Launcher {
  import opened Wrappers
  import opened Lifecycle

  /** The anonymous factories whose `create()` runs inside `internalBuildEvent`. */
  datatype Factory =
    | BuildFactory(upTo: Stage)
    | SettingsFactory
    | ProjectsLoadingFactory
    | ProjectsEvaluationFactory
  {
    /** The BUILD factory runs the stages, which run the other factories. */
    function Rank(): nat {
      if BuildFactory? then 1 else 0
    }
  }

  class DefaultGradleLauncher {
    /** `gradle.getStartParameter().isConfigureOnDemand()` */
    const configureOnDemand: bool
    /** `exceptionAnalyser.transform`, a total function that never throws */
    const transform: Throwable -> Throwable
    /** Every call made on a collaborator or listener, in order. */
    var trace: seq<Event>

    constructor (configureOnDemand: bool, transform: Throwable -> Throwable)
      ensures this.configureOnDemand == configureOnDemand && this.transform == transform
      ensures trace == []
    {
      this.configureOnDemand := configureOnDemand;
      this.transform := transform;
      trace := [];
    }

    /** What `factory.create()` does. */
    function Body(factory: Factory, faultAt: Option<Event>): Outcome {
      match factory
      case BuildFactory(upTo) => BuildWork(upTo, configureOnDemand, transform, faultAt)
      case SettingsFactory => SettingsEvalWork(faultAt)
      case ProjectsLoadingFactory => ProjectsLoadingWork(faultAt)
      case ProjectsEvaluationFactory => ProjectsEvaluationWork(faultAt)
    }

    /** The value `factory.create()` returns, as far as the model keeps it: the build result. */
    function Value(factory: Factory, faultAt: Option<Event>): Option<BuildResult> {
      if factory.BuildFactory? then Some(ResultOf(factory.upTo, configureOnDemand, transform, faultAt)) else None
    }

    /** One call on a collaborator or listener; it throws when it is the injected fault. */
    method Invoke(e: Event, faultAt: Option<Event>) returns (thrown: Option<Throwable>)
      modifies this
      ensures trace == old(trace) + Single(e, faultAt).events
      ensures thrown == Single(e, faultAt).thrown
    {
      trace := trace + [e];
      thrown := if faultAt == Some(e) then Some(Raised(e)) else None;
    }

    /**
     * `run()`: the whole build, through task execution. It returns the build result, or throws
     * when a fault escapes `doBuild`.
     */
    method Run(faultAt: Option<Event>) returns (thrown: Option<Throwable>, result: Option<BuildResult>)
      modifies this
      ensures trace == old(trace) + DoBuildWork(Build, configureOnDemand, transform, faultAt).events
      ensures thrown == DoBuildWork(Build, configureOnDemand, transform, faultAt).thrown
      ensures thrown.None? ==> result == Some(ResultOf(Build, configureOnDemand, transform, faultAt))
      ensures thrown.Some? ==> result.None?
      ensures Caught(faultAt) ==>
        thrown.None? && trace == old(trace) + BuildTrace(Build, configureOnDemand, transform, faultAt)
    {
      thrown, result := DoBuild(Build, faultAt);
      if Caught(faultAt) {
        CaughtBuildCompletes(Build, configureOnDemand, transform, faultAt);
      }
    }

    /**
     * `getBuildAnalysis()`: the build up to the Configure checkpoint; settings and projects are
     * evaluated and no task is selected or executed.
     */
    method GetBuildAnalysis(faultAt: Option<Event>) returns (thrown: Option<Throwable>, result: Option<BuildResult>)
      modifies this
      ensures trace == old(trace) + DoBuildWork(Configure, configureOnDemand, transform, faultAt).events
      ensures thrown == DoBuildWork(Configure, configureOnDemand, transform, faultAt).thrown
      ensures thrown.None? ==> result == Some(ResultOf(Configure, configureOnDemand, transform, faultAt))
      ensures thrown.Some? ==> result.None?
      ensures Caught(faultAt) ==>
        thrown.None? && trace == old(trace) + BuildTrace(Configure, configureOnDemand, transform, faultAt)
    {
      thrown, result := DoBuild(Configure, faultAt);
      if Caught(faultAt) {
        CaughtBuildCompletes(Configure, configureOnDemand, transform, faultAt);
      }
    }

    /** `doBuild(upTo)`: start logging, then the BUILD unit of work around the caught try block. */
    method DoBuild(upTo: Stage, faultAt: Option<Event>) returns (thrown: Option<Throwable>, result: Option<BuildResult>)
      modifies this
      ensures trace == old(trace) + DoBuildWork(upTo, configureOnDemand, transform, faultAt).events
      ensures thrown == DoBuildWork(upTo, configureOnDemand, transform, faultAt).thrown
      ensures thrown.None? ==> result == Some(ResultOf(upTo, configureOnDemand, transform, faultAt))
      ensures thrown.Some? ==> result.None?
    {
      result := None;
      ghost var work := DoBuildWork(upTo, configureOnDemand, transform, faultAt);
      ghost var pre := trace;
      ghost var build := Bracket(BuildType, Body(BuildFactory(upTo), faultAt), faultAt);
      NoStep([], Then(Single(StartLogging, faultAt), build));
      thrown := Invoke(StartLogging, faultAt);
      Advance(pre, [], trace, Single(StartLogging, faultAt), build, work);
      if thrown.Some? {
        return;
      }
      var value;
      thrown, value := InternalBuildEvent(BuildType, BuildFactory(upTo), faultAt);
      Finish(pre, [StartLogging], trace, build, work);
      if thrown.None? {
        result := value;
      }
    }

    /**
     * `internalBuildEvent(source, tag, factory)`: report `started(tag)`, run the factory, report
     * `finished(tag)` only if the factory returned normally, and return the factory's value
     * (only the BUILD factory's value, the build result, is kept by the model).
     */
    method InternalBuildEvent(tag: Tag, factory: Factory, faultAt: Option<Event>)
      returns (thrown: Option<Throwable>, value: Option<BuildResult>)
      modifies this
      ensures trace == old(trace) + Bracket(tag, Body(factory, faultAt), faultAt).events
      ensures thrown == Bracket(tag, Body(factory, faultAt), faultAt).thrown
      ensures thrown.None? ==> value == Value(factory, faultAt)
      decreases factory.Rank(), 1
    {
      value := None;
      ghost var work := Bracket(tag, Body(factory, faultAt), faultAt);
      ghost var pre := trace;
      assert [] + work.events == work.events;
      thrown := Invoke(Started(tag), faultAt);
      Advance(pre, [], trace, Single(Started(tag), faultAt), Then(Body(factory, faultAt), Single(Finished(tag), faultAt)), work);
      if thrown.Some? {
        return;
      }
      ghost var done := [Started(tag)];
      thrown, value := Create(factory, faultAt);
      Advance(pre, done, trace, Body(factory, faultAt), Single(Finished(tag), faultAt), work);
      if thrown.Some? {
        return;
      }
      done := done + Body(factory, faultAt).events;
      thrown := Invoke(Finished(tag), faultAt);
      Finish(pre, done, trace, Single(Finished(tag), faultAt), work);
    }

    /** `factory.create()` for each of the four factories. */
    method Create(factory: Factory, faultAt: Option<Event>)
      returns (thrown: Option<Throwable>, value: Option<BuildResult>)
      modifies this
      ensures trace == old(trace) + Body(factory, faultAt).events
      ensures thrown == Body(factory, faultAt).thrown
      ensures thrown.None? ==> value == Value(factory, faultAt)
      decreases factory.Rank(), 0
    {
      value := None;
      ghost var pre := trace;
      match factory
      case BuildFactory(upTo) =>
        // The try block: `buildStarted`, then the stages; whatever it throws is caught and
        // transformed into the result's failure.
        ghost var tried := TryWork(upTo, configureOnDemand, faultAt);
        assert [] + tried.events == tried.events;
        var caught := Invoke(Notified(BuildStarted), faultAt);
        Advance(pre, [], trace, Single(Notified(BuildStarted), faultAt),
                StagesWork(upTo, configureOnDemand, faultAt), tried);
        if caught.None? {
          caught := DoBuildStages(upTo, faultAt);
          Finish(pre, [Notified(BuildStarted)], trace, StagesWork(upTo, configureOnDemand, faultAt), tried);
        }
        var failure := if caught.Some? then Some(transform(caught.value)) else None;
        var buildResult := BuildResult(failure);
        assert buildResult == ResultOf(upTo, configureOnDemand, transform, faultAt);
        thrown := Invoke(BuildFinished(buildResult), faultAt);
        Finish(pre, tried.events, trace, Single(BuildFinished(buildResult), faultAt), Body(factory, faultAt));
        value := Some(buildResult);
      case SettingsFactory =>
        thrown := Invoke(Invoked(FindAndLoadSettings), faultAt);
        if thrown.Some? {
          return;
        }
        thrown := Invoke(Notified(SettingsEvaluated), faultAt);
      case ProjectsLoadingFactory =>
        thrown := Invoke(Invoked(LoadProjects), faultAt);
        if thrown.Some? {
          return;
        }
        thrown := Invoke(Notified(ProjectsLoaded), faultAt);
      case ProjectsEvaluationFactory =>
        thrown := Invoke(Notified(ProjectsEvaluated), faultAt);
    }

    /**
     * `doBuildStages(upTo)`: the fixed sequence of phases, stopping after `onConfigure` when
     * only the configuration is asked for. The first fault ends the sequence.
     */
    method DoBuildStages(upTo: Stage, faultAt: Option<Event>) returns (thrown: Option<Throwable>)
      modifies this
      ensures trace == old(trace) + StagesWork(upTo, configureOnDemand, faultAt).events
      ensures thrown == StagesWork(upTo, configureOnDemand, faultAt).thrown
      decreases 0, 3
    {
      var unused: Option<BuildResult>;
      // Ghost bookkeeping: `work` is `Then(Outcome(done, None), <the rest of the method>)`.
      ghost var work := StagesWork(upTo, configureOnDemand, faultAt);
      ghost var pre, done := trace, [];
      assert [] + work.events == work.events;

      ghost var scripts := Single(Invoked(ExecuteScripts), faultAt);
      thrown := Invoke(Invoked(ExecuteScripts), faultAt);
      Advance(pre, done, trace, scripts, AfterInitScripts(upTo, configureOnDemand, faultAt), work);
      if thrown.Some? {
        return;
      }
      done := done + scripts.events;

      ghost var settings := Bracket(SettingsEvalType, SettingsEvalWork(faultAt), faultAt);
      thrown, unused := InternalBuildEvent(SettingsEvalType, SettingsFactory, faultAt);
      Advance(pre, done, trace, settings, AfterSettings(upTo, configureOnDemand, faultAt), work);
      if thrown.Some? {
        return;
      }
      done := done + settings.events;

      ghost var loading := Bracket(ProjectsLoadingType, ProjectsLoadingWork(faultAt), faultAt);
      thrown, unused := InternalBuildEvent(ProjectsLoadingType, ProjectsLoadingFactory, faultAt);
      Advance(pre, done, trace, loading, AfterProjectsLoaded(upTo, configureOnDemand, faultAt), work);
      if thrown.Some? {
        return;
      }
      done := done + loading.events;

      thrown := StagesAfterLoading(upTo, faultAt);
      Finish(pre, done, trace, AfterProjectsLoaded(upTo, configureOnDemand, faultAt), work);
    }

    /**
     * The rest of `doBuildStages` once the projects are loaded: configure the build, evaluate
     * the projects eagerly unless configuring on demand, `onConfigure`, and then, unless only the
     * configuration is asked for, the task graph.
     */
    method StagesAfterLoading(upTo: Stage, faultAt: Option<Event>) returns (thrown: Option<Throwable>)
      modifies this
      ensures trace == old(trace) + AfterProjectsLoaded(upTo, configureOnDemand, faultAt).events
      ensures thrown == AfterProjectsLoaded(upTo, configureOnDemand, faultAt).thrown
      decreases 0, 2
    {
      var unused: Option<BuildResult>;
      ghost var work := AfterProjectsLoaded(upTo, configureOnDemand, faultAt);
      ghost var pre, done := trace, [];
      assert [] + work.events == work.events;

      thrown := Invoke(Invoked(ConfigureBuild), faultAt);
      Advance(pre, done, trace, Single(Invoked(ConfigureBuild), faultAt),
              AfterConfigure(upTo, configureOnDemand, faultAt), work);
      if thrown.Some? {
        return;
      }
      done := done + Single(Invoked(ConfigureBuild), faultAt).events;

      if !configureOnDemand {
        thrown, unused := InternalBuildEvent(ProjectsEvaluationType, ProjectsEvaluationFactory, faultAt);
        Advance(pre, done, trace, Bracket(ProjectsEvaluationType, ProjectsEvaluationWork(faultAt), faultAt),
                AfterEagerEvaluation(upTo, configureOnDemand, faultAt), work);
        if thrown.Some? {
          return;
        }
        done := done + Bracket(ProjectsEvaluationType, ProjectsEvaluationWork(faultAt), faultAt).events;
      } else {
        NoStep(done, AfterEagerEvaluation(upTo, configureOnDemand, faultAt));
      }

      thrown := Invoke(Notified(ModelConfigured), faultAt);
      Advance(pre, done, trace, Single(Notified(ModelConfigured), faultAt),
              AfterModelConfigured(upTo, configureOnDemand, faultAt), work);
      if thrown.Some? {
        return;
      }
      done := done + Single(Notified(ModelConfigured), faultAt).events;

      if upTo == Configure {
        assert done + [] == done;
        return;
      }

      thrown := PopulateAndExecute(faultAt);
      Finish(pre, done, trace, TaskGraphWork(configureOnDemand, faultAt), work);
    }

    /** The task graph part of `doBuildStages`: select, evaluate on demand, execute, notify. */
    method PopulateAndExecute(faultAt: Option<Event>) returns (thrown: Option<Throwable>)
      modifies this
      ensures trace == old(trace) + TaskGraphWork(configureOnDemand, faultAt).events
      ensures thrown == TaskGraphWork(configureOnDemand, faultAt).thrown
    {
      ghost var work := TaskGraphWork(configureOnDemand, faultAt);
      ghost var pre, done := trace, [];
      assert [] + work.events == work.events;

      thrown := Invoke(Invoked(SelectTasks), faultAt);
      Advance(pre, done, trace, Single(Invoked(SelectTasks), faultAt),
              AfterSelect(configureOnDemand, faultAt), work);
      if thrown.Some? {
        return;
      }
      done := done + Single(Invoked(SelectTasks), faultAt).events;

      if configureOnDemand {
        thrown := Invoke(Notified(ProjectsEvaluated), faultAt);
        Advance(pre, done, trace, Single(Notified(ProjectsEvaluated), faultAt),
                AfterLateEvaluation(faultAt), work);
        if thrown.Some? {
          return;
        }
        done := done + Single(Notified(ProjectsEvaluated), faultAt).events;
      } else {
        NoStep(done, AfterLateEvaluation(faultAt));
      }

      thrown := Invoke(Invoked(ExecuteTasks), faultAt);
      Advance(pre, done, trace, Single(Invoked(ExecuteTasks), faultAt),
              Single(Notified(TasksFinished), faultAt), work);
      if thrown.Some? {
        return;
      }
      done := done + Single(Invoked(ExecuteTasks), faultAt).events;

      thrown := Invoke(Notified(TasksFinished), faultAt);
      Finish(pre, done, trace, Single(Notified(TasksFinished), faultAt), work);
    }

    /** `stop()`: stop logging, then the services; notify completion in the finally block. */
    method Stop(faultAt: Option<Event>) returns (thrown: Option<Throwable>)
      modifies this
      ensures trace == old(trace) + StopOutcome(faultAt).events
      ensures thrown == StopOutcome(faultAt).thrown
    {
      thrown := Invoke(StopLogging, faultAt);
      if thrown.None? {
        thrown := Invoke(StopServices, faultAt);
      }
      var cleanup := Invoke(BuildCompleted, faultAt);
      if cleanup.Some? {
        thrown := cleanup;
      }
    }
  }

  /** Ghost bookkeeping for a sequential block: one statement `first` has run after `done`. */
  lemma Advance(pre: seq<Event>, done: seq<Event>, trace: seq<Event>, first: Outcome, rest: Outcome, work: Outcome)
    requires work == Then(Outcome(done, None), Then(first, rest))
    requires trace == pre + done + first.events
    ensures first.thrown.Some? ==> trace == pre + work.events && work.thrown == first.thrown
    ensures first.thrown.None? ==> trace == pre + (done + first.events)
    ensures first.thrown.None? ==> work == Then(Outcome(done + first.events, None), rest)
  {
    ThenStep(done, first, rest);
  }

  /** Ghost bookkeeping for a sequential block: its last statement `last` has run after `done`. */
  lemma Finish(pre: seq<Event>, done: seq<Event>, trace: seq<Event>, last: Outcome, work: Outcome)
    requires work == Then(Outcome(done, None), last)
    requires trace == pre + done + last.events
    ensures trace == pre + work.events && work.thrown == last.thrown
  {
  }

  /** Ghost bookkeeping for a sequential block: a statement that was skipped. */
  lemma NoStep(done: seq<Event>, rest: Outcome)
    ensures Then(Outcome([], None), rest) == rest
    ensures Then(Outcome(done, None), Then(Outcome([], None), rest)) == Then(Outcome(done, None), rest)
  {
    assert [] + rest.events == rest.events;
  }
}
