# Gradle build launcher lifecycle

This project models the build lifecycle controller of Gradle's `DefaultGradleLauncher`:

- `run()` and `getBuildAnalysis()`, which both go through `doBuild(upTo)`.
- `doBuild`, which starts logging and then runs the BUILD unit of work. That unit of work wraps
  a try block (`buildStarted`, then the stages) whose faults are caught, analysed and reported in
  the `BuildResult` passed to `buildFinished`.
- `doBuildStages`: init scripts, settings, projects loading, configuration, projects
  evaluation, `onConfigure`, and then, when the whole build was asked for, task selection,
  execution and `onTasksFinished`.
- `internalBuildEvent`, which brackets a unit of work between the internal build listener's
  `started` and `finished`.
- `stop()`, whose completion notification sits in a `finally`.

Every call the launcher makes on a collaborator or a listener is an `Event`, appended to the
launcher's `trace`. Any such call may throw. The fault to inject is named by the event of the
call that throws (`faultAt`). A call that throws is still recorded, and the rest of its block is
skipped.

The project is in three modules:

- `Lifecycle` (`lifecycle.dfy`) is the reference definition:
  - `Attempt` makes a flat plan of calls and stops after the faulting one.
  - `Then`, `Single`, `Bracket` and `Finally` are Java statement sequencing, one call,
    `internalBuildEvent` and `try`/`finally`.
  - The plans (`TryPlan`, `StagesPlan`) and the statement-by-statement compositions are tied
    together lemma by lemma:
    - `StagesWork` equals `Attempt` of `StagesPlan` (`StagesFollowPlan`, with
      `AfterLoadingFollowsPlan` for the part after projects loading).
    - `TryWork` equals `Attempt` of `TryPlan` (`TryFollowsPlan`).
    - The factory bodies equal `Attempt` of their plans (`BodiesFollowPlans`).
    - `BuildWork` and `DoBuildWork` are pinned to the closed-form trace `BuildTrace` by
      `CaughtBuildCompletes` and `DoBuildTraceIsPrefix`.
    - `StopOutcome` is given in closed form by `StopCompletesLast`.
- `Launcher` (`launcher.dfy`) is the imperative class `DefaultGradleLauncher`. Each Java method
  is a method that appends to `trace` and returns the fault it throws, if any. Each is proved
  against the reference composition.
- `LifecycleProperties` (`properties.dfy`) proves what the launcher promises about the order of
  the calls, how often they happen, where a fault ends the build, and what the result reports.

## Model

Source paths are relative to the repository root.

| member | source | states |
|---|---|---|
| Lifecycle.AttemptSpec | subprojects/core/src/main/groovy/org/gradle/initialization/DefaultGradleLauncher.java:124-182 | A block of calls makes a prefix of its plan. It throws exactly when the faulting call is planned, and then it stops right after that call's first occurrence. If nothing throws, every planned call is made. |
| Lifecycle.AttemptAppend | subprojects/core/src/main/groovy/org/gradle/initialization/DefaultGradleLauncher.java:124-182 | Running two blocks one after the other is running their concatenated plan. |
| Lifecycle.BracketOfPlan | subprojects/core/src/main/groovy/org/gradle/initialization/DefaultGradleLauncher.java:184-190 | Bracketing a body is the plan `started`, the body's calls, `finished`. |
| Lifecycle.BodiesFollowPlans | subprojects/core/src/main/groovy/org/gradle/initialization/DefaultGradleLauncher.java:129-159 | The settings, projects-loading and projects-evaluation factories make their calls in order and stop at a fault. |
| Lifecycle.TaskGraphFollowsPlan | subprojects/core/src/main/groovy/org/gradle/initialization/DefaultGradleLauncher.java:170-179 | `select`, the late `projectsEvaluated` (configure-on-demand only), `execute` and `onTasksFinished` run in that order and stop at a fault. |
| Lifecycle.AfterLoadingFollowsPlan | subprojects/core/src/main/groovy/org/gradle/initialization/DefaultGradleLauncher.java:149-179 | From `configure` on, `doBuildStages` is `Attempt` of its remaining plan. |
| Lifecycle.StagesFollowPlan | subprojects/core/src/main/groovy/org/gradle/initialization/DefaultGradleLauncher.java:124-182 | `doBuildStages`, statement by statement, is `Attempt` of the stage plan. The plan has the eager evaluation bracket only without configure-on-demand, and the task graph only for `Stage.Build`. |
| Lifecycle.TryFollowsPlan | subprojects/core/src/main/groovy/org/gradle/initialization/DefaultGradleLauncher.java:111-113 | The try block is `buildStarted` followed by the stage plan. |
| Lifecycle.CaughtBuildCompletes | subprojects/core/src/main/groovy/org/gradle/initialization/DefaultGradleLauncher.java:104-122 | When the fault is raised inside the catch, `doBuild` returns normally. Its trace is then logging start, BUILD `started`, the try block's calls, `buildFinished(result)`, BUILD `finished`. |
| Lifecycle.BuildBracketCloses | subprojects/core/src/main/groovy/org/gradle/initialization/DefaultGradleLauncher.java:107-121 | The BUILD bracket always closes around a try block that caught everything, whatever the try block did. |
| Launcher.DefaultGradleLauncher.constructor | subprojects/core/src/main/groovy/org/gradle/initialization/DefaultGradleLauncher.java:56-76 | A new launcher keeps its configure-on-demand flag and exception analyser, and has made no call yet. |
| Launcher.DefaultGradleLauncher.Run | subprojects/core/src/main/groovy/org/gradle/initialization/DefaultGradleLauncher.java:89-91 | `run` is `doBuild(Build)`. When the fault is raised inside the catch, it returns the result and leaves the completed build trace. |
| Launcher.DefaultGradleLauncher.GetBuildAnalysis | subprojects/core/src/main/groovy/org/gradle/initialization/DefaultGradleLauncher.java:100-102 | `getBuildAnalysis` is `doBuild(Configure)`, with the same guarantee as `run`. |
| Launcher.DefaultGradleLauncher.DoBuild | subprojects/core/src/main/groovy/org/gradle/initialization/DefaultGradleLauncher.java:104-122 | The new trace is the old one followed by `DoBuildWork`'s calls. `doBuild` throws what `DoBuildWork` throws. It returns the build result exactly when it does not throw. |
| Launcher.DefaultGradleLauncher.InternalBuildEvent | subprojects/core/src/main/groovy/org/gradle/initialization/DefaultGradleLauncher.java:184-190 | `started(tag)`, then the factory's calls. `finished(tag)` follows only if the factory returned normally. The factory's value is returned when nothing throws. |
| Launcher.DefaultGradleLauncher.Create | subprojects/core/src/main/groovy/org/gradle/initialization/DefaultGradleLauncher.java:107-159 | Each anonymous factory makes its calls. The BUILD factory catches the try block's fault and passes `transform(fault)` to `buildFinished` in the result it returns. |
| Launcher.DefaultGradleLauncher.DoBuildStages | subprojects/core/src/main/groovy/org/gradle/initialization/DefaultGradleLauncher.java:124-182 | The stages in their fixed order: init scripts, the SETTINGS_EVAL and PROJECTS_LOADING units of work, then the rest. The first fault ends the method. |
| Launcher.DefaultGradleLauncher.StagesAfterLoading | subprojects/core/src/main/groovy/org/gradle/initialization/DefaultGradleLauncher.java:149-179 | `configure`, the eager PROJECTS_EVALUATION unit of work unless configuring on demand, `onConfigure`, then an early return for `Stage.Configure`, else the task graph. The first fault ends it. |
| Launcher.DefaultGradleLauncher.PopulateAndExecute | subprojects/core/src/main/groovy/org/gradle/initialization/DefaultGradleLauncher.java:170-179 | `select`, `projectsEvaluated` when configuring on demand, `execute`, `onTasksFinished`. The first fault ends it. |
| Launcher.DefaultGradleLauncher.Stop | subprojects/core/src/main/groovy/org/gradle/initialization/DefaultGradleLauncher.java:226-233 | Logging stop, then the services stop only if the logging stop returned normally, then `completed` in any case. The fault thrown is `completed`'s if it throws, otherwise the try block's (see "## Left out" for the case where both throw). |
| LifecycleProperties.TryWorkSpec | subprojects/core/src/main/groovy/org/gradle/initialization/DefaultGradleLauncher.java:111-113 | The try block makes a non-empty prefix of its plan. It is the whole plan when nothing planned throws. Otherwise it ends with the one faulting call, which is thrown. |
| LifecycleProperties.PlanPositions | subprojects/core/src/main/groovy/org/gradle/initialization/DefaultGradleLauncher.java:124-182 | Every call of the try plan sits at its own position in the fixed phase order, so no call is planned twice. |
| LifecycleProperties.TryOrder | subprojects/core/src/main/groovy/org/gradle/initialization/DefaultGradleLauncher.java:124-182 | Whatever the fault, the i-th call of the try block is the call at position i of the phase order. |
| LifecycleProperties.ResultReportsCaughtFault | subprojects/core/src/main/groovy/org/gradle/initialization/DefaultGradleLauncher.java:110-117 | The result's failure is `transform` of the fault exactly when the faulting call is one of the try block's calls. Otherwise there is no failure. |
| LifecycleProperties.DoBuildTraceIsPrefix | subprojects/core/src/main/groovy/org/gradle/initialization/DefaultGradleLauncher.java:104-122 | For any fault, `doBuild`'s trace is a prefix of the completed trace. It throws only a fault from logging start, the BUILD timing calls or `buildFinished`, unchanged. It never throws a fault raised inside the catch. |
| LifecycleProperties.BuildListenerCalls | subprojects/core/src/main/groovy/org/gradle/initialization/DefaultGradleLauncher.java:110-119 | `buildStarted` is the first listener call, even when it throws. `buildFinished` is made exactly once, with the returned result, and only the BUILD `finished` follows it. No call is made twice. |
| LifecycleProperties.RunPlan | subprojects/core/src/main/groovy/org/gradle/initialization/DefaultGradleLauncher.java:124-182 | `run`'s try plan written out, in the order init scripts, settings, loading, configure, eager evaluation, `onConfigure`, `select`, late evaluation, `execute`, `onTasksFinished`. |
| LifecycleProperties.SuccessfulRunOrder | subprojects/core/src/main/groovy/org/gradle/initialization/DefaultGradleLauncher.java:89-122 | When nothing in the try block throws, `run` makes the whole plan of `RunPlan` between the BUILD `started` and `buildFinished`. The result then has no failure. |
| LifecycleProperties.EagerProjectsEvaluation | subprojects/core/src/main/groovy/org/gradle/initialization/DefaultGradleLauncher.java:152-162 | Without configure-on-demand, `projectsEvaluated` sits between PROJECTS_EVALUATION `started` and `finished`, before `select`. |
| LifecycleProperties.LateProjectsEvaluation | subprojects/core/src/main/groovy/org/gradle/initialization/DefaultGradleLauncher.java:152-175 | With configure-on-demand there is no PROJECTS_EVALUATION bracket, and `projectsEvaluated` comes after `select`. It never comes with `Stage.Configure`. |
| LifecycleProperties.FaultEndsBuild | subprojects/core/src/main/groovy/org/gradle/initialization/DefaultGradleLauncher.java:111-119 | After a fault in the try block, only `buildFinished` and the BUILD `finished` follow the faulting call. No call later in the phase order is made. |
| LifecycleProperties.SettingsFaultLeavesBracketOpen | subprojects/core/src/main/groovy/org/gradle/initialization/DefaultGradleLauncher.java:129-136 | A fault in settings loading or `settingsEvaluated` leaves SETTINGS_EVAL `started` without its `finished`. |
| LifecycleProperties.LoadingFaultLeavesBracketOpen | subprojects/core/src/main/groovy/org/gradle/initialization/DefaultGradleLauncher.java:139-146 | A fault in project loading or `projectsLoaded` leaves PROJECTS_LOADING `started` without its `finished`. |
| LifecycleProperties.ConfigureStageSkipsTaskGraph | subprojects/core/src/main/groovy/org/gradle/initialization/DefaultGradleLauncher.java:164-168 | `getBuildAnalysis` never calls `select`, `execute` or `onTasksFinished`, whatever the fault. When nothing in the try block throws, `onConfigure` is its last stage call. |
| LifecycleProperties.ConfigureIsPrefixOfRun | subprojects/core/src/main/groovy/org/gradle/initialization/DefaultGradleLauncher.java:164-171 | `getBuildAnalysis` makes the same calls as `run` up to `onConfigure`. If one of them throws, both make exactly the same calls with the same fault. |
| LifecycleProperties.StopCompletesLast | subprojects/core/src/main/groovy/org/gradle/initialization/DefaultGradleLauncher.java:226-233 | The calls are the logging stop, then the services stop unless the logging stop threw, then `completed`, which is called exactly once and last, whichever call throws. The services are stopped exactly when logging stopped normally. The fault thrown is `completed`'s if there is one, otherwise the try block's. |
| LifecycleProperties.BracketClosesOnlyOnReturn | subprojects/core/src/main/groovy/org/gradle/initialization/DefaultGradleLauncher.java:184-190 | When `started` throws, nothing else runs and its fault propagates. Otherwise `finished(tag)` follows the body only when the body returned normally. Otherwise the body's fault propagates and the bracket stays open. |

## Left out

- Wall-clock timestamps passed to `started`/`finished` are not modelled; the events carry only the event type.
- The `Gradle`, `Settings` and project objects passed to the collaborators and listeners are not modelled, and neither is what the collaborators do with them. Each collaborator call only succeeds or throws.
- Launcher.DefaultGradleLauncher.Create: the settings object returned by the SETTINGS_EVAL factory and read by the PROJECTS_LOADING one is not kept. Only the BUILD factory's value, the build result, is returned.
- `addListener`, `addStandardOutputListener` and `addStandardErrorListener` are not modelled: they are one-line delegations to other objects.
- `doBuildStages` is one Java method. The model splits it into three methods: `DoBuildStages`, `StagesAfterLoading` (from `configure` on) and `PopulateAndExecute` (the task graph). Together they make the same calls in the same order and return at the same points. The split keeps each proof small.
- `getGradle` is not modelled: it is a plain getter.
- `exceptionAnalyser.transform` is a total function that never throws; a fault raised by the analyser itself is not modelled.
- The Java `assert upTo == Stage.Build` at the end of `doBuildStages` is not modelled: the early return before it already ensures it.
- Faults outside the catch (logging start, the BUILD timing calls, `buildFinished`) are modelled as escaping `doBuild`. The properties about the completed trace take as a hypothesis that the fault is not one of these (`Caught`).
- Only one call faults per build (`faultAt` names one event), so a second fault during the same build is not modelled.
- Launcher.DefaultGradleLauncher.Stop: with one injected fault, at most one of the three calls of `stop()` throws. So the case where `completed` throws after the logging or services stop has thrown, and its fault replaces the earlier one, is never exercised. The method's code replaces the fault, but no contract observes it.
- `configureOnDemand` is read once, when the launcher is built, and kept as a constant. The source reads the start parameter's configure-on-demand flag twice, at DefaultGradleLauncher.java:152 and :173, so a flag changed between the two reads is not modelled. `EagerProjectsEvaluation`, `LateProjectsEvaluation` and the `Distinct` part of `BuildListenerCalls` rely on the two reads agreeing: with a flag flipped between them, projects evaluation could happen twice or not at all.
- What `CompositeStoppable.stoppable(buildServices).stop()` does internally is not modelled: it is one call that may throw.
- The HTML performance-report generators, `DefaultTaskCollection` and `IncludedBuildController` are not part of this model: they are reporting code, a thin delegation, and an interface with no behaviour.
