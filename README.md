# AppBuilder: stage registry and schedule assembly

This project models the `AppBuilder` of a Rust game engine and proves
properties of the model in Dafny. An application is configured through the
builder, which:

- owns the world, the resource table, the universe, the renderer and the
  render graph in `Option` slots;
- collects one-shot *setup systems*;
- keeps a *stage registry*. This is two maps from a stage name to a list of
  work: parallel systems in `system_stages` and thread-local runnables in
  `runnable_stages`. Beside them, `stage_order` records each name the first
  time that map sees it.

`build` first runs the setup systems once, in order. It then walks
`stage_order` to assemble the main schedule. Last, it moves the slots out
into an `App`.

Files:

- `schedule.dfy` (module `Schedule`) defines the output schedule as a
  sequence of `Step`s: `AddSystem(s)`, `AddThreadLocal(r)` and `Flush`. It
  also holds the specification of the stage walk (`StageSteps`,
  `MainSteps`), the functions that read a schedule back (`SystemsOf`,
  `RunnablesOf`, `FlushCount`), the lemmas about them, and the two loops
  that add a list to a schedule.
- `app_builder.dfy` (module `Builder`) holds the class `AppBuilder`, with the
  original's fields. `State()` returns those fields as one value of type
  `BuilderState`. Every method states its new state as a function of the
  old one: `WithSystem`, `WithRunnable`, `SetupRun`, `Drained`, `MovedOut`
  and `Built`. The builder's properties are lemmas about these functions.

An `unwrap` of an empty slot panics in the original. Here it is a
`Failure(SlotError)` (or `Fail` for the `&mut Self` methods). The builder
is left in the state the panic finds it in. For example, the setup list is
already drained, and the render graph has already been taken out of its
slot.

## Model

| member | source | states |
|---|---|---|
| Builder.AppBuilder.constructor | src/app/app_builder.rs:38-53 | world, resources, universe and render graph present, no renderer, empty setup list, empty maps and empty order; the key invariant and the per-kind count invariant hold |
| Builder.AppBuilder.WithWorld | src/app/app_builder.rs:104-107 | the world slot holds the given world; nothing else changes |
| Builder.AppBuilder.SetupWorld | src/app/app_builder.rs:109-115 | fails on an empty world slot, then on an empty resources slot, changing nothing; otherwise both slots hold what the setup function made of them |
| Builder.AppBuilder.AddSetupSystem | src/app/app_builder.rs:121-124 | the system is appended to the setup list; nothing else changes |
| Builder.WithSystem | src/app/app_builder.rs:126-141 | the name's list is the old list (or empty) with the system appended; every other parallel list, every key, the runnable map, the setup list and the slots are unchanged; the name is appended to the order exactly when the parallel map lacked it |
| Builder.WithRunnable | src/app/app_builder.rs:143-158 | the same on the thread-local map: the runnable is appended, and the order grows exactly when the runnable map lacked the name |
| Builder.AppBuilder.AddSystemToStage | src/app/app_builder.rs:126-141 | the new state is `WithSystem` of the old one |
| Builder.AppBuilder.AddRunnableToStage | src/app/app_builder.rs:143-158 | the new state is `WithRunnable` of the old one |
| Builder.AppBuilder.AddSystem | src/app/app_builder.rs:117-119 | exactly registration into the `UPDATE` stage |
| Builder.RegistrationKeepsKeysOrdered | src/app/app_builder.rs:131-134 | both registrations keep every key of both maps in the stage order; the old order is a prefix of the new one, so no name ever moves |
| Builder.RegistrationCountsKinds | src/app/app_builder.rs:131-151 | the first-sighting test is made per map: each name occurs in the order once per map that holds it, so a name registered under both kinds occurs twice |
| Builder.MixedStageScheduledOnce | src/app/app_builder.rs:67-84 | one system and one runnable registered under the same name give the order `["a", "a"]` and the schedule `AddSystem, Flush, AddThreadLocal, Flush`; the second visit adds nothing |
| Builder.AppBuilder.SetupRenderGraph | src/app/app_builder.rs:210-226 | the graph is taken out first; fails on an empty graph slot and then on an empty resources slot, leaving the graph slot empty; otherwise the configured graph is put back, so the slot is filled again |
| Builder.AppBuilder.RunSetup | src/app/app_builder.rs:56-65 | the new state and outcome are `SetupRun` of the old state: the setup list is drained, then the world and resources are unwrapped in that order, then the setup schedule is executed once |
| Builder.AppBuilder.VisitStage | src/app/app_builder.rs:69-83 | the steps are `StageSteps` of the old maps; the name is removed from both maps |
| Builder.AppBuilder.DrainStages | src/app/app_builder.rs:67-84 | the schedule is `MainSteps` of the stage order and the old maps; every name in the order is removed from both maps |
| Builder.AppBuilder.MoveOut | src/app/app_builder.rs:86-97 | the new state and result are `MovedOut` of the old state: the graph is taken and inserted into the resources, then the universe, world, resources and renderer are moved into the `App` |
| Builder.AppBuilder.Build | src/app/app_builder.rs:55-98 | the new state and result are `Built` of the old state |
| Builder.BuildFailsOnFirstEmptySlot | src/app/app_builder.rs:55-98 | `build` succeeds exactly when the world, resources, render-graph and universe slots are filled; otherwise it fails on the first of them that is empty, in that order; the setup list always ends empty; the stage order is kept |
| Builder.BuildMovesEverythingOut | src/app/app_builder.rs:56-65 | on success, the setup schedule holds the setup systems in registration order and runs first; the `App` gets the executed world, the main schedule, and the executed resources with the render graph inserted; all five slots end empty |
| Builder.SecondBuildFails | src/app/app_builder.rs:86-97 | a second `build` always fails, and after a successful first one it fails on the world slot |
| Builder.BuildConsumesEveryUnit | src/app/app_builder.rs:67-84 | with every key in the order, both maps end empty and the key invariant holds after `build`; on success the schedule holds every registered system and every runnable exactly once (as multisets), with one flush per map entry |
| Builder.BuildTwice | src/app/app_builder.rs:86-97 | calling `Build` twice on one builder: the second call fails, and on the world slot when the first succeeded |
| Schedule.AppendSystems | src/app/app_builder.rs:70-72 | the loop adds the systems to the schedule in order: the result is the old schedule followed by `AddSystems` of the list |
| Schedule.AppendThreadLocals | src/app/app_builder.rs:78-80 | the same for runnables, as thread-local steps |
| Schedule.StepsOfConcat | src/app/app_builder.rs:67-84 | reading systems, runnables and flush counts back distributes over concatenation of schedules |
| Schedule.AddSystemsInverse | src/app/app_builder.rs:57-59 | reading the systems back from `AddSystems(s)` gives `s` again; it holds no runnables and no flushes |
| Schedule.AddThreadLocalsInverse | src/app/app_builder.rs:78-80 | reading the runnables back from `AddThreadLocals(s)` gives `s` again; it holds no systems and no flushes |
| Schedule.StageStepsContents | src/app/app_builder.rs:69-83 | one visit yields the name's systems, then its runnables, and one flush per map that holds the name; a name in neither map yields nothing |
| Schedule.MainStepsAppend | src/app/app_builder.rs:68 | the walk over `a + b` is the walk over `a` followed by the walk over `b` on what `a` left: the order of the schedule follows the stage order |
| Schedule.WalkStep | src/app/app_builder.rs:68-84 | one more iteration of the walk appends the visit of the next name, made on the maps the earlier names left |
| Schedule.AbsentNameInert | src/app/app_builder.rs:69-83 | a name in neither map adds nothing, and no flush, wherever it stands in the order |
| Schedule.RepeatedNameInert | src/app/app_builder.rs:69-77 | a second occurrence of a name in the order adds nothing, because the first visit removed both entries |
| Schedule.UnitsRemove | src/app/app_builder.rs:69 | removing an entry from a map takes exactly its list out of the map's multiset of units |
| Schedule.MainStepsConsumesAll | src/app/app_builder.rs:67-84 | when every key of both maps is in the order, the schedule's systems and runnables are exactly the units of the maps (as multisets), and it holds one flush per map entry |

## Left out

- The internals of `World`, `Resources`, `Universe` and `Schedule` are left out. These are foreign library types: each is an opaque handle. A schedule is the list of builder calls that make it. Executing the setup schedule is the parameter `execute`, a pure function of the schedule, the world and the resources.
- The internals of the render graph's builder are left out. `setup_render_graph` takes a `configure` parameter, which stands for the graph's `build`, the caller's setup function and `finish`.
- `add_default_resources`, `add_default_systems`, `add_render_graph_defaults` and `add_defaults` are left out. They are fixed lists of calls into foreign constructors and systems.
- `add_wgpu_renderer` is left out. It is a GPU backend behind a compile-time feature.
- `run` is left out. It is an unbounded loop that drives the renderer.
- `load_plugin` is left out. It loads a dynamic library over the FFI.
- The hot-asset-reloading example application is left out. It is application code with no builder logic in it.
- `UPDATE` is given the value `"update"`. The module that defines it, src/app/system_stage.rs, is not part of this model. Only its identity matters here.
- Stage names are compared as strings. Hashing and the owned/borrowed distinction are not modelled.
- A panic is a `Failure` result here, and the builder is left in the state at the point of the panic. Unwinding and `Drop` are not modelled.
- The original makes the first-sighting test per map, and after each stage adds a flush only for a kind the stage has. Descriptions that speak of one check across both kinds, or of one barrier per stage, disagree with it. The model follows the code.
