/**
 * `AppBuilder`: the object an application is configured through. It owns the
 * world, the resource table, the universe, the renderer and the render graph
 * in `Option` slots, collects setup systems, and keeps a stage registry (two
 * maps from stage name to work list, plus the order in which the names were
 * first seen). `build` runs the setup systems once, walks the stage order to
 * assemble the main schedule, and moves the slots out into an `App`.
 *
 * An `unwrap` on an empty slot, which panics in the original, is a `Failure`
 * here, and the builder is left in the state the panic would have found it in.
 *
 * The class keeps the original's fields; `State()` gives them as one value,
 * and every method states its effect as a function of that value. The
 * properties of the builder are lemmas about those functions.
 */
module Builder {
  import opened Schedule

  datatype Option<T> = None | Some(value: T)

  /** Opaque handles of the foreign values the builder owns. */
  datatype World = World(id: nat)
  datatype Universe = Universe(id: nat)
  datatype Renderer = Renderer(id: nat)
  datatype RenderGraph = RenderGraph(id: nat)

  /**
   * The resource table, keyed by type. Its render-graph entry is the one
   * this model reads and writes; everything else in it is an opaque handle.
   */
  datatype Resources = Resources(others: nat, renderGraph: Option<RenderGraph>)

  /** The application `build` hands out. */
  datatype App = App(universe: Universe, world: World, schedule: seq<Step>,
                     resources: Resources, renderer: Option<Renderer>)

  /** The slot that an `unwrap` found empty. */
  datatype SlotError = WorldMissing | ResourcesMissing | RenderGraphMissing | UniverseMissing

  datatype Result<T> = Success(value: T) | Failure(error: SlotError)

  datatype Outcome = Pass | Fail(error: SlotError)

  /** The stage `add_system` registers into. */
  const UPDATE: StageName := "update"

  /** Executes a schedule once against the world and the resources (the foreign executor). */
  type Executor = (seq<Step>, World, Resources) -> (World, Resources)

  /** The fields of an `AppBuilder`, as one value. */
  datatype BuilderState = BuilderState(
    world: Option<World>,
    resources: Option<Resources>,
    universe: Option<Universe>,
    renderer: Option<Renderer>,
    renderGraph: Option<RenderGraph>,
    setupSystems: seq<System>,
    systemStages: map<StageName, seq<System>>,
    runnableStages: map<StageName, seq<Runnable>>,
    stageOrder: seq<StageName>)

  /** Every stage name that holds a list, of either kind, occurs in the stage order. */
  predicate KeysOrdered(s: BuilderState)
  {
    && (forall n | n in s.systemStages :: n in s.stageOrder)
    && (forall n | n in s.runnableStages :: n in s.stageOrder)
  }

  /**
   * While the builder is being configured, each name occurs in the stage
   * order once for every map that holds it: once if registered under one
   * kind of work, twice if registered under both.
   */
  ghost predicate OrderCountsKinds(s: BuilderState)
  {
    forall n :: multiset(s.stageOrder)[n]
                == (if n in s.systemStages then 1 else 0) + (if n in s.runnableStages then 1 else 0)
  }

  // ---------------------------------------------------------------------------
  // Registration

  /**
   * `add_system_to_stage(stageName, system)`: a name absent from
   * `systemStages` gets an empty list and is appended to the stage order;
   * then `system` is appended to the name's list.
   */
  function WithSystem(s: BuilderState, stageName: StageName, system: System): (r: BuilderState)
    ensures stageName in r.systemStages
    ensures r.systemStages[stageName]
         == (if stageName in s.systemStages then s.systemStages[stageName] else []) + [system]
    ensures forall n | n != stageName :: (n in r.systemStages <==> n in s.systemStages)
    ensures forall n | n != stageName && n in s.systemStages :: r.systemStages[n] == s.systemStages[n]
    ensures r.stageOrder == if stageName in s.systemStages then s.stageOrder else s.stageOrder + [stageName]
    ensures r.(systemStages := s.systemStages, stageOrder := s.stageOrder) == s
  {
    var known := stageName in s.systemStages;
    var list := if known then s.systemStages[stageName] else [];
    s.(systemStages := s.systemStages[stageName := list + [system]],
       stageOrder := if known then s.stageOrder else s.stageOrder + [stageName])
  }

  /** `add_runnable_to_stage(stageName, runnable)`: as `WithSystem`, on `runnableStages`. */
  function WithRunnable(s: BuilderState, stageName: StageName, runnable: Runnable): (r: BuilderState)
    ensures stageName in r.runnableStages
    ensures r.runnableStages[stageName]
         == (if stageName in s.runnableStages then s.runnableStages[stageName] else []) + [runnable]
    ensures forall n | n != stageName :: (n in r.runnableStages <==> n in s.runnableStages)
    ensures forall n | n != stageName && n in s.runnableStages :: r.runnableStages[n] == s.runnableStages[n]
    ensures r.stageOrder == if stageName in s.runnableStages then s.stageOrder else s.stageOrder + [stageName]
    ensures r.(runnableStages := s.runnableStages, stageOrder := s.stageOrder) == s
  {
    var known := stageName in s.runnableStages;
    var list := if known then s.runnableStages[stageName] else [];
    s.(runnableStages := s.runnableStages[stageName := list + [runnable]],
       stageOrder := if known then s.stageOrder else s.stageOrder + [stageName])
  }

  /** Registration keeps every key in the stage order, and only ever appends to that order. */
  lemma RegistrationKeepsKeysOrdered(s: BuilderState, stageName: StageName, system: System, runnable: Runnable)
    requires KeysOrdered(s)
    ensures KeysOrdered(WithSystem(s, stageName, system))
    ensures KeysOrdered(WithRunnable(s, stageName, runnable))
    ensures WithSystem(s, stageName, system).stageOrder[..|s.stageOrder|] == s.stageOrder
    ensures WithRunnable(s, stageName, runnable).stageOrder[..|s.stageOrder|] == s.stageOrder
  {
  }

  /**
   * The first-sighting test is made per map: registering a name under the
   * second kind of work appends it to the stage order a second time.
   */
  lemma RegistrationCountsKinds(s: BuilderState, stageName: StageName, system: System, runnable: Runnable)
    requires OrderCountsKinds(s)
    ensures OrderCountsKinds(WithSystem(s, stageName, system))
    ensures OrderCountsKinds(WithRunnable(s, stageName, runnable))
  {
  }

  /**
   * A name registered under both kinds of work enters the stage order twice,
   * yet its work is scheduled once: the second visit finds both lists gone.
   */
  lemma MixedStageScheduledOnce(s: BuilderState, system: System, runnable: Runnable)
    requires s.systemStages == map[] && s.runnableStages == map[] && s.stageOrder == []
    ensures var t := WithRunnable(WithSystem(s, "a", system), "a", runnable);
            && t.stageOrder == ["a", "a"]
            && MainSteps(t.stageOrder, t.systemStages, t.runnableStages)
               == [AddSystem(system), Flush, AddThreadLocal(runnable), Flush]
  {
    var a: StageName := "a";
    var u := WithSystem(s, a, system);
    assert u.systemStages == map[a := [system]];
    assert u.runnableStages == map[] && u.stageOrder == [a];
    var t := WithRunnable(u, a, runnable);
    assert a !in u.runnableStages;
    assert t.runnableStages[a] == [runnable];
    assert t.runnableStages.Keys == {a};
    assert t.runnableStages == u.runnableStages[a := [runnable]];
    assert t.systemStages == map[a := [system]];
    assert t.runnableStages == map[a := [runnable]];
    assert AddSystems([system]) == [AddSystem(system)];
    assert AddThreadLocals([runnable]) == [AddThreadLocal(runnable)];
    assert StageSteps(a, t.systemStages, t.runnableStages)
        == [AddSystem(system), Flush, AddThreadLocal(runnable), Flush];
    assert t.systemStages - {a} == map[];
    assert t.runnableStages - {a} == map[];
    assert StageSteps(a, map[], map[]) == [];
    assert t.stageOrder[1..] == [a];
    assert MainSteps([a], map[], map[]) == [];
  }

  // ---------------------------------------------------------------------------
  // Build

  /**
   * The first part of `build`: the setup list is drained into a setup
   * schedule, in registration order, before either slot is unwrapped; the
   * schedule is then executed once against the world and the resources.
   */
  function SetupRun(s: BuilderState, execute: Executor): (BuilderState, Outcome)
  {
    var drained := s.(setupSystems := []);
    if s.world.None? then (drained, Fail(WorldMissing))
    else if s.resources.None? then (drained, Fail(ResourcesMissing))
    else
      var ran := execute(AddSystems(s.setupSystems), s.world.value, s.resources.value);
      (drained.(world := Some(ran.0), resources := Some(ran.1)), Pass)
  }

  /** The registry after the stage walk: every name of the stage order is removed from both maps. */
  function Drained(s: BuilderState): BuilderState
  {
    s.(systemStages := s.systemStages - Names(s.stageOrder),
       runnableStages := s.runnableStages - Names(s.stageOrder))
  }

  /**
   * The last part of `build`: the render graph is taken (its slot emptied
   * before the `unwrap`) and inserted into the resource table; then the
   * universe, the world, the resources and the renderer are taken out into
   * the `App`.
   */
  function MovedOut(s: BuilderState, schedule: seq<Step>): (BuilderState, Result<App>)
    requires s.world.Some? && s.resources.Some?
  {
    var taken := s.(renderGraph := None);
    if s.renderGraph.None? then (taken, Failure(RenderGraphMissing))
    else
      var res := s.resources.value.(renderGraph := s.renderGraph);
      var inserted := taken.(resources := Some(res), universe := None);
      if s.universe.None? then (inserted, Failure(UniverseMissing))
      else
        (inserted.(world := None, resources := None, renderer := None),
         Success(App(s.universe.value, s.world.value, schedule, res, s.renderer)))
  }

  /** `build`, as a function of the builder's state: the new state and the result. */
  function Built(s: BuilderState, execute: Executor): (BuilderState, Result<App>)
  {
    var setup := SetupRun(s, execute);
    if setup.1.Fail? then (setup.0, Failure(setup.1.error))
    else MovedOut(Drained(setup.0), MainSteps(s.stageOrder, s.systemStages, s.runnableStages))
  }

  /**
   * `build` succeeds exactly when the world, resources, render-graph and
   * universe slots are all filled, and otherwise names the first empty one
   * it unwraps. Either way the setup list ends empty and the stage order
   * is left as it was.
   */
  lemma BuildFailsOnFirstEmptySlot(s: BuilderState, execute: Executor)
    ensures s.world.None? ==> Built(s, execute).1 == Failure(WorldMissing)
    ensures s.world.Some? && s.resources.None? ==> Built(s, execute).1 == Failure(ResourcesMissing)
    ensures s.world.Some? && s.resources.Some? && s.renderGraph.None? ==>
              Built(s, execute).1 == Failure(RenderGraphMissing)
    ensures s.world.Some? && s.resources.Some? && s.renderGraph.Some? && s.universe.None? ==>
              Built(s, execute).1 == Failure(UniverseMissing)
    ensures Built(s, execute).1.Success?
        <==> s.world.Some? && s.resources.Some? && s.renderGraph.Some? && s.universe.Some?
    ensures Built(s, execute).0.setupSystems == []
    ensures Built(s, execute).0.stageOrder == s.stageOrder
  {
  }

  /**
   * A successful `build` runs the setup systems, in registration order,
   * before anything else, hands out the main schedule of the stage walk with
   * the render graph inserted into the resource table, and leaves every slot
   * empty.
   */
  lemma BuildMovesEverythingOut(s: BuilderState, execute: Executor)
    requires Built(s, execute).1.Success?
    ensures SystemsOf(AddSystems(s.setupSystems)) == s.setupSystems
    ensures var ran := execute(AddSystems(s.setupSystems), s.world.value, s.resources.value);
            Built(s, execute).1.value
            == App(s.universe.value, ran.0, MainSteps(s.stageOrder, s.systemStages, s.runnableStages),
                   ran.1.(renderGraph := s.renderGraph), s.renderer)
    ensures Built(s, execute).1.value.resources.renderGraph == s.renderGraph
    ensures var t := Built(s, execute).0;
            t.world.None? && t.resources.None? && t.universe.None? && t.renderer.None? && t.renderGraph.None?
  {
    AddSystemsInverse(s.setupSystems);
  }

  /** Whatever the first `build` did, a second one finds an empty slot and fails. */
  lemma SecondBuildFails(s: BuilderState, execute: Executor)
    ensures Built(Built(s, execute).0, execute).1.Failure?
    ensures Built(s, execute).1.Success? ==> Built(Built(s, execute).0, execute).1 == Failure(WorldMissing)
  {
  }

  /**
   * With every key in the stage order, the walk removes every entry of both
   * maps, and a successful `build` puts every registered unit into the main
   * schedule exactly once, with one flush per map entry.
   */
  lemma BuildConsumesEveryUnit(s: BuilderState, execute: Executor)
    requires KeysOrdered(s)
    ensures KeysOrdered(Built(s, execute).0)
    ensures s.world.Some? && s.resources.Some? ==>
              Built(s, execute).0.systemStages == map[] && Built(s, execute).0.runnableStages == map[]
    ensures Built(s, execute).1.Success? ==>
              var schedule := Built(s, execute).1.value.schedule;
              && multiset(SystemsOf(schedule)) == Units(s.systemStages)
              && multiset(RunnablesOf(schedule)) == Units(s.runnableStages)
              && FlushCount(schedule) == |s.systemStages| + |s.runnableStages|
  {
    if s.world.Some? && s.resources.Some? {
      var t := Built(s, execute).0;
      assert t.systemStages == s.systemStages - Names(s.stageOrder);
      assert t.runnableStages == s.runnableStages - Names(s.stageOrder);
      assert t.systemStages.Keys == {};
      assert t.runnableStages.Keys == {};
      MainStepsConsumesAll(s.stageOrder, s.systemStages, s.runnableStages);
    }
  }

  // ---------------------------------------------------------------------------
  // The builder object

  class AppBuilder {
    var world: Option<World>
    var resources: Option<Resources>
    var universe: Option<Universe>
    var renderer: Option<Renderer>
    var renderGraph: Option<RenderGraph>
    var setupSystems: seq<System>
    var systemStages: map<StageName, seq<System>>
    var runnableStages: map<StageName, seq<Runnable>>
    var stageOrder: seq<StageName>

    /** The builder's fields as one value. */
    function State(): BuilderState
      reads this
    {
      BuilderState(world, resources, universe, renderer, renderGraph,
                   setupSystems, systemStages, runnableStages, stageOrder)
    }

    /**
     * `AppBuilder::new`: the world is created from the universe, the resource
     * table and the render graph are their defaults, there is no renderer,
     * and the registry is empty.
     */
    constructor (universe: Universe, world: World, resources: Resources, renderGraph: RenderGraph)
      ensures State() == BuilderState(Some(world), Some(resources), Some(universe), None, Some(renderGraph),
                                      [], map[], map[], [])
      ensures KeysOrdered(State()) && OrderCountsKinds(State())
    {
      this.universe := Some(universe);
      this.world := Some(world);
      this.resources := Some(resources);
      this.renderGraph := Some(renderGraph);
      this.renderer := None;
      setupSystems := [];
      systemStages := map[];
      runnableStages := map[];
      stageOrder := [];
    }

    /** `with_world`: replaces whatever the world slot holds. */
    method WithWorld(world: World)
      modifies this
      ensures State() == old(State()).(world := Some(world))
    {
      this.world := Some(world);
    }

    /** `setup_world`: hands the world and the resources to a configuration function. */
    method SetupWorld(setup: (World, Resources) -> (World, Resources)) returns (r: Outcome)
      modifies this
      ensures r == if old(world).None? then Fail(WorldMissing)
                   else if old(resources).None? then Fail(ResourcesMissing)
                   else Pass
      ensures r.Fail? ==> State() == old(State())
      ensures r.Pass? ==>
                var done := setup(old(world).value, old(resources).value);
                State() == old(State()).(world := Some(done.0), resources := Some(done.1))
    {
      if world.None? {
        return Fail(WorldMissing);
      }
      if resources.None? {
        return Fail(ResourcesMissing);
      }
      var done := setup(world.value, resources.value);
      world, resources := Some(done.0), Some(done.1);
      r := Pass;
    }

    /** `add_setup_system`: appends to the one-shot setup list. */
    method AddSetupSystem(system: System)
      modifies this
      ensures State() == old(State()).(setupSystems := old(setupSystems) + [system])
    {
      setupSystems := setupSystems + [system];
    }

    /** `add_system_to_stage`. */
    method AddSystemToStage(stageName: StageName, system: System)
      modifies this
      ensures State() == WithSystem(old(State()), stageName, system)
    {
      if stageName !in systemStages {
        systemStages := systemStages[stageName := []];
        stageOrder := stageOrder + [stageName];
      }
      systemStages := systemStages[stageName := systemStages[stageName] + [system]];
    }

    /** `add_runnable_to_stage`. */
    method AddRunnableToStage(stageName: StageName, runnable: Runnable)
      modifies this
      ensures State() == WithRunnable(old(State()), stageName, runnable)
    {
      if stageName !in runnableStages {
        runnableStages := runnableStages[stageName := []];
        stageOrder := stageOrder + [stageName];
      }
      runnableStages := runnableStages[stageName := runnableStages[stageName] + [runnable]];
    }

    /** `add_system`: registration into the `UPDATE` stage. */
    method AddSystem(system: System)
      modifies this
      ensures State() == WithSystem(old(State()), UPDATE, system)
    {
      AddSystemToStage(UPDATE, system);
    }

    /**
     * `setup_render_graph`: takes the render graph out of its slot (emptying
     * it before the `unwrap`), lets `configure` (the graph's builder, the
     * caller's setup function and `finish`, with the resource table borrowed)
     * produce the new graph, and puts that back.
     */
    method SetupRenderGraph(configure: (RenderGraph, Resources) -> (RenderGraph, Resources)) returns (r: Outcome)
      modifies this
      ensures r == if old(renderGraph).None? then Fail(RenderGraphMissing)
                   else if old(resources).None? then Fail(ResourcesMissing)
                   else Pass
      ensures r.Fail? ==> State() == old(State()).(renderGraph := None)
      ensures r.Pass? ==>
                var done := configure(old(renderGraph).value, old(resources).value);
                State() == old(State()).(renderGraph := Some(done.0), resources := Some(done.1))
    {
      var graph := renderGraph;
      renderGraph := None;
      if graph.None? {
        return Fail(RenderGraphMissing);
      }
      if resources.None? {
        return Fail(ResourcesMissing);
      }
      var done := configure(graph.value, resources.value);
      renderGraph, resources := Some(done.0), Some(done.1);
      r := Pass;
    }

    /** The first part of `build`. */
    method RunSetup(execute: Executor) returns (r: Outcome)
      modifies this`setupSystems, this`world, this`resources
      ensures (State(), r) == SetupRun(old(State()), execute)
    {
      var setupSchedule := AppendSystems([], setupSystems);
      assert setupSchedule == AddSystems(old(setupSystems));
      setupSystems := [];
      if world.None? {
        return Fail(WorldMissing);
      }
      if resources.None? {
        return Fail(ResourcesMissing);
      }
      var ran := execute(setupSchedule, world.value, resources.value);
      world, resources := Some(ran.0), Some(ran.1);
      r := Pass;
    }

    /**
     * One visit of the stage walk: remove the name's parallel list, if it has
     * one, and add its systems and a flush; then remove its thread-local list,
     * if it has one, and add its runnables and a flush.
     */
    method VisitStage(stageName: StageName) returns (steps: seq<Step>)
      modifies this`systemStages, this`runnableStages
      ensures steps == StageSteps(stageName, old(systemStages), old(runnableStages))
      ensures systemStages == old(systemStages) - {stageName}
      ensures runnableStages == old(runnableStages) - {stageName}
    {
      steps := [];
      if stageName in systemStages {
        var stageSystems := systemStages[stageName];
        systemStages := systemStages - {stageName};
        steps := AppendSystems(steps, stageSystems);
        steps := steps + [Flush];
      } else {
        assert systemStages == old(systemStages) - {stageName};
      }
      if stageName in runnableStages {
        var stageRunnables := runnableStages[stageName];
        runnableStages := runnableStages - {stageName};
        steps := AppendThreadLocals(steps, stageRunnables);
        steps := steps + [Flush];
      } else {
        assert runnableStages == old(runnableStages) - {stageName};
      }
    }

    /** The stage walk of `build`, over the stage order in order. */
    method DrainStages() returns (schedule: seq<Step>)
      modifies this`systemStages, this`runnableStages
      ensures schedule == MainSteps(stageOrder, old(systemStages), old(runnableStages))
      ensures State() == Drained(old(State()))
    {
      schedule := [];
      var i := 0;
      while i < |stageOrder|
        invariant 0 <= i <= |stageOrder|
        invariant systemStages == old(systemStages) - Names(stageOrder[..i])
        invariant runnableStages == old(runnableStages) - Names(stageOrder[..i])
        invariant schedule == MainSteps(stageOrder[..i], old(systemStages), old(runnableStages))
      {
        WalkStep(stageOrder, i, old(systemStages), old(runnableStages));
        var steps := VisitStage(stageOrder[i]);
        schedule := schedule + steps;
        i := i + 1;
      }
      assert stageOrder[..i] == stageOrder;
    }

    /** The last part of `build`. */
    method MoveOut(schedule: seq<Step>) returns (r: Result<App>)
      requires world.Some? && resources.Some?
      modifies this`renderGraph, this`resources, this`universe, this`world, this`renderer
      ensures (State(), r) == MovedOut(old(State()), schedule)
    {
      var graph := renderGraph;
      renderGraph := None;
      if graph.None? {
        return Failure(RenderGraphMissing);
      }
      resources := Some(resources.value.(renderGraph := graph));

      var u := universe;
      universe := None;
      if u.None? {
        return Failure(UniverseMissing);
      }
      var w, res, rd := world.value, resources.value, renderer;
      world, resources, renderer := None, None, None;
      r := Success(App(u.value, w, schedule, res, rd));
    }

    /**
     * `build`: run the setup systems once, walk the stage order into the main
     * schedule, move the render graph into the resource table and the slots
     * out into the `App`.
     */
    method Build(execute: Executor) returns (r: Result<App>)
      modifies this
      ensures (State(), r) == Built(old(State()), execute)
    {
      var setup := RunSetup(execute);
      if setup.Fail? {
        return Failure(setup.error);
      }
      var schedule := DrainStages();
      r := MoveOut(schedule);
    }
  }

  /** Building twice: the second `Build` always fails. */
  method BuildTwice(builder: AppBuilder, execute: Executor) returns (first: Result<App>, second: Result<App>)
    modifies builder
    ensures second.Failure?
    ensures first.Success? ==> second == Failure(WorldMissing)
  {
    ghost var s := builder.State();
    first := builder.Build(execute);
    second := builder.Build(execute);
    SecondBuildFails(s, execute);
  }
}
