/**
 * The schedule that `AppBuilder::build` assembles, as a list of builder steps,
 * and the stage walk that produces it from the stage registry.
 *
 * The executor that runs a schedule is a foreign library; what this module
 * captures is the shape of the step list handed to it: which systems are
 * added, in which order, as parallel or thread-local work, and where the
 * flushes (the barriers between stages) fall.
 */
module Schedule {

  /** Opaque handle of a parallel (`Schedulable`) system. */
  datatype System = System(id: nat)

  /** Opaque handle of a thread-local (`Runnable`) system. */
  datatype Runnable = Runnable(id: nat)

  /** One call on the schedule builder. */
  datatype Step = AddSystem(system: System) | AddThreadLocal(runnable: Runnable) | Flush

  type StageName = string

  /** The set of names that occur in a stage order. */
  function Names(order: seq<StageName>): set<StageName>
  {
    set n | n in order
  }

  // ---------------------------------------------------------------------------
  // Specification functions

  /** The steps that add each system of `s`, in order, as parallel work. */
  function AddSystems(s: seq<System>): (r: seq<Step>)
  {
    if s == [] then [] else AddSystems(s[..|s| - 1]) + [AddSystem(s[|s| - 1])]
  }

  /** The steps that add each runnable of `s`, in order, as thread-local work. */
  function AddThreadLocals(s: seq<Runnable>): (r: seq<Step>)
  {
    if s == [] then [] else AddThreadLocals(s[..|s| - 1]) + [AddThreadLocal(s[|s| - 1])]
  }

  /** The parallel systems a step list adds, in the order it adds them. */
  function SystemsOf(steps: seq<Step>): (r: seq<System>)
    ensures |r| <= |steps|
  {
    if steps == [] then []
    else (if steps[0].AddSystem? then [steps[0].system] else []) + SystemsOf(steps[1..])
  }

  /** The thread-local runnables a step list adds, in the order it adds them. */
  function RunnablesOf(steps: seq<Step>): (r: seq<Runnable>)
    ensures |r| <= |steps|
  {
    if steps == [] then []
    else (if steps[0].AddThreadLocal? then [steps[0].runnable] else []) + RunnablesOf(steps[1..])
  }

  /** The number of flushes in a step list. */
  function FlushCount(steps: seq<Step>): (r: nat)
    ensures r <= |steps|
  {
    if steps == [] then 0
    else (if steps[0].Flush? then 1 else 0) + FlushCount(steps[1..])
  }

  /**
   * What one visit of `stageName` during the stage walk contributes: the
   * parallel list (if the name has one) followed by a flush, then the
   * thread-local list (if it has one) followed by a flush.
   */
  function StageSteps(stageName: StageName, systems: map<StageName, seq<System>>,
                      runnables: map<StageName, seq<Runnable>>): seq<Step>
  {
    (if stageName in systems then AddSystems(systems[stageName]) + [Flush] else [])
    + (if stageName in runnables then AddThreadLocals(runnables[stageName]) + [Flush] else [])
  }

  /**
   * The main schedule: the stage walk over `order`, where each visited name's
   * entries are removed from both maps before the walk moves on, so a name
   * seen again later finds nothing.
   */
  function MainSteps(order: seq<StageName>, systems: map<StageName, seq<System>>,
                     runnables: map<StageName, seq<Runnable>>): seq<Step>
    decreases |order|
  {
    if order == [] then []
    else StageSteps(order[0], systems, runnables)
         + MainSteps(order[1..], systems - {order[0]}, runnables - {order[0]})
  }

  /** Every unit held in a stage map, counted with multiplicity. */
  ghost function Units<T>(stages: map<StageName, seq<T>>): multiset<T>
    decreases |stages|
  {
    if stages == map[] then multiset{}
    else
      var n :| n in stages;
      assert (stages - {n}).Keys == stages.Keys - {n};
      multiset(stages[n]) + Units(stages - {n})
  }

  // ---------------------------------------------------------------------------
  // Lemmas

  /** Extracting systems, runnables and flushes distributes over concatenation. */
  lemma {:induction false} StepsOfConcat(a: seq<Step>, b: seq<Step>)
    ensures SystemsOf(a + b) == SystemsOf(a) + SystemsOf(b)
    ensures RunnablesOf(a + b) == RunnablesOf(a) + RunnablesOf(b)
    ensures FlushCount(a + b) == FlushCount(a) + FlushCount(b)
  {
    if a != [] {
      assert (a + b)[0] == a[0];
      assert (a + b)[1..] == a[1..] + b;
      StepsOfConcat(a[1..], b);
    } else {
      assert a + b == b;
    }
  }

  /** `SystemsOf` recovers exactly the list that `AddSystems` added, and nothing else is added. */
  lemma {:induction false} AddSystemsInverse(s: seq<System>)
    ensures SystemsOf(AddSystems(s)) == s
    ensures RunnablesOf(AddSystems(s)) == []
    ensures FlushCount(AddSystems(s)) == 0
  {
    if s != [] {
      var init := s[..|s| - 1];
      AddSystemsInverse(init);
      StepsOfConcat(AddSystems(init), [AddSystem(s[|s| - 1])]);
      assert [AddSystem(s[|s| - 1])][1..] == [];
      assert init + [s[|s| - 1]] == s;
    }
  }

  /** `RunnablesOf` recovers exactly the list that `AddThreadLocals` added, and nothing else is added. */
  lemma {:induction false} AddThreadLocalsInverse(s: seq<Runnable>)
    ensures RunnablesOf(AddThreadLocals(s)) == s
    ensures SystemsOf(AddThreadLocals(s)) == []
    ensures FlushCount(AddThreadLocals(s)) == 0
  {
    if s != [] {
      var init := s[..|s| - 1];
      AddThreadLocalsInverse(init);
      StepsOfConcat(AddThreadLocals(init), [AddThreadLocal(s[|s| - 1])]);
      assert [AddThreadLocal(s[|s| - 1])][1..] == [];
      assert init + [s[|s| - 1]] == s;
    }
  }

  /**
   * One visit of `stageName` adds exactly that name's parallel list and its
   * thread-local list, in insertion order, and one flush for each of the two
   * that exists.
   */
  lemma StageStepsContents(stageName: StageName, systems: map<StageName, seq<System>>,
                           runnables: map<StageName, seq<Runnable>>)
    ensures SystemsOf(StageSteps(stageName, systems, runnables))
         == if stageName in systems then systems[stageName] else []
    ensures RunnablesOf(StageSteps(stageName, systems, runnables))
         == if stageName in runnables then runnables[stageName] else []
    ensures FlushCount(StageSteps(stageName, systems, runnables))
         == (if stageName in systems then 1 else 0) + (if stageName in runnables then 1 else 0)
  {
    var parallel := if stageName in systems then AddSystems(systems[stageName]) + [Flush] else [];
    var local := if stageName in runnables then AddThreadLocals(runnables[stageName]) + [Flush] else [];
    if stageName in systems {
      AddSystemsInverse(systems[stageName]);
      StepsOfConcat(AddSystems(systems[stageName]), [Flush]);
    }
    if stageName in runnables {
      AddThreadLocalsInverse(runnables[stageName]);
      StepsOfConcat(AddThreadLocals(runnables[stageName]), [Flush]);
    }
    StepsOfConcat(parallel, local);
  }

  /**
   * The walk over `a + b` is the walk over `a` followed by the walk over `b`
   * on what `a` left behind: every step contributed by an earlier name comes
   * before every step contributed by a later one.
   */
  lemma {:induction false} MainStepsAppend(a: seq<StageName>, b: seq<StageName>,
                                           systems: map<StageName, seq<System>>,
                                           runnables: map<StageName, seq<Runnable>>)
    ensures MainSteps(a + b, systems, runnables)
         == MainSteps(a, systems, runnables) + MainSteps(b, systems - Names(a), runnables - Names(a))
    decreases |a|
  {
    if a == [] {
      assert a + b == b;
      assert systems - Names(a) == systems;
      assert runnables - Names(a) == runnables;
    } else {
      var n := a[0];
      var systems', runnables' := systems - {n}, runnables - {n};
      assert (a + b)[0] == n;
      assert (a + b)[1..] == a[1..] + b;
      calc {
        MainSteps(a + b, systems, runnables);
        StageSteps(n, systems, runnables) + MainSteps(a[1..] + b, systems', runnables');
        { MainStepsAppend(a[1..], b, systems', runnables'); }
        StageSteps(n, systems, runnables) + (MainSteps(a[1..], systems', runnables')
          + MainSteps(b, systems' - Names(a[1..]), runnables' - Names(a[1..])));
      }
      RemoveNames(systems, a);
      RemoveNames(runnables, a);
    }
  }

  /** Removing the head of an order and then the rest removes all of its names. */
  lemma RemoveNames<T>(stages: map<StageName, T>, a: seq<StageName>)
    requires a != []
    ensures stages - {a[0]} - Names(a[1..]) == stages - Names(a)
  {
  }

  /** Removing the names of an order and then one more name removes the names of the longer order. */
  lemma RemoveNext<T>(stages: map<StageName, T>, before: seq<StageName>, n: StageName)
    ensures stages - Names(before) - {n} == stages - Names(before + [n])
    ensures n !in stages - Names(before) ==> stages - Names(before) - {n} == stages - Names(before)
  {
  }

  /** A walk over a single name is that name's visit. */
  lemma MainStepsSingle(n: StageName, systems: map<StageName, seq<System>>,
                        runnables: map<StageName, seq<Runnable>>)
    ensures MainSteps([n], systems, runnables) == StageSteps(n, systems, runnables)
  {
  }

  /**
   * One more step of the walk over a prefix of `order`: the next name's visit
   * on what the prefix left behind, which then loses that name too.
   */
  lemma WalkStep(order: seq<StageName>, i: nat, systems: map<StageName, seq<System>>,
                 runnables: map<StageName, seq<Runnable>>)
    requires i < |order|
    ensures MainSteps(order[..i + 1], systems, runnables)
         == MainSteps(order[..i], systems, runnables)
            + StageSteps(order[i], systems - Names(order[..i]), runnables - Names(order[..i]))
    ensures systems - Names(order[..i + 1]) == systems - Names(order[..i]) - {order[i]}
    ensures runnables - Names(order[..i + 1]) == runnables - Names(order[..i]) - {order[i]}
  {
    var before, n := order[..i], order[i];
    assert order[..i + 1] == before + [n];
    MainStepsAppend(before, [n], systems, runnables);
    MainStepsSingle(n, systems - Names(before), runnables - Names(before));
    RemoveNext(systems, before, n);
    RemoveNext(runnables, before, n);
  }

  /** A name that has no entry in either map contributes nothing, wherever it stands in the order. */
  lemma {:induction false} AbsentNameInert(a: seq<StageName>, n: StageName, b: seq<StageName>,
                                           systems: map<StageName, seq<System>>,
                                           runnables: map<StageName, seq<Runnable>>)
    requires n !in systems && n !in runnables
    ensures MainSteps(a + [n] + b, systems, runnables) == MainSteps(a + b, systems, runnables)
    decreases |a|
  {
    if a == [] {
      assert a + [n] + b == [n] + b;
      assert ([n] + b)[1..] == b;
      assert a + b == b;
      assert systems - {n} == systems;
      assert runnables - {n} == runnables;
    } else {
      var m := a[0];
      assert (a + [n] + b)[1..] == a[1..] + [n] + b;
      assert (a + b)[1..] == a[1..] + b;
      AbsentNameInert(a[1..], n, b, systems - {m}, runnables - {m});
    }
  }

  /**
   * A name that occurs again later in the order (as happens when it was
   * registered under both kinds) adds no steps on its second visit.
   */
  lemma {:induction false} RepeatedNameInert(a: seq<StageName>, n: StageName, b: seq<StageName>, c: seq<StageName>,
                                             systems: map<StageName, seq<System>>,
                                             runnables: map<StageName, seq<Runnable>>)
    ensures MainSteps(a + [n] + b + [n] + c, systems, runnables)
         == MainSteps(a + [n] + b + c, systems, runnables)
    decreases |a|
  {
    if a == [] {
      assert (a + [n] + b + [n] + c)[1..] == b + [n] + c;
      assert (a + [n] + b + c)[1..] == b + c;
      AbsentNameInert(b, n, c, systems - {n}, runnables - {n});
    } else {
      var m := a[0];
      assert (a + [n] + b + [n] + c)[1..] == a[1..] + [n] + b + [n] + c;
      assert (a + [n] + b + c)[1..] == a[1..] + [n] + b + c;
      RepeatedNameInert(a[1..], n, b, c, systems - {m}, runnables - {m});
    }
  }

  /** Taking one stage's list out of a map takes exactly its units out of the total. */
  lemma {:induction false} UnitsRemove<T>(stages: map<StageName, seq<T>>, k: StageName)
    requires k in stages
    ensures Units(stages) == multiset(stages[k]) + Units(stages - {k})
    decreases |stages|
  {
    var n :| n in stages && Units(stages) == multiset(stages[n]) + Units(stages - {n});
    if n != k {
      assert (stages - {n}).Keys == stages.Keys - {n};
      assert (stages - {k}).Keys == stages.Keys - {k};
      UnitsRemove(stages - {n}, k);
      UnitsRemove(stages - {k}, n);
      assert stages - {n} - {k} == stages - {k} - {n};
    }
  }

  /** One visit of `n` takes its list (if any) out of the total and one entry out of the count. */
  lemma UnitsVisit<T>(stages: map<StageName, seq<T>>, n: StageName)
    ensures Units(stages) == (if n in stages then multiset(stages[n]) else multiset{}) + Units(stages - {n})
    ensures |stages| == (if n in stages then 1 else 0) + |stages - {n}|
  {
    assert (stages - {n}).Keys == stages.Keys - {n};
    if n in stages {
      UnitsRemove(stages, n);
    } else {
      assert stages - {n} == stages;
    }
  }

  /** Keys that occur in an order still occur in its tail once the head's entry is gone. */
  lemma KeysInRest<T>(stages: map<StageName, T>, order: seq<StageName>)
    requires order != []
    requires forall k | k in stages :: k in order
    ensures forall k | k in stages - {order[0]} :: k in order[1..]
  {
  }

  /**
   * When every key of both maps occurs in the order, the walk consumes every
   * registered unit exactly once: the systems it adds are, as a multiset, all
   * the parallel systems registered, the runnables it adds are all the
   * thread-local ones, and there is one flush per map entry.
   */
  lemma {:induction false} MainStepsConsumesAll(order: seq<StageName>,
                                                systems: map<StageName, seq<System>>,
                                                runnables: map<StageName, seq<Runnable>>)
    requires forall n | n in systems :: n in order
    requires forall n | n in runnables :: n in order
    ensures multiset(SystemsOf(MainSteps(order, systems, runnables))) == Units(systems)
    ensures multiset(RunnablesOf(MainSteps(order, systems, runnables))) == Units(runnables)
    ensures FlushCount(MainSteps(order, systems, runnables)) == |systems| + |runnables|
    decreases |order|
  {
    if order == [] {
      assert systems == map[];
      assert runnables == map[];
    } else {
      var n := order[0];
      var systems', runnables' := systems - {n}, runnables - {n};
      var head, tail := StageSteps(n, systems, runnables), MainSteps(order[1..], systems', runnables');
      assert MainSteps(order, systems, runnables) == head + tail;
      KeysInRest(systems, order);
      KeysInRest(runnables, order);
      MainStepsConsumesAll(order[1..], systems', runnables');
      StepsOfConcat(head, tail);
      StageStepsContents(n, systems, runnables);
      UnitsVisit(systems, n);
      UnitsVisit(runnables, n);
    }
  }

  // ---------------------------------------------------------------------------
  // The builder loops

  /** The loop that feeds a list of systems into a schedule builder, one `add_system` at a time. */
  method AppendSystems(schedule: seq<Step>, systems: seq<System>) returns (r: seq<Step>)
    ensures r == schedule + AddSystems(systems)
  {
    r := schedule;
    for j := 0 to |systems|
      invariant r == schedule + AddSystems(systems[..j])
    {
      assert systems[..j + 1][..j] == systems[..j];
      r := r + [AddSystem(systems[j])];
    }
    assert systems[..|systems|] == systems;
  }

  /** The loop that feeds a list of runnables into a schedule builder, one `add_thread_local` at a time. */
  method AppendThreadLocals(schedule: seq<Step>, runnables: seq<Runnable>) returns (r: seq<Step>)
    ensures r == schedule + AddThreadLocals(runnables)
  {
    r := schedule;
    for j := 0 to |runnables|
      invariant r == schedule + AddThreadLocals(runnables[..j])
    {
      assert runnables[..j + 1][..j] == runnables[..j];
      r := r + [AddThreadLocal(runnables[j])];
    }
    assert runnables[..|runnables|] == runnables;
  }
}
