/** Reconciles of different Shops in one namespace do not interfere. */
module ShopCommutation {
  import opened Wrappers
  import opened Names
  import opened ShopModel
  import opened ShopConfluence

  /** A reconcile under way: its remaining steps, its locals, and what will go wrong. */
  datatype Proc = Proc(shop: Shop, steps: seq<Step>, l: Locals, fates: Role -> Fate)

  datatype Pair = Pair(c: Cluster, l1: Locals, l2: Locals)

  predicate StepOk(step: Step)
  {
    IsServiceStep(step) ==> '-' !in step.m.name
  }

  ghost predicate ProcOk(cfg: Config, p: Proc)
  {
    (forall i | 0 <= i < |p.steps| :: StepOk(p.steps[i])) && forall image :: |cfg.hash(image)| == HASH_LENGTH
  }

  predicate DifferentShops(x: Shop, y: Shop)
  {
    x.ns != y.ns || x.name != y.name
  }

  function Advanced(cfg: Config, p: Proc, c: Cluster): State
    requires p.steps != []
  {
    DoFaulty(cfg, p.shop, p.steps[0], State(c, p.l), p.fates(Target(cfg, p.steps[0])))
  }

  function Remaining(cfg: Config, p: Proc, c: Cluster): Proc
    requires p.steps != []
  {
    p.(steps := p.steps[1..], l := Advanced(cfg, p, c).l)
  }

  function Alone(cfg: Config, p: Proc, c: Cluster): State
  {
    RunFaulty(cfg, p.shop, p.steps, State(c, p.l), p.fates)
  }

  /** One after the other. */
  function Sequential(cfg: Config, c: Cluster, a: Proc, b: Proc): Pair
  {
    var first := Alone(cfg, a, c);
    var second := Alone(cfg, b, first.c);
    Pair(second.c, first.l, second.l)
  }

  /** Step by step, in the order the schedule says: true picks the first reconcile.
      A reconcile that has ended is passed over, and whatever is left when the
      schedule ends runs one after the other. */
  function Interleaved(cfg: Config, c: Cluster, a: Proc, b: Proc, schedule: seq<bool>): Pair
    decreases |schedule|
  {
    if schedule == [] then Sequential(cfg, c, a, b)
    else if schedule[0] && a.steps != [] then
      Interleaved(cfg, Advanced(cfg, a, c).c, Remaining(cfg, a, c), b, schedule[1..])
    else if !schedule[0] && b.steps != [] then
      Interleaved(cfg, Advanced(cfg, b, c).c, a, Remaining(cfg, b, c), schedule[1..])
    else
      Interleaved(cfg, c, a, b, schedule[1..])
  }

  /** A step with its fault, as a write to its target and new locals. */
  function FaultyEffect(cfg: Config, shop: Shop, step: Step, l: Locals, c: Cluster, fate: Fate): Effect
  {
    var e := Act(cfg, shop, step, l, c);
    if l.failed then Effect(None, l)
    else if fate == Worked || !CallsServer(cfg, shop, step, l) then e
    else if fate == Refused then Effect(None, l.(failed := true))
    else Effect(e.write, l.(failed := true))
  }

  lemma DoIsAWrite(cfg: Config, shop: Shop, step: Step, s: State)
    requires !s.l.failed
    ensures var e := Act(cfg, shop, step, s.l, s.c);
            Do(cfg, shop, step, s) == State(Write(s.c, RoleKey(shop, Target(cfg, step)), e.write), e.l)
  {
  }

  lemma DoFaultyIsAWrite(cfg: Config, shop: Shop, step: Step, s: State, fate: Fate)
    ensures var e := FaultyEffect(cfg, shop, step, s.l, s.c, fate);
            DoFaulty(cfg, shop, step, s, fate) == State(Write(s.c, RoleKey(shop, Target(cfg, step)), e.write), e.l)
  {
    if s.l.failed {
      assert Do(cfg, shop, step, s) == s;
    } else {
      DoIsAWrite(cfg, shop, step, s);
    }
  }

  /** Nothing that one Shop's step reads or writes is written by the other's. */
  lemma KeysAreApart(cfg: Config, x: Shop, step: Step, y: Shop, other: Step)
    requires DifferentShops(x, y) && StepOk(step) && StepOk(other)
    requires forall image :: |cfg.hash(image)| == HASH_LENGTH
    ensures forall role | Reads(cfg, step, role) :: RoleKey(x, role) != RoleKey(y, Target(cfg, other))
  {
    forall role | Reads(cfg, step, role)
      ensures RoleKey(x, role) != RoleKey(y, Target(cfg, other))
    {
      ChildKeysAreCollisionFree(x.ns, x.name, role, y.ns, y.name, Target(cfg, other));
    }
  }

  /** A step commutes with a write to another Shop's object. */
  lemma StepPastWrite(cfg: Config, x: Shop, step: Step, s: State, fate: Fate, y: Shop, other: Step,
                      write: Option<Object>)
    requires DifferentShops(x, y) && StepOk(step) && StepOk(other)
    requires forall image :: |cfg.hash(image)| == HASH_LENGTH
    ensures var key := RoleKey(y, Target(cfg, other));
            var t := DoFaulty(cfg, x, step, s, fate);
            DoFaulty(cfg, x, step, State(Write(s.c, key, write), s.l), fate) == State(Write(t.c, key, write), t.l)
  {
    var key := RoleKey(y, Target(cfg, other));
    EffectPastWrite(cfg, x, step, s, fate, y, other, write);
    DoFaultyIsAWrite(cfg, x, step, s, fate);
    DoFaultyIsAWrite(cfg, x, step, State(Write(s.c, key, write), s.l), fate);
    WritesCommute(s.c, RoleKey(x, Target(cfg, step)), FaultyEffect(cfg, x, step, s.l, s.c, fate).write, key, write);
  }

  lemma EffectPastWrite(cfg: Config, x: Shop, step: Step, s: State, fate: Fate, y: Shop, other: Step,
                        write: Option<Object>)
    requires DifferentShops(x, y) && StepOk(step) && StepOk(other)
    requires forall image :: |cfg.hash(image)| == HASH_LENGTH
    ensures var key := RoleKey(y, Target(cfg, other));
            && RoleKey(x, Target(cfg, step)) != key
            && FaultyEffect(cfg, x, step, s.l, Write(s.c, key, write), fate) ==
                FaultyEffect(cfg, x, step, s.l, s.c, fate)
  {
    var key := RoleKey(y, Target(cfg, other));
    ReadsPastWrite(cfg, x, step, s.c, y, other, key, write);
    Frame(cfg, x, step, s.l, s.c, Write(s.c, key, write));
  }

  lemma ReadsPastWrite(cfg: Config, x: Shop, step: Step, c: Cluster, y: Shop, other: Step, key: Key,
                       write: Option<Object>)
    requires DifferentShops(x, y) && StepOk(step) && StepOk(other)
    requires forall image :: |cfg.hash(image)| == HASH_LENGTH
    requires key == RoleKey(y, Target(cfg, other))
    ensures RoleKey(x, Target(cfg, step)) != key
    ensures Agree(cfg, x, step, c, Write(c, key, write))
  {
    KeysAreApart(cfg, x, step, y, other);
    assert Reads(cfg, step, Target(cfg, step));
  }

  lemma WritesCommute(c: Cluster, key1: Key, write1: Option<Object>, key2: Key, write2: Option<Object>)
    requires key1 != key2
    ensures Write(Write(c, key2, write2), key1, write1) == Write(Write(c, key1, write1), key2, write2)
  {
  }

  /** So does a whole reconcile. */
  lemma {:induction false} RunPastWrite(cfg: Config, a: Proc, c: Cluster, y: Shop, other: Step, write: Option<Object>)
    requires ProcOk(cfg, a) && DifferentShops(a.shop, y) && StepOk(other)
    ensures var key := RoleKey(y, Target(cfg, other));
            var t := Alone(cfg, a, c);
            Alone(cfg, a, Write(c, key, write)) == State(Write(t.c, key, write), t.l)
    decreases |a.steps|
  {
    if a.steps != [] {
      var fate := a.fates(Target(cfg, a.steps[0]));
      StepPastWrite(cfg, a.shop, a.steps[0], State(c, a.l), fate, y, other, write);
      RunPastWrite(cfg, Remaining(cfg, a, c), Advanced(cfg, a, c).c, y, other, write);
    }
  }

  /** And a reconcile commutes with another Shop's step. */
  lemma RunPastStep(cfg: Config, a: Proc, b: Proc, c: Cluster)
    requires ProcOk(cfg, a) && ProcOk(cfg, b) && DifferentShops(a.shop, b.shop) && b.steps != []
    ensures var step := Advanced(cfg, b, c);
            var before, after := Alone(cfg, a, c), Alone(cfg, a, step.c);
            after.l == before.l && Advanced(cfg, b, before.c) == State(after.c, step.l)
  {
    var step, fate := b.steps[0], b.fates(Target(cfg, b.steps[0]));
    var e := FaultyEffect(cfg, b.shop, step, b.l, c, fate);
    DoFaultyIsAWrite(cfg, b.shop, step, State(c, b.l), fate);
    RunPastWrite(cfg, a, c, b.shop, step, e.write);
    var before := Alone(cfg, a, c);
    ReadsSurviveRun(cfg, a, c, b.shop, step);
    Frame(cfg, b.shop, step, b.l, c, before.c);
    DoFaultyIsAWrite(cfg, b.shop, step, State(before.c, b.l), fate);
  }

  lemma {:induction false} ReadsSurviveRun(cfg: Config, a: Proc, c: Cluster, y: Shop, step: Step)
    requires ProcOk(cfg, a) && DifferentShops(a.shop, y) && StepOk(step)
    ensures Agree(cfg, y, step, c, Alone(cfg, a, c).c)
    decreases |a.steps|
  {
    if a.steps != [] {
      var c1 := Advanced(cfg, a, c).c;
      ReadsSurviveStep(cfg, a, c, y, step);
      ReadsSurviveRun(cfg, Remaining(cfg, a, c), c1, y, step);
      AgreeTransitive(cfg, y, step, c, c1, Alone(cfg, a, c).c);
    }
  }

  lemma ReadsSurviveStep(cfg: Config, a: Proc, c: Cluster, y: Shop, step: Step)
    requires ProcOk(cfg, a) && DifferentShops(a.shop, y) && StepOk(step) && a.steps != []
    ensures Agree(cfg, y, step, c, Advanced(cfg, a, c).c)
  {
    var fate := a.fates(Target(cfg, a.steps[0]));
    DoFaultyIsAWrite(cfg, a.shop, a.steps[0], State(c, a.l), fate);
    var e := FaultyEffect(cfg, a.shop, a.steps[0], a.l, c, fate);
    ReadsPastWrite(cfg, y, step, c, a.shop, a.steps[0], RoleKey(a.shop, Target(cfg, a.steps[0])), e.write);
  }

  lemma AgreeTransitive(cfg: Config, shop: Shop, step: Step, c1: Cluster, c2: Cluster, c3: Cluster)
    requires Agree(cfg, shop, step, c1, c2) && Agree(cfg, shop, step, c2, c3)
    ensures Agree(cfg, shop, step, c1, c3)
  {
  }

  /** Any interleaving of the reconciles of two Shops, with any faults, leaves the
      cluster and gives the two results of running one after the other. */
  lemma {:induction false} InterleavingIsSequential(cfg: Config, c: Cluster, a: Proc, b: Proc, schedule: seq<bool>)
    requires ProcOk(cfg, a) && ProcOk(cfg, b) && DifferentShops(a.shop, b.shop)
    ensures Interleaved(cfg, c, a, b, schedule) == Sequential(cfg, c, a, b)
    decreases |schedule|
  {
    if schedule != [] {
      if schedule[0] && a.steps != [] {
        InterleavingIsSequential(cfg, Advanced(cfg, a, c).c, Remaining(cfg, a, c), b, schedule[1..]);
      } else if !schedule[0] && b.steps != [] {
        InterleavingIsSequential(cfg, Advanced(cfg, b, c).c, a, Remaining(cfg, b, c), schedule[1..]);
        RunPastStep(cfg, a, b, c);
      } else {
        InterleavingIsSequential(cfg, c, a, b, schedule[1..]);
      }
    }
  }

  lemma {:induction false} ProgramIsOk(cfg: Config, shop: Shop, l: Locals, fates: Role -> Fate)
    requires ValidConfig(cfg)
    ensures ProcOk(cfg, Proc(shop, Program(cfg, shop), l, fates))
  {
    var p := Program(cfg, shop);
    forall i | 0 <= i < |p|
      ensures StepOk(p[i])
    {
      var i' := i - |Opening(shop)|;
      ProgramParts(cfg, shop);
      if 0 <= i' < |ServiceSteps(cfg.services)| {
        ServiceStepAt(cfg.services, i');
        assert p[i] == ServiceSteps(cfg.services)[i'];
      }
    }
  }

  /** The theorem for whole reconciles, in both orders. */
  lemma ShopsCommute(cfg: Config, c: Cluster, x: Shop, y: Shop, faults1: Role -> Fate, faults2: Role -> Fate,
                     schedule: seq<bool>)
    requires ValidConfig(cfg) && DifferentShops(x, y)
    ensures var a, b := Proc(x, Program(cfg, x), START, faults1), Proc(y, Program(cfg, y), START, faults2);
            var mixed, ab, ba := Interleaved(cfg, c, a, b, schedule), Sequential(cfg, c, a, b),
                Sequential(cfg, c, b, a);
            mixed == ab == Pair(ba.c, ba.l2, ba.l1)
  {
    var a, b := Proc(x, Program(cfg, x), START, faults1), Proc(y, Program(cfg, y), START, faults2);
    ProgramIsOk(cfg, x, START, faults1);
    ProgramIsOk(cfg, y, START, faults2);
    InterleavingIsSequential(cfg, c, a, b, schedule);
    OrderIsIrrelevant(cfg, c, a, b);
  }

  lemma {:induction false} OrderIsIrrelevant(cfg: Config, c: Cluster, a: Proc, b: Proc)
    requires ProcOk(cfg, a) && ProcOk(cfg, b) && DifferentShops(a.shop, b.shop)
    ensures var ab, ba := Sequential(cfg, c, a, b), Sequential(cfg, c, b, a);
            ab == Pair(ba.c, ba.l2, ba.l1)
    decreases |b.steps|
  {
    if b.steps != [] {
      RunPastStep(cfg, a, b, c);
      OrderIsIrrelevant(cfg, Advanced(cfg, b, c).c, a, Remaining(cfg, b, c));
    }
  }
}
