/** A Shop reconcile may be stopped anywhere and started again. */
module ShopConfluence {
  import opened Wrappers
  import opened Names
  import opened ShopModel

  /** Two clusters agree on everything a step reads. */
  ghost predicate Agree(cfg: Config, shop: Shop, step: Step, c1: Cluster, c2: Cluster)
  {
    forall role | Reads(cfg, step, role) :: Get(c1, shop, role) == Get(c2, shop, role)
  }

  /** A step depends on nothing but what it reads. */
  lemma Frame(cfg: Config, shop: Shop, step: Step, l: Locals, c1: Cluster, c2: Cluster)
    requires Agree(cfg, shop, step, c1, c2)
    ensures Act(cfg, shop, step, l, c1) == Act(cfg, shop, step, l, c2)
  {
    assert Reads(cfg, step, Target(cfg, step)) && Reads(cfg, step, Other(cfg, step));
  }

  /** What a step reads besides its own target is of another kind. */
  lemma OtherIsElsewhere(cfg: Config, shop: Shop, step: Step)
    ensures Other(cfg, step) == Target(cfg, step) || RoleKey(shop, Other(cfg, step)) != RoleKey(shop, Target(cfg, step))
  {
    assert Other(cfg, step) == Target(cfg, step) || KindOf(Other(cfg, step)) != KindOf(Target(cfg, step));
  }

  lemma RepeatedContainers(cfg: Config, m: Microservice, env: seq<EnvVar>, prior: seq<Container>)
    ensures MadeContainers(cfg, m, env, MadeContainers(cfg, m, env, prior)) == MadeContainers(cfg, m, env, prior)
  {
    var after := MadeContainers(cfg, m, env, prior);
    assert after[1..] == if prior == [] then [] else prior[1..];
  }

  lemma RepeatedDeployment(cfg: Config, shop: Shop, m: Microservice, env: seq<EnvVar>, base: Object)
    ensures var made := MadeDeployment(cfg, shop, m, env, base);
            && made.body.DeploymentBody? && made.owner == Some(shop.name) &&
                ReadyReplicas(Some(made)) == ReadyReplicas(Some(base))
            && MadeDeployment(cfg, shop, m, env, made) == made
  {
    RepeatedContainers(cfg, m, env, if base.body.DeploymentBody? then base.body.containers else []);
  }

  /** What the Deployment step decides, in short. */
  lemma DeployDecides(cfg: Config, shop: Shop, m: Microservice, l: Locals, prior: Option<Object>, other: Option<Object>)
    ensures var e := Decide(cfg, shop, DeployStep(m), l, prior, other);
            var env := AppEnv(cfg, shop, m, PublishedAddress(other), l.dbEnv);
            && (e.write.Some? <==> Adoptable(shop, prior))
            && (e.write.Some? ==> e.write.value == MadeDeployment(cfg, shop, m, env, BaseOf(prior)))
            && (e.write.Some? ==> e.l == if l.failed || ReadyReplicas(prior) == DesiredReplicas(shop.spec.availability)
                                         then l else l.(allReady := false))
  {
  }

  lemma RepeatedDeploy(cfg: Config, shop: Shop, m: Microservice, l: Locals, prior: Option<Object>,
                       other: Option<Object>)
    requires Decide(cfg, shop, DeployStep(m), l, prior, other).write.Some?
    ensures var e := Decide(cfg, shop, DeployStep(m), l, prior, other);
            Decide(cfg, shop, DeployStep(m), l, e.write, other) == e
  {
    var e := Decide(cfg, shop, DeployStep(m), l, prior, other);
    DeployDecides(cfg, shop, m, l, prior, other);
    DeployDecides(cfg, shop, m, l, e.write, other);
    RepeatedDeployment(cfg, shop, m, AppEnv(cfg, shop, m, PublishedAddress(other), l.dbEnv), BaseOf(prior));
  }

  lemma RepeatedUpsert(cfg: Config, shop: Shop, step: Step, l: Locals, prior: Option<Object>, other: Option<Object>)
    requires step.WalletStep? || step.DiscordStep? || step.ServiceStep? || step.IngressStep?
    requires Decide(cfg, shop, step, l, prior, other).write.Some?
    ensures var e := Decide(cfg, shop, step, l, prior, other);
            Decide(cfg, shop, step, l, e.write, other) == e
  {
    var made := Decide(cfg, shop, step, l, prior, other).write.value;
    assert Adoptable(shop, prior) && Adoptable(shop, Some(made));
    match step
    case IngressStep =>
      var base := BaseOf(prior);
      assert made == MadeIngress(cfg, shop, base);
      assert MadeIngress(cfg, shop, made).body.annotations == made.body.annotations;
    case WalletStep => assert MadeWallet(shop, made) == made;
    case DiscordStep => assert MadeDiscord(shop, made) == made;
    case ServiceStep(m) => assert MadeService(shop, m, made) == made;
  }

  /** Deciding again on the object just written: the same locals, and nothing new to
      write. An object that was just created looks exactly as unready as an absent one. */
  lemma RepeatedDecision(cfg: Config, shop: Shop, step: Step, l: Locals, prior: Option<Object>, other: Option<Object>)
    requires Decide(cfg, shop, step, l, prior, other).write.Some?
    ensures var e := Decide(cfg, shop, step, l, prior, other);
            var e1 := Decide(cfg, shop, step, l, e.write, other);
            e1.l == e.l && (e1.write.None? || e1.write == e.write)
  {
    if step.DeployStep? {
      RepeatedDeploy(cfg, shop, step.m, l, prior, other);
    } else if step.WalletStep? || step.DiscordStep? || step.ServiceStep? || step.IngressStep? {
      RepeatedUpsert(cfg, shop, step, l, prior, other);
    } else if step.StatusStep? {
      var body := prior.value.body;
      var conditions := MadeStatus(shop, l, body.status).conditions;
      assert conditions[AVAILABLE := AvailableCondition(l.allReady, l.dbState)] == conditions;
    }
  }

  /** Doing a step again, with the same locals, on its own result changes nothing
      and yields the same locals. */
  lemma StepIsIdempotent(cfg: Config, shop: Shop, step: Step, s: State)
    ensures var t := Do(cfg, shop, step, s);
            Do(cfg, shop, step, State(t.c, s.l)) == t
  {
    var e := Act(cfg, shop, step, s.l, s.c);
    if !s.l.failed && e.write.Some? {
      var t := Do(cfg, shop, step, s);
      var key := RoleKey(shop, Target(cfg, step));
      OtherIsElsewhere(cfg, shop, step);
      assert Get(t.c, shop, Target(cfg, step)) == e.write;
      assert Other(cfg, step) != Target(cfg, step) ==>
          Get(t.c, shop, Other(cfg, step)) == Get(s.c, shop, Other(cfg, step));
      RepeatedDecision(cfg, shop, step, s.l, Get(s.c, shop, Target(cfg, step)), Get(s.c, shop, Other(cfg, step)));
      SingleReader(cfg, shop, step, s.l, e.write, Get(s.c, shop, Other(cfg, step)));
      assert t.c[key := e.write.value] == t.c;
    }
  }

  /** A step that looks at one object only ignores the other argument. */
  lemma SingleReader(cfg: Config, shop: Shop, step: Step, l: Locals, prior: Option<Object>, other: Option<Object>)
    ensures Other(cfg, step) == Target(cfg, step) ==>
              Decide(cfg, shop, step, l, prior, other) == Decide(cfg, shop, step, l, prior, prior)
  {
  }

  // ---- Programs whose later steps leave earlier reads alone ----

  ghost predicate Safe(cfg: Config, shop: Shop, steps: seq<Step>)
  {
    forall i, j | 0 <= i < j < |steps| :: LeavesAlone(cfg, shop, steps[i], steps[j])
  }

  ghost predicate LeavesAlone(cfg: Config, shop: Shop, earlier: Step, later: Step)
  {
    forall role | Reads(cfg, earlier, role) :: RoleKey(shop, role) != RoleKey(shop, Target(cfg, later))
  }

  lemma {:induction false} RunAppend(cfg: Config, shop: Shop, p: seq<Step>, q: seq<Step>, s: State)
    ensures Run(cfg, shop, p + q, s) == Run(cfg, shop, q, Run(cfg, shop, p, s))
    decreases |p|
  {
    if p == [] {
      assert p + q == q;
    } else {
      assert (p + q)[0] == p[0] && (p + q)[1..] == p[1..] + q;
      RunAppend(cfg, shop, p[1..], q, Do(cfg, shop, p[0], s));
    }
  }

  /** Steps that leave a step's reads alone do so together. */
  lemma {:induction false} RunLeavesAlone(cfg: Config, shop: Shop, step: Step, later: seq<Step>, s: State)
    requires forall i | 0 <= i < |later| :: LeavesAlone(cfg, shop, step, later[i])
    ensures Agree(cfg, shop, step, s.c, Run(cfg, shop, later, s).c)
    decreases |later|
  {
    if later != [] {
      var t := Do(cfg, shop, later[0], s);
      assert LeavesAlone(cfg, shop, step, later[0]);
      assert Agree(cfg, shop, step, s.c, t.c);
      RunLeavesAlone(cfg, shop, step, later[1..], t);
      var u := Run(cfg, shop, later[1..], t);
      assert forall role | Reads(cfg, step, role) :: Get(t.c, shop, role) == Get(u.c, shop, role);
    }
  }

  /** Running the first k steps again, on the cluster that those k steps left
      behind, changes nothing and recovers the same locals. */
  lemma {:induction false} Replay(cfg: Config, shop: Shop, steps: seq<Step>, s: State)
    requires Safe(cfg, shop, steps)
    ensures var t := Run(cfg, shop, steps, s);
            Run(cfg, shop, steps, State(t.c, s.l)) == t
    decreases |steps|
  {
    if steps != [] {
      var first, rest := steps[0], steps[1..];
      var s1 := Do(cfg, shop, first, s);
      var t := Run(cfg, shop, rest, s1);
      forall i | 0 <= i < |rest|
        ensures LeavesAlone(cfg, shop, first, rest[i])
      {
        assert LeavesAlone(cfg, shop, steps[0], steps[i + 1]);
      }
      RunLeavesAlone(cfg, shop, first, rest, s1);
      RedoOn(cfg, shop, first, s, s1, t.c);
      assert Safe(cfg, shop, rest) by {
        forall i, j | 0 <= i < j < |rest|
          ensures LeavesAlone(cfg, shop, rest[i], rest[j])
        {
          assert LeavesAlone(cfg, shop, steps[i + 1], steps[j + 1]);
        }
      }
      Replay(cfg, shop, rest, s1);
    }
  }

  lemma RedoOn(cfg: Config, shop: Shop, step: Step, s: State, s1: State, c: Cluster)
    requires s1 == Do(cfg, shop, step, s)
    requires Agree(cfg, shop, step, s1.c, c)
    ensures Do(cfg, shop, step, State(c, s.l)) == State(c, s1.l)
  {
    StepIsIdempotent(cfg, shop, step, s);
    if !s.l.failed {
      Frame(cfg, shop, step, s.l, s1.c, c);
      var target := Target(cfg, step);
      assert Reads(cfg, step, target);
      assert Get(s1.c, shop, target) == Get(c, shop, target);
      var e := Act(cfg, shop, step, s.l, c);
      var key := RoleKey(shop, target);
      if e.write.Some? {
        assert s1.c[key := e.write.value] == s1.c;
        assert key in s1.c && s1.c[key] == e.write.value;
        assert c[key := e.write.value] == c;
      }
    }
  }

  lemma PrefixThenWhole(cfg: Config, shop: Shop, steps: seq<Step>, k: nat, s: State)
    requires Safe(cfg, shop, steps) && k <= |steps|
    ensures var stopped := Run(cfg, shop, steps[..k], s);
            Run(cfg, shop, steps, State(stopped.c, s.l)) == Run(cfg, shop, steps, s)
  {
    var p, q := steps[..k], steps[k..];
    assert steps == p + q;
    assert Safe(cfg, shop, p) by {
      forall i, j | 0 <= i < j < |p|
        ensures LeavesAlone(cfg, shop, p[i], p[j])
      {
        assert LeavesAlone(cfg, shop, steps[i], steps[j]);
      }
    }
    var stopped := Run(cfg, shop, p, s);
    Replay(cfg, shop, p, s);
    RunAppend(cfg, shop, p, q, s);
    RunAppend(cfg, shop, p, q, State(stopped.c, s.l));
  }

  // ---- The Shop's own program is of this sort ----

  lemma {:induction false} ServiceStepAt(services: seq<Microservice>, i: nat)
    requires i < |ServiceSteps(services)|
    ensures |ServiceSteps(services)| == 3 * |services|
    ensures var step, m := ServiceSteps(services)[i], services[i / 3];
            step == if i % 3 == 0 then MigrateStep(m) else if i % 3 == 1 then DeployStep(m) else ServiceStep(m)
    decreases |services|
  {
    if i >= 3 {
      ServiceStepAt(services[1..], i - 3);
      assert services[1..][(i - 3) / 3] == services[i / 3];
    } else if |services| > 1 {
      ServiceStepAt(services[1..], 0);
    } else {
      assert services[1..] == [];
      assert ServiceSteps(services[1..]) == [];
    }
  }

  /** Where in the program a step belongs. */
  predicate IsServiceStep(step: Step)
  {
    step.MigrateStep? || step.DeployStep? || step.ServiceStep?
  }

  function Rank(step: Step): nat
  {
    match step
    case WalletStep => 0
    case DiscordStep => 1
    case MonitorStep => 2
    case DashboardStep => 3
    case AlertsStep => 4
    case RoutingStep => 5
    case RedisSecretStep => 6
    case RedisStep => 7
    case PostgresStep => 7
    case JwtSecretStep => 8
    case MigrateStep(_) => 9
    case DeployStep(_) => 9
    case ServiceStep(_) => 9
    case StatusStep => 10
    case IngressStep => 11
  }

  /** Between two steps of different rank, or of different services or kinds, the
      later one leaves the earlier one's reads alone. */
  lemma RankedStepsAreSafe(cfg: Config, shop: Shop, earlier: Step, later: Step)
    requires Rank(earlier) < Rank(later)
    ensures LeavesAlone(cfg, shop, earlier, later)
  {
    forall role | Reads(cfg, earlier, role)
      ensures RoleKey(shop, role) != RoleKey(shop, Target(cfg, later))
    {
      if KindOf(role) == KindOf(Target(cfg, later)) {
        assert KindOf(role) == SecretKind;
        assert Proper(role) && Proper(Target(cfg, later));
        ChildNamesAreCollisionFree(shop.name, role, shop.name, Target(cfg, later));
      }
    }
  }

  lemma ServiceStepsAreSafe(cfg: Config, shop: Shop, earlier: Step, later: Step)
    requires IsServiceStep(earlier) && IsServiceStep(later)
    requires '-' !in earlier.m.name && '-' !in later.m.name && forall image :: |cfg.hash(image)| == HASH_LENGTH
    requires earlier.m.name != later.m.name || KindOf(Target(cfg, earlier)) != KindOf(Target(cfg, later))
    ensures LeavesAlone(cfg, shop, earlier, later)
  {
    forall role | Reads(cfg, earlier, role)
      ensures RoleKey(shop, role) != RoleKey(shop, Target(cfg, later))
    {
      if KindOf(role) == KindOf(Target(cfg, later)) {
        ChildNamesAreCollisionFree(shop.name, role, shop.name, Target(cfg, later));
      }
    }
  }

  /** Everything before the services, in program order. */
  function Opening(shop: Shop): seq<Step>
  {
    CHILD_STEPS + DatabaseSteps(shop) + [JwtSecretStep]
  }

  lemma ProgramParts(cfg: Config, shop: Shop)
    ensures Program(cfg, shop) == Opening(shop) + ServiceSteps(cfg.services) + [StatusStep, IngressStep]
    ensures forall i, j | 0 <= i < j < |Opening(shop)| :: Rank(Opening(shop)[i]) < Rank(Opening(shop)[j]) < 9
  {
  }

  lemma ProgramIsSafe(cfg: Config, shop: Shop)
    requires ValidConfig(cfg)
    ensures Safe(cfg, shop, Program(cfg, shop))
  {
    var opening, middle, p := Opening(shop), ServiceSteps(cfg.services), Program(cfg, shop);
    ProgramParts(cfg, shop);
    forall i, j | 0 <= i < j < |p|
      ensures LeavesAlone(cfg, shop, p[i], p[j])
    {
      var i', j' := i - |opening|, j - |opening|;
      if 0 <= i' && j' < |middle| {
        ServiceStepAt(cfg.services, i');
        ServiceStepAt(cfg.services, j');
        assert p[i] == middle[i'] && p[j] == middle[j'];
        DistinctServiceSteps(cfg, shop, i', j');
      } else {
        RankOf(cfg, shop, i);
        RankOf(cfg, shop, j);
        RankedStepsAreSafe(cfg, shop, p[i], p[j]);
      }
    }
  }

  lemma RankOf(cfg: Config, shop: Shop, i: nat)
    requires i < |Program(cfg, shop)|
    ensures var n, k := |Opening(shop)|, |ServiceSteps(cfg.services)|;
            Rank(Program(cfg, shop)[i]) ==
              if i < n then Rank(Opening(shop)[i]) else if i < n + k then 9 else 10 + (i - n - k)
  {
    var n, k := |Opening(shop)|, |ServiceSteps(cfg.services)|;
    if n <= i < n + k {
      ServiceStepAt(cfg.services, i - n);
      assert Program(cfg, shop)[i] == ServiceSteps(cfg.services)[i - n];
    }
  }

  lemma DistinctServiceSteps(cfg: Config, shop: Shop, i: nat, j: nat)
    requires ValidConfig(cfg) && i < j < |ServiceSteps(cfg.services)|
    ensures LeavesAlone(cfg, shop, ServiceSteps(cfg.services)[i], ServiceSteps(cfg.services)[j])
  {
    ServiceStepAt(cfg.services, i);
    ServiceStepAt(cfg.services, j);
    if i / 3 == j / 3 {
      assert i % 3 != j % 3;
    } else {
      assert cfg.services[i / 3].name != cfg.services[j / 3].name;
    }
    ServiceStepsAreSafe(cfg, shop, ServiceSteps(cfg.services)[i], ServiceSteps(cfg.services)[j]);
  }

  /** The microservice table and an eight-digit hash meet the naming requirements. */
  lemma TableIsValid(cfg: Config)
    requires cfg.services == SHOP_MICROSERVICES && forall image :: |cfg.hash(image)| == HASH_LENGTH
    ensures ValidConfig(cfg)
  {
    assert |SHOP_MICROSERVICES| == 5;
    assert SHOP_MICROSERVICES[0].name == "auth" && SHOP_MICROSERVICES[1].name == "order" &&
        SHOP_MICROSERVICES[2].name == "payment";
    assert SHOP_MICROSERVICES[3].name == "inventory" && SHOP_MICROSERVICES[4].name == "frontend";
    assert "auth"[0] == 'a' && "order"[0] == 'o' && "payment"[0] == 'p' && "inventory"[0] == 'i' &&
        "frontend"[0] == 'f';
  }

  // ---- Confluence ----

  /** Stopping a reconcile after any number of its steps and then running it in full
      gives the cluster, the locals and the result of one uninterrupted run. With k
      equal to the number of steps this is idempotence. */
  lemma RestartConfluence(cfg: Config, shop: Shop, c: Cluster, k: nat)
    requires ValidConfig(cfg) && k <= |Program(cfg, shop)|
    ensures var stopped := Run(cfg, shop, Program(cfg, shop)[..k], State(c, START));
            Reconciled(cfg, shop, stopped.c) == Reconciled(cfg, shop, c)
  {
    ProgramIsSafe(cfg, shop);
    PrefixThenWhole(cfg, shop, Program(cfg, shop), k, State(c, START));
  }

  lemma {:induction false} FailedRun(cfg: Config, shop: Shop, steps: seq<Step>, s: State, fates: Role -> Fate)
    requires s.l.failed
    ensures RunFaulty(cfg, shop, steps, s, fates) == s == Run(cfg, shop, steps, s)
    decreases |steps|
  {
    if steps != [] {
      FailedRun(cfg, shop, steps[1..], s, fates);
    }
  }

  lemma {:induction false} RunFaultyAppend(cfg: Config, shop: Shop, p: seq<Step>, q: seq<Step>, s: State,
                                           fates: Role -> Fate)
    ensures RunFaulty(cfg, shop, p + q, s, fates) == RunFaulty(cfg, shop, q, RunFaulty(cfg, shop, p, s, fates), fates)
    decreases |p|
  {
    if p == [] {
      assert p + q == q;
    } else {
      assert (p + q)[0] == p[0] && (p + q)[1..] == p[1..] + q;
      RunFaultyAppend(cfg, shop, p[1..], q, DoFaulty(cfg, shop, p[0], s, fates(Target(cfg, p[0]))), fates);
    }
  }

  /** Whatever fails, a faulty run has done the work of some prefix. */
  lemma {:induction false} FaultyIsPrefix(cfg: Config, shop: Shop, steps: seq<Step>, s: State, fates: Role -> Fate)
    returns (k: nat)
    ensures k <= |steps|
    ensures RunFaulty(cfg, shop, steps, s, fates).c == Run(cfg, shop, steps[..k], s).c
    ensures (!RunFaulty(cfg, shop, steps, s, fates).l.failed ==>
               RunFaulty(cfg, shop, steps, s, fates) == Run(cfg, shop, steps, s))
    decreases |steps|
  {
    if steps == [] {
      k := 0;
    } else {
      var fate := fates(Target(cfg, steps[0]));
      var faulty, clean := DoFaulty(cfg, shop, steps[0], s, fate), Do(cfg, shop, steps[0], s);
      if faulty == clean {
        var k' := FaultyIsPrefix(cfg, shop, steps[1..], clean, fates);
        k := k' + 1;
        assert steps[..k][0] == steps[0] && steps[..k][1..] == steps[1..][..k'];
      } else {
        FailedRun(cfg, shop, steps[1..], faulty, fates);
        if fate == Refused {
          k := 0;
          assert steps[..k] == [];
        } else {
          k := 1;
          assert steps[..k][0] == steps[0] && steps[..k][1..] == [];
          assert Run(cfg, shop, steps[..k], s) == clean;
        }
      }
    }
  }

  /** The cluster after a series of reconciles that failed in whatever way. */
  function AfterFaults(cfg: Config, shop: Shop, c: Cluster, tries: seq<Role -> Fate>): Cluster
    decreases |tries|
  {
    if tries == [] then c
    else AfterFaults(cfg, shop, RunFaulty(cfg, shop, Program(cfg, shop), State(c, START), tries[0]).c, tries[1..])
  }

  /** Any number of faulted reconciles and then one without faults ends where a single
      undisturbed reconcile would have ended. */
  lemma {:induction false} RetriesConverge(cfg: Config, shop: Shop, c: Cluster, tries: seq<Role -> Fate>)
    requires ValidConfig(cfg)
    ensures Reconciled(cfg, shop, AfterFaults(cfg, shop, c, tries)) == Reconciled(cfg, shop, c)
    decreases |tries|
  {
    if tries != [] {
      var p := Program(cfg, shop);
      var stopped := RunFaulty(cfg, shop, p, State(c, START), tries[0]);
      var k := FaultyIsPrefix(cfg, shop, p, State(c, START), tries[0]);
      RestartConfluence(cfg, shop, c, k);
      RetriesConverge(cfg, shop, stopped.c, tries[1..]);
    }
  }
}
