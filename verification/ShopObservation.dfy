/** What a Shop reconcile concludes from what it saw, when every one of its steps sees
    the cluster at a moment of its own. Between two steps other controllers may change
    anything, and a step may also look into a cache that lags behind. */
module ShopObservation {
  import opened Wrappers
  import opened Names
  import opened ShopModel
  import opened ShopConfluence

  /** What one step makes of the locals when it sees views(k). */
  type Sight = (Step, Locals, nat) -> Locals

  function Sees(cfg: Config, shop: Shop, views: nat -> Cluster, fates: Role -> Fate): Sight
  {
    (step: Step, l: Locals, k: nat) => DoFaulty(cfg, shop, step, State(views(k), l), fates(Target(cfg, step))).l
  }

  /** What a reconcile carries after some steps, the j-th of which is number k + j. */
  function Carried(f: Sight, steps: seq<Step>, l: Locals, k: nat): Locals
    decreases |steps|
  {
    if steps == [] then l else Carried(f, steps[1..], f(steps[0], l, k), k + 1)
  }

  lemma {:induction false} CarriedAppend(f: Sight, p: seq<Step>, q: seq<Step>, l: Locals, k: nat)
    ensures Carried(f, p + q, l, k) == Carried(f, q, Carried(f, p, l, k), k + |p|)
    decreases |p|
  {
    if p == [] {
      assert p + q == q;
    } else {
      assert (p + q)[0] == p[0] && (p + q)[1..] == p[1..] + q;
      CarriedAppend(f, p[1..], q, f(p[0], l, k), k + 1);
    }
  }

  lemma CarriedSnoc(f: Sight, p: seq<Step>, step: Step, l: Locals, k: nat)
    ensures Carried(f, p + [step], l, k) == f(step, Carried(f, p, l, k), k + |p|)
  {
    CarriedAppend(f, p, [step], l, k);
    assert [step][1..] == [];
  }

  /** A reconcile that nobody disturbs sees what its own earlier steps left. */
  lemma {:induction false} RunIsCarried(cfg: Config, shop: Shop, steps: seq<Step>, s: State, views: nat -> Cluster,
                                        fates: Role -> Fate, k: nat)
    requires forall j | 0 <= j <= |steps| :: views(k + j) == RunFaulty(cfg, shop, steps[..j], s, fates).c
    ensures RunFaulty(cfg, shop, steps, s, fates).l == Carried(Sees(cfg, shop, views, fates), steps, s.l, k)
    decreases |steps|
  {
    if steps != [] {
      var s1 := DoFaulty(cfg, shop, steps[0], s, fates(Target(cfg, steps[0])));
      assert steps[..0] == [];
      assert views(k + 0) == s.c;
      forall j | 0 <= j <= |steps[1..]|
        ensures views(k + 1 + j) == RunFaulty(cfg, shop, steps[1..][..j], s1, fates).c
      {
        assert steps[..j + 1][0] == steps[0] && steps[..j + 1][1..] == steps[1..][..j];
        assert views(k + (j + 1)) == RunFaulty(cfg, shop, steps[..j + 1], s, fates).c;
      }
      RunIsCarried(cfg, shop, steps[1..], s1, views, fates, k + 1);
    }
  }

  /** A step that did not fail met no fault. */
  lemma Faultless(cfg: Config, shop: Shop, step: Step, s: State, fate: Fate)
    requires !DoFaulty(cfg, shop, step, s, fate).l.failed
    ensures !s.l.failed && DoFaulty(cfg, shop, step, s, fate) == Do(cfg, shop, step, s)
  {
    assert s.l.failed ==> Do(cfg, shop, step, s) == s;
  }

  // ---- What is observed in one view ----

  /** Does the status of the tier's own resource show a ready instance? */
  predicate DatabaseObservedReady(cfg: Config, shop: Shop, c: Cluster)
  {
    if shop.spec.databaseType == "light" then
      RedisKind in cfg.installed &&
      match Get(c, shop, RedisStatefulSet)
      case Some(Object(_, _, StatefulSetBody(ready))) => ready >= 1
      case _ => false
    else
      PostgresKind in cfg.installed &&
      match Get(c, shop, Postgres)
      case Some(Object(_, _, PostgresBody(_, _, ready))) => ready >= 1
      case _ => false
  }

  function ObservedDbState(cfg: Config, shop: Shop, c: Cluster): DbState
  {
    if DatabaseObservedReady(cfg, shop, c) then DbReady
    else if (if shop.spec.databaseType == "light" then RedisKind else PostgresKind) in cfg.installed then Provisioning
    else OperatorMissing
  }

  /** The migration Job of the service's current image has succeeded, if one is needed. */
  predicate Migrated(cfg: Config, shop: Shop, c: Cluster, m: Microservice)
  {
    m.hasMigrations && shop.spec.databaseType == "standard" ==>
      match Get(c, shop, Migration(m.name, cfg.hash(MicroserviceImage(cfg, m))))
      case Some(Object(_, _, JobBody(_, _, succeeded))) => succeeded > 0
      case _ => false
  }

  /** The Deployment has exactly the desired number of ready replicas. */
  predicate RolledOut(shop: Shop, c: Cluster, m: Microservice)
  {
    match Get(c, shop, Deployment(m.name))
    case Some(Object(_, _, DeploymentBody(_, _, _, _, ready))) =>
      ready == if shop.spec.availability == "high" then 3 else 2
    case _ => false
  }

  // ---- What each step concludes ----

  /** What a step that did not fail makes of the locals, in terms of the view it had. */
  predicate Concludes(cfg: Config, shop: Shop, step: Step, l: Locals, l': Locals, view: Cluster)
  {
    match step
    case MigrateStep(m) =>
      && l'.dbState == l.dbState && (!l.allReady ==> !l'.allReady)
      && (l.dbState == DbReady ==> (l'.allReady <==> l.allReady && Migrated(cfg, shop, view, m)))
    case DeployStep(m) =>
      l'.dbState == l.dbState && (l'.allReady <==> l.allReady && RolledOut(shop, view, m))
    case RedisStep => shop.spec.databaseType == "light" ==> DatabaseConcluded(cfg, shop, l', view)
    case PostgresStep => shop.spec.databaseType != "light" ==> DatabaseConcluded(cfg, shop, l', view)
    case _ => l' == l
  }

  predicate DatabaseConcluded(cfg: Config, shop: Shop, l: Locals, view: Cluster)
  {
    && l.dbState == ObservedDbState(cfg, shop, view)
    && (l.allReady <==> DatabaseObservedReady(cfg, shop, view))
  }

  lemma RedisConcludes(cfg: Config, shop: Shop, s: State)
    requires !Do(cfg, shop, RedisStep, s).l.failed
    ensures Concludes(cfg, shop, RedisStep, s.l, Do(cfg, shop, RedisStep, s).l, s.c)
  {
  }

  lemma PostgresConcludes(cfg: Config, shop: Shop, s: State)
    requires !Do(cfg, shop, PostgresStep, s).l.failed
    ensures Concludes(cfg, shop, PostgresStep, s.l, Do(cfg, shop, PostgresStep, s).l, s.c)
  {
  }

  lemma MigrateConcludes(cfg: Config, shop: Shop, m: Microservice, s: State)
    requires !Do(cfg, shop, MigrateStep(m), s).l.failed
    ensures Concludes(cfg, shop, MigrateStep(m), s.l, Do(cfg, shop, MigrateStep(m), s).l, s.c)
  {
  }

  lemma DeployConcludes(cfg: Config, shop: Shop, m: Microservice, s: State)
    requires !Do(cfg, shop, DeployStep(m), s).l.failed
    ensures Concludes(cfg, shop, DeployStep(m), s.l, Do(cfg, shop, DeployStep(m), s).l, s.c)
  {
  }

  lemma OtherStepConcludes(cfg: Config, shop: Shop, step: Step, s: State)
    requires !step.RedisStep? && !step.PostgresStep? && !step.MigrateStep? && !step.DeployStep?
    requires !Do(cfg, shop, step, s).l.failed
    ensures Do(cfg, shop, step, s).l == s.l
  {
  }

  lemma StepConcludes(cfg: Config, shop: Shop, step: Step, s: State, fate: Fate)
    requires !DoFaulty(cfg, shop, step, s, fate).l.failed
    ensures !s.l.failed && Concludes(cfg, shop, step, s.l, DoFaulty(cfg, shop, step, s, fate).l, s.c)
  {
    Faultless(cfg, shop, step, s, fate);
    if step.RedisStep? {
      RedisConcludes(cfg, shop, s);
    } else if step.PostgresStep? {
      PostgresConcludes(cfg, shop, s);
    } else if step.MigrateStep? {
      MigrateConcludes(cfg, shop, step.m, s);
    } else if step.DeployStep? {
      DeployConcludes(cfg, shop, step.m, s);
    } else {
      OtherStepConcludes(cfg, shop, step, s);
    }
  }

  /** All that the following lemmas use about a step. */
  ghost predicate Honest(cfg: Config, shop: Shop, f: Sight, views: nat -> Cluster)
  {
    forall step, l, k :: !f(step, l, k).failed ==> !l.failed && Concludes(cfg, shop, step, l, f(step, l, k), views(k))
  }

  lemma SeesIsHonest(cfg: Config, shop: Shop, views: nat -> Cluster, fates: Role -> Fate)
    ensures Honest(cfg, shop, Sees(cfg, shop, views, fates), views)
  {
    var f := Sees(cfg, shop, views, fates);
    forall step, l, k | !f(step, l, k).failed
      ensures !l.failed && Concludes(cfg, shop, step, l, f(step, l, k), views(k))
    {
      StepConcludes(cfg, shop, step, State(views(k), l), fates(Target(cfg, step)));
    }
  }

  // ---- The loop over the microservices ----

  /** One turn of the loop: what it saw of the Job and, a step later, of the Deployment. */
  predicate ServiceObserved(cfg: Config, shop: Shop, views: nat -> Cluster, k: nat, m: Microservice)
  {
    Migrated(cfg, shop, views(k), m) && RolledOut(shop, views(k + 1), m)
  }

  /** How readiness may move over some steps that did not fail. */
  predicate Moves(l: Locals, l': Locals, observed: bool)
  {
    && !l.failed && l'.dbState == l.dbState
    && (l.dbState == DbReady ==> (l'.allReady <==> l.allReady && observed))
    && (!l.allReady ==> !l'.allReady)
  }

  lemma OneService(cfg: Config, shop: Shop, f: Sight, m: Microservice, l: Locals, views: nat -> Cluster, k: nat)
    requires Honest(cfg, shop, f, views)
    ensures var l' := Carried(f, [MigrateStep(m), DeployStep(m), ServiceStep(m)], l, k);
            !l'.failed ==> Moves(l, l', ServiceObserved(cfg, shop, views, k, m))
  {
    var a, b, c := MigrateStep(m), DeployStep(m), ServiceStep(m);
    CarriedSnoc(f, [], a, l, k);
    CarriedSnoc(f, [a], b, l, k);
    CarriedSnoc(f, [a, b], c, l, k);
    assert [] + [a] == [a] && [a] + [b] == [a, b] && [a, b] + [c] == [a, b, c];
    var l1 := f(a, l, k);
    var l2 := f(b, l1, k + 1);
    var l3 := f(c, l2, k + 2);
    assert Carried(f, [a, b, c], l, k) == l3;
    if !l3.failed {
      assert Concludes(cfg, shop, c, l2, l3, views(k + 2));
      assert Concludes(cfg, shop, b, l1, l2, views(k + 1));
      assert Concludes(cfg, shop, a, l, l1, views(k));
    }
  }

  predicate ServicesObserved(cfg: Config, shop: Shop, views: nat -> Cluster, k: nat, services: seq<Microservice>)
  {
    forall i | 0 <= i < |services| :: ServiceObserved(cfg, shop, views, k + 3 * i, services[i])
  }

  /** For any list of microservices: the loop ends ready exactly when it began ready and
      each turn saw its service migrated and rolled out. */
  lemma {:induction false} AllServices(cfg: Config, shop: Shop, f: Sight, services: seq<Microservice>, l: Locals,
                                       views: nat -> Cluster, k: nat)
    requires Honest(cfg, shop, f, views)
    ensures var l' := Carried(f, ServiceSteps(services), l, k);
            !l'.failed ==> Moves(l, l', ServicesObserved(cfg, shop, views, k, services))
    decreases |services|
  {
    if services == [] {
      assert !l.failed ==> Moves(l, l, true);
    } else {
      var m, rest := services[0], services[1..];
      var three := [MigrateStep(m), DeployStep(m), ServiceStep(m)];
      assert ServiceSteps(services) == three + ServiceSteps(rest);
      CarriedAppend(f, three, ServiceSteps(rest), l, k);
      OneService(cfg, shop, f, m, l, views, k);
      AllServices(cfg, shop, f, rest, Carried(f, three, l, k), views, k + 3);
      ObservedSplits(cfg, shop, views, k, services);
    }
  }

  lemma ObservedRest(cfg: Config, shop: Shop, views: nat -> Cluster, k: nat, services: seq<Microservice>)
    requires services != [] && ServicesObserved(cfg, shop, views, k, services)
    ensures ServiceObserved(cfg, shop, views, k, services[0])
    ensures ServicesObserved(cfg, shop, views, k + 3, services[1..])
  {
    assert ServiceObserved(cfg, shop, views, k + 3 * 0, services[0]);
    forall i | 0 <= i < |services[1..]|
      ensures ServiceObserved(cfg, shop, views, k + 3 + 3 * i, services[1..][i])
    {
      assert ServiceObserved(cfg, shop, views, k + 3 * (i + 1), services[i + 1]);
    }
  }

  lemma ObservedAll(cfg: Config, shop: Shop, views: nat -> Cluster, k: nat, services: seq<Microservice>)
    requires services != [] && ServiceObserved(cfg, shop, views, k, services[0])
    requires ServicesObserved(cfg, shop, views, k + 3, services[1..])
    ensures ServicesObserved(cfg, shop, views, k, services)
  {
    forall i | 0 <= i < |services|
      ensures ServiceObserved(cfg, shop, views, k + 3 * i, services[i])
    {
      if i > 0 {
        assert ServiceObserved(cfg, shop, views, k + 3 + 3 * (i - 1), services[1..][i - 1]);
      }
    }
  }

  lemma ObservedSplits(cfg: Config, shop: Shop, views: nat -> Cluster, k: nat, services: seq<Microservice>)
    requires services != []
    ensures ServicesObserved(cfg, shop, views, k, services) <==>
              ServiceObserved(cfg, shop, views, k, services[0]) &&
                  ServicesObserved(cfg, shop, views, k + 3, services[1..])
  {
    if ServicesObserved(cfg, shop, views, k, services) {
      ObservedRest(cfg, shop, views, k, services);
    } else if ServiceObserved(cfg, shop, views, k, services[0]) &&
        ServicesObserved(cfg, shop, views, k + 3, services[1..]) {
      ObservedAll(cfg, shop, views, k, services);
    }
  }

  // ---- The opening steps ----

  /** Which step of the opening looks at the database. */
  function DatabaseView(shop: Shop): nat
  {
    |Opening(shop)| - 2
  }

  lemma OpeningSplits(shop: Shop)
    ensures var steps, n := DatabaseSteps(shop), DatabaseView(shop);
            Opening(shop) == Opening(shop)[..n] + [steps[|steps| - 1]] + [JwtSecretStep]
  {
  }

  lemma OpeningSeen(cfg: Config, shop: Shop, f: Sight, views: nat -> Cluster)
    requires Honest(cfg, shop, f, views)
    ensures var l := Carried(f, Opening(shop), START, 0);
            !l.failed ==> DatabaseConcluded(cfg, shop, l, views(DatabaseView(shop)))
  {
    OpeningSplits(shop);
    var steps, n := DatabaseSteps(shop), DatabaseView(shop);
    EndOfOpening(cfg, shop, f, Opening(shop)[..n], steps[|steps| - 1], START, views);
  }

  lemma EndOfOpening(cfg: Config, shop: Shop, f: Sight, before: seq<Step>, step: Step, l: Locals, views: nat -> Cluster)
    requires Honest(cfg, shop, f, views)
    requires var steps := DatabaseSteps(shop); step == steps[|steps| - 1]
    ensures var l' := Carried(f, before + [step] + [JwtSecretStep], l, 0);
            !l'.failed ==> DatabaseConcluded(cfg, shop, l', views(|before|))
  {
    var l1 := Carried(f, before, l, 0);
    CarriedSnoc(f, before, step, l, 0);
    CarriedSnoc(f, before + [step], JwtSecretStep, l, 0);
    var l2 := f(step, l1, |before|);
    var l3 := f(JwtSecretStep, l2, |before| + 1);
    if !l3.failed {
      assert Concludes(cfg, shop, JwtSecretStep, l2, l3, views(|before| + 1));
      assert Concludes(cfg, shop, step, l1, l2, views(|before|));
    }
  }

  // ---- The whole reconcile ----

  /** Everything before the status write. */
  function WorkSteps(cfg: Config, shop: Shop): seq<Step>
  {
    Opening(shop) + ServiceSteps(cfg.services)
  }

  predicate ObservedReady(cfg: Config, shop: Shop, views: nat -> Cluster)
  {
    && DatabaseObservedReady(cfg, shop, views(DatabaseView(shop)))
    && ServicesObserved(cfg, shop, views, |Opening(shop)|, cfg.services)
  }

  /** What is known when the work is done. */
  predicate WorkConcluded(cfg: Config, shop: Shop, l: Locals, views: nat -> Cluster)
  {
    && l.dbState == ObservedDbState(cfg, shop, views(DatabaseView(shop)))
    && (l.allReady <==> ObservedReady(cfg, shop, views))
  }

  lemma WorkSeen(cfg: Config, shop: Shop, f: Sight, views: nat -> Cluster)
    requires Honest(cfg, shop, f, views)
    ensures var l := Carried(f, WorkSteps(cfg, shop), START, 0);
            !l.failed ==> WorkConcluded(cfg, shop, l, views)
  {
    var l := Carried(f, Opening(shop), START, 0);
    CarriedAppend(f, Opening(shop), ServiceSteps(cfg.services), START, 0);
    OpeningSeen(cfg, shop, f, views);
    AllServices(cfg, shop, f, cfg.services, l, views, |Opening(shop)|);
  }

  lemma EndSeen(cfg: Config, shop: Shop, f: Sight, views: nat -> Cluster)
    requires Honest(cfg, shop, f, views)
    ensures var last := Carried(f, Program(cfg, shop), START, 0);
            !last.failed ==> last == Carried(f, WorkSteps(cfg, shop), START, 0)
  {
    var work := WorkSteps(cfg, shop);
    assert Program(cfg, shop) == work + [StatusStep] + [IngressStep];
    CarriedSnoc(f, work, StatusStep, START, 0);
    CarriedSnoc(f, work + [StatusStep], IngressStep, START, 0);
    var l := Carried(f, work, START, 0);
    var l1 := f(StatusStep, l, |work|);
    var l2 := f(IngressStep, l1, |work| + 1);
    if !l2.failed {
      assert Concludes(cfg, shop, IngressStep, l1, l2, views(|work| + 1));
      assert Concludes(cfg, shop, StatusStep, l, l1, views(|work|));
    }
  }

  /** The status stored for a Shop. */
  function StoredStatus(c: Cluster, shop: Shop): Option<ShopStatus>
  {
    var o := Get(c, shop, ShopItself);
    if o.Some? && o.value.body.ShopBody? then Some(o.value.body.status) else None
  }

  /** A stored status that reports this readiness and this database state; conditions
      other than Available are as they were. */
  predicate Reports(shop: Shop, ready: bool, db: DbState, before: ShopStatus, after: ShopStatus)
  {
    && after.ready == ready
    && after.replicas == (if shop.spec.availability == "high" then 3 else 2)
    && AVAILABLE in after.conditions
    && after.conditions[AVAILABLE].status == ready
    && after.conditions[AVAILABLE].reason ==
         (if ready then "ShopReady"
          else if db == OperatorMissing then "DatabaseOperatorMissing"
          else if db == Provisioning then "DatabaseProvisioning"
          else "DeploymentProgressing")
    && after.conditions == before.conditions[AVAILABLE := after.conditions[AVAILABLE]]
  }

  /** The result agrees with what was observed. */
  predicate Answers(result: Result, ready: bool, db: DbState)
  {
    && (result == Finished <==> ready)
    && (result == RequeueAfter(30) <==> db != DbReady)
    && (result == RequeueAfter(15) <==> db == DbReady && !ready)
  }

  lemma StatusReports(cfg: Config, shop: Shop, s: State, fate: Fate)
    requires !s.l.failed
    ensures var t := DoFaulty(cfg, shop, StatusStep, s, fate);
            var before, after := StoredStatus(s.c, shop), StoredStatus(t.c, shop);
            && (if before.Some? && fate != Refused
                then after.Some? && Reports(shop, s.l.allReady, s.l.dbState, before.value, after.value)
                else after == before)
            && (t.l.failed <==> before.None? || fate != Worked)
            && (!t.l.failed ==> t.l == s.l)
  {
  }

  /** The readiness of what was seen. Let every step see the cluster at its own moment and
      let calls fail in any way. A reconcile that gets as far as the status write turns
      the status then stored into one that reports exactly what its steps saw - whatever
      happens to the Ingress afterwards - and one that ends without an error answers
      accordingly. */
  lemma StatusReportsWhatWasSeen(cfg: Config, shop: Shop, views: nat -> Cluster, fates: Role -> Fate)
    ensures var f := Sees(cfg, shop, views, fates);
            var l, last := Carried(f, WorkSteps(cfg, shop), START, 0), Carried(f, Program(cfg, shop), START, 0);
            var ready, db := ObservedReady(cfg, shop, views), ObservedDbState(cfg, shop, views(DatabaseView(shop)));
            && StatusWritten(cfg, shop, State(views(|WorkSteps(cfg, shop)|), l), fates(ShopItself), ready, db)
            && (!last.failed ==> Answers(ResultOf(last), ready, db))
  {
    var f := Sees(cfg, shop, views, fates);
    SeesIsHonest(cfg, shop, views, fates);
    WorkSeen(cfg, shop, f, views);
    EndSeen(cfg, shop, f, views);
    WrittenAsConcluded(cfg, shop, views, Carried(f, WorkSteps(cfg, shop), START, 0), fates(ShopItself));
    AnswersAsConcluded(cfg, shop, views, Carried(f, Program(cfg, shop), START, 0));
  }

  /** The status step, from the state that the work left: it replaces what is stored by
      a report, or leaves it. */
  predicate StatusWritten(cfg: Config, shop: Shop, s: State, fate: Fate, ready: bool, db: DbState)
  {
    var before, after := StoredStatus(s.c, shop), StoredStatus(DoFaulty(cfg, shop, StatusStep, s, fate).c, shop);
    if !s.l.failed && before.Some? && fate != Refused
    then after.Some? && Reports(shop, ready, db, before.value, after.value)
    else after == before
  }

  lemma WrittenAsConcluded(cfg: Config, shop: Shop, views: nat -> Cluster, l: Locals, fate: Fate)
    requires !l.failed ==> WorkConcluded(cfg, shop, l, views)
    ensures StatusWritten(cfg, shop, State(views(|WorkSteps(cfg, shop)|), l), fate,
                          ObservedReady(cfg, shop, views), ObservedDbState(cfg, shop, views(DatabaseView(shop))))
  {
    var s := State(views(|WorkSteps(cfg, shop)|), l);
    if !l.failed {
      StatusReports(cfg, shop, s, fate);
    } else {
      assert DoFaulty(cfg, shop, StatusStep, s, fate) == s;
    }
  }

  lemma AnswersAsConcluded(cfg: Config, shop: Shop, views: nat -> Cluster, l: Locals)
    requires !l.failed ==> WorkConcluded(cfg, shop, l, views)
    ensures !l.failed ==>
              Answers(ResultOf(l), ObservedReady(cfg, shop, views),
                  ObservedDbState(cfg, shop, views(DatabaseView(shop))))
  {
  }
}
