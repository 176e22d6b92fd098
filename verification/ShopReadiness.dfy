/** What the Ready bit of a Shop says about the cluster when nobody but the reconcile
    itself changes it, and what has become of the Ingress by then. */
module ShopReadiness {
  import opened Wrappers
  import opened Names
  import opened Labels
  import opened ShopModel
  import opened ShopConfluence
  import opened ShopObservation
  import opened ShopEnvironment

  predicate ServiceReady(cfg: Config, shop: Shop, c: Cluster, m: Microservice)
  {
    Migrated(cfg, shop, c, m) && RolledOut(shop, c, m)
  }

  predicate ShopReady(cfg: Config, shop: Shop, c: Cluster)
  {
    && DatabaseObservedReady(cfg, shop, c)
    && forall i | 0 <= i < |cfg.services| :: ServiceReady(cfg, shop, c, cfg.services[i])
  }

  // ---- A reconcile's own writes never change what it observes ----

  /** The part of an object that other controllers fill in. */
  predicate StatusAgrees(o: Option<Object>, o': Option<Object>)
  {
    && ReadyReplicas(o') == ReadyReplicas(o)
    && Succeeded(o') == Succeeded(o)
    && ReadyInstances(o') == ReadyInstances(o)
    && StatefulSetReady(o') == StatefulSetReady(o)
  }

  /** Objects keep the status other controllers gave them; new ones have none. */
  ghost predicate SameStatus(c: Cluster, c': Cluster)
  {
    forall key :: StatusAgrees(Lookup(c, key), Lookup(c', key))
  }

  /** Objects of a kind have that kind's body. */
  predicate KindMatches(kind: Kind, body: Body)
  {
    && (body.DeploymentBody? <==> kind == DeploymentKind)
    && (body.JobBody? <==> kind == JobKind)
    && (body.PostgresBody? <==> kind == PostgresKind)
    && (body.StatefulSetBody? <==> kind == StatefulSetKind)
  }

  ghost predicate WellKinded(c: Cluster)
  {
    forall key | key in c :: KindMatches(key.kind, c[key].body)
  }

  ghost predicate KeptBy(cfg: Config, step: Step, prior: Option<Object>, e: Effect)
  {
    e.write.Some? ==> StatusAgrees(prior, e.write) && KindMatches(KindOf(Target(cfg, step)), e.write.value.body)
  }

  lemma OwnedKeepsStatus(cfg: Config, shop: Shop, step: Step, l: Locals, prior: Option<Object>, other: Option<Object>)
    requires step.WalletStep? || step.DiscordStep? || step.StatusStep?
    requires prior.Some? ==> KindMatches(KindOf(Target(cfg, step)), prior.value.body)
    ensures KeptBy(cfg, step, prior, Decide(cfg, shop, step, l, prior, other))
  {
  }

  lemma MonitoringKeepsStatus(cfg: Config, shop: Shop, step: Step, l: Locals, prior: Option<Object>,
                              other: Option<Object>)
    requires step.MonitorStep? || step.DashboardStep? || step.AlertsStep? || step.RoutingStep?
    requires prior.Some? ==> KindMatches(KindOf(Target(cfg, step)), prior.value.body)
    ensures KeptBy(cfg, step, prior, Decide(cfg, shop, step, l, prior, other))
  {
  }

  lemma ServiceKeepsStatus(cfg: Config, shop: Shop, m: Microservice, l: Locals, prior: Option<Object>,
                           other: Option<Object>)
    requires prior.Some? ==> KindMatches(ServiceKind, prior.value.body)
    ensures KeptBy(cfg, ServiceStep(m), prior, Decide(cfg, shop, ServiceStep(m), l, prior, other))
  {
  }

  lemma IngressKeepsStatus(cfg: Config, shop: Shop, l: Locals, prior: Option<Object>, other: Option<Object>)
    requires prior.Some? ==> KindMatches(IngressKind, prior.value.body)
    ensures KeptBy(cfg, IngressStep, prior, Decide(cfg, shop, IngressStep, l, prior, other))
  {
  }

  lemma DeploymentKeepsStatus(cfg: Config, shop: Shop, m: Microservice, env: seq<EnvVar>, prior: Option<Object>)
    requires prior.Some? ==> KindMatches(DeploymentKind, prior.value.body)
    ensures var made := Some(MadeDeployment(cfg, shop, m, env, BaseOf(prior)));
            StatusAgrees(prior, made) && KindMatches(DeploymentKind, made.value.body)
  {
  }

  lemma DeployKeepsStatus(cfg: Config, shop: Shop, m: Microservice, l: Locals, prior: Option<Object>,
                          other: Option<Object>)
    requires prior.Some? ==> KindMatches(DeploymentKind, prior.value.body)
    ensures KeptBy(cfg, DeployStep(m), prior, Decide(cfg, shop, DeployStep(m), l, prior, other))
  {
    DeploymentKeepsStatus(cfg, shop, m, AppEnv(cfg, shop, m, PublishedAddress(other), l.dbEnv), prior);
  }

  lemma SecretKeepsStatus(cfg: Config, shop: Shop, step: Step, l: Locals, prior: Option<Object>, other: Option<Object>)
    requires step.RedisSecretStep? || step.JwtSecretStep?
    ensures KeptBy(cfg, step, prior, Decide(cfg, shop, step, l, prior, other))
  {
  }

  lemma DatabaseKeepsStatus(cfg: Config, shop: Shop, step: Step, l: Locals, prior: Option<Object>,
                            other: Option<Object>)
    requires step.PostgresStep? || step.RedisStep?
    ensures KeptBy(cfg, step, prior, Decide(cfg, shop, step, l, prior, other))
  {
  }

  lemma MigrateKeepsStatus(cfg: Config, shop: Shop, m: Microservice, l: Locals, prior: Option<Object>,
                           other: Option<Object>)
    ensures KeptBy(cfg, MigrateStep(m), prior, Decide(cfg, shop, MigrateStep(m), l, prior, other))
  {
  }

  lemma DecisionKeepsStatus(cfg: Config, shop: Shop, step: Step, l: Locals, prior: Option<Object>,
                            other: Option<Object>)
    requires prior.Some? ==> KindMatches(KindOf(Target(cfg, step)), prior.value.body)
    ensures KeptBy(cfg, step, prior, Decide(cfg, shop, step, l, prior, other))
  {
    if step.DeployStep? {
      DeployKeepsStatus(cfg, shop, step.m, l, prior, other);
    } else if step.MigrateStep? {
      MigrateKeepsStatus(cfg, shop, step.m, l, prior, other);
    } else if step.PostgresStep? || step.RedisStep? {
      DatabaseKeepsStatus(cfg, shop, step, l, prior, other);
    } else if step.RedisSecretStep? || step.JwtSecretStep? {
      SecretKeepsStatus(cfg, shop, step, l, prior, other);
    } else if step.ServiceStep? {
      ServiceKeepsStatus(cfg, shop, step.m, l, prior, other);
    } else if step.IngressStep? {
      IngressKeepsStatus(cfg, shop, l, prior, other);
    } else if step.WalletStep? || step.DiscordStep? || step.StatusStep? {
      OwnedKeepsStatus(cfg, shop, step, l, prior, other);
    } else {
      MonitoringKeepsStatus(cfg, shop, step, l, prior, other);
    }
  }

  lemma WriteKeepsStatus(cfg: Config, shop: Shop, step: Step, l: Locals, c: Cluster, c': Cluster)
    requires WellKinded(c)
    requires c' == Write(c, RoleKey(shop, Target(cfg, step)), Act(cfg, shop, step, l, c).write)
    ensures SameStatus(c, c') && WellKinded(c')
  {
    DecisionKeepsStatus(cfg, shop, step, l, Get(c, shop, Target(cfg, step)), Get(c, shop, Other(cfg, step)));
  }

  lemma DoKeepsStatus(cfg: Config, shop: Shop, step: Step, s: State)
    requires WellKinded(s.c)
    ensures SameStatus(s.c, Do(cfg, shop, step, s).c) && WellKinded(Do(cfg, shop, step, s).c)
  {
    if !s.l.failed {
      WriteKeepsStatus(cfg, shop, step, s.l, s.c, Do(cfg, shop, step, s).c);
    }
  }

  lemma FaultyStepKeepsStatus(cfg: Config, shop: Shop, step: Step, s: State, fate: Fate)
    requires WellKinded(s.c)
    ensures SameStatus(s.c, DoFaulty(cfg, shop, step, s, fate).c) && WellKinded(DoFaulty(cfg, shop, step, s, fate).c)
  {
    DoKeepsStatus(cfg, shop, step, s);
    var t := DoFaulty(cfg, shop, step, s, fate);
    assert t.c == s.c || t.c == Do(cfg, shop, step, s).c;
  }

  lemma {:induction false} RunKeepsStatus(cfg: Config, shop: Shop, steps: seq<Step>, s: State, fates: Role -> Fate)
    requires WellKinded(s.c)
    ensures SameStatus(s.c, RunFaulty(cfg, shop, steps, s, fates).c) &&
              WellKinded(RunFaulty(cfg, shop, steps, s, fates).c)
    decreases |steps|
  {
    if steps != [] {
      var t := DoFaulty(cfg, shop, steps[0], s, fates(Target(cfg, steps[0])));
      FaultyStepKeepsStatus(cfg, shop, steps[0], s, fates(Target(cfg, steps[0])));
      RunKeepsStatus(cfg, shop, steps[1..], t, fates);
      StatusTransitive(s.c, t.c, RunFaulty(cfg, shop, steps[1..], t, fates).c);
    }
  }

  lemma StatusTransitive(a: Cluster, b: Cluster, c: Cluster)
    requires SameStatus(a, b) && SameStatus(b, c)
    ensures SameStatus(a, c)
  {
    forall key
      ensures StatusAgrees(Lookup(a, key), Lookup(c, key))
    {
      assert StatusAgrees(Lookup(a, key), Lookup(b, key)) && StatusAgrees(Lookup(b, key), Lookup(c, key));
    }
  }

  lemma ObservedAgain(cfg: Config, shop: Shop, c: Cluster, c': Cluster, m: Microservice)
    requires SameStatus(c, c')
    ensures Migrated(cfg, shop, c', m) == Migrated(cfg, shop, c, m)
    ensures RolledOut(shop, c', m) == RolledOut(shop, c, m)
  {
    assert StatusAgrees(Get(c, shop, Target(cfg, MigrateStep(m))), Get(c', shop, Target(cfg, MigrateStep(m))));
    assert StatusAgrees(Get(c, shop, Deployment(m.name)), Get(c', shop, Deployment(m.name)));
  }

  lemma DatabaseSeenAgain(cfg: Config, shop: Shop, c: Cluster, c': Cluster)
    requires SameStatus(c, c')
    ensures ObservedDbState(cfg, shop, c') == ObservedDbState(cfg, shop, c)
    ensures DatabaseObservedReady(cfg, shop, c') == DatabaseObservedReady(cfg, shop, c)
  {
    assert StatusAgrees(Get(c, shop, RedisStatefulSet), Get(c', shop, RedisStatefulSet));
    assert StatusAgrees(Get(c, shop, Postgres), Get(c', shop, Postgres));
  }

  // ---- What an undisturbed reconcile sees ----

  /** Step number k sees what the steps before it have left. */
  function Undisturbed(cfg: Config, shop: Shop, c: Cluster, fates: Role -> Fate): nat -> Cluster
  {
    (k: nat) =>
      if k <= |Program(cfg, shop)| then RunFaulty(cfg, shop, Program(cfg, shop)[..k], State(c, START), fates).c else c
  }

  lemma SeesTheSame(cfg: Config, shop: Shop, c: Cluster, fates: Role -> Fate, k: nat)
    requires WellKinded(c)
    ensures SameStatus(c, Undisturbed(cfg, shop, c, fates)(k))
  {
    if k <= |Program(cfg, shop)| {
      RunKeepsStatus(cfg, shop, Program(cfg, shop)[..k], State(c, START), fates);
    }
  }

  lemma SeenIsShopReady(cfg: Config, shop: Shop, c: Cluster, fates: Role -> Fate)
    requires WellKinded(c)
    ensures var views := Undisturbed(cfg, shop, c, fates);
            && ObservedReady(cfg, shop, views) == ShopReady(cfg, shop, c)
            && ObservedDbState(cfg, shop, views(DatabaseView(shop))) == ObservedDbState(cfg, shop, c)
  {
    var views := Undisturbed(cfg, shop, c, fates);
    forall k
      ensures SameStatus(c, views(k))
    {
      SeesTheSame(cfg, shop, c, fates, k);
    }
    SameViewsAgree(cfg, shop, c, views);
  }

  lemma SameViewsAgree(cfg: Config, shop: Shop, c: Cluster, views: nat -> Cluster)
    requires forall k :: SameStatus(c, views(k))
    ensures ObservedReady(cfg, shop, views) == ShopReady(cfg, shop, c)
    ensures ObservedDbState(cfg, shop, views(DatabaseView(shop))) == ObservedDbState(cfg, shop, c)
  {
    var n := |Opening(shop)|;
    DatabaseSeenAgain(cfg, shop, c, views(DatabaseView(shop)));
    forall i | 0 <= i < |cfg.services|
      ensures ServiceObserved(cfg, shop, views, n + 3 * i, cfg.services[i]) ==
                ServiceReady(cfg, shop, c, cfg.services[i])
    {
      ObservedAgain(cfg, shop, c, views(n + 3 * i), cfg.services[i]);
      ObservedAgain(cfg, shop, c, views(n + 3 * i + 1), cfg.services[i]);
    }
  }

  /** The faulty run of the first steps of the program carries what those steps saw. */
  lemma PrefixIsCarried(cfg: Config, shop: Shop, c: Cluster, fates: Role -> Fate, n: nat)
    requires n <= |Program(cfg, shop)|
    ensures var views := Undisturbed(cfg, shop, c, fates);
            RunFaulty(cfg, shop, Program(cfg, shop)[..n], State(c, START), fates) ==
              State(views(n), Carried(Sees(cfg, shop, views, fates), Program(cfg, shop)[..n], START, 0))
  {
    var p, views := Program(cfg, shop), Undisturbed(cfg, shop, c, fates);
    forall j | 0 <= j <= n
      ensures views(0 + j) == RunFaulty(cfg, shop, p[..n][..j], State(c, START), fates).c
    {
      assert p[..n][..j] == p[..j];
    }
    RunIsCarried(cfg, shop, p[..n], State(c, START), views, fates, 0);
  }

  // ---- The status write ----

  /** The reconcile up to the status write. */
  function Worked(cfg: Config, shop: Shop, c: Cluster, fates: Role -> Fate): State
  {
    RunFaulty(cfg, shop, WorkSteps(cfg, shop), State(c, START), fates)
  }

  function Ended(cfg: Config, shop: Shop, c: Cluster, fates: Role -> Fate): State
  {
    RunFaulty(cfg, shop, Program(cfg, shop), State(c, START), fates)
  }

  lemma RunThenTwo(cfg: Config, shop: Shop, work: seq<Step>, first: Step, second: Step, s: State, fates: Role -> Fate)
    ensures RunFaulty(cfg, shop, work + [first, second], s, fates) ==
              DoFaulty(cfg, shop, second,
                       DoFaulty(cfg, shop, first, RunFaulty(cfg, shop, work, s, fates), fates(Target(cfg, first))),
                       fates(Target(cfg, second)))
  {
    var s0 := RunFaulty(cfg, shop, work, s, fates);
    RunFaultyAppend(cfg, shop, work, [first, second], s, fates);
    assert [first, second][1..] == [second] && [second][1..] == [];
    var t := DoFaulty(cfg, shop, first, s0, fates(Target(cfg, first)));
    var u := DoFaulty(cfg, shop, second, t, fates(Target(cfg, second)));
    assert RunFaulty(cfg, shop, [], u, fates) == u;
    assert RunFaulty(cfg, shop, [second], t, fates) == RunFaulty(cfg, shop, [second][1..], u, fates);
  }

  lemma LastTwoSteps(cfg: Config, shop: Shop, c: Cluster, fates: Role -> Fate)
    ensures Ended(cfg, shop, c, fates) ==
              DoFaulty(cfg, shop, IngressStep,
                  DoFaulty(cfg, shop, StatusStep, Worked(cfg, shop, c, fates), fates(ShopItself)), fates(Ingress))
  {
    assert Program(cfg, shop) == WorkSteps(cfg, shop) + [StatusStep, IngressStep];
    RunThenTwo(cfg, shop, WorkSteps(cfg, shop), StatusStep, IngressStep, State(c, START), fates);
  }

  lemma {:induction false} OtherKindsStay(cfg: Config, shop: Shop, steps: seq<Step>, s: State, fates: Role -> Fate,
                                          role: Role)
    requires forall i | 0 <= i < |steps| :: KindOf(Target(cfg, steps[i])) != KindOf(role)
    ensures Get(RunFaulty(cfg, shop, steps, s, fates).c, shop, role) == Get(s.c, shop, role)
    decreases |steps|
  {
    if steps != [] {
      var t := DoFaulty(cfg, shop, steps[0], s, fates(Target(cfg, steps[0])));
      FaultyStepKeepsOthers(cfg, shop, steps[0], s, fates(Target(cfg, steps[0])), role);
      OtherKindsStay(cfg, shop, steps[1..], t, fates, role);
    }
  }

  lemma FaultyStepKeepsOthers(cfg: Config, shop: Shop, step: Step, s: State, fate: Fate, role: Role)
    requires KindOf(Target(cfg, step)) != KindOf(role)
    ensures Get(DoFaulty(cfg, shop, step, s, fate).c, shop, role) == Get(s.c, shop, role)
  {
  }

  lemma WorkTargets(cfg: Config, shop: Shop, i: nat)
    requires i < |WorkSteps(cfg, shop)|
    ensures var kind := KindOf(Target(cfg, WorkSteps(cfg, shop)[i])); kind != ShopKind && kind != IngressKind
  {
    assert Program(cfg, shop)[i] == WorkSteps(cfg, shop)[i];
    RankOf(cfg, shop, i);
    ProgramParts(cfg, shop);
    OnlyTheLastTwo(cfg, WorkSteps(cfg, shop)[i]);
  }

  lemma OnlyTheLastTwo(cfg: Config, step: Step)
    requires Rank(step) < 10
    ensures KindOf(Target(cfg, step)) != ShopKind && KindOf(Target(cfg, step)) != IngressKind
  {
  }

  /** The work touches neither the Shop itself nor its Ingress. */
  lemma WorkKeeps(cfg: Config, shop: Shop, c: Cluster, fates: Role -> Fate, role: Role)
    requires role == ShopItself || role == Ingress
    ensures Get(Worked(cfg, shop, c, fates).c, shop, role) == Get(c, shop, role)
  {
    var p := WorkSteps(cfg, shop);
    forall i | 0 <= i < |p|
      ensures KindOf(Target(cfg, p[i])) != KindOf(role)
    {
      WorkTargets(cfg, shop, i);
    }
    OtherKindsStay(cfg, shop, p, State(c, START), fates, role);
  }

  /** Does this reconcile store a status? It does if its work met no error, a Shop is
      stored, and the write is not refused. */
  predicate StoresStatus(cfg: Config, shop: Shop, c: Cluster, fates: Role -> Fate)
  {
    !Worked(cfg, shop, c, fates).l.failed && StoredStatus(c, shop).Some? && fates(ShopItself) != Refused
  }

  lemma WorkReports(cfg: Config, shop: Shop, c: Cluster, fates: Role -> Fate)
    requires WellKinded(c)
    ensures StatusWritten(cfg, shop, Worked(cfg, shop, c, fates), fates(ShopItself), ShopReady(cfg, shop, c),
              ObservedDbState(cfg, shop, c))
    ensures var end := Ended(cfg, shop, c, fates);
            !end.l.failed ==> Answers(ResultOf(end.l), ShopReady(cfg, shop, c), ObservedDbState(cfg, shop, c))
  {
    var views, p, n := Undisturbed(cfg, shop, c, fates), Program(cfg, shop), |WorkSteps(cfg, shop)|;
    StatusReportsWhatWasSeen(cfg, shop, views, fates);
    SeenIsShopReady(cfg, shop, c, fates);
    PrefixIsCarried(cfg, shop, c, fates, n);
    PrefixIsCarried(cfg, shop, c, fates, |p|);
    assert p[..n] == WorkSteps(cfg, shop) && p[..|p|] == p;
  }

  /** For any list of microservices and any faults: a reconcile stores a status exactly
      when it gets to the status write, and then that status says Ready exactly when
      the database, the migrations and every Deployment were observed ready; the
      Available condition agrees with it and its False reason names the observed
      database state. This does not depend on what happens to the Ingress afterwards or
      on whether the reply to the write was lost. A reconcile that ends without an error
      asks not to be called again exactly when the Shop is ready. */
  lemma ReadinessIsExact(cfg: Config, shop: Shop, c: Cluster, fates: Role -> Fate)
    requires WellKinded(c)
    ensures var end, ready, db := Ended(cfg, shop, c, fates), ShopReady(cfg, shop, c), ObservedDbState(cfg, shop, c);
            var before, after := StoredStatus(c, shop), StoredStatus(end.c, shop);
            && (if StoresStatus(cfg, shop, c, fates)
                then after.Some? && Reports(shop, ready, db, before.value, after.value)
                else after == before)
            && (!end.l.failed ==> Answers(ResultOf(end.l), ready, db))
  {
    WorkReports(cfg, shop, c, fates);
    WorkKeepsStoredStatus(cfg, shop, c, fates);
    StatusOutlivesIngress(cfg, shop, c, fates);
  }

  lemma WorkKeepsStoredStatus(cfg: Config, shop: Shop, c: Cluster, fates: Role -> Fate)
    ensures StoredStatus(Worked(cfg, shop, c, fates).c, shop) == StoredStatus(c, shop)
  {
    WorkKeeps(cfg, shop, c, fates, ShopItself);
  }

  lemma IngressKeepsStoredStatus(cfg: Config, shop: Shop, t: State, fate: Fate)
    ensures StoredStatus(DoFaulty(cfg, shop, IngressStep, t, fate).c, shop) == StoredStatus(t.c, shop)
  {
    FaultyStepKeepsOthers(cfg, shop, IngressStep, t, fate, ShopItself);
  }

  lemma StatusOutlivesIngress(cfg: Config, shop: Shop, c: Cluster, fates: Role -> Fate)
    ensures StoredStatus(Ended(cfg, shop, c, fates).c, shop) ==
              StoredStatus(DoFaulty(cfg, shop, StatusStep, Worked(cfg, shop, c, fates), fates(ShopItself)).c, shop)
  {
    LastTwoSteps(cfg, shop, c, fates);
    var s := Worked(cfg, shop, c, fates);
    IngressKeepsStoredStatus(cfg, shop, DoFaulty(cfg, shop, StatusStep, s, fates(ShopItself)), fates(Ingress));
  }

  // ---- The Ingress ----

  /** The Ingress as the Shop's settings ask for it. */
  predicate IngressMatches(cfg: Config, shop: Shop, o: Option<Object>)
  {
    && o.Some? && o.value.owner == Some(shop.name) && o.value.labels == LabelsFor(shop.name) &&
        o.value.body.IngressBody?
    && o.value.body.host == shop.name + "." + Setting(cfg, "SHOP_INGRESS_DOMAIN", "localtest.me")
    && o.value.body.class_ == Setting(cfg, "SHOP_INGRESS_CLASS", "nginx")
    && o.value.body.paths == IngressPaths(shop, cfg.services)
    && "nginx.ingress.kubernetes.io/rewrite-target" in o.value.body.annotations
    && o.value.body.annotations["nginx.ingress.kubernetes.io/rewrite-target"] == "/$2"
    && "nginx.ingress.kubernetes.io/use-regex" in o.value.body.annotations
    && o.value.body.annotations["nginx.ingress.kubernetes.io/use-regex"] == "true"
  }

  /** Does this reconcile write the Ingress? Only after a status write that was
      acknowledged, if the call is not refused and nobody else owns the object. */
  predicate WritesIngress(cfg: Config, shop: Shop, c: Cluster, fates: Role -> Fate)
  {
    && StoresStatus(cfg, shop, c, fates) && fates(ShopItself) == Fate.Worked
    && fates(Ingress) != Refused && Adoptable(shop, Get(c, shop, Ingress))
  }

  lemma IngressStepDoes(cfg: Config, shop: Shop, s: State, fate: Fate)
    ensures var prior, after := Get(s.c, shop, Ingress),
              Get(DoFaulty(cfg, shop, IngressStep, s, fate).c, shop, Ingress);
            if !s.l.failed && fate != Refused && Adoptable(shop, prior)
            then IngressMatches(cfg, shop, after) else after == prior
  {
    var prior := Get(s.c, shop, Ingress);
    var made := MadeIngress(cfg, shop, BaseOf(prior));
    AnnotationsAreSet(cfg, shop, BaseOf(prior));
    if !s.l.failed && fate != Refused && Adoptable(shop, prior) {
      assert Act(cfg, shop, IngressStep, s.l, s.c).write == Some(made);
    }
  }

  lemma AnnotationsAreSet(cfg: Config, shop: Shop, o: Object)
    ensures IngressMatches(cfg, shop, Some(MadeIngress(cfg, shop, o)))
  {
    var annotations := if o.body.IngressBody? then o.body.annotations else map[];
    assert "nginx.ingress.kubernetes.io/rewrite-target" != "nginx.ingress.kubernetes.io/use-regex" by {
      assert "nginx.ingress.kubernetes.io/rewrite-target"[28] == 'r' &&
          "nginx.ingress.kubernetes.io/use-regex"[28] == 'u';
    }
  }

  /** When the Ingress step begins: the Ingress is still the first one, and the reconcile
      has failed unless it stored a status and knows. */
  lemma BeforeIngress(cfg: Config, shop: Shop, c: Cluster, fates: Role -> Fate)
    ensures var t := DoFaulty(cfg, shop, StatusStep, Worked(cfg, shop, c, fates), fates(ShopItself));
            && Get(t.c, shop, Ingress) == Get(c, shop, Ingress)
            && (!t.l.failed <==> StoresStatus(cfg, shop, c, fates) && fates(ShopItself) == Fate.Worked)
  {
    var s := Worked(cfg, shop, c, fates);
    WorkKeeps(cfg, shop, c, fates, Ingress);
    WorkKeepsStoredStatus(cfg, shop, c, fates);
    FaultyStepKeepsOthers(cfg, shop, StatusStep, s, fates(ShopItself), Ingress);
    StatusFails(cfg, shop, s, fates(ShopItself));
  }

  /** After any reconcile, with any faults, the Ingress is as the settings ask for
      exactly when it already was or the reconcile got to write it. */
  lemma IngressIsExact(cfg: Config, shop: Shop, c: Cluster, fates: Role -> Fate)
    ensures IngressMatches(cfg, shop, Get(Ended(cfg, shop, c, fates).c, shop, Ingress)) <==>
              IngressMatches(cfg, shop, Get(c, shop, Ingress)) || WritesIngress(cfg, shop, c, fates)
  {
    var s := Worked(cfg, shop, c, fates);
    var t := DoFaulty(cfg, shop, StatusStep, s, fates(ShopItself));
    BeforeIngress(cfg, shop, c, fates);
    LastTwoSteps(cfg, shop, c, fates);
    IngressStepDoes(cfg, shop, t, fates(Ingress));
  }

  lemma StatusFails(cfg: Config, shop: Shop, s: State, fate: Fate)
    ensures DoFaulty(cfg, shop, StatusStep, s, fate).l.failed <==>
              s.l.failed || StoredStatus(s.c, shop).None? || fate != Fate.Worked
  {
    if !s.l.failed {
      StatusReports(cfg, shop, s, fate);
    }
  }

  /** Ready promises no Ingress: a reconcile that stores Ready=True leaves an Ingress
      that is missing or not as asked for exactly when there was none as asked for, and
      the status reply was lost, the Ingress call was refused, or the Ingress belongs to
      someone else. */
  lemma ReadyWithoutIngress(cfg: Config, shop: Shop, c: Cluster, fates: Role -> Fate)
    requires WellKinded(c) && ShopReady(cfg, shop, c) && StoresStatus(cfg, shop, c, fates)
    ensures var end := Ended(cfg, shop, c, fates);
            && StoredStatus(end.c, shop).Some? && StoredStatus(end.c, shop).value.ready
            && (!IngressMatches(cfg, shop, Get(end.c, shop, Ingress)) <==>
                  && !IngressMatches(cfg, shop, Get(c, shop, Ingress))
                  && (fates(ShopItself) == LostReply || fates(Ingress) == Refused ||
                      !Adoptable(shop, Get(c, shop, Ingress))))
  {
    ReadinessIsExact(cfg, shop, c, fates);
    IngressIsExact(cfg, shop, c, fates);
  }

  // ---- Expiry of migration Jobs ----

  /** Ready is not kept for ever: a finished migration Job expires, and the next
      reconcile that stores a status stores Ready=False again. */
  lemma ExpiredJobUnreadies(cfg: Config, shop: Shop, c: Cluster, fates: Role -> Fate, i: nat)
    requires WellKinded(c) && ShopReady(cfg, shop, c)
    requires i < |cfg.services| && cfg.services[i].hasMigrations && shop.spec.databaseType == "standard"
    requires StoresStatus(cfg, shop, c - {RoleKey(shop, Target(cfg, MigrateStep(cfg.services[i])))}, fates)
    ensures var end := Ended(cfg, shop, c - {RoleKey(shop, Target(cfg, MigrateStep(cfg.services[i])))}, fates);
            && StoredStatus(end.c, shop).Some? && !StoredStatus(end.c, shop).value.ready
            && (!end.l.failed ==> ResultOf(end.l) == RequeueAfter(15))
  {
    var job := RoleKey(shop, Target(cfg, MigrateStep(cfg.services[i])));
    ExpiredIsUnready(cfg, shop, c, i, job);
    ReadinessIsExact(cfg, shop, c - {job}, fates);
  }

  lemma ExpiredIsUnready(cfg: Config, shop: Shop, c: Cluster, i: nat, job: Key)
    requires WellKinded(c) && ShopReady(cfg, shop, c)
    requires i < |cfg.services| && cfg.services[i].hasMigrations && shop.spec.databaseType == "standard"
    requires job == RoleKey(shop, Target(cfg, MigrateStep(cfg.services[i])))
    ensures WellKinded(c - {job}) && !ShopReady(cfg, shop, c - {job})
    ensures ObservedDbState(cfg, shop, c - {job}) == DbReady
  {
    assert Get(c - {job}, shop, Postgres) == Get(c, shop, Postgres);
    assert Get(c - {job}, shop, RedisStatefulSet) == Get(c, shop, RedisStatefulSet);
    assert Get(c - {job}, shop, Target(cfg, MigrateStep(cfg.services[i]))).None?;
    assert !ServiceReady(cfg, shop, c - {job}, cfg.services[i]);
  }

  // ---- The database state in an undisturbed run without faults ----

  lemma {:induction false} WithoutFaults(cfg: Config, shop: Shop, steps: seq<Step>, s: State, fates: Role -> Fate)
    requires forall role :: fates(role) == Fate.Worked
    ensures RunFaulty(cfg, shop, steps, s, fates) == Run(cfg, shop, steps, s)
    decreases |steps|
  {
    if steps != [] {
      WithoutFaults(cfg, shop, steps[1..], Do(cfg, shop, steps[0], s), fates);
    }
  }

  lemma OpeningObserved(cfg: Config, shop: Shop, c: Cluster)
    requires WellKinded(c)
    ensures var t := Run(cfg, shop, Opening(shop), State(c, START));
            !t.l.failed ==> t.l.dbState == ObservedDbState(cfg, shop, c)
  {
    var fates: Role -> Fate := (role: Role) => Fate.Worked;
    var views, p, n := Undisturbed(cfg, shop, c, fates), Program(cfg, shop), |Opening(shop)|;
    WithoutFaults(cfg, shop, Opening(shop), State(c, START), fates);
    PrefixIsCarried(cfg, shop, c, fates, n);
    assert p[..n] == Opening(shop);
    SeesIsHonest(cfg, shop, views, fates);
    OpeningSeen(cfg, shop, Sees(cfg, shop, views, fates), views);
    SeesTheSame(cfg, shop, c, fates, DatabaseView(shop));
    DatabaseSeenAgain(cfg, shop, c, views(DatabaseView(shop)));
  }
}
