/** What the cluster looks like after a reconcile of a Shop that met no error:
    every object at once is what the Shop's spec asks for. */
module ShopEndState {
  import opened Wrappers
  import opened Names
  import opened Labels
  import opened ShopModel
  import opened ShopConfluence
  import W = ShopWriteOnce
  import S = ShopSelection
  import R = ShopReadiness
  import ShopObservation

  // ---- The final cluster satisfies every step ----

  /** What the reconcile carries into its i-th step. */
  function Entering(cfg: Config, shop: Shop, c: Cluster, i: nat): Locals
    requires i <= |Program(cfg, shop)|
  {
    Run(cfg, shop, Program(cfg, shop)[..i], State(c, START)).l
  }

  lemma {:induction false} FailureStays(cfg: Config, shop: Shop, steps: seq<Step>, s: State)
    requires !Run(cfg, shop, steps, s).l.failed
    ensures !s.l.failed
    decreases |steps|
  {
    if steps != [] {
      FailureStays(cfg, shop, steps[1..], Do(cfg, shop, steps[0], s));
    }
  }

  /** What a step that has not failed demands of the cluster it leaves behind. */
  ghost predicate Satisfied(cfg: Config, shop: Shop, step: Step, l: Locals, c: Cluster)
  {
    var e := Act(cfg, shop, step, l, c);
    !e.l.failed && (e.write.Some? ==> Get(c, shop, Target(cfg, step)) == e.write)
  }

  lemma SplitAt(cfg: Config, shop: Shop, steps: seq<Step>, i: nat, s: State)
    requires i < |steps|
    ensures var before := Run(cfg, shop, steps[..i], s);
            var after := Do(cfg, shop, steps[i], before);
            && Run(cfg, shop, steps[..i + 1], s) == after
            && Run(cfg, shop, steps, s) == Run(cfg, shop, steps[i + 1..], after)
  {
    var before := Run(cfg, shop, steps[..i], s);
    assert steps[..i + 1] == steps[..i] + [steps[i]];
    RunAppend(cfg, shop, steps[..i], [steps[i]], s);
    assert [steps[i]][1..] == [];
    assert Run(cfg, shop, [steps[i]], before) == Do(cfg, shop, steps[i], before);
    assert steps == steps[..i + 1] + steps[i + 1..];
    RunAppend(cfg, shop, steps[..i + 1], steps[i + 1..], s);
  }

  /** The final cluster satisfies every step of the program at once: no later step
      undoes or outdates what an earlier one established. */
  lemma EveryStepIsSatisfied(cfg: Config, shop: Shop, c: Cluster, i: nat)
    requires ValidConfig(cfg) && i < |Program(cfg, shop)|
    requires !Reconciled(cfg, shop, c).l.failed
    ensures Satisfied(cfg, shop, Program(cfg, shop)[i], Entering(cfg, shop, c, i), Reconciled(cfg, shop, c).c)
  {
    var p, s := Program(cfg, shop), State(c, START);
    var before := Run(cfg, shop, p[..i], s);
    var after := Do(cfg, shop, p[i], before);
    var later := p[i + 1..];
    SplitAt(cfg, shop, p, i, s);
    FailureStays(cfg, shop, later, after);
    ProgramIsSafe(cfg, shop);
    forall j | 0 <= j < |later|
      ensures LeavesAlone(cfg, shop, p[i], later[j])
    {
      assert LeavesAlone(cfg, shop, p[i], p[i + 1 + j]);
    }
    RunLeavesAlone(cfg, shop, p[i], later, after);
    var end := Run(cfg, shop, later, after);
    RedoOn(cfg, shop, p[i], before, after, end.c);
    var e := Act(cfg, shop, p[i], before.l, end.c);
    var key := RoleKey(shop, Target(cfg, p[i]));
    if e.write.Some? {
      assert Write(end.c, key, e.write) == end.c;
      assert end.c[key := e.write.value][key] == e.write.value;
    }
  }

  /** Where each step stands in the program. */
  lemma StepAt(cfg: Config, shop: Shop, i: nat)
    requires i < |cfg.services|
    ensures var k := |Opening(shop)| + 3 * i;
            && k + 2 < |Program(cfg, shop)|
            && Program(cfg, shop)[k + 1] == DeployStep(cfg.services[i])
            && Program(cfg, shop)[k + 2] == ServiceStep(cfg.services[i])
  {
    ProgramParts(cfg, shop);
    ServiceStepAt(cfg.services, 0);
    ServiceStepAt(cfg.services, 3 * i + 1);
    ServiceStepAt(cfg.services, 3 * i + 2);
    var k := |Opening(shop)| + 3 * i;
    assert Program(cfg, shop)[k + 1] == ServiceSteps(cfg.services)[3 * i + 1];
    assert Program(cfg, shop)[k + 2] == ServiceSteps(cfg.services)[3 * i + 2];
  }

  // ---- The database environment ----

  lemma KeepsDbEnv(cfg: Config, shop: Shop, step: Step, s: State)
    requires step.JwtSecretStep? || IsServiceStep(step) || step.StatusStep? || step.IngressStep?
    ensures Do(cfg, shop, step, s).l.dbEnv == s.l.dbEnv
  {
  }

  lemma SetsDbEnv(cfg: Config, shop: Shop, s: State)
    requires !s.l.failed
    ensures var steps := DatabaseSteps(shop);
            Do(cfg, shop, steps[|steps| - 1], s).l.dbEnv == W.TierEnv(shop)
  {
  }

  lemma LateStepsAreOther(cfg: Config, shop: Shop, i: nat)
    requires |Opening(shop)| - 1 <= i < |Program(cfg, shop)|
    ensures var step := Program(cfg, shop)[i];
            step.JwtSecretStep? || IsServiceStep(step) || step.StatusStep? || step.IngressStep?
  {
    RankOf(cfg, shop, i);
    ProgramParts(cfg, shop);
  }

  lemma KeepsDbState(cfg: Config, shop: Shop, step: Step, s: State)
    requires step.JwtSecretStep? || IsServiceStep(step) || step.StatusStep? || step.IngressStep?
    ensures Do(cfg, shop, step, s).l.dbState == s.l.dbState
  {
  }

  lemma LateStepKeeps(cfg: Config, shop: Shop, i: nat, before: State)
    requires |Opening(shop)| - 1 <= i < |Program(cfg, shop)|
    ensures var after := Do(cfg, shop, Program(cfg, shop)[i], before);
            after.l.dbEnv == before.l.dbEnv && after.l.dbState == before.l.dbState
  {
    var step := Program(cfg, shop)[i];
    LateStepsAreOther(cfg, shop, i);
    KeepsDbEnv(cfg, shop, step, before);
    KeepsDbState(cfg, shop, step, before);
  }

  lemma LastDatabaseStep(cfg: Config, shop: Shop)
    ensures var k, steps := |Opening(shop)| - 2, DatabaseSteps(shop);
            0 <= k < |Program(cfg, shop)| && Program(cfg, shop)[k] == steps[|steps| - 1]
  {
  }

  /** From the JWT Secret on, the environment of the Shop's database tier is known. */
  lemma {:induction false} DbEnvIsTierEnv(cfg: Config, shop: Shop, c: Cluster, i: nat)
    requires |Opening(shop)| - 1 <= i < |Program(cfg, shop)|
    requires !Run(cfg, shop, Program(cfg, shop)[..i], State(c, START)).l.failed
    ensures Entering(cfg, shop, c, i).dbEnv == W.TierEnv(shop)
    decreases i
  {
    LastDatabaseStep(cfg, shop);
    var before := LastStep(cfg, shop, Program(cfg, shop), i - 1, State(c, START));
    if i == |Opening(shop)| - 1 {
      SetsDbEnv(cfg, shop, before);
    } else {
      DbEnvIsTierEnv(cfg, shop, c, i - 1);
      LateStepKeeps(cfg, shop, i - 1, before);
    }
  }

  lemma LastStep(cfg: Config, shop: Shop, steps: seq<Step>, i: nat, s: State) returns (before: State)
    requires i < |steps| && !Run(cfg, shop, steps[..i + 1], s).l.failed
    ensures before == Run(cfg, shop, steps[..i], s) && !before.l.failed
    ensures Run(cfg, shop, steps[..i + 1], s) == Do(cfg, shop, steps[i], before)
  {
    before := Run(cfg, shop, steps[..i], s);
    SplitAt(cfg, shop, steps, i, s);
  }

  lemma PrefixesSucceed(cfg: Config, shop: Shop, c: Cluster, i: nat)
    requires i <= |Program(cfg, shop)| && !Reconciled(cfg, shop, c).l.failed
    ensures !Run(cfg, shop, Program(cfg, shop)[..i], State(c, START)).l.failed
  {
    var p := Program(cfg, shop);
    assert p == p[..i] + p[i..];
    RunAppend(cfg, shop, p[..i], p[i..], State(c, START));
    FailureStays(cfg, shop, p[i..], Run(cfg, shop, p[..i], State(c, START)));
  }

  // ---- The microservices ----

  /** The container of a microservice, in terms of the spec and the environment. */
  predicate ContainerAsSpecified(cfg: Config, m: Microservice, container: Container)
  {
    && container.name == m.name
    && container.image == (if m.envVar in cfg.env && cfg.env[m.envVar] != "" then cfg.env[m.envVar] else m.image)
    && container.port == m.port
    && container.pullPolicy ==
         if "SHOP_IMAGE_PULL_POLICY" in cfg.env && cfg.env["SHOP_IMAGE_PULL_POLICY"] != ""
         then cfg.env["SHOP_IMAGE_PULL_POLICY"] else "IfNotPresent"
  }

  /** What belongs to a Shop carries its labels and its owner reference. */
  predicate Owned(shop: Shop, o: Object)
  {
    && o.owner == Some(shop.name) && INSTANCE in o.labels && o.labels[INSTANCE] == shop.name
    && "app.kubernetes.io/name" in o.labels && o.labels["app.kubernetes.io/name"] == "shop"
    && "app.kubernetes.io/managed-by" in o.labels && o.labels["app.kubernetes.io/managed-by"] == "shop-operator"
  }

  /** A Deployment with the tier's replica count, the configured image, and an
      environment made from this payout address and these database credentials. */
  predicate DeploymentMatches(cfg: Config, shop: Shop, m: Microservice, payout: string, dbEnv: seq<EnvVar>,
                              o: Option<Object>)
  {
    && o.Some? && Owned(shop, o.value) && o.value.body.DeploymentBody?
    && o.value.body.replicas == (if shop.spec.availability == "high" then 3 else 2)
    && o.value.body.containers != []
    && ContainerAsSpecified(cfg, m, o.value.body.containers[0])
    && o.value.body.containers[0].env == AppEnv(cfg, shop, m, payout, dbEnv)
    && o.value.body.podLabels == LabelsForComponent(shop.name, m.name)
    && Selects(o.value.body.podSelector, o.value.body.podLabels)
  }

  predicate ServiceMatches(shop: Shop, m: Microservice, o: Option<Object>)
  {
    && o.Some? && Owned(shop, o.value) && o.value.body.ServiceBody?
    && o.value.labels == LabelsForComponent(shop.name, m.name)
    && o.value.body.port == m.port
    && Selects(o.value.body.target, LabelsForComponent(shop.name, m.name))
  }

  lemma DeploymentAsSpecified(cfg: Config, shop: Shop, m: Microservice, l: Locals, c: Cluster)
    requires Satisfied(cfg, shop, DeployStep(m), l, c)
    ensures DeploymentMatches(cfg, shop, m, PublishedAddress(Get(c, shop, Wallet)), l.dbEnv,
              Get(c, shop, Deployment(m.name)))
  {
    MadeDeploymentMatches(cfg, shop, m, PublishedAddress(Get(c, shop, Wallet)), l.dbEnv,
                          BaseOf(Get(c, shop, Deployment(m.name))));
  }

  lemma MadeDeploymentMatches(cfg: Config, shop: Shop, m: Microservice, payout: string, dbEnv: seq<EnvVar>, was: Object)
    ensures DeploymentMatches(cfg, shop, m, payout, dbEnv,
              Some(MadeDeployment(cfg, shop, m, AppEnv(cfg, shop, m, payout, dbEnv), was)))
  {
  }

  lemma ServiceAsSpecified(cfg: Config, shop: Shop, m: Microservice, l: Locals, c: Cluster)
    requires Satisfied(cfg, shop, ServiceStep(m), l, c)
    ensures ServiceMatches(shop, m, Get(c, shop, Service(m.name)))
  {
  }

  /** After a reconcile without an error, every microservice has a Deployment with the
      tier's replica count, the configured image, and an environment that agrees with
      the final cluster: the payout address its Wallet publishes and the credentials
      of the tier's own database. A Service on the same port selects its pods. */
  lemma MicroservicesAsSpecified(cfg: Config, shop: Shop, c: Cluster, i: nat)
    requires ValidConfig(cfg) && i < |cfg.services| && !Reconciled(cfg, shop, c).l.failed
    ensures var end, m := Reconciled(cfg, shop, c).c, cfg.services[i];
            && DeploymentMatches(cfg, shop, m, PublishedAddress(Get(end, shop, Wallet)), W.TierEnv(shop),
                Get(end, shop, Deployment(m.name)))
            && ServiceMatches(shop, m, Get(end, shop, Service(m.name)))
  {
    var end := Reconciled(cfg, shop, c).c;
    var l := DeployIsSatisfied(cfg, shop, c, i);
    DeploymentAsSpecified(cfg, shop, cfg.services[i], l, end);
    var l' := ServiceIsSatisfied(cfg, shop, c, i);
    ServiceAsSpecified(cfg, shop, cfg.services[i], l', end);
  }

  lemma DeployIsSatisfied(cfg: Config, shop: Shop, c: Cluster, i: nat) returns (l: Locals)
    requires ValidConfig(cfg) && i < |cfg.services| && !Reconciled(cfg, shop, c).l.failed
    ensures Satisfied(cfg, shop, DeployStep(cfg.services[i]), l, Reconciled(cfg, shop, c).c)
    ensures l.dbEnv == W.TierEnv(shop)
  {
    var k := |Opening(shop)| + 3 * i + 1;
    StepAt(cfg, shop, i);
    EveryStepIsSatisfied(cfg, shop, c, k);
    PrefixesSucceed(cfg, shop, c, k);
    DbEnvIsTierEnv(cfg, shop, c, k);
    l := Entering(cfg, shop, c, k);
  }

  lemma ServiceIsSatisfied(cfg: Config, shop: Shop, c: Cluster, i: nat) returns (l: Locals)
    requires ValidConfig(cfg) && i < |cfg.services| && !Reconciled(cfg, shop, c).l.failed
    ensures Satisfied(cfg, shop, ServiceStep(cfg.services[i]), l, Reconciled(cfg, shop, c).c)
  {
    var k := |Opening(shop)| + 3 * i + 2;
    StepAt(cfg, shop, i);
    EveryStepIsSatisfied(cfg, shop, c, k);
    l := Entering(cfg, shop, c, k);
  }

  /** In particular the payment container has the address that the Wallet publishes in
      the same final cluster, and no other container has one. */
  lemma PayoutAgreesWithWallet(cfg: Config, shop: Shop, c: Cluster, i: nat)
    requires ValidConfig(cfg) && i < |cfg.services| && !Reconciled(cfg, shop, c).l.failed
    ensures var end, m := Reconciled(cfg, shop, c).c, cfg.services[i];
            var d := Get(end, shop, Deployment(m.name));
            && d.Some? && d.value.body.DeploymentBody? && d.value.body.containers != []
            && W.ValueOf(d.value.body.containers[0].env, W.PAYOUT_VARIABLE) ==
                 (if m.name == "payment" then Some(Plain(PublishedAddress(Get(end, shop, Wallet)))) else None)
  {
    MicroservicesAsSpecified(cfg, shop, c, i);
    var end := Reconciled(cfg, shop, c).c;
    W.PayoutReachesPaymentOnly(cfg, shop, cfg.services[i], PublishedAddress(Get(end, shop, Wallet)), W.TierEnv(shop));
  }

  // ---- The Wallet, the channel and the credentials ----

  /** The two resources that other controllers act on carry the Shop's own settings,
      and the Secrets that the containers refer to exist. */
  lemma ChildrenAsSpecified(cfg: Config, shop: Shop, c: Cluster)
    requires ValidConfig(cfg) && !Reconciled(cfg, shop, c).l.failed
    ensures var end := Reconciled(cfg, shop, c).c;
            var wallet, channel := Get(end, shop, Wallet), Get(end, shop, Discord);
            && wallet.Some? && Owned(shop, wallet.value) && wallet.value.body.WalletBody?
            && wallet.value.body.address == shop.spec.walletAddress && wallet.value.body.shopRef == shop.name
            && channel.Some? && Owned(shop, channel.value) && channel.value.body.DiscordBody?
            && channel.value.body.channelName == shop.spec.channelName
            && channel.value.body.serverID == shop.spec.serverID
  {
    var p := Program(cfg, shop);
    assert p[0] == WalletStep && p[1] == DiscordStep;
    EveryStepIsSatisfied(cfg, shop, c, 0);
    EveryStepIsSatisfied(cfg, shop, c, 1);
  }

  lemma CredentialsExist(cfg: Config, shop: Shop, c: Cluster)
    requires ValidConfig(cfg) && !Reconciled(cfg, shop, c).l.failed
    ensures Get(Reconciled(cfg, shop, c).c, shop, JwtSecret).Some?
    ensures shop.spec.databaseType == "light" ==> Get(Reconciled(cfg, shop, c).c, shop, RedisSecret).Some?
    ensures shop.spec.databaseType == "light" && RedisKind in cfg.installed ==>
              Get(Reconciled(cfg, shop, c).c, shop, Redis).Some?
    ensures shop.spec.databaseType != "light" && PostgresKind in cfg.installed ==>
              Get(Reconciled(cfg, shop, c).c, shop, Postgres).Some?
  {
    StorageSteps(cfg, shop);
    StoredAt(cfg, shop, c, |Opening(shop)| - 1);
    StoredAt(cfg, shop, c, 6);
    if shop.spec.databaseType == "light" {
      StoredAt(cfg, shop, c, 7);
    }
  }

  predicate IsStorageStep(step: Step)
  {
    step.JwtSecretStep? || step.RedisSecretStep? || step.RedisStep? || step.PostgresStep?
  }

  lemma StoredAt(cfg: Config, shop: Shop, c: Cluster, i: nat)
    requires ValidConfig(cfg) && !Reconciled(cfg, shop, c).l.failed
    requires i < |Program(cfg, shop)| && IsStorageStep(Program(cfg, shop)[i])
    ensures var step := Program(cfg, shop)[i];
            || Get(Reconciled(cfg, shop, c).c, shop, Target(cfg, step)).Some?
            || (step.RedisStep? && RedisKind !in cfg.installed) ||
                (step.PostgresStep? && PostgresKind !in cfg.installed)
  {
    EveryStepIsSatisfied(cfg, shop, c, i);
    CreatedIfAbsent(cfg, shop, Program(cfg, shop)[i], Entering(cfg, shop, c, i), Reconciled(cfg, shop, c).c);
  }

  lemma StorageSteps(cfg: Config, shop: Shop)
    ensures var p := Program(cfg, shop);
            && |p| > |Opening(shop)| >= 8
            && p[|Opening(shop)| - 1] == JwtSecretStep
            && (shop.spec.databaseType == "light" ==> p[6] == RedisSecretStep && p[7] == RedisStep)
            && (shop.spec.databaseType != "light" ==> p[6] == PostgresStep)
  {
  }

  lemma CreatedIfAbsent(cfg: Config, shop: Shop, step: Step, l: Locals, c: Cluster)
    requires Satisfied(cfg, shop, step, l, c)
    requires IsStorageStep(step)
    ensures Get(c, shop, Target(cfg, step)).Some? ||
            (step.RedisStep? && RedisKind !in cfg.installed) || (step.PostgresStep? && PostgresKind !in cfg.installed)
  {
  }

  // ---- What the Deployments refer to ----

  function DeployedEnv(c: Cluster, shop: Shop, m: Microservice): seq<EnvVar>
  {
    var o := Get(c, shop, Deployment(m.name));
    if o.Some? && o.value.body.DeploymentBody? && o.value.body.containers != []
    then o.value.body.containers[0].env else []
  }

  /** Is what `c` stores under this key still there in `c'`, unchanged? */
  predicate StillThere(c: Cluster, c': Cluster, key: Key)
  {
    key in c ==> key in c' && c'[key] == c[key]
  }

  /** The credentials that every Deployment refers to are the first ones created. Let
      anything happen, then a reconcile that meets no error, then anything again: each
      Secret that a Deployment's environment names after the reconcile is the Shop's own,
      and it has the content it had when it was first created, before or during the
      reconcile. The Secrets that the operator creates itself exist by then. */
  lemma DeployedCredentialsAreTheFirst(cfg: Config, shop: Shop, c: Cluster, before: seq<W.Event>, i: nat, j: nat,
                                       after: seq<W.Event>)
    requires ValidConfig(cfg) && i < |cfg.services|
    requires !Reconciled(cfg, shop, W.AllHappen(cfg, c, before)).l.failed
    requires var env := DeployedEnv(Reconciled(cfg, shop, W.AllHappen(cfg, c, before)).c, shop, cfg.services[i]);
             j < |env| && env[j].value.FromSecret?
    ensures var end := Reconciled(cfg, shop, W.AllHappen(cfg, c, before)).c;
            var env, later := DeployedEnv(end, shop, cfg.services[i]), W.AllHappen(cfg, end, after);
            var key := Key(SecretKind, shop.ns, env[j].value.secret);
            && W.OwnSecretsOnly(shop, env)
            && StillThere(c, later, key) && StillThere(W.AllHappen(cfg, c, before), later, key) &&
                StillThere(end, later, key)
            && (env[j].value.secret != NameOf(shop.name, PostgresSecret) ==> key in end)
  {
    var c1 := W.AllHappen(cfg, c, before);
    var key := Key(SecretKind, shop.ns,
        DeployedEnv(Reconciled(cfg, shop, c1).c, shop, cfg.services[i])[j].value.secret);
    NamedSecretExists(cfg, shop, c1, i, j);
    SecretStaysThroughout(cfg, shop, c, before, after, key);
  }

  lemma NamedSecretExists(cfg: Config, shop: Shop, c: Cluster, i: nat, j: nat)
    requires ValidConfig(cfg) && i < |cfg.services| && !Reconciled(cfg, shop, c).l.failed
    requires var env := DeployedEnv(Reconciled(cfg, shop, c).c, shop, cfg.services[i]);
             j < |env| && env[j].value.FromSecret?
    ensures var end := Reconciled(cfg, shop, c).c;
            var env := DeployedEnv(end, shop, cfg.services[i]);
            && W.OwnSecretsOnly(shop, env)
            && (env[j].value.secret != NameOf(shop.name, PostgresSecret) ==>
                Key(SecretKind, shop.ns, env[j].value.secret) in end)
  {
    DeployedEnvIsOwn(cfg, shop, c, i);
    CredentialsExist(cfg, shop, c);
  }

  lemma SecretStaysThroughout(cfg: Config, shop: Shop, c: Cluster, before: seq<W.Event>, after: seq<W.Event>, key: Key)
    requires key.kind == SecretKind
    ensures var c1 := W.AllHappen(cfg, c, before);
            var end := Reconciled(cfg, shop, c1).c;
            var later := W.AllHappen(cfg, end, after);
            StillThere(c, later, key) && StillThere(c1, later, key) && StillThere(end, later, key)
  {
    var c1 := W.AllHappen(cfg, c, before);
    var end := Reconciled(cfg, shop, c1).c;
    var during := W.RunIsEvents(cfg, shop, Program(cfg, shop), State(c1, START));
    CredentialStays(cfg, c, before, c1, key);
    CredentialStays(cfg, c1, during, end, key);
    CredentialStays(cfg, end, after, W.AllHappen(cfg, end, after), key);
  }

  lemma CredentialStays(cfg: Config, c: Cluster, events: seq<W.Event>, c': Cluster, key: Key)
    requires key.kind == SecretKind && c' == W.AllHappen(cfg, c, events)
    ensures StillThere(c, c', key)
  {
    if key in c {
      W.CredentialsAreWriteOnce(cfg, c, events, key);
    }
  }

  lemma DeployedEnvIsOwn(cfg: Config, shop: Shop, c: Cluster, i: nat)
    requires ValidConfig(cfg) && i < |cfg.services| && !Reconciled(cfg, shop, c).l.failed
    ensures W.OwnSecretsOnly(shop, DeployedEnv(Reconciled(cfg, shop, c).c, shop, cfg.services[i]))
  {
    var end := Reconciled(cfg, shop, c).c;
    MicroservicesAsSpecified(cfg, shop, c, i);
    W.ContainersReferToOwnSecrets(cfg, shop, cfg.services[i], PublishedAddress(Get(end, shop, Wallet)));
  }

  // ---- Alerts ----

  /** Once the webhook Secret exists, and with the resource definitions installed, the
      alerts that Prometheus raises for the Shop are matched by its own route, which
      delivers through that Secret. */
  lemma AlertsAreDelivered(cfg: Config, shop: Shop, c: Cluster)
    requires ValidConfig(cfg) && !Reconciled(cfg, shop, c).l.failed
    requires PrometheusRuleKind in cfg.installed && AlertmanagerConfigKind in cfg.installed
    requires Get(Reconciled(cfg, shop, c).c, shop, WebhookSecret).Some?
    ensures var end := Reconciled(cfg, shop, c).c;
            var rules, routing := Get(end, shop, Alerts), Get(end, shop, AlertRouting);
            && rules.Some? && rules.value.body.AlertsBody? && routing.Some? && routing.value.body.RoutingBody?
            && |rules.value.body.rules| == 2
            && (forall j | 0 <= j < 2 :: RouteMatches(routing.value.body.route, rules.value.body.rules[j].labels))
            && routing.value.body.route.secretName == NameOf(shop.name, WebhookSecret)
            && routing.value.body.route.secretKey == "url"
  {
    AlertsAreMade(cfg, shop, c);
    RoutingIsMade(cfg, shop, c);
    AlertRoutingIsExact(shop.name, shop.name, "warning");
    AlertRoutingIsExact(shop.name, shop.name, "critical");
  }

  lemma AlertsAreMade(cfg: Config, shop: Shop, c: Cluster)
    requires ValidConfig(cfg) && !Reconciled(cfg, shop, c).l.failed && PrometheusRuleKind in cfg.installed
    ensures Get(Reconciled(cfg, shop, c).c, shop, Alerts) == Some(MadeAlerts(shop))
  {
    assert Program(cfg, shop)[4] == AlertsStep;
    EveryStepIsSatisfied(cfg, shop, c, 4);
  }

  lemma RoutingIsMade(cfg: Config, shop: Shop, c: Cluster)
    requires ValidConfig(cfg) && !Reconciled(cfg, shop, c).l.failed && AlertmanagerConfigKind in cfg.installed
    requires Get(Reconciled(cfg, shop, c).c, shop, WebhookSecret).Some?
    ensures Get(Reconciled(cfg, shop, c).c, shop, AlertRouting) == Some(MadeRouting(shop))
  {
    assert Program(cfg, shop)[5] == RoutingStep;
    EveryStepIsSatisfied(cfg, shop, c, 5);
  }

  // ---- Metrics ----

  /** Does this ServiceMonitor scrape that Service? */
  predicate Scrapes(monitor: Option<Object>, svc: Option<Object>)
  {
    && monitor.Some? && monitor.value.body.MonitorBody? && svc.Some?
    && SelectsIn(monitor.value.body.selector, monitor.value.body.component, monitor.value.body.components,
        svc.value.labels)
  }

  lemma MonitorIsMade(cfg: Config, shop: Shop, c: Cluster)
    requires ValidConfig(cfg) && !Reconciled(cfg, shop, c).l.failed
    requires ServiceMonitorKind in cfg.installed && MetricNames(cfg.services) != []
    ensures Get(Reconciled(cfg, shop, c).c, shop, Metrics) == Some(MadeMonitor(cfg, shop))
  {
    assert Program(cfg, shop)[2] == MonitorStep;
    EveryStepIsSatisfied(cfg, shop, c, 2);
  }

  /** With the definition installed, the final cluster's ServiceMonitor scrapes exactly
      the Services of those microservices that expose metrics. */
  lemma MetricsAreScraped(cfg: Config, shop: Shop, c: Cluster, i: nat)
    requires ValidConfig(cfg) && i < |cfg.services| && !Reconciled(cfg, shop, c).l.failed
    requires ServiceMonitorKind in cfg.installed && MetricNames(cfg.services) != []
    ensures var end := Reconciled(cfg, shop, c).c;
            Scrapes(Get(end, shop, Metrics), Get(end, shop, Service(cfg.services[i].name))) <==>
                cfg.services[i].hasMetrics
  {
    MonitorIsMade(cfg, shop, c);
    MicroservicesAsSpecified(cfg, shop, c, i);
    S.MetricNamesAre(cfg.services, cfg.services[i].name);
    MonitorSelection(shop.name, MetricNames(cfg.services), shop.name, cfg.services[i].name);
    assert forall j | 0 <= j < |cfg.services| && cfg.services[j].name == cfg.services[i].name :: j == i;
  }

  // ---- Migrations ----

  lemma OpeningIsPrefix(cfg: Config, shop: Shop)
    ensures |Opening(shop)| <= |Program(cfg, shop)| && Program(cfg, shop)[..|Opening(shop)|] == Opening(shop)
  {
    ProgramParts(cfg, shop);
  }

  lemma DbStateAfterOpening(cfg: Config, shop: Shop, c: Cluster)
    requires R.WellKinded(c) && |Opening(shop)| <= |Program(cfg, shop)|
    requires !Run(cfg, shop, Program(cfg, shop)[..|Opening(shop)|], State(c, START)).l.failed
    ensures Entering(cfg, shop, c, |Opening(shop)|).dbState == ShopObservation.ObservedDbState(cfg, shop, c)
  {
    OpeningIsPrefix(cfg, shop);
    R.OpeningObserved(cfg, shop, c);
  }

  /** From the first microservice on, the database state is the one observed. */
  lemma {:induction false} DbStateIsObserved(cfg: Config, shop: Shop, c: Cluster, i: nat)
    requires R.WellKinded(c) && |Opening(shop)| <= i < |Program(cfg, shop)|
    requires !Run(cfg, shop, Program(cfg, shop)[..i], State(c, START)).l.failed
    ensures Entering(cfg, shop, c, i).dbState == ShopObservation.ObservedDbState(cfg, shop, c)
    decreases i
  {
    if i == |Opening(shop)| {
      DbStateAfterOpening(cfg, shop, c);
    } else {
      var before := LastStep(cfg, shop, Program(cfg, shop), i - 1, State(c, START));
      DbStateIsObserved(cfg, shop, c, i - 1);
      LateStepKeeps(cfg, shop, i - 1, before);
    }
  }

  lemma MigrateStepAt(cfg: Config, shop: Shop, i: nat)
    requires i < |cfg.services|
    ensures var k := |Opening(shop)| + 3 * i;
            k < |Program(cfg, shop)| && Program(cfg, shop)[k] == MigrateStep(cfg.services[i])
  {
    ProgramParts(cfg, shop);
    ServiceStepAt(cfg.services, 0);
    ServiceStepAt(cfg.services, 3 * i);
    assert Program(cfg, shop)[|Opening(shop)| + 3 * i] == ServiceSteps(cfg.services)[3 * i];
  }

  lemma MigrationIsThere(cfg: Config, shop: Shop, m: Microservice, l: Locals, c: Cluster)
    requires Satisfied(cfg, shop, MigrateStep(m), l, c) && l.dbState == DbReady
    requires m.hasMigrations && shop.spec.databaseType == "standard"
    ensures Key(JobKind, shop.ns, shop.name + "-" + m.name + "-migrate-" + cfg.hash(MicroserviceImage(cfg, m))) in c
  {
    assert Get(c, shop, Target(cfg, MigrateStep(m))).Some?;
  }

  /** Once the standard tier's database is observed ready, every service with migrations
      has a migration Job for its current image. */
  lemma MigrationsAreStarted(cfg: Config, shop: Shop, c: Cluster, i: nat)
    requires ValidConfig(cfg) && i < |cfg.services| && !Reconciled(cfg, shop, c).l.failed
    requires R.WellKinded(c) && ShopObservation.DatabaseObservedReady(cfg, shop, c)
    requires shop.spec.databaseType == "standard" && cfg.services[i].hasMigrations
    ensures var m := cfg.services[i];
            var name := shop.name + "-" + m.name + "-migrate-" + cfg.hash(MicroserviceImage(cfg, m));
            Key(JobKind, shop.ns, name) in Reconciled(cfg, shop, c).c
  {
    var l := MigrateIsSatisfied(cfg, shop, c, i);
    MigrationIsThere(cfg, shop, cfg.services[i], l, Reconciled(cfg, shop, c).c);
  }

  lemma MigrateIsSatisfied(cfg: Config, shop: Shop, c: Cluster, i: nat) returns (l: Locals)
    requires ValidConfig(cfg) && i < |cfg.services| && !Reconciled(cfg, shop, c).l.failed
    requires R.WellKinded(c) && ShopObservation.DatabaseObservedReady(cfg, shop, c)
    ensures Satisfied(cfg, shop, MigrateStep(cfg.services[i]), l, Reconciled(cfg, shop, c).c)
    ensures l.dbState == DbReady
  {
    var k := |Opening(shop)| + 3 * i;
    MigrateStepAt(cfg, shop, i);
    EveryStepIsSatisfied(cfg, shop, c, k);
    PrefixesSucceed(cfg, shop, c, k);
    DbStateIsObserved(cfg, shop, c, k);
    l := Entering(cfg, shop, c, k);
  }

  /** A new migration Job runs the image that the Deployment serves, in the very
      environment that the Deployment gets later in the same reconcile. */
  lemma MigrationRunsTheServedImage(cfg: Config, shop: Shop, m: Microservice, s: State)
    requires !s.l.failed && s.l.dbState == DbReady
    requires m.hasMigrations && shop.spec.databaseType == "standard"
    requires Get(s.c, shop, Target(cfg, MigrateStep(m))).None?
    ensures var t := Do(cfg, shop, MigrateStep(m), s);
            var u := Do(cfg, shop, DeployStep(m), t);
            var job, d := Get(u.c, shop, Target(cfg, MigrateStep(m))), Get(u.c, shop, Deployment(m.name));
            && job.Some? && job.value.body.JobBody? && job.value.body.succeeded == 0 && !t.l.allReady
            && Owned(shop, job.value) && job.value.labels == LabelsForComponent(shop.name, m.name + "-migrate")
            && (!u.l.failed ==>
                 && d.Some? && d.value.body.DeploymentBody? && d.value.body.containers != []
                 && job.value.body.image == d.value.body.containers[0].image
                 && job.value.body.env == d.value.body.containers[0].env)
  {
    NewJob(cfg, shop, m, s);
    var t := Do(cfg, shop, MigrateStep(m), s);
    DeployedNext(cfg, shop, m, t);
  }

  lemma NewJob(cfg: Config, shop: Shop, m: Microservice, s: State)
    requires !s.l.failed && s.l.dbState == DbReady
    requires m.hasMigrations && shop.spec.databaseType == "standard"
    requires Get(s.c, shop, Target(cfg, MigrateStep(m))).None?
    ensures var t := Do(cfg, shop, MigrateStep(m), s);
            var job := Get(t.c, shop, Target(cfg, MigrateStep(m)));
            && job.Some? && job.value.body.JobBody? && job.value.body.succeeded == 0
            && Owned(shop, job.value) && job.value.labels == LabelsForComponent(shop.name, m.name + "-migrate")
            && job.value.body.image == MicroserviceImage(cfg, m)
            && job.value.body.env == AppEnv(cfg, shop, m, PublishedAddress(Get(t.c, shop, Wallet)), t.l.dbEnv)
            && !t.l.failed && !t.l.allReady
  {
    var t := Do(cfg, shop, MigrateStep(m), s);
    assert Get(t.c, shop, Wallet) == Get(s.c, shop, Wallet);
  }

  lemma DeployedNext(cfg: Config, shop: Shop, m: Microservice, t: State)
    requires !t.l.failed
    ensures var u := Do(cfg, shop, DeployStep(m), t);
            var d := Get(u.c, shop, Deployment(m.name));
            && Get(u.c, shop, Target(cfg, MigrateStep(m))) == Get(t.c, shop, Target(cfg, MigrateStep(m)))
            && (!u.l.failed ==>
                 && d.Some? && d.value.body.DeploymentBody? && d.value.body.containers != []
                 && d.value.body.containers[0].image == MicroserviceImage(cfg, m)
                 && d.value.body.containers[0].env ==
                     AppEnv(cfg, shop, m, PublishedAddress(Get(t.c, shop, Wallet)), t.l.dbEnv))
  {
    assert KindOf(Target(cfg, MigrateStep(m))) != KindOf(Deployment(m.name));
  }

  // ---- The Ingress ----

  /** A path of the table, followed by nothing or a slash and what the service is asked for:
      the second group, so that the target "/$2" drops the path. */
  function PathPattern(path: string): string
  {
    if path == "/" then "/()(.*)" else path + "(/|$)(.*)"
  }

  /** The paths are those of the services that have one, in table order. */
  lemma {:induction false} PathsComeFromServices(shop: Shop, services: seq<Microservice>, j: nat) returns (i: nat)
    requires j < |IngressPaths(shop, services)|
    ensures i < |services| && services[i].ingressPath != ""
    ensures IngressPaths(shop, services)[j].service == NameOf(shop.name, Service(services[i].name))
    ensures IngressPaths(shop, services)[j].port == services[i].port
    ensures IngressPaths(shop, services)[j].path == PathPattern(services[i].ingressPath)
    decreases |services|
  {
    var first := if services[0].ingressPath == "" then 0 else 1;
    if j < first {
      i := 0;
    } else {
      var i' := PathsComeFromServices(shop, services[1..], j - first);
      i := i' + 1;
    }
  }

  lemma {:induction false} ServicesHavePaths(shop: Shop, services: seq<Microservice>, i: nat) returns (j: nat)
    requires i < |services| && services[i].ingressPath != ""
    ensures j < |IngressPaths(shop, services)|
    ensures IngressPaths(shop, services)[j].service == NameOf(shop.name, Service(services[i].name))
    ensures IngressPaths(shop, services)[j].port == services[i].port
    ensures IngressPaths(shop, services)[j].path == PathPattern(services[i].ingressPath)
    decreases |services|
  {
    var first := if services[0].ingressPath == "" then 0 else 1;
    if i == 0 {
      j := 0;
    } else {
      var j' := ServicesHavePaths(shop, services[1..], i - 1);
      j := j' + first;
    }
  }

  lemma IngressAsSpecified(cfg: Config, shop: Shop, c: Cluster)
    requires ValidConfig(cfg) && !Reconciled(cfg, shop, c).l.failed
    ensures var o := Get(Reconciled(cfg, shop, c).c, shop, Ingress);
            && o.Some? && Owned(shop, o.value) && o.value.body.IngressBody?
            && o.value.body.paths == IngressPaths(shop, cfg.services)
            && shop.name + "." <= o.value.body.host
  {
    var p := Program(cfg, shop);
    ProgramParts(cfg, shop);
    assert p[|p| - 1] == IngressStep;
    EveryStepIsSatisfied(cfg, shop, c, |p| - 1);
  }

  /** Every path of the Ingress leads to a Service that exists, belongs to the Shop and
      listens on the path's port; its pods are those of one of the Shop's own
      microservices. */
  lemma IngressReachesServices(cfg: Config, shop: Shop, c: Cluster, j: nat)
    requires ValidConfig(cfg) && !Reconciled(cfg, shop, c).l.failed
    requires j < |IngressPaths(shop, cfg.services)|
    ensures var end := Reconciled(cfg, shop, c).c;
            var ingress := Get(end, shop, Ingress);
            && ingress.Some? && ingress.value.body.IngressBody? && j < |ingress.value.body.paths|
            && var path := ingress.value.body.paths[j];
            && var svc := Lookup(end, Key(ServiceKind, shop.ns, path.service));
            svc.Some? && Owned(shop, svc.value) && svc.value.body.ServiceBody? && svc.value.body.port == path.port
  {
    IngressAsSpecified(cfg, shop, c);
    var i := PathsComeFromServices(shop, cfg.services, j);
    MicroservicesAsSpecified(cfg, shop, c, i);
  }
}
