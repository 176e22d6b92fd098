/** What the objects of a Shop contain after a reconcile without an error, as a function of
    what was there before: new Secrets hold the keys that are referred to, the database is
    protected by the password that the containers use, what others added is kept, and
    migration Jobs are left alone where none is needed. */
module ShopContents {
  import opened Wrappers
  import opened Text
  import opened Names
  import opened ShopModel
  import opened ShopConfluence
  import opened ShopWriteOnce
  import opened ShopEnvironment
  import E = ShopEndState

  // ---- Every object is written by one step ----

  lemma {:induction false} OthersKeep(cfg: Config, shop: Shop, steps: seq<Step>, s: State, role: Role)
    requires forall i | 0 <= i < |steps| :: RoleKey(shop, Target(cfg, steps[i])) != RoleKey(shop, role)
    ensures Get(Run(cfg, shop, steps, s).c, shop, role) == Get(s.c, shop, role)
    decreases |steps|
  {
    if steps != [] {
      var t := Do(cfg, shop, steps[0], s);
      assert RoleKey(shop, Target(cfg, steps[0])) != RoleKey(shop, role);
      StepKeepsOthers(cfg, shop, steps[0], s, role);
      OthersKeep(cfg, shop, steps[1..], t, role);
    }
  }

  lemma StepKeepsOthers(cfg: Config, shop: Shop, step: Step, s: State, role: Role)
    requires RoleKey(shop, Target(cfg, step)) != RoleKey(shop, role)
    ensures Get(Do(cfg, shop, step, s).c, shop, role) == Get(s.c, shop, role)
  {
  }

  lemma TargetsAreDistinct(cfg: Config, shop: Shop, i: nat, j: nat)
    requires ValidConfig(cfg) && i < |Program(cfg, shop)| && j < |Program(cfg, shop)| && i != j
    ensures RoleKey(shop, Target(cfg, Program(cfg, shop)[i])) != RoleKey(shop, Target(cfg, Program(cfg, shop)[j]))
  {
    ProgramIsSafe(cfg, shop);
    var p := Program(cfg, shop);
    if i < j {
      assert LeavesAlone(cfg, shop, p[i], p[j]);
      assert Reads(cfg, p[i], Target(cfg, p[i]));
    } else {
      assert LeavesAlone(cfg, shop, p[j], p[i]);
      assert Reads(cfg, p[j], Target(cfg, p[j]));
    }
  }

  /** The view and the locals with which the i-th step begins. */
  function Before(cfg: Config, shop: Shop, c: Cluster, i: nat): State
    requires i <= |Program(cfg, shop)|
  {
    Run(cfg, shop, Program(cfg, shop)[..i], State(c, START))
  }

  /** When the i-th step begins, its target is as it was at first; and at the end, it is as
      that step has left it. */
  lemma WrittenOnce(cfg: Config, shop: Shop, c: Cluster, i: nat)
    requires ValidConfig(cfg) && i < |Program(cfg, shop)|
    ensures var step, before := Program(cfg, shop)[i], Before(cfg, shop, c, i);
            var target := Target(cfg, step);
            && Get(before.c, shop, target) == Get(c, shop, target)
            && Get(Reconciled(cfg, shop, c).c, shop, target) == Get(Do(cfg, shop, step, before).c, shop, target)
  {
    var p, s := Program(cfg, shop), State(c, START);
    var earlier, later, target := p[..i], p[i + 1..], Target(cfg, p[i]);
    forall j | 0 <= j < |earlier|
      ensures RoleKey(shop, Target(cfg, earlier[j])) != RoleKey(shop, target)
    {
      TargetsAreDistinct(cfg, shop, j, i);
    }
    forall j | 0 <= j < |later|
      ensures RoleKey(shop, Target(cfg, later[j])) != RoleKey(shop, target)
    {
      TargetsAreDistinct(cfg, shop, i + 1 + j, i);
    }
    OthersKeep(cfg, shop, earlier, s, target);
    E.SplitAt(cfg, shop, p, i, s);
    OthersKeep(cfg, shop, later, Do(cfg, shop, p[i], Before(cfg, shop, c, i)), target);
  }

  /** The same for a known step, in a state in which it succeeds. */
  lemma WrittenBy(cfg: Config, shop: Shop, c: Cluster, i: nat, step: Step) returns (s: State)
    requires ValidConfig(cfg) && i < |Program(cfg, shop)| && Program(cfg, shop)[i] == step
    requires !Reconciled(cfg, shop, c).l.failed
    ensures Get(s.c, shop, Target(cfg, step)) == Get(c, shop, Target(cfg, step))
    ensures Get(Reconciled(cfg, shop, c).c, shop, Target(cfg, step)) ==
              Get(Do(cfg, shop, step, s).c, shop, Target(cfg, step))
    ensures !Do(cfg, shop, step, s).l.failed
  {
    WrittenOnce(cfg, shop, c, i);
    E.SplitAt(cfg, shop, Program(cfg, shop), i, State(c, START));
    E.PrefixesSucceed(cfg, shop, c, i + 1);
    s := Before(cfg, shop, c, i);
  }

  // ---- Secrets and databases ----

  /** What is created if it is absent. */
  lemma CreatedOrKept(cfg: Config, shop: Shop, c: Cluster, i: nat, made: Object)
    requires ValidConfig(cfg) && i < |Program(cfg, shop)| && !Reconciled(cfg, shop, c).l.failed
    requires var step := Program(cfg, shop)[i];
             || (step.JwtSecretStep? && made == MadeJwtSecret(cfg, shop))
             || (step.RedisSecretStep? && made == MadeRedisSecret(cfg, shop))
             || (step.RedisStep? && RedisKind in cfg.installed && made == MadeRedis(cfg, shop))
             || (step.PostgresStep? && PostgresKind in cfg.installed && made == MadePostgres(shop))
    ensures var target := Target(cfg, Program(cfg, shop)[i]);
            Get(Reconciled(cfg, shop, c).c, shop, target) ==
              if Get(c, shop, target).Some? then Get(c, shop, target) else Some(made)
  {
    WrittenOnce(cfg, shop, c, i);
    E.PrefixesSucceed(cfg, shop, c, i);
    EnsureWrites(cfg, shop, Program(cfg, shop)[i], Before(cfg, shop, c, i), made);
  }

  lemma EnsureWrites(cfg: Config, shop: Shop, step: Step, s: State, made: Object)
    requires !s.l.failed
    requires || (step.JwtSecretStep? && made == MadeJwtSecret(cfg, shop))
             || (step.RedisSecretStep? && made == MadeRedisSecret(cfg, shop))
             || (step.RedisStep? && RedisKind in cfg.installed && made == MadeRedis(cfg, shop))
             || (step.PostgresStep? && PostgresKind in cfg.installed && made == MadePostgres(shop))
    ensures var prior := Get(s.c, shop, Target(cfg, step));
            Get(Do(cfg, shop, step, s).c, shop, Target(cfg, step)) == if prior.Some? then prior else Some(made)
  {
  }

  /** A Secret that holds a generated value under each of these keys, and nothing else. */
  predicate HoldsGenerated(cfg: Config, shop: Shop, role: Role, keys: set<string>, o: Option<Object>)
  {
    && o.Some? && o.value.owner == Some(shop.name) && o.value.body.SecretBody?
    && o.value.body.data.Keys == keys
    && forall key | key in keys :: o.value.body.data[key] == cfg.random(NameOf(shop.name, role), key)
  }

  /** The JWT Secret is kept if there is one, and otherwise holds two generated values. */
  lemma JwtSecretIsExact(cfg: Config, shop: Shop, c: Cluster)
    requires ValidConfig(cfg) && !Reconciled(cfg, shop, c).l.failed
    ensures var before, after := Get(c, shop, JwtSecret), Get(Reconciled(cfg, shop, c).c, shop, JwtSecret);
            if before.Some? then after == before
            else HoldsGenerated(cfg, shop, JwtSecret, {"access", "refresh"}, after)
  {
    E.StorageSteps(cfg, shop);
    CreatedOrKept(cfg, shop, c, |Opening(shop)| - 1, MadeJwtSecret(cfg, shop));
  }

  /** So is the Redis password of a light Shop. */
  lemma RedisSecretIsExact(cfg: Config, shop: Shop, c: Cluster)
    requires ValidConfig(cfg) && !Reconciled(cfg, shop, c).l.failed && shop.spec.databaseType == "light"
    ensures var before, after := Get(c, shop, RedisSecret), Get(Reconciled(cfg, shop, c).c, shop, RedisSecret);
            if before.Some? then after == before else HoldsGenerated(cfg, shop, RedisSecret, {"password"}, after)
  {
    E.StorageSteps(cfg, shop);
    CreatedOrKept(cfg, shop, c, 6, MadeRedisSecret(cfg, shop));
  }

  /** And the Redis resource, whose password is that Secret's. */
  lemma RedisIsExact(cfg: Config, shop: Shop, c: Cluster)
    requires ValidConfig(cfg) && !Reconciled(cfg, shop, c).l.failed
    requires shop.spec.databaseType == "light" && RedisKind in cfg.installed
    ensures var before, after := Get(c, shop, Redis), Get(Reconciled(cfg, shop, c).c, shop, Redis);
            if before.Some? then after == before
            else
              && after.Some? && after.value.owner == Some(shop.name)
              && after.value.body == RedisBody(Setting(cfg, "REDIS_IMAGE", "quay.io/opstree/redis:v7.0.15"),
                                               NameOf(shop.name, RedisSecret), "password")
  {
    E.StorageSteps(cfg, shop);
    CreatedOrKept(cfg, shop, c, 7, MadeRedis(cfg, shop));
  }

  /** And the Postgres cluster of any other Shop: one instance with one gibibyte. */
  lemma PostgresIsExact(cfg: Config, shop: Shop, c: Cluster)
    requires ValidConfig(cfg) && !Reconciled(cfg, shop, c).l.failed
    requires shop.spec.databaseType != "light" && PostgresKind in cfg.installed
    ensures var before, after := Get(c, shop, Postgres), Get(Reconciled(cfg, shop, c).c, shop, Postgres);
            if before.Some? then after == before
            else after.Some? && after.value.owner == Some(shop.name) && after.value.body == PostgresBody(1, "1Gi", 0)
  {
    E.StorageSteps(cfg, shop);
    CreatedOrKept(cfg, shop, c, 6, MadePostgres(shop));
  }

  // ---- Containers and Secrets fit together ----

  /** In the final cluster every variable of every container holds exactly what the tables
      say, with the payout address that the Wallet of that cluster publishes. */
  lemma DeployedEnvironmentIsExact(cfg: Config, shop: Shop, c: Cluster, i: nat, v: string)
    requires ValidConfig(cfg) && i < |cfg.services| && !Reconciled(cfg, shop, c).l.failed
    ensures var end := Reconciled(cfg, shop, c).c;
            ValueOf(E.DeployedEnv(end, shop, cfg.services[i]), v) ==
              Variable(cfg, shop, cfg.services[i], PublishedAddress(Get(end, shop, Wallet)), v)
  {
    E.MicroservicesAsSpecified(cfg, shop, c, i);
    var end := Reconciled(cfg, shop, c).c;
    EnvironmentIsExact(cfg, shop, cfg.services[i], PublishedAddress(Get(end, shop, Wallet)), v);
  }

  /** In particular its references to Secrets. */
  lemma DeployedReferences(cfg: Config, shop: Shop, c: Cluster, i: nat)
    requires ValidConfig(cfg) && i < |cfg.services| && !Reconciled(cfg, shop, c).l.failed
    ensures var m := cfg.services[i];
            var env := E.DeployedEnv(Reconciled(cfg, shop, c).c, shop, m);
            && ValueOf(env, "DATABASE_PASSWORD") ==
                 (if IsBackend(m.name) then Some(FromSecret(NameOf(shop.name, DatabaseSecret(shop)), "password"))
                  else None)
            && ValueOf(env, "JWT_ACCESS_SECRET") ==
                 (if m.name == "auth" || m.name == "inventory"
                  then Some(FromSecret(NameOf(shop.name, JwtSecret), "access")) else None)
            && ValueOf(env, "JWT_REFRESH_SECRET") ==
                 (if m.name == "auth" then Some(FromSecret(NameOf(shop.name, JwtSecret), "refresh")) else None)
  {
    E.MicroservicesAsSpecified(cfg, shop, c, i);
    var end := Reconciled(cfg, shop, c).c;
    SecretReferences(cfg, shop, cfg.services[i], PublishedAddress(Get(end, shop, Wallet)));
  }

  /** The database of a new light Shop asks for the very password with which every backend
      logs in, and for no other. */
  lemma RedisPasswordIsShared(cfg: Config, shop: Shop, c: Cluster, i: nat)
    requires ValidConfig(cfg) && i < |cfg.services| && !Reconciled(cfg, shop, c).l.failed
    requires shop.spec.databaseType == "light" && RedisKind in cfg.installed && Get(c, shop, Redis).None?
    requires IsBackend(cfg.services[i].name)
    ensures var end := Reconciled(cfg, shop, c).c;
            var redis := Get(end, shop, Redis);
            && redis.Some? && redis.value.body.RedisBody?
            && ValueOf(E.DeployedEnv(end, shop, cfg.services[i]), "DATABASE_PASSWORD") ==
                 Some(FromSecret(redis.value.body.secretName, redis.value.body.secretKey))
  {
    RedisIsExact(cfg, shop, c);
    DeployedReferences(cfg, shop, c, i);
  }

  /** The references that the operator answers for itself. */
  lemma OperatorReferences(cfg: Config, shop: Shop, m: Microservice, payout: string, v: string, secret: string,
                           key: string)
    requires Variable(cfg, shop, m, payout, v) == Some(FromSecret(secret, key))
    requires secret != NameOf(shop.name, PostgresSecret)
    ensures || (secret == NameOf(shop.name, JwtSecret) && (key == "access" || key == "refresh"))
            || (secret == NameOf(shop.name, RedisSecret) && key == "password" && shop.spec.databaseType == "light")
  {
    PlainTables(cfg, shop, m, payout, v);
    TokenReferences(shop, m.name, v);
    DatabaseReferences(shop, v);
  }

  predicate IsPlain(o: Option<EnvValue>)
  {
    match o
    case Some(value) => value.Plain?
    case None => true
  }

  lemma PlainTables(cfg: Config, shop: Shop, m: Microservice, payout: string, v: string)
    ensures IsPlain(IdentityVariable(shop, m, v)) && IsPlain(TracingVariable(cfg, shop, m, v))
    ensures IsPlain(FrontendVariable(shop, v)) && IsPlain(PaymentVariable(cfg, shop, payout, v))
  {
    CommonIsPlain(cfg, shop, m, v);
    FrontendIsPlain(shop, v);
    PaymentIsPlain(cfg, shop, payout, v);
  }

  lemma CommonIsPlain(cfg: Config, shop: Shop, m: Microservice, v: string)
    ensures IsPlain(IdentityVariable(shop, m, v)) && IsPlain(TracingVariable(cfg, shop, m, v))
  {
  }

  lemma FrontendIsPlain(shop: Shop, v: string)
    ensures IsPlain(FrontendVariable(shop, v))
  {
  }

  lemma PaymentIsPlain(cfg: Config, shop: Shop, payout: string, v: string)
    ensures IsPlain(PaymentVariable(cfg, shop, payout, v))
  {
  }

  lemma TokenReferences(shop: Shop, service: string, v: string)
    ensures var o := TokenVariable(shop, service, v);
            || o.None?
            || o == Some(FromSecret(NameOf(shop.name, JwtSecret), "access"))
            || o == Some(FromSecret(NameOf(shop.name, JwtSecret), "refresh"))
  {
  }

  lemma DatabaseReferences(shop: Shop, v: string)
    ensures match DatabaseVariable(shop, v)
            case Some(FromSecret(secret, key)) =>
              || secret == NameOf(shop.name, PostgresSecret)
              || (secret == NameOf(shop.name, RedisSecret) && key == "password" && shop.spec.databaseType == "light")
            case _ => true
  {
  }

  lemma SecretNamesDiffer(shop: Shop)
    ensures NameOf(shop.name, JwtSecret) != NameOf(shop.name, RedisSecret)
  {
    ChildNamesAreCollisionFree(shop.name, JwtSecret, shop.name, RedisSecret);
  }

  /** After the first reconcile of a Shop every reference of every container resolves: the
      Secret exists and holds the value that was generated for that key. Only those of
      Postgres, which its operator creates, are not answered for. */
  lemma ReferencesResolve(cfg: Config, shop: Shop, c: Cluster, i: nat, v: string, secret: string, key: string)
    requires ValidConfig(cfg) && i < |cfg.services| && !Reconciled(cfg, shop, c).l.failed
    requires Get(c, shop, JwtSecret).None? && Get(c, shop, RedisSecret).None?
    requires var env := E.DeployedEnv(Reconciled(cfg, shop, c).c, shop, cfg.services[i]);
             ValueOf(env, v) == Some(FromSecret(secret, key))
    requires secret != NameOf(shop.name, PostgresSecret)
    ensures var o := Lookup(Reconciled(cfg, shop, c).c, Key(SecretKind, shop.ns, secret));
            && o.Some? && o.value.body.SecretBody? && key in o.value.body.data
            && o.value.body.data[key] == cfg.random(secret, key)
  {
    var payout := PublishedAddress(Get(Reconciled(cfg, shop, c).c, shop, Wallet));
    DeployedEnvironmentIsExact(cfg, shop, c, i, v);
    OperatorReferences(cfg, shop, cfg.services[i], payout, v, secret, key);
    NewSecretsHold(cfg, shop, c, secret, key);
  }

  lemma NewSecretsHold(cfg: Config, shop: Shop, c: Cluster, secret: string, key: string)
    requires ValidConfig(cfg) && !Reconciled(cfg, shop, c).l.failed
    requires Get(c, shop, JwtSecret).None? && Get(c, shop, RedisSecret).None?
    requires || (secret == NameOf(shop.name, JwtSecret) && (key == "access" || key == "refresh"))
             || (secret == NameOf(shop.name, RedisSecret) && key == "password" && shop.spec.databaseType == "light")
    ensures var o := Lookup(Reconciled(cfg, shop, c).c, Key(SecretKind, shop.ns, secret));
            && o.Some? && o.value.body.SecretBody? && key in o.value.body.data
            && o.value.body.data[key] == cfg.random(secret, key)
  {
    SecretNamesDiffer(shop);
    if secret == NameOf(shop.name, JwtSecret) {
      JwtSecretIsExact(cfg, shop, c);
      GeneratedResolves(cfg, shop, JwtSecret, {"access", "refresh"}, Reconciled(cfg, shop, c).c, key);
    } else {
      RedisSecretIsExact(cfg, shop, c);
      GeneratedResolves(cfg, shop, RedisSecret, {"password"}, Reconciled(cfg, shop, c).c, key);
    }
  }

  lemma GeneratedResolves(cfg: Config, shop: Shop, role: Role, keys: set<string>, c: Cluster, key: string)
    requires KindOf(role) == SecretKind && HoldsGenerated(cfg, shop, role, keys, Get(c, shop, role)) && key in keys
    ensures var o := Lookup(c, Key(SecretKind, shop.ns, NameOf(shop.name, role)));
            && o.Some? && o.value.body.SecretBody? && key in o.value.body.data
            && o.value.body.data[key] == cfg.random(NameOf(shop.name, role), key)
  {
  }

  // ---- What the monitoring tools find ----

  /** Labelled for the tool that is to find it, under this name and value. */
  predicate FoundBy(shop: Shop, mark: string, value: string, o: Option<Object>)
  {
    o.Some? && E.Owned(shop, o.value) && mark in o.value.labels && o.value.labels[mark] == value
  }

  /** The name that people see. */
  predicate Titled(shop: Shop, title: string)
  {
    title == if shop.spec.displayName != "" then shop.spec.displayName else shop.name
  }

  predicate DashboardIsFound(shop: Shop, o: Option<Object>)
  {
    && FoundBy(shop, "grafana_dashboard", "1", o) && o.value.body.DashboardBody?
    && o.value.body.file == NameOf(shop.name, Dashboard) + ".json" && Titled(shop, o.value.body.title)
  }

  predicate AlertsAreFound(shop: Shop, o: Option<Object>)
  {
    && FoundBy(shop, "release", "kube-prometheus-stack", o) && o.value.body.AlertsBody?
    && forall j | 0 <= j < |o.value.body.rules| :: Titled(shop, o.value.body.rules[j].displayName)
  }

  /** In the final cluster Grafana finds the dashboard, in a file named after the object,
      and Prometheus the monitor and the alert rules, where their definitions are installed;
      people see the display name, or else the Shop's own. */
  lemma MonitoringIsFound(cfg: Config, shop: Shop, c: Cluster)
    requires ValidConfig(cfg) && !Reconciled(cfg, shop, c).l.failed
    ensures var end := Reconciled(cfg, shop, c).c;
            && DashboardIsFound(shop, Get(end, shop, Dashboard))
            && (PrometheusRuleKind in cfg.installed ==> AlertsAreFound(shop, Get(end, shop, Alerts)))
            && (ServiceMonitorKind in cfg.installed && MetricNames(cfg.services) != [] ==>
                  FoundBy(shop, "release", "kube-prometheus-stack", Get(end, shop, Metrics)))
  {
    if PrometheusRuleKind in cfg.installed {
      E.AlertsAreMade(cfg, shop, c);
      MadeAlertsAreFound(shop);
    }
    if ServiceMonitorKind in cfg.installed && MetricNames(cfg.services) != [] {
      E.MonitorIsMade(cfg, shop, c);
      MadeMonitorIsFound(cfg, shop);
    }
    DashboardIsMade(cfg, shop, c);
    MadeDashboardIsFound(shop);
  }

  lemma MadeAlertsAreFound(shop: Shop)
    ensures AlertsAreFound(shop, Some(MadeAlerts(shop)))
  {
  }

  lemma MadeMonitorIsFound(cfg: Config, shop: Shop)
    ensures FoundBy(shop, "release", "kube-prometheus-stack", Some(MadeMonitor(cfg, shop)))
  {
  }

  lemma MadeDashboardIsFound(shop: Shop)
    ensures DashboardIsFound(shop, Some(MadeDashboard(shop)))
  {
    assert ResourceName(shop.name) + "-dashboard.json" == NameOf(shop.name, Dashboard) + ".json";
  }

  lemma DashboardIsMade(cfg: Config, shop: Shop, c: Cluster)
    requires ValidConfig(cfg) && !Reconciled(cfg, shop, c).l.failed
    ensures Get(Reconciled(cfg, shop, c).c, shop, Dashboard) == Some(MadeDashboard(shop))
  {
    assert Program(cfg, shop)[3] == DashboardStep;
    E.EveryStepIsSatisfied(cfg, shop, c, 3);
  }

  // ---- What others added is kept ----

  function ContainersOf(o: Option<Object>): seq<Container>
  {
    if o.Some? && o.value.body.DeploymentBody? then o.value.body.containers else []
  }

  lemma DeployStepKeeps(cfg: Config, shop: Shop, m: Microservice, s: State)
    requires !Do(cfg, shop, DeployStep(m), s).l.failed
    ensures var before, after := ContainersOf(Get(s.c, shop, Deployment(m.name))),
                                 ContainersOf(Get(Do(cfg, shop, DeployStep(m), s).c, shop, Deployment(m.name)));
            && after != []
            && after[1..] == (if before == [] then [] else before[1..])
            && after[0].foreign == (if before == [] then "" else before[0].foreign)
  {
  }

  /** Sidecars, and the fields of the first container that the operator does not set, are
      kept; a new Deployment has none. */
  lemma SidecarsAreKept(cfg: Config, shop: Shop, c: Cluster, i: nat)
    requires ValidConfig(cfg) && i < |cfg.services| && !Reconciled(cfg, shop, c).l.failed
    ensures var m := cfg.services[i];
            var before, after := ContainersOf(Get(c, shop, Deployment(m.name))),
                                 ContainersOf(Get(Reconciled(cfg, shop, c).c, shop, Deployment(m.name)));
            && after != []
            && after[1..] == (if before == [] then [] else before[1..])
            && after[0].foreign == (if before == [] then "" else before[0].foreign)
  {
    var s := WrittenBy(cfg, shop, c, |Opening(shop)| + 3 * i + 1, DeployStep(cfg.services[i])) by {
      E.StepAt(cfg, shop, i);
    }
    DeployStepKeeps(cfg, shop, cfg.services[i], s);
  }

  /** The Wallet keeps what its controller published, and the DiscordChannel its status. */
  lemma StatusesAreKept(cfg: Config, shop: Shop, c: Cluster)
    requires ValidConfig(cfg) && !Reconciled(cfg, shop, c).l.failed
    ensures var end := Reconciled(cfg, shop, c).c;
            && PublishedAddress(Get(end, shop, Wallet)) == PublishedAddress(Get(c, shop, Wallet))
            && ChannelStatus(Get(end, shop, Discord)) == ChannelStatus(Get(c, shop, Discord))
  {
    var p := Program(cfg, shop);
    assert p[0] == WalletStep && p[1] == DiscordStep;
    WrittenOnce(cfg, shop, c, 0);
    WrittenOnce(cfg, shop, c, 1);
    ChildStepKeeps(cfg, shop, Before(cfg, shop, c, 0));
    ChildStepKeeps(cfg, shop, Before(cfg, shop, c, 1));
  }

  function ChannelStatus(o: Option<Object>): string
  {
    if o.Some? && o.value.body.DiscordBody? then o.value.body.channelStatus else ""
  }

  lemma ChildStepKeeps(cfg: Config, shop: Shop, s: State)
    ensures PublishedAddress(Get(Do(cfg, shop, WalletStep, s).c, shop, Wallet)) ==
              PublishedAddress(Get(s.c, shop, Wallet))
    ensures ChannelStatus(Get(Do(cfg, shop, DiscordStep, s).c, shop, Discord)) == ChannelStatus(Get(s.c, shop, Discord))
  {
  }

  /** A Service keeps its address, and the Ingress the annotations of others. */
  lemma ServiceStepKeeps(cfg: Config, shop: Shop, m: Microservice, s: State)
    requires !Do(cfg, shop, ServiceStep(m), s).l.failed
    ensures AddressOf(Get(Do(cfg, shop, ServiceStep(m), s).c, shop, Service(m.name))) ==
              AddressOf(Get(s.c, shop, Service(m.name)))
  {
  }

  function AddressOf(o: Option<Object>): string
  {
    if o.Some? && o.value.body.ServiceBody? then o.value.body.clusterIP else ""
  }

  function AnnotationsOf(o: Option<Object>): map<string, string>
  {
    if o.Some? && o.value.body.IngressBody? then o.value.body.annotations else map[]
  }

  const OWN_ANNOTATIONS := {"nginx.ingress.kubernetes.io/rewrite-target", "nginx.ingress.kubernetes.io/use-regex"}

  lemma IngressStepKeeps(cfg: Config, shop: Shop, s: State)
    requires !Do(cfg, shop, IngressStep, s).l.failed
    ensures AnnotationsOf(Get(Do(cfg, shop, IngressStep, s).c, shop, Ingress)) - OWN_ANNOTATIONS ==
              AnnotationsOf(Get(s.c, shop, Ingress)) - OWN_ANNOTATIONS
  {
  }

  lemma TrafficIsKept(cfg: Config, shop: Shop, c: Cluster, i: nat)
    requires ValidConfig(cfg) && i < |cfg.services| && !Reconciled(cfg, shop, c).l.failed
    ensures var end, role := Reconciled(cfg, shop, c).c, Service(cfg.services[i].name);
            && AddressOf(Get(end, shop, role)) == AddressOf(Get(c, shop, role))
            && AnnotationsOf(Get(end, shop, Ingress)) - OWN_ANNOTATIONS ==
                 AnnotationsOf(Get(c, shop, Ingress)) - OWN_ANNOTATIONS
  {
    AddressIsKept(cfg, shop, c, i);
    AnnotationsAreKept(cfg, shop, c);
  }

  lemma AddressIsKept(cfg: Config, shop: Shop, c: Cluster, i: nat)
    requires ValidConfig(cfg) && i < |cfg.services| && !Reconciled(cfg, shop, c).l.failed
    ensures var end, role := Reconciled(cfg, shop, c).c, Service(cfg.services[i].name);
            AddressOf(Get(end, shop, role)) == AddressOf(Get(c, shop, role))
  {
    var s := WrittenBy(cfg, shop, c, |Opening(shop)| + 3 * i + 2, ServiceStep(cfg.services[i])) by {
      E.StepAt(cfg, shop, i);
    }
    ServiceStepKeeps(cfg, shop, cfg.services[i], s);
  }

  lemma AnnotationsAreKept(cfg: Config, shop: Shop, c: Cluster)
    requires ValidConfig(cfg) && !Reconciled(cfg, shop, c).l.failed
    ensures AnnotationsOf(Get(Reconciled(cfg, shop, c).c, shop, Ingress)) - OWN_ANNOTATIONS ==
              AnnotationsOf(Get(c, shop, Ingress)) - OWN_ANNOTATIONS
  {
    var s := WrittenBy(cfg, shop, c, |Program(cfg, shop)| - 1, IngressStep) by {
      ProgramParts(cfg, shop);
    }
    IngressStepKeeps(cfg, shop, s);
  }

  // ---- Migration Jobs where none is needed ----

  /** Within a Shop the name of a migration Job determines the service, whatever stands for
      the hash. */
  lemma MigrationNamesService(shop: string, service1: string, hash1: string, service2: string, hash2: string)
    requires '-' !in service1 && '-' !in service2
    requires MigrationName(shop, service1, hash1) == MigrationName(shop, service2, hash2)
    ensures service1 == service2
  {
    var rest1, rest2 := "migrate-" + hash1, "migrate-" + hash2;
    assert MigrationName(shop, service1, hash1) == (shop + "-") + (service1 + "-" + rest1);
    assert MigrationName(shop, service2, hash2) == (shop + "-") + (service2 + "-" + rest2);
    CutPrefix(shop + "-", service1 + "-" + rest1, service2 + "-" + rest2);
    CutFirst('-', service1, rest1, service2, rest2);
  }

  lemma UnneededStep(cfg: Config, shop: Shop, step: Step, s: State, fate: Fate, m: Microservice, hash: string)
    requires '-' !in m.name && (step.MigrateStep? ==> '-' !in step.m.name)
    requires step.MigrateStep? && step.m.name == m.name ==>
               !(step.m.hasMigrations && shop.spec.databaseType == "standard")
    ensures Get(DoFaulty(cfg, shop, step, s, fate).c, shop, Migration(m.name, hash)) ==
              Get(s.c, shop, Migration(m.name, hash))
  {
    if step.MigrateStep? && step.m.name == m.name {
      UnneededMigration(cfg, shop, step.m, s, fate);
    } else {
      TargetsOther(cfg, shop, step, m, hash);
      FaultyKeepsOthers(cfg, shop, step, s, fate, Migration(m.name, hash));
    }
  }

  lemma TargetsOther(cfg: Config, shop: Shop, step: Step, m: Microservice, hash: string)
    requires '-' !in m.name && (step.MigrateStep? ==> '-' !in step.m.name && step.m.name != m.name)
    ensures RoleKey(shop, Target(cfg, step)) != RoleKey(shop, Migration(m.name, hash))
  {
    if step.MigrateStep? && RoleKey(shop, Target(cfg, step)) == RoleKey(shop, Migration(m.name, hash)) {
      MigrationNamesService(shop.name, step.m.name, cfg.hash(MicroserviceImage(cfg, step.m)), m.name, hash);
    }
  }

  lemma FaultyKeepsOthers(cfg: Config, shop: Shop, step: Step, s: State, fate: Fate, role: Role)
    requires RoleKey(shop, Target(cfg, step)) != RoleKey(shop, role)
    ensures Get(DoFaulty(cfg, shop, step, s, fate).c, shop, role) == Get(s.c, shop, role)
  {
    StepKeepsOthers(cfg, shop, step, s, role);
    var t := DoFaulty(cfg, shop, step, s, fate);
    assert t.c == s.c || t.c == Do(cfg, shop, step, s).c;
  }

  lemma UnneededMigration(cfg: Config, shop: Shop, m: Microservice, s: State, fate: Fate)
    requires !(m.hasMigrations && shop.spec.databaseType == "standard")
    ensures DoFaulty(cfg, shop, MigrateStep(m), s, fate).c == s.c
  {
  }

  lemma {:induction false} UnneededAlong(cfg: Config, shop: Shop, steps: seq<Step>, s: State, fates: Role -> Fate,
                                         m: Microservice, hash: string)
    requires '-' !in m.name
    requires forall k | 0 <= k < |steps| && steps[k].MigrateStep? :: '-' !in steps[k].m.name
    requires forall k | 0 <= k < |steps| && steps[k].MigrateStep? && steps[k].m.name == m.name ::
               !(steps[k].m.hasMigrations && shop.spec.databaseType == "standard")
    ensures Get(RunFaulty(cfg, shop, steps, s, fates).c, shop, Migration(m.name, hash)) ==
              Get(s.c, shop, Migration(m.name, hash))
    decreases |steps|
  {
    if steps != [] {
      var fate := fates(Target(cfg, steps[0]));
      UnneededStep(cfg, shop, steps[0], s, fate, m, hash);
      UnneededAlong(cfg, shop, steps[1..], DoFaulty(cfg, shop, steps[0], s, fate), fates, m, hash);
    }
  }

  lemma MigrateStepsAreServices(cfg: Config, shop: Shop, k: nat)
    requires k < |Program(cfg, shop)| && Program(cfg, shop)[k].MigrateStep?
    ensures Program(cfg, shop)[k].m in cfg.services
  {
    ProgramParts(cfg, shop);
    var n, size := |Opening(shop)|, |ServiceSteps(cfg.services)|;
    RankOf(cfg, shop, k);
    assert Rank(Program(cfg, shop)[k]) == 9;
    assert n <= k < n + size;
    ServiceStepAt(cfg.services, k - n);
    assert Program(cfg, shop)[k] == ServiceSteps(cfg.services)[k - n];
  }

  /** Whatever goes wrong in a reconcile: for a service without migrations, or on a tier other
      than standard, no migration Job is created or changed, under any hash. */
  lemma UnneededMigrationsAreLeftAlone(cfg: Config, shop: Shop, c: Cluster, fates: Role -> Fate, i: nat, hash: string)
    requires ValidConfig(cfg) && i < |cfg.services|
    requires !(cfg.services[i].hasMigrations && shop.spec.databaseType == "standard")
    ensures var end, job := RunFaulty(cfg, shop, Program(cfg, shop), State(c, START), fates),
              Migration(cfg.services[i].name, hash);
            Get(end.c, shop, job) == Get(c, shop, job)
  {
    var p := Program(cfg, shop);
    forall k | 0 <= k < |p| && p[k].MigrateStep?
      ensures '-' !in p[k].m.name
      ensures p[k].m.name == cfg.services[i].name ==> !(p[k].m.hasMigrations && shop.spec.databaseType == "standard")
    {
      MigrateStepsAreServices(cfg, shop, k);
    }
    UnneededAlong(cfg, shop, p, State(c, START), fates, cfg.services[i], hash);
  }
}
