/** The Shop controller as it is written: methods that create or converge one
    object after another, a loop over the microservices that accumulates
    readiness, and an early return on any error. Reconcile is proved to be the
    step program of ShopModel under the same faults. */
module ShopReconciler {
  import opened Wrappers
  import opened Names
  import opened ShopModel
  import opened ShopConfluence

  lemma {:induction false} MetricNamesSnoc(services: seq<Microservice>, m: Microservice)
    ensures MetricNames(services + [m]) == MetricNames(services) + (if m.hasMetrics then [m.name] else [])
    decreases |services|
  {
    if services == [] {
      assert MetricNames([m][1..]) == [];
    } else {
      assert (services + [m])[0] == services[0] && (services + [m])[1..] == services[1..] + [m];
      MetricNamesSnoc(services[1..], m);
    }
  }

  class ShopReconciler {
    const cfg: Config
    const fates: Role -> Fate
    var objects: Cluster

    constructor (cfg: Config, objects: Cluster, fates: Role -> Fate)
      ensures this.cfg == cfg && this.objects == objects && this.fates == fates
    {
      this.cfg, this.objects, this.fates := cfg, objects, fates;
    }

    /** The state after one step of the program, from the current cluster. */
    ghost function After(shop: Shop, step: Step, l: Locals): State
      reads this
    {
      DoFaulty(cfg, shop, step, State(objects, l), fates(Target(cfg, step)))
    }

    /** The state at the end of some steps, from the current cluster. */
    ghost function Rest(shop: Shop, steps: seq<Step>, l: Locals): State
      reads this
    {
      RunFaulty(cfg, shop, steps, State(objects, l), fates)
    }

    /** Did a method do this step, and report an error exactly when the step failed? */
    ghost predicate Matches(t: State, l: Locals, ok: bool)
      reads this
    {
      t == State(objects, if ok then l else l.(failed := true))
    }

    // ---- The client ----

    /** Get, mutate, then Create or Update, unless someone else owns the object. */
    method CreateOrUpdate(shop: Shop, role: Role, mutate: Object -> Object) returns (ok: bool, stored: Object)
      modifies this
      ensures var prior := Get(old(objects), shop, role);
              && stored == mutate(BaseOf(prior))
              && ok == (fates(role) == Worked && Adoptable(shop, prior))
              && objects == Write(old(objects), RoleKey(shop, role),
                                  if fates(role) != Refused && Adoptable(shop, prior) then Some(stored) else None)
    {
      var prior := Get(objects, shop, role);
      stored := mutate(BaseOf(prior));
      ok := fates(role) == Worked && Adoptable(shop, prior);
      if fates(role) != Refused && Adoptable(shop, prior) {
        objects := objects[RoleKey(shop, role) := stored];
      }
    }

    /** Get, then Create only if nothing was found. */
    method CreateIfAbsent(shop: Shop, role: Role, made: Object) returns (ok: bool, found: Option<Object>)
      modifies this
      ensures found == Get(old(objects), shop, role)
      ensures ok == (fates(role) == Worked)
      ensures objects == Write(old(objects), RoleKey(shop, role),
                               if fates(role) != Refused && found.None? then Some(made) else None)
    {
      found := Get(objects, shop, role);
      ok := fates(role) == Worked;
      if fates(role) != Refused && found.None? {
        objects := objects[RoleKey(shop, role) := made];
      }
    }

    // ---- One method per child object ----

    method ReconcileWallet(shop: Shop, ghost l: Locals) returns (ok: bool)
      requires !l.failed
      modifies this
      ensures Matches(old(After(shop, WalletStep, l)), l, ok)
    {
      var stored;
      ok, stored := CreateOrUpdate(shop, Wallet, o => MadeWallet(shop, o));
    }

    method ReconcileDiscordChannel(shop: Shop, ghost l: Locals) returns (ok: bool)
      requires !l.failed
      modifies this
      ensures Matches(old(After(shop, DiscordStep, l)), l, ok)
    {
      var stored;
      ok, stored := CreateOrUpdate(shop, Discord, o => MadeDiscord(shop, o));
    }

    method MetricComponents() returns (components: seq<string>)
      ensures components == MetricNames(cfg.services)
    {
      components := [];
      for i := 0 to |cfg.services|
        invariant components == MetricNames(cfg.services[..i])
      {
        assert cfg.services[..i + 1] == cfg.services[..i] + [cfg.services[i]];
        MetricNamesSnoc(cfg.services[..i], cfg.services[i]);
        if cfg.services[i].hasMetrics {
          components := components + [cfg.services[i].name];
        }
      }
      assert cfg.services[..|cfg.services|] == cfg.services;
    }

    method ReconcileServiceMonitor(shop: Shop, ghost l: Locals) returns (ok: bool)
      requires !l.failed
      modifies this
      ensures Matches(old(After(shop, MonitorStep, l)), l, ok)
    {
      var components := MetricComponents();
      if components == [] {
        return true;
      }
      if ServiceMonitorKind !in cfg.installed {
        return fates(Metrics) == Worked;
      }
      var stored;
      ok, stored := CreateOrUpdate(shop, Metrics, o => MadeMonitor(cfg, shop));
    }

    method ReconcileGrafanaDashboard(shop: Shop, ghost l: Locals) returns (ok: bool)
      requires !l.failed
      modifies this
      ensures Matches(old(After(shop, DashboardStep, l)), l, ok)
    {
      var stored;
      ok, stored := CreateOrUpdate(shop, Dashboard, o => MadeDashboard(shop));
    }

    method ReconcilePrometheusRule(shop: Shop, ghost l: Locals) returns (ok: bool)
      requires !l.failed
      modifies this
      ensures Matches(old(After(shop, AlertsStep, l)), l, ok)
    {
      if PrometheusRuleKind !in cfg.installed {
        return fates(Alerts) == Worked;
      }
      var stored;
      ok, stored := CreateOrUpdate(shop, Alerts, o => MadeAlerts(shop));
    }

    method ReconcileAlertmanagerConfig(shop: Shop, ghost l: Locals) returns (ok: bool)
      requires !l.failed
      modifies this
      ensures Matches(old(After(shop, RoutingStep, l)), l, ok)
    {
      if Get(objects, shop, WebhookSecret).None? {
        return fates(AlertRouting) == Worked;
      }
      if AlertmanagerConfigKind !in cfg.installed {
        return fates(AlertRouting) == Worked;
      }
      var stored;
      ok, stored := CreateOrUpdate(shop, AlertRouting, o => MadeRouting(shop));
    }

    // ---- The database ----

    method ReconcilePostgres(shop: Shop, ghost l: Locals) returns (ok: bool, env: seq<EnvVar>, state: DbState)
      requires !l.failed
      modifies this
      ensures old(After(shop, PostgresStep, l)) ==
                State(objects, if ok then WithDatabase(l, state, env) else l.(failed := true))
    {
      env := PostgresEnv(shop);
      if PostgresKind !in cfg.installed {
        return fates(Postgres) == Worked, env, OperatorMissing;
      }
      var found;
      ok, found := CreateIfAbsent(shop, Postgres, MadePostgres(shop));
      state := if ReadyInstances(found) >= 1 then DbReady else Provisioning;
    }

    method EnsureRedisAuthSecret(shop: Shop, ghost l: Locals) returns (ok: bool)
      requires !l.failed
      modifies this
      ensures Matches(old(After(shop, RedisSecretStep, l)), l, ok)
    {
      var found;
      ok, found := CreateIfAbsent(shop, RedisSecret, MadeRedisSecret(cfg, shop));
    }

    method ReconcileRedis(shop: Shop, ghost l: Locals) returns (ok: bool, env: seq<EnvVar>, state: DbState)
      requires !l.failed
      modifies this
      ensures old(After(shop, RedisStep, l)) ==
                State(objects, if ok then WithDatabase(l, state, env) else l.(failed := true))
    {
      env := RedisEnv(shop);
      if RedisKind !in cfg.installed {
        return fates(Redis) == Worked, env, OperatorMissing;
      }
      var found;
      ok, found := CreateIfAbsent(shop, Redis, MadeRedis(cfg, shop));
      assert KindOf(RedisStatefulSet) != KindOf(Redis);
      state := if StatefulSetReady(Get(objects, shop, RedisStatefulSet)) >= 1 then DbReady else Provisioning;
    }

    method ReconcileDatabase(shop: Shop, ghost l: Locals) returns (ok: bool, env: seq<EnvVar>, state: DbState)
      requires !l.failed
      modifies this
      ensures old(Rest(shop, DatabaseSteps(shop), l)) ==
                State(objects, if ok then WithDatabase(l, state, env) else l.(failed := true))
    {
      ghost var steps := DatabaseSteps(shop);
      env, state := [], Provisioning;
      Peel(shop, steps, l);
      if shop.spec.databaseType == "light" {
        assert steps[1..] == [RedisStep] && steps[1..][1..] == [];
        ok := EnsureRedisAuthSecret(shop, l);
        assert old(Rest(shop, steps, l)) == Rest(shop, [RedisStep], if ok then l else l.(failed := true));
        if ok {
          ok, env, state := ReconcileRedis(shop, l);
        } else {
          FailedRun(cfg, shop, [RedisStep], State(objects, l.(failed := true)), fates);
        }
      } else {
        assert steps[1..] == [];
        ok, env, state := ReconcilePostgres(shop, l);
      }
    }

    method EnsureAuthSecret(shop: Shop, ghost l: Locals) returns (ok: bool)
      requires !l.failed
      modifies this
      ensures Matches(old(After(shop, JwtSecretStep, l)), l, ok)
    {
      var found;
      ok, found := CreateIfAbsent(shop, JwtSecret, MadeJwtSecret(cfg, shop));
    }

    // ---- The microservices ----

    method PayoutAddress(shop: Shop) returns (address: string)
      ensures address == PublishedAddress(Get(objects, shop, Wallet))
    {
      var wallet := Get(objects, shop, Wallet);
      if wallet.None? || !wallet.value.body.WalletBody? {
        return "";
      }
      return wallet.value.body.published;
    }

    /** Assembles a container's environment by appending to it. */
    method ShopAppEnv(shop: Shop, m: Microservice, dbEnv: seq<EnvVar>) returns (env: seq<EnvVar>)
      ensures env == AppEnv(cfg, shop, m, PublishedAddress(Get(objects, shop, Wallet)), dbEnv)
    {
      env := BaseEnv(shop, m);
      if m.hasTracing {
        env := env + TracingEnv(cfg, shop, m);
      }
      env := AppendServiceEnv(shop, m, dbEnv, env);
    }

    /** The part that differs from service to service. */
    method AppendServiceEnv(shop: Shop, m: Microservice, dbEnv: seq<EnvVar>, common: seq<EnvVar>)
      returns (env: seq<EnvVar>)
      ensures env == common + ServiceEnv(cfg, shop, m, PublishedAddress(Get(objects, shop, Wallet)), dbEnv)
    {
      var stem, jwt := "http://" + ResourceName(shop.name), NameOf(shop.name, JwtSecret);
      env := common;
      if m.name == "frontend" {
        env := env + [EnvVar("AUTH_API_URL", Plain(stem + "-auth")),
                      EnvVar("VITE_ORDER_API", Plain(stem + "-order")),
                      EnvVar("VITE_PAYMENT_API", Plain(stem + "-payment")),
                      EnvVar("VITE_INVENTORY_API", Plain(stem + "-inventory"))];
      } else if m.name == "payment" {
        var payout := PayoutAddress(shop);
        env := env + [EnvVar("WALLET_REF", Plain(WalletName(shop.name))),
                      EnvVar("SHOP_WALLET_ADDRESS", Plain(payout)),
                      EnvVar("ORDER_SERVICE_URL", Plain(stem + "-order:3000")),
                      EnvVar("USDT_ADDRESS", Plain(Getenv(cfg, "USDT_ADDRESS", ""))),
                      EnvVar("SEPOLIA_RPC_URL", Plain(Getenv(cfg, "SEPOLIA_RPC_URL", "https://sepolia.drpc.org")))];
        env := env + dbEnv;
      } else if m.name == "auth" {
        env := env + [EnvVar("JWT_ACCESS_SECRET", FromSecret(jwt, "access")),
                      EnvVar("JWT_REFRESH_SECRET", FromSecret(jwt, "refresh"))];
        env := env + dbEnv;
      } else if m.name == "order" {
        env := env + dbEnv;
      } else if m.name == "inventory" {
        env := env + [EnvVar("JWT_ACCESS_SECRET", FromSecret(jwt, "access"))];
        env := env + dbEnv;
      }
    }

    method ReconcileMigrationJob(shop: Shop, m: Microservice, l: Locals) returns (ok: bool, done: bool)
      requires !l.failed && l.dbState == DbReady
      modifies this
      ensures old(After(shop, MigrateStep(m), l)) ==
                State(objects, if ok then l.(allReady := l.allReady && done) else l.(failed := true))
    {
      if !NeedsMigration(shop, m) {
        return true, true;
      }
      var env := ShopAppEnv(shop, m, l.dbEnv);
      var found;
      ok, found := CreateIfAbsent(shop, Target(cfg, MigrateStep(m)), MadeJob(cfg, shop, m, env));
      done := Succeeded(found) > 0;
    }

    method ReconcileDeployment(shop: Shop, m: Microservice, l: Locals) returns (ok: bool, deployment: Object)
      requires !l.failed
      modifies this
      ensures var rolledOut := ReadyReplicas(Some(deployment)) == DesiredReplicas(shop.spec.availability);
              old(After(shop, DeployStep(m), l)) ==
                State(objects, if ok then l.(allReady := l.allReady && rolledOut) else l.(failed := true))
    {
      var env := ShopAppEnv(shop, m, l.dbEnv);
      ok, deployment := CreateOrUpdate(shop, Deployment(m.name), o => MadeDeployment(cfg, shop, m, env, o));
    }

    method ReconcileService(shop: Shop, m: Microservice, ghost l: Locals) returns (ok: bool)
      requires !l.failed
      modifies this
      ensures Matches(old(After(shop, ServiceStep(m), l)), l, ok)
    {
      var stored;
      ok, stored := CreateOrUpdate(shop, Service(m.name), o => MadeService(shop, m, o));
    }

    // ---- Status and Ingress ----

    method UpdateStatus(shop: Shop, l: Locals) returns (ok: bool)
      requires !l.failed
      modifies this
      ensures Matches(old(After(shop, StatusStep, l)), l, ok)
    {
      var prior := Get(objects, shop, ShopItself);
      if prior.None? || !prior.value.body.ShopBody? {
        return false;
      }
      var body := prior.value.body;
      var cond;
      if l.allReady {
        cond := Condition(true, "ShopReady");
      } else if l.dbState == OperatorMissing {
        cond := Condition(false, "DatabaseOperatorMissing");
      } else if l.dbState == Provisioning {
        cond := Condition(false, "DatabaseProvisioning");
      } else {
        cond := Condition(false, "DeploymentProgressing");
      }
      var replicas := DesiredReplicas(shop.spec.availability);
      var status := ShopStatus(replicas, l.allReady, body.status.conditions["Available" := cond]);
      ok := fates(ShopItself) == Worked;
      if fates(ShopItself) != Refused {
        objects := objects[RoleKey(shop, ShopItself) := prior.value.(body := ShopBody(body.spec, status))];
      }
    }

    method ReconcileIngress(shop: Shop, ghost l: Locals) returns (ok: bool)
      requires !l.failed
      modifies this
      ensures Matches(old(After(shop, IngressStep, l)), l, ok)
    {
      var stored;
      ok, stored := CreateOrUpdate(shop, Ingress, o => MadeIngress(cfg, shop, o));
    }

    // ---- Reconcile ----

    /** One step at a time: peel the first step off what is left to do. */
    lemma Peel(shop: Shop, steps: seq<Step>, l: Locals)
      requires steps != []
      ensures var t := After(shop, steps[0], l);
              && Rest(shop, steps, l) == RunFaulty(cfg, shop, steps[1..], t, fates)
              && (t.l.failed ==> Rest(shop, steps, l) == t)
    {
      var t := After(shop, steps[0], l);
      if t.l.failed {
        FailedRun(cfg, shop, steps[1..], t, fates);
      }
    }

    /** The Wallet, the DiscordChannel and the observability objects. */
    method ReconcileChildren(shop: Shop) returns (ok: bool)
      modifies this
      ensures Matches(old(Rest(shop, CHILD_STEPS, START)), START, ok)
    {
      ChildStepsSplit();
      Peel(shop, CHILD_STEPS, START);
      ok := ReconcileWallet(shop, START);
      if ok {
        ok := ReconcileOthers(shop);
      }
    }

    lemma ChildStepsSplit()
      ensures CHILD_STEPS != [] && CHILD_STEPS[0] == WalletStep &&
                CHILD_STEPS[1..] == [DiscordStep] + OBSERVABILITY_STEPS
    {
    }

    method ReconcileOthers(shop: Shop) returns (ok: bool)
      modifies this
      ensures Matches(old(Rest(shop, [DiscordStep] + OBSERVABILITY_STEPS, START)), START, ok)
    {
      ghost var todo := [DiscordStep] + OBSERVABILITY_STEPS;
      assert todo[0] == DiscordStep && todo[1..] == OBSERVABILITY_STEPS;
      Peel(shop, todo, START);
      ok := ReconcileDiscordChannel(shop, START);
      if ok {
        ok := ReconcileObservability(shop);
      }
    }

    ghost const OBSERVABILITY_STEPS: seq<Step> := [MonitorStep, DashboardStep, AlertsStep, RoutingStep]

    method ReconcileObservability(shop: Shop) returns (ok: bool)
      modifies this
      ensures Matches(old(Rest(shop, OBSERVABILITY_STEPS, START)), START, ok)
    {
      ghost var todo := OBSERVABILITY_STEPS;
      Peel(shop, todo, START);
      ok := ReconcileServiceMonitor(shop, START);
      if !ok { return; }
      todo := todo[1..];
      assert todo == [DashboardStep, AlertsStep, RoutingStep];
      Peel(shop, todo, START);
      ok := ReconcileGrafanaDashboard(shop, START);
      if !ok { return; }
      todo := todo[1..];
      assert todo == [AlertsStep, RoutingStep];
      Peel(shop, todo, START);
      ok := ReconcilePrometheusRule(shop, START);
      if !ok { return; }
      todo := todo[1..];
      assert todo == [RoutingStep] && todo[1..] == [];
      Peel(shop, todo, START);
      ok := ReconcileAlertmanagerConfig(shop, START);
    }

    /** One turn of the loop over the microservices. */
    method ReconcileMicroservice(shop: Shop, m: Microservice, l: Locals) returns (ok: bool, l': Locals)
      requires !l.failed
      modifies this
      ensures old(Rest(shop, [MigrateStep(m), DeployStep(m), ServiceStep(m)], l)) == State(objects, l')
      ensures l'.failed == !ok
    {
      ghost var todo: seq<Step> := [MigrateStep(m), DeployStep(m), ServiceStep(m)];
      l' := l;
      Peel(shop, todo, l);
      if l.dbState == DbReady {
        var migrated;
        ok, migrated := ReconcileMigrationJob(shop, m, l);
        if !ok { l' := l.(failed := true); return; }
        if !migrated { l' := l.(allReady := false); }
      } else if m.hasMigrations {
        l' := l.(allReady := false);
      }
      assert old(Rest(shop, todo, l)) == Rest(shop, todo[1..], l');
      todo := todo[1..];
      assert todo == [DeployStep(m), ServiceStep(m)];

      Peel(shop, todo, l');
      var deployment;
      ok, deployment := ReconcileDeployment(shop, m, l');
      if !ok {
        l' := l'.(failed := true);
        return;
      }
      var rolledOut := ReadyReplicas(Some(deployment)) == DesiredReplicas(shop.spec.availability);
      l' := l'.(allReady := l'.allReady && rolledOut);
      todo := todo[1..];
      assert todo == [ServiceStep(m)] && todo[1..] == [];

      Peel(shop, todo, l');
      ok := ReconcileService(shop, m, l');
      if !ok { l' := l'.(failed := true); }
    }

    /** The services in table order, then the status, then the Ingress. */
    method ReconcileServices(shop: Shop, l: Locals) returns (ok: bool, l': Locals)
      requires !l.failed
      modifies this
      ensures old(Rest(shop, ServiceSteps(cfg.services), l)) == State(objects, l')
      ensures l'.failed == !ok
    {
      ok, l' := true, l;
      ghost var whole := Rest(shop, ServiceSteps(cfg.services), l);
      for i := 0 to |cfg.services|
        invariant ok && !l'.failed
        invariant whole == Rest(shop, ServiceSteps(cfg.services[i..]), l')
      {
        ghost var m, rest := cfg.services[i], cfg.services[i + 1..];
        ghost var three: seq<Step> := [MigrateStep(m), DeployStep(m), ServiceStep(m)];
        assert ServiceSteps(cfg.services[i..]) == three + ServiceSteps(rest);
        RunFaultyAppend(cfg, shop, three, ServiceSteps(rest), State(objects, l'), fates);
        ok, l' := ReconcileMicroservice(shop, cfg.services[i], l');
        if !ok {
          FailedRun(cfg, shop, ServiceSteps(rest), State(objects, l'), fates);
          return;
        }
      }
    }

    /** A whole reconcile of the Shop as it was read. */
    method ReconcileShop(shop: Shop) returns (result: Result)
      modifies this
      ensures var end := old(Rest(shop, Program(cfg, shop), START));
              objects == end.c && result == ResultOf(end.l)
    {
      ghost var database, services, last := DatabaseSteps(shop), ServiceSteps(cfg.services), [StatusStep, IngressStep];
      SplitProgram(shop, State(objects, START));
      ghost var whole := Rest(shop, Program(cfg, shop), START);
      var l := START;

      var ok := ReconcileChildren(shop);
      if !ok {
        FailedRun(cfg, shop, database + ([JwtSecretStep] + (services + last)), State(objects, l.(failed := true)),
            fates);
        return Failed;
      }
      assert whole == Rest(shop, database + ([JwtSecretStep] + (services + last)), l);

      RunFaultyAppend(cfg, shop, database, [JwtSecretStep] + (services + last), State(objects, l), fates);
      var env, state;
      ok, env, state := ReconcileDatabase(shop, l);
      if !ok {
        FailedRun(cfg, shop, [JwtSecretStep] + (services + last), State(objects, l.(failed := true)), fates);
        return Failed;
      }
      l := WithDatabase(l, state, env);
      assert whole == Rest(shop, [JwtSecretStep] + (services + last), l);

      Peel(shop, [JwtSecretStep] + (services + last), l);
      ok := EnsureAuthSecret(shop, l);
      if !ok {
        return Failed;
      }
      assert ([JwtSecretStep] + (services + last))[1..] == services + last;
      assert whole == Rest(shop, services + last, l);

      RunFaultyAppend(cfg, shop, services, last, State(objects, l), fates);
      ok, l := ReconcileServices(shop, l);
      if !ok {
        FailedRun(cfg, shop, last, State(objects, l), fates);
        return Failed;
      }
      assert whole == Rest(shop, last, l);
      result := FinishShop(shop, l);
    }

    method FinishShop(shop: Shop, l: Locals) returns (result: Result)
      requires !l.failed
      modifies this
      ensures var end := old(Rest(shop, [StatusStep, IngressStep], l));
              objects == end.c && result == ResultOf(end.l)
    {
      ghost var todo: seq<Step> := [StatusStep, IngressStep];
      Peel(shop, todo, l);
      var ok := UpdateStatus(shop, l);
      if !ok {
        return Failed;
      }
      assert todo[1..] == [IngressStep] && todo[1..][1..] == [];
      Peel(shop, todo[1..], l);
      ok := ReconcileIngress(shop, l);
      if !ok {
        return Failed;
      }
      if l.dbState != DbReady {
        return RequeueAfter(DATABASE_REQUEUE);
      } else if !l.allReady {
        return RequeueAfter(DEPLOYMENT_REQUEUE);
      } else {
        return Finished;
      }
    }

    lemma SplitProgram(shop: Shop, s: State)
      ensures var rest := DatabaseSteps(shop) + ([JwtSecretStep] + (ServiceSteps(cfg.services) +
                                                                        [StatusStep, IngressStep]));
              RunFaulty(cfg, shop, Program(cfg, shop), s, fates) ==
                RunFaulty(cfg, shop, rest, RunFaulty(cfg, shop, CHILD_STEPS, s, fates), fates)
    {
      var rest := DatabaseSteps(shop) + ([JwtSecretStep] + (ServiceSteps(cfg.services) + [StatusStep, IngressStep]));
      Regrouped(CHILD_STEPS, DatabaseSteps(shop), [JwtSecretStep], ServiceSteps(cfg.services),
          [StatusStep, IngressStep]);
      RunFaultyAppend(cfg, shop, CHILD_STEPS, rest, s, fates);
    }

    static lemma Regrouped(a: seq<Step>, b: seq<Step>, c: seq<Step>, d: seq<Step>, e: seq<Step>)
      ensures a + b + c + d + e == a + (b + (c + (d + e)))
    {
    }

    /** The entry point: a Shop that is gone needs nothing, a failed read is retried,
        and otherwise the program runs on the spec that was read. */
    method Reconcile(ns: string, name: string, readFails: bool) returns (result: Result)
      modifies this
      ensures var found := Lookup(old(objects), ChildKey(ns, name, ShopItself));
              && (readFails ==> result == Failed && objects == old(objects))
              && (!readFails && found.None? ==> result == Finished && objects == old(objects))
              && (!readFails && found.Some? && found.value.body.ShopBody? ==>
                    var end := old(Rest(Shop(ns, name, found.value.body.spec),
                                        Program(cfg, Shop(ns, name, found.value.body.spec)), START));
                    objects == end.c && result == ResultOf(end.l))
    {
      if readFails {
        return Failed;
      }
      var found := Lookup(objects, ChildKey(ns, name, ShopItself));
      if found.None? || !found.value.body.ShopBody? {
        return Finished;
      }
      result := ReconcileShop(Shop(ns, name, found.value.body.spec));
    }
  }
}
