/** What belongs to someone else: a reconcile never changes it, and where it is in the way
    the reconcile says so. */
module ShopOwnership {
  import opened Wrappers
  import opened Names
  import opened ShopModel
  import opened ShopConfluence
  import opened ShopContents
  import opened ShopObservation
  import R = ShopReadiness
  import E = ShopEndState

  /** Another Shop is named by the controller reference. */
  predicate Foreign(shop: Shop, o: Option<Object>)
  {
    match o
    case Some(Object(_, Some(owner), _)) => owner != shop.name
    case _ => false
  }

  lemma ForeignStep(cfg: Config, shop: Shop, step: Step, s: State, fate: Fate, role: Role)
    requires role != ShopItself && Foreign(shop, Get(s.c, shop, role))
    ensures Get(DoFaulty(cfg, shop, step, s, fate).c, shop, role) == Get(s.c, shop, role)
  {
    if RoleKey(shop, Target(cfg, step)) != RoleKey(shop, role) {
      FaultyKeepsOthers(cfg, shop, step, s, fate, role);
    } else {
      assert KindOf(Target(cfg, step)) == KindOf(role);
      NothingWritten(cfg, shop, step, s);
      NoWriteNoChange(cfg, shop, step, s, fate);
    }
  }

  lemma NothingWritten(cfg: Config, shop: Shop, step: Step, s: State)
    requires !step.StatusStep? && Foreign(shop, Get(s.c, shop, Target(cfg, step)))
    ensures Act(cfg, shop, step, s.l, s.c).write.None?
  {
  }

  lemma {:induction false} ForeignAlong(cfg: Config, shop: Shop, steps: seq<Step>, s: State, fates: Role -> Fate,
                                        role: Role)
    requires role != ShopItself && Foreign(shop, Get(s.c, shop, role))
    ensures Get(RunFaulty(cfg, shop, steps, s, fates).c, shop, role) == Get(s.c, shop, role)
    decreases |steps|
  {
    if steps != [] {
      var fate := fates(Target(cfg, steps[0]));
      ForeignStep(cfg, shop, steps[0], s, fate, role);
      ForeignAlong(cfg, shop, steps[1..], DoFaulty(cfg, shop, steps[0], s, fate), fates, role);
    }
  }

  /** Whatever goes wrong in a reconcile, an object that another Shop controls stays as it
      is, even if it has the name of one of this Shop's children. */
  lemma ForeignObjectsAreKept(cfg: Config, shop: Shop, c: Cluster, fates: Role -> Fate, role: Role)
    requires role != ShopItself && Foreign(shop, Get(c, shop, role))
    ensures Get(RunFaulty(cfg, shop, Program(cfg, shop), State(c, START), fates).c, shop, role) == Get(c, shop, role)
  {
    ForeignAlong(cfg, shop, Program(cfg, shop), State(c, START), fates, role);
  }

  // ---- What is not wanted yet ----

  /** The kinds of other projects, whose definitions need not be installed. */
  const OPTIONAL_KINDS := {ServiceMonitorKind, PrometheusRuleKind, AlertmanagerConfigKind, RedisKind, PostgresKind}

  /** An object that cannot be written, or is not to be: its definition is missing, or it
      is the alert route and there is no webhook Secret to deliver through. */
  predicate NotYet(cfg: Config, shop: Shop, role: Role, c: Cluster)
  {
    || (KindOf(role) in OPTIONAL_KINDS && KindOf(role) !in cfg.installed)
    || (role.AlertRouting? && Get(c, shop, WebhookSecret).None?)
  }

  lemma NotYetWritten(cfg: Config, shop: Shop, step: Step, s: State)
    requires NotYet(cfg, shop, Target(cfg, step), s.c)
    ensures Act(cfg, shop, step, s.l, s.c).write.None?
  {
    assert step.MonitorStep? || step.AlertsStep? || step.RoutingStep? || step.RedisStep? || step.PostgresStep?;
  }

  lemma SameTarget(cfg: Config, shop: Shop, step: Step, role: Role, c: Cluster)
    requires RoleKey(shop, Target(cfg, step)) == RoleKey(shop, role) && NotYet(cfg, shop, role, c)
    ensures NotYet(cfg, shop, Target(cfg, step), c)
  {
    assert KindOf(Target(cfg, step)) == KindOf(role);
  }

  lemma NotYetStep(cfg: Config, shop: Shop, step: Step, s: State, fate: Fate, role: Role)
    requires NotYet(cfg, shop, role, s.c)
    ensures Get(DoFaulty(cfg, shop, step, s, fate).c, shop, role) == Get(s.c, shop, role)
    ensures Get(DoFaulty(cfg, shop, step, s, fate).c, shop, WebhookSecret) == Get(s.c, shop, WebhookSecret)
  {
    WebhookSecretIsNoTarget(shop, cfg, step);
    FaultyKeepsOthers(cfg, shop, step, s, fate, WebhookSecret);
    if RoleKey(shop, Target(cfg, step)) != RoleKey(shop, role) {
      FaultyKeepsOthers(cfg, shop, step, s, fate, role);
    } else {
      SameTarget(cfg, shop, step, role, s.c);
      NotYetWritten(cfg, shop, step, s);
      NoWriteNoChange(cfg, shop, step, s, fate);
    }
  }

  lemma NoWriteNoChange(cfg: Config, shop: Shop, step: Step, s: State, fate: Fate)
    requires Act(cfg, shop, step, s.l, s.c).write.None?
    ensures DoFaulty(cfg, shop, step, s, fate).c == s.c
  {
    assert Do(cfg, shop, step, s).c == s.c;
  }

  lemma {:induction false} NotYetAlong(cfg: Config, shop: Shop, steps: seq<Step>, s: State, fates: Role -> Fate,
                                       role: Role)
    requires NotYet(cfg, shop, role, s.c)
    ensures Get(RunFaulty(cfg, shop, steps, s, fates).c, shop, role) == Get(s.c, shop, role)
    decreases |steps|
  {
    if steps != [] {
      var fate := fates(Target(cfg, steps[0]));
      NotYetStep(cfg, shop, steps[0], s, fate, role);
      NotYetAlong(cfg, shop, steps[1..], DoFaulty(cfg, shop, steps[0], s, fate), fates, role);
    }
  }

  /** Whatever goes wrong in a reconcile: nothing is written of a kind whose definition is
      missing, and no alert route while its webhook Secret is not seen. */
  lemma NotYetIsLeftAlone(cfg: Config, shop: Shop, c: Cluster, fates: Role -> Fate, role: Role)
    requires NotYet(cfg, shop, role, c)
    ensures Get(RunFaulty(cfg, shop, Program(cfg, shop), State(c, START), fates).c, shop, role) == Get(c, shop, role)
  {
    NotYetAlong(cfg, shop, Program(cfg, shop), State(c, START), fates, role);
  }

  lemma {:induction false} NoEarlyMigration(cfg: Config, shop: Shop, c: Cluster, k: nat, service: string, hash: string)
    requires R.WellKinded(c) && !DatabaseObservedReady(cfg, shop, c) && k <= |Program(cfg, shop)|
    ensures Get(Before(cfg, shop, c, k).c, shop, Migration(service, hash)) == Get(c, shop, Migration(service, hash))
    decreases k
  {
    var p := Program(cfg, shop);
    if k > 0 {
      NoEarlyMigration(cfg, shop, c, k - 1, service, hash);
      E.SplitAt(cfg, shop, p, k - 1, State(c, START));
      var s := Before(cfg, shop, c, k - 1);
      if p[k - 1].MigrateStep? && !s.l.failed {
        MigrationWaits(cfg, shop, c, k - 1);
      } else {
        KeepsMigrations(cfg, shop, p[k - 1], s, Migration(service, hash));
      }
    }
  }

  lemma KeepsMigrations(cfg: Config, shop: Shop, step: Step, s: State, role: Role)
    requires role.Migration? && (s.l.failed || !step.MigrateStep?)
    ensures Get(Do(cfg, shop, step, s).c, shop, role) == Get(s.c, shop, role)
  {
    if !s.l.failed {
      assert KindOf(Target(cfg, step)) != KindOf(role);
      StepKeepsOthers(cfg, shop, step, s, role);
    }
  }

  lemma MigrationWaits(cfg: Config, shop: Shop, c: Cluster, k: nat)
    requires R.WellKinded(c) && !DatabaseObservedReady(cfg, shop, c)
    requires k < |Program(cfg, shop)| && Program(cfg, shop)[k].MigrateStep? && !Before(cfg, shop, c, k).l.failed
    ensures Do(cfg, shop, Program(cfg, shop)[k], Before(cfg, shop, c, k)).c == Before(cfg, shop, c, k).c
  {
    RankOf(cfg, shop, k);
    ProgramParts(cfg, shop);
    E.DbStateIsObserved(cfg, shop, c, k);
  }

  /** Whatever goes wrong in a reconcile: while the database is not observed ready no
      migration Job of any service is created or changed. */
  lemma MigrationsWaitForDatabase(cfg: Config, shop: Shop, c: Cluster, fates: Role -> Fate, service: string,
                                  hash: string)
    requires R.WellKinded(c) && !DatabaseObservedReady(cfg, shop, c)
    ensures Get(RunFaulty(cfg, shop, Program(cfg, shop), State(c, START), fates).c, shop, Migration(service, hash)) ==
              Get(c, shop, Migration(service, hash))
  {
    var k := FaultyIsPrefix(cfg, shop, Program(cfg, shop), State(c, START), fates);
    NoEarlyMigration(cfg, shop, c, k, service, hash);
  }

  // ---- When a reconcile fails by itself ----

  /** The steps that converge an object rather than only create it, as far as they are
      due in this cluster. */
  predicate Converges(cfg: Config, shop: Shop, step: Step, c: Cluster)
  {
    match step
    case WalletStep => true
    case DiscordStep => true
    case MonitorStep => ServiceMonitorKind in cfg.installed && HasMetrics(cfg)
    case DashboardStep => true
    case AlertsStep => PrometheusRuleKind in cfg.installed
    case RoutingStep => AlertmanagerConfigKind in cfg.installed && Get(c, shop, WebhookSecret).Some?
    case DeployStep(_) => true
    case ServiceStep(_) => true
    case IngressStep => true
    case _ => false
  }

  predicate HasMetrics(cfg: Config)
  {
    exists i :: 0 <= i < |cfg.services| && cfg.services[i].hasMetrics
  }

  /** Is there something of another Shop where this step wants its own? */
  predicate InTheWay(cfg: Config, shop: Shop, step: Step, c: Cluster)
  {
    Converges(cfg, shop, step, c) && Foreign(shop, Get(c, shop, Target(cfg, step)))
  }

  predicate Stored(c: Cluster, shop: Shop)
  {
    match Get(c, shop, ShopItself)
    case Some(Object(_, _, ShopBody(_, _))) => true
    case _ => false
  }

  lemma {:induction false} MetricsListed(services: seq<Microservice>)
    ensures MetricNames(services) != [] <==> exists i :: 0 <= i < |services| && services[i].hasMetrics
    decreases |services|
  {
    if services != [] {
      MetricsListed(services[1..]);
      assert forall i | 0 < i < |services| :: services[i] == services[1..][i - 1];
    }
  }

  /** The steps that write objects of the Shop's own, as opposed to those for databases,
      credentials and migrations, and the status. */
  predicate Upserts(step: Step)
  {
    || step.WalletStep? || step.DiscordStep? || step.MonitorStep? || step.DashboardStep? || step.AlertsStep?
    || step.RoutingStep? || step.DeployStep? || step.ServiceStep? || step.IngressStep?
  }

  lemma UpsertFails(cfg: Config, shop: Shop, step: Step, s: State)
    requires !s.l.failed && Upserts(step)
    ensures Do(cfg, shop, step, s).l.failed <==> InTheWay(cfg, shop, step, s.c)
  {
    if step.MonitorStep? || step.AlertsStep? || step.RoutingStep? {
      MetricsListed(cfg.services);
      OptionalFails(cfg, shop, step, s);
    } else {
      AlwaysFails(cfg, shop, step, s);
    }
  }

  lemma OptionalFails(cfg: Config, shop: Shop, step: Step, s: State)
    requires !s.l.failed && (step.MonitorStep? || step.AlertsStep? || step.RoutingStep?)
    requires MetricNames(cfg.services) != [] <==> HasMetrics(cfg)
    ensures Do(cfg, shop, step, s).l.failed <==> InTheWay(cfg, shop, step, s.c)
  {
  }

  lemma AlwaysFails(cfg: Config, shop: Shop, step: Step, s: State)
    requires !s.l.failed && Upserts(step) && !step.MonitorStep? && !step.AlertsStep? && !step.RoutingStep?
    ensures Do(cfg, shop, step, s).l.failed <==> Foreign(shop, Get(s.c, shop, Target(cfg, step)))
  {
  }

  lemma OtherFails(cfg: Config, shop: Shop, step: Step, s: State)
    requires !s.l.failed && !Upserts(step)
    ensures Do(cfg, shop, step, s).l.failed <==> step.StatusStep? && !Stored(s.c, shop)
  {
  }

  lemma StepFailsExactlyWhen(cfg: Config, shop: Shop, step: Step, s: State)
    requires !s.l.failed
    ensures Do(cfg, shop, step, s).l.failed <==>
              InTheWay(cfg, shop, step, s.c) || (step.StatusStep? && !Stored(s.c, shop))
  {
    if Upserts(step) {
      UpsertFails(cfg, shop, step, s);
    } else {
      OtherFails(cfg, shop, step, s);
    }
  }

  /** What the i-th step sees of its own target and of the webhook Secret is what was there
      at first. */
  lemma SeesTheFirst(cfg: Config, shop: Shop, c: Cluster, i: nat)
    requires ValidConfig(cfg) && i < |Program(cfg, shop)|
    ensures var step, before := Program(cfg, shop)[i], Before(cfg, shop, c, i);
            && InTheWay(cfg, shop, step, before.c) == InTheWay(cfg, shop, step, c)
            && (step.StatusStep? ==> Stored(before.c, shop) == Stored(c, shop))
  {
    WrittenOnce(cfg, shop, c, i);
    var p := Program(cfg, shop);
    if p[i].RoutingStep? {
      forall j | 0 <= j < i
        ensures RoleKey(shop, Target(cfg, p[j])) != RoleKey(shop, WebhookSecret)
      {
        WebhookSecretIsNoTarget(shop, cfg, p[j]);
      }
      OthersKeep(cfg, shop, p[..i], State(c, START), WebhookSecret);
    }
  }

  lemma WebhookSecretIsNoTarget(shop: Shop, cfg: Config, step: Step)
    ensures RoleKey(shop, Target(cfg, step)) != RoleKey(shop, WebhookSecret)
  {
    if step.JwtSecretStep? || step.RedisSecretStep? {
      ChildNamesAreCollisionFree(shop.name, Target(cfg, step), shop.name, WebhookSecret);
    }
  }

  /** The first step that fails. */
  lemma {:induction false} FirstFailure(cfg: Config, shop: Shop, steps: seq<Step>, s: State) returns (i: nat)
    requires !s.l.failed && Run(cfg, shop, steps, s).l.failed
    ensures i < |steps| && !Run(cfg, shop, steps[..i], s).l.failed
    ensures Do(cfg, shop, steps[i], Run(cfg, shop, steps[..i], s)).l.failed
    decreases |steps|
  {
    var n := |steps| - 1;
    E.SplitAt(cfg, shop, steps, n, s);
    assert steps[..n + 1] == steps;
    if Run(cfg, shop, steps[..n], s).l.failed {
      i := FirstFailure(cfg, shop, steps[..n], s);
      assert steps[..n][..i] == steps[..i];
    } else {
      i := n;
    }
  }

  /** Without faults: only another Shop's object, or the lack of a stored Shop. */
  lemma CleanFailsExactlyWhen(cfg: Config, shop: Shop, c: Cluster)
    requires ValidConfig(cfg)
    ensures Reconciled(cfg, shop, c).l.failed <==>
              !Stored(c, shop) ||
              exists i :: 0 <= i < |Program(cfg, shop)| && InTheWay(cfg, shop, Program(cfg, shop)[i], c)
  {
    var p, s := Program(cfg, shop), State(c, START);
    if Reconciled(cfg, shop, c).l.failed {
      var i := FirstFailure(cfg, shop, p, s);
      StepFailsExactlyWhen(cfg, shop, p[i], Before(cfg, shop, c, i));
      SeesTheFirst(cfg, shop, c, i);
    } else {
      forall i | 0 <= i < |p|
        ensures !InTheWay(cfg, shop, p[i], c) && (p[i].StatusStep? ==> Stored(c, shop))
      {
        E.SplitAt(cfg, shop, p, i, s);
        E.PrefixesSucceed(cfg, shop, c, i);
        E.PrefixesSucceed(cfg, shop, c, i + 1);
        StepFailsExactlyWhen(cfg, shop, p[i], Before(cfg, shop, c, i));
        SeesTheFirst(cfg, shop, c, i);
      }
      ProgramParts(cfg, shop);
      assert p[|p| - 2] == StatusStep;
    }
  }

  // ---- With faults ----

  /** A run under faults fails exactly when the clean run does, or a fault meets a call
      that the clean run makes. */
  lemma {:induction false} FaultsMet(cfg: Config, shop: Shop, steps: seq<Step>, s: State, fates: Role -> Fate)
    requires !s.l.failed
    ensures !RunFaulty(cfg, shop, steps, s, fates).l.failed <==>
              && !Run(cfg, shop, steps, s).l.failed
              && forall k | 0 <= k < |steps| ::
                   fates(Target(cfg, steps[k])) == Worked ||
                   !CallsServer(cfg, shop, steps[k], Run(cfg, shop, steps[..k], s).l)
    decreases |steps|
  {
    if steps != [] {
      var fate, t := fates(Target(cfg, steps[0])), Do(cfg, shop, steps[0], s);
      var u, rest := DoFaulty(cfg, shop, steps[0], s, fate), steps[1..];
      assert Run(cfg, shop, steps[..0], s) == s;
      if u.l.failed {
        FailedRun(cfg, shop, rest, u, fates);
        if fate == Worked || !CallsServer(cfg, shop, steps[0], s.l) {
          FailedRun(cfg, shop, rest, t, fates);
        }
      } else {
        FaultsMet(cfg, shop, rest, t, fates);
        assert forall k | 0 < k <= |rest| :: Run(cfg, shop, rest[..k - 1], t) == Run(cfg, shop, steps[..k], s) by {
          forall k | 0 < k <= |rest|
            ensures Run(cfg, shop, rest[..k - 1], t) == Run(cfg, shop, steps[..k], s)
          {
            assert steps[..k][0] == steps[0] && steps[..k][1..] == rest[..k - 1];
          }
        }
        assert forall k | 0 < k <= |rest| :: rest[k - 1] == steps[k];
      }
    }
  }

  /** Does this step call the API server at all, in this cluster? */
  predicate Asks(cfg: Config, shop: Shop, step: Step, c: Cluster)
  {
    match step
    case MonitorStep => HasMetrics(cfg)
    case MigrateStep(m) =>
      m.hasMigrations && shop.spec.databaseType == "standard" && DatabaseObservedReady(cfg, shop, c)
    case _ => true
  }

  lemma CallsAre(cfg: Config, shop: Shop, c: Cluster, k: nat)
    requires R.WellKinded(c) && k < |Program(cfg, shop)| && !Reconciled(cfg, shop, c).l.failed
    ensures CallsServer(cfg, shop, Program(cfg, shop)[k], Before(cfg, shop, c, k).l) <==>
              Asks(cfg, shop, Program(cfg, shop)[k], c)
  {
    MetricsListed(cfg.services);
    if Program(cfg, shop)[k].MigrateStep? {
      MigrationSees(cfg, shop, c, k);
    }
  }

  lemma MigrationSees(cfg: Config, shop: Shop, c: Cluster, k: nat)
    requires R.WellKinded(c) && !Reconciled(cfg, shop, c).l.failed
    requires k < |Program(cfg, shop)| && Program(cfg, shop)[k].MigrateStep?
    ensures Before(cfg, shop, c, k).l.dbState == ObservedDbState(cfg, shop, c)
  {
    RankOf(cfg, shop, k);
    ProgramParts(cfg, shop);
    E.PrefixesSucceed(cfg, shop, c, k);
    E.DbStateIsObserved(cfg, shop, c, k);
  }

  /** A reconcile reports an error exactly when a call that it has reason to make does not
      work, an object of another Shop is where one of its own should be, or no Shop is
      stored. It is not an error that a definition is missing, that a database is not
      ready, or that a migration has not run. */
  lemma FailsExactlyWhen(cfg: Config, shop: Shop, c: Cluster, fates: Role -> Fate)
    requires ValidConfig(cfg) && R.WellKinded(c)
    ensures var p := Program(cfg, shop);
            RunFaulty(cfg, shop, p, State(c, START), fates).l.failed <==>
              || !Stored(c, shop)
              || (exists i :: 0 <= i < |p| && InTheWay(cfg, shop, p[i], c))
              || (exists i :: 0 <= i < |p| && Asks(cfg, shop, p[i], c) && fates(Target(cfg, p[i])) != Worked)
  {
    var p := Program(cfg, shop);
    FaultsMet(cfg, shop, p, State(c, START), fates);
    CleanFailsExactlyWhen(cfg, shop, c);
    if !Reconciled(cfg, shop, c).l.failed {
      forall k | 0 <= k < |p|
        ensures CallsServer(cfg, shop, p[k], Run(cfg, shop, p[..k], State(c, START)).l) <==> Asks(cfg, shop, p[k], c)
      {
        CallsAre(cfg, shop, c, k);
      }
    }
  }
}
