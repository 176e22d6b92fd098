/** Credentials and database specs are created once and never changed, and what
    the Deployments refer to. */
module ShopWriteOnce {
  import opened Wrappers
  import opened Names
  import opened ShopModel

  /** One thing that happens to the cluster: some reconcile of some Shop (with
      whatever spec it read) performs a step, having decided on a possibly old view
      of the cluster; or someone else writes or deletes an object. */
  datatype Event =
    | StepEvent(shop: Shop, step: Step, l: Locals, view: Cluster)
    | External(key: Key, obj: Option<Object>)

  predicate IsCredential(kind: Kind)
  {
    kind == SecretKind || kind == PostgresKind || kind == RedisKind
  }

  /** The API server refuses to create what exists and to update what has changed
      since it was read. */
  function Commit(c: Cluster, view: Cluster, key: Key, write: Option<Object>): Cluster
  {
    if write.Some? && Lookup(c, key) == Lookup(view, key) then c[key := write.value] else c
  }

  function Happens(cfg: Config, c: Cluster, e: Event): Cluster
  {
    match e
    case StepEvent(shop, step, l, view) =>
      if l.failed then c
      else Commit(c, view, RoleKey(shop, Target(cfg, step)), Act(cfg, shop, step, l, view).write)
    case External(key, obj) =>
      // others may create credentials, and do as they like with everything else
      if IsCredential(key.kind) && (key in c || obj.None?) then c
      else if obj.Some? then c[key := obj.value] else c - {key}
  }

  function AllHappen(cfg: Config, c: Cluster, events: seq<Event>): Cluster
    decreases |events|
  {
    if events == [] then c else AllHappen(cfg, Happens(cfg, c, events[0]), events[1..])
  }

  /** A step that targets a credential writes only where its view shows nothing. */
  lemma CredentialStepsOnlyCreate(cfg: Config, shop: Shop, step: Step, l: Locals, view: Cluster)
    requires IsCredential(KindOf(Target(cfg, step)))
    requires RoleKey(shop, Target(cfg, step)) in view
    ensures Act(cfg, shop, step, l, view).write.None?
  {
    assert step.RedisSecretStep? || step.JwtSecretStep? || step.RedisStep? || step.PostgresStep?;
  }

  lemma EventKeepsCredentials(cfg: Config, c: Cluster, e: Event, key: Key)
    requires IsCredential(key.kind) && key in c
    ensures key in Happens(cfg, c, e) && Happens(cfg, c, e)[key] == c[key]
  {
    if e.StepEvent? {
      var target := RoleKey(e.shop, Target(cfg, e.step));
      if target == key && key in e.view {
        CredentialStepsOnlyCreate(cfg, e.shop, e.step, e.l, e.view);
      }
    }
  }

  /** Over any sequence of steps of any reconciles, with stale reads, tier switches
      and crashes anywhere, an existing Secret, database cluster or Redis resource
      keeps its content. */
  lemma {:induction false} CredentialsAreWriteOnce(cfg: Config, c: Cluster, events: seq<Event>, key: Key)
    requires IsCredential(key.kind) && key in c
    ensures key in AllHappen(cfg, c, events) && AllHappen(cfg, c, events)[key] == c[key]
    decreases |events|
  {
    if events != [] {
      EventKeepsCredentials(cfg, c, events[0], key);
      CredentialsAreWriteOnce(cfg, Happens(cfg, c, events[0]), events[1..], key);
    }
  }

  /** A reconcile is a sequence of such events. */
  lemma {:induction false} RunIsEvents(cfg: Config, shop: Shop, steps: seq<Step>, s: State) returns (events: seq<Event>)
    ensures Run(cfg, shop, steps, s).c == AllHappen(cfg, s.c, events)
    decreases |steps|
  {
    if steps == [] {
      events := [];
    } else {
      var t := Do(cfg, shop, steps[0], s);
      var rest := RunIsEvents(cfg, shop, steps[1..], t);
      var first := StepEvent(shop, steps[0], s.l, s.c);
      events := [first] + rest;
      assert events[0] == first && events[1..] == rest;
      assert Happens(cfg, s.c, first) == t.c;
    }
  }

  // ---- What the containers refer to ----

  predicate RefersTo(env: seq<EnvVar>, secret: string)
  {
    exists i :: 0 <= i < |env| && env[i].value.FromSecret? && env[i].value.secret == secret
  }

  /** The credentials of the Shop's database tier. */
  function DatabaseSecret(shop: Shop): Role
  {
    if shop.spec.databaseType == "light" then RedisSecret else PostgresSecret
  }

  function TierEnv(shop: Shop): seq<EnvVar>
  {
    if shop.spec.databaseType == "light" then RedisEnv(shop) else PostgresEnv(shop)
  }

  /** The Secrets a reconcile may put into a container's environment. */
  predicate OwnSecretsOnly(shop: Shop, env: seq<EnvVar>)
  {
    forall i | 0 <= i < |env| && env[i].value.FromSecret? ::
      env[i].value.secret == NameOf(shop.name, JwtSecret) ||
          env[i].value.secret == NameOf(shop.name, DatabaseSecret(shop))
  }

  lemma OwnSecretsConcat(shop: Shop, a: seq<EnvVar>, b: seq<EnvVar>)
    requires OwnSecretsOnly(shop, a) && OwnSecretsOnly(shop, b)
    ensures OwnSecretsOnly(shop, a + b)
  {
  }

  lemma TierEnvIsOwn(shop: Shop)
    ensures OwnSecretsOnly(shop, TierEnv(shop))
  {
  }

  lemma ServiceEnvIsOwn(cfg: Config, shop: Shop, m: Microservice, payout: string, dbEnv: seq<EnvVar>)
    requires OwnSecretsOnly(shop, dbEnv)
    ensures OwnSecretsOnly(shop, ServiceEnv(cfg, shop, m, payout, dbEnv))
  {
  }

  /** A container refers to no Secret but those of its own Shop and database tier. */
  lemma ContainersReferToOwnSecrets(cfg: Config, shop: Shop, m: Microservice, payout: string)
    ensures OwnSecretsOnly(shop, AppEnv(cfg, shop, m, payout, TierEnv(shop)))
  {
    TierEnvIsOwn(shop);
    ServiceEnvIsOwn(cfg, shop, m, payout, TierEnv(shop));
    OwnSecretsConcat(shop, BaseEnv(shop, m), TracingEnv(cfg, shop, m));
    OwnSecretsConcat(shop, BaseEnv(shop, m) + TracingEnv(cfg, shop, m),
        ServiceEnv(cfg, shop, m, payout, TierEnv(shop)));
  }

  /** And no other Shop's container refers to them. */
  lemma SecretsAreNotShared(x: Shop, y: Shop, env: seq<EnvVar>, role: Role)
    requires x.name != y.name && OwnSecretsOnly(y, env)
    requires role == JwtSecret || role == RedisSecret || role == PostgresSecret
    ensures !RefersTo(env, NameOf(x.name, role))
  {
    forall other | other in {JwtSecret, RedisSecret, PostgresSecret}
      ensures NameOf(y.name, other) != NameOf(x.name, role)
    {
      ChildNamesAreCollisionFree(x.name, role, y.name, other);
    }
    assert {JwtSecret, RedisSecret, PostgresSecret} == {JwtSecret} + {RedisSecret} + {PostgresSecret};
  }

  // ---- The payout address ----

  /** The value of the first variable of a name. */
  function ValueOf(env: seq<EnvVar>, name: string): Option<EnvValue>
  {
    if env == [] then None
    else if env[0].name == name then Some(env[0].value)
    else ValueOf(env[1..], name)
  }

  const PAYOUT_VARIABLE := "SHOP_WALLET_ADDRESS"

  lemma {:induction false} ValueOfConcat(a: seq<EnvVar>, b: seq<EnvVar>, name: string)
    ensures ValueOf(a + b, name) == if ValueOf(a, name).Some? then ValueOf(a, name) else ValueOf(b, name)
    decreases |a|
  {
    if a == [] {
      assert a + b == b;
    } else {
      assert (a + b)[0] == a[0] && (a + b)[1..] == a[1..] + b;
      ValueOfConcat(a[1..], b, name);
    }
  }

  lemma {:induction false} NotNamed(env: seq<EnvVar>, name: string)
    requires forall i | 0 <= i < |env| :: env[i].name != name
    ensures ValueOf(env, name).None?
    decreases |env|
  {
    if env != [] { NotNamed(env[1..], name); }
  }

  /** The payment container, and no other, gets the payout address it was given. */
  lemma PayoutReachesPaymentOnly(cfg: Config, shop: Shop, m: Microservice, payout: string, dbEnv: seq<EnvVar>)
    requires dbEnv == PostgresEnv(shop) || dbEnv == RedisEnv(shop)
    ensures ValueOf(AppEnv(cfg, shop, m, payout, dbEnv), PAYOUT_VARIABLE) ==
              if m.name == "payment" then Some(Plain(payout)) else None
  {
    var base, tracing, service := BaseEnv(shop, m), TracingEnv(cfg, shop, m), ServiceEnv(cfg, shop, m, payout, dbEnv);
    NotNamed(base, PAYOUT_VARIABLE);
    NotNamed(tracing, PAYOUT_VARIABLE);
    ValueOfConcat(base, tracing, PAYOUT_VARIABLE);
    ValueOfConcat(base + tracing, service, PAYOUT_VARIABLE);
    PayoutInService(cfg, shop, m, payout, dbEnv);
  }

  lemma PayoutInService(cfg: Config, shop: Shop, m: Microservice, payout: string, dbEnv: seq<EnvVar>)
    requires dbEnv == PostgresEnv(shop) || dbEnv == RedisEnv(shop)
    ensures ValueOf(ServiceEnv(cfg, shop, m, payout, dbEnv), PAYOUT_VARIABLE) ==
              if m.name == "payment" then Some(Plain(payout)) else None
  {
    var service := ServiceEnv(cfg, shop, m, payout, dbEnv);
    if m.name == "payment" {
      assert service[0].name == "WALLET_REF" && service[1].name == PAYOUT_VARIABLE;
      assert service[1..][0] == service[1];
      assert ValueOf(service, PAYOUT_VARIABLE) == ValueOf(service[1..], PAYOUT_VARIABLE);
    } else {
      NotNamed(service, PAYOUT_VARIABLE);
    }
  }

  /** One Deployment step publishes, in the payment container, exactly the address
      that the Wallet's status shows at that moment. */
  lemma DeployPublishesWalletStatus(cfg: Config, shop: Shop, m: Microservice, s: State)
    requires m.name == "payment" && !s.l.failed
    requires s.l.dbEnv == PostgresEnv(shop) || s.l.dbEnv == RedisEnv(shop)
    requires Adoptable(shop, Get(s.c, shop, Deployment(m.name)))
    ensures var o := Get(Do(cfg, shop, DeployStep(m), s).c, shop, Deployment(m.name));
            && o.Some? && o.value.body.DeploymentBody? && o.value.body.containers != []
            && ValueOf(o.value.body.containers[0].env, PAYOUT_VARIABLE) ==
                Some(Plain(PublishedAddress(Get(s.c, shop, Wallet))))
  {
    var payout := PublishedAddress(Get(s.c, shop, Wallet));
    PayoutReachesPaymentOnly(cfg, shop, m, payout, s.l.dbEnv);
    var prior := Get(s.c, shop, Deployment(m.name));
    var made := MadeDeployment(cfg, shop, m, AppEnv(cfg, shop, m, payout, s.l.dbEnv), BaseOf(prior));
    assert Act(cfg, shop, DeployStep(m), s.l, s.c).write == Some(made);
  }

  /** The Wallet step hands the Shop's address to the Wallet and leaves what the
      Wallet controller published alone. */
  lemma WalletStepHandsOver(cfg: Config, shop: Shop, s: State)
    requires !s.l.failed && Adoptable(shop, Get(s.c, shop, Wallet))
    ensures var o := Get(Do(cfg, shop, WalletStep, s).c, shop, Wallet);
            && o.Some? && o.value.body.WalletBody?
            && o.value.body.address == shop.spec.walletAddress
            && PublishedAddress(o) == PublishedAddress(Get(s.c, shop, Wallet))
  {
  }
}
