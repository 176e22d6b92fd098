/** The environment of a container, variable by variable. The operator builds it service
    by service, by appending lists; the tables here say for each variable which services
    have it and what it holds. */
module ShopEnvironment {
  import opened Wrappers
  import opened Names
  import opened ShopModel
  import opened ShopWriteOnce

  // ---- Short lists ----

  lemma ValueOfOne(a: EnvVar, v: string)
    ensures ValueOf([a], v) == if a.name == v then Some(a.value) else None
  {
    assert [a][1..] == [];
  }

  lemma ValueOfCons(a: EnvVar, rest: seq<EnvVar>, v: string)
    ensures ValueOf([a] + rest, v) == if a.name == v then Some(a.value) else ValueOf(rest, v)
  {
    assert ([a] + rest)[0] == a && ([a] + rest)[1..] == rest;
  }

  lemma ValueOfTwo(a: EnvVar, b: EnvVar, v: string)
    ensures ValueOf([a, b], v) == if a.name == v then Some(a.value) else if b.name == v then Some(b.value) else None
  {
    assert [a, b] == [a] + [b];
    ValueOfCons(a, [b], v);
    ValueOfOne(b, v);
  }

  lemma ValueOfThree(a: EnvVar, b: EnvVar, c: EnvVar, v: string)
    ensures ValueOf([a, b, c], v) ==
              if a.name == v then Some(a.value) else if b.name == v then Some(b.value)
              else if c.name == v then Some(c.value) else None
  {
    assert [a, b, c] == [a] + [b, c];
    ValueOfCons(a, [b, c], v);
    ValueOfTwo(b, c, v);
  }

  lemma ValueOfFour(a: EnvVar, b: EnvVar, c: EnvVar, d: EnvVar, v: string)
    ensures ValueOf([a, b, c, d], v) ==
              if a.name == v then Some(a.value) else if b.name == v then Some(b.value)
              else if c.name == v then Some(c.value) else if d.name == v then Some(d.value) else None
  {
    assert [a, b, c, d] == [a, b] + [c, d];
    ValueOfTwo(a, b, v);
    ValueOfTwo(c, d, v);
    ValueOfConcat([a, b], [c, d], v);
  }

  lemma ValueOfFive(a: EnvVar, b: EnvVar, c: EnvVar, d: EnvVar, e: EnvVar, v: string)
    ensures ValueOf([a, b, c, d, e], v) ==
              if a.name == v then Some(a.value) else if b.name == v then Some(b.value)
              else if c.name == v then Some(c.value) else if d.name == v then Some(d.value)
              else if e.name == v then Some(e.value) else None
  {
    assert [a, b, c, d, e] == [a] + [b, c, d, e];
    ValueOfCons(a, [b, c, d, e], v);
    ValueOfFour(b, c, d, e, v);
  }

  lemma ValueOfSix(a: EnvVar, b: EnvVar, c: EnvVar, d: EnvVar, e: EnvVar, f: EnvVar, v: string)
    ensures ValueOf([a, b, c, d, e, f], v) ==
              if a.name == v then Some(a.value) else if b.name == v then Some(b.value)
              else if c.name == v then Some(c.value) else if d.name == v then Some(d.value)
              else if e.name == v then Some(e.value) else if f.name == v then Some(f.value) else None
  {
    assert [a, b, c, d, e, f] == [a, b] + [c, d, e, f];
    ValueOfTwo(a, b, v);
    ValueOfFour(c, d, e, f, v);
    ValueOfConcat([a, b], [c, d, e, f], v);
  }

  // ---- The tables ----

  /** Every container. */
  function IdentityVariable(shop: Shop, m: Microservice, v: string): Option<EnvValue>
  {
    if v == "SHOP_NAME" then Some(Plain(shop.name))
    else if v == "SERVICE_NAME" then Some(Plain(m.name))
    else if v == "SHOP_DISPLAY_NAME" then Some(Plain(shop.spec.displayName))
    else if v == "DATABASE_TYPE" then Some(Plain(shop.spec.databaseType))
    else if v == "DISCORD_CHANNEL_REF" then Some(Plain(NameOf(shop.name, Discord)))
    else if v == "PORT" then Some(Plain(PortText(m.port)))
    else None
  }

  /** What the process environment sets, or else a default; empty counts as not set. */
  function Setting(cfg: Config, name: string, default: string): string
  {
    if name in cfg.env && cfg.env[name] != "" then cfg.env[name] else default
  }

  /** The instrumented services. */
  function TracingVariable(cfg: Config, shop: Shop, m: Microservice, v: string): Option<EnvValue>
  {
    if !m.hasTracing then None
    else if v == "OTEL_EXPORTER_OTLP_ENDPOINT" then
      Some(Plain(Setting(cfg, "TEMPO_OTLP_ENDPOINT", "http://tempo.observability.svc.cluster.local:4318/v1/traces")))
    else if v == "OTEL_SERVICE_NAME" then Some(Plain(NameOf(shop.name, Service(m.name))))
    else if v == "OTEL_RESOURCE_ATTRIBUTES" then Some(Plain("shop.instance=" + shop.name))
    else None
  }

  /** The frontend finds the Services of the four backends. */
  function FrontendVariable(shop: Shop, v: string): Option<EnvValue>
  {
    if v == "AUTH_API_URL" then Some(Plain("http://" + NameOf(shop.name, Service("auth"))))
    else if v == "VITE_ORDER_API" then Some(Plain("http://" + NameOf(shop.name, Service("order"))))
    else if v == "VITE_PAYMENT_API" then Some(Plain("http://" + NameOf(shop.name, Service("payment"))))
    else if v == "VITE_INVENTORY_API" then Some(Plain("http://" + NameOf(shop.name, Service("inventory"))))
    else None
  }

  /** Payments: where the money goes, where orders are and which chain to ask. */
  function PaymentVariable(cfg: Config, shop: Shop, payout: string, v: string): Option<EnvValue>
  {
    if v == "WALLET_REF" then Some(Plain(NameOf(shop.name, Wallet)))
    else if v == "SHOP_WALLET_ADDRESS" then Some(Plain(payout))
    else if v == "ORDER_SERVICE_URL" then Some(Plain("http://" + NameOf(shop.name, Service("order")) + ":3000"))
    else if v == "USDT_ADDRESS" then Some(Plain(Setting(cfg, "USDT_ADDRESS", "")))
    else if v == "SEPOLIA_RPC_URL" then Some(Plain(Setting(cfg, "SEPOLIA_RPC_URL", "https://sepolia.drpc.org")))
    else None
  }

  /** Access tokens are checked by auth and inventory; only auth refreshes them. */
  function TokenVariable(shop: Shop, service: string, v: string): Option<EnvValue>
  {
    if v == "JWT_ACCESS_SECRET" && (service == "auth" || service == "inventory") then
      Some(FromSecret(NameOf(shop.name, JwtSecret), "access"))
    else if v == "JWT_REFRESH_SECRET" && service == "auth" then
      Some(FromSecret(NameOf(shop.name, JwtSecret), "refresh"))
    else None
  }

  /** The four backends reach the database of the Shop's tier: Postgres through the Secret
      that its own operator creates, Redis through the Service that has the resource's
      name and the password that this operator generated. */
  function DatabaseVariable(shop: Shop, v: string): Option<EnvValue>
  {
    if shop.spec.databaseType == "light" then
      if v == "DATABASE_HOST" then Some(Plain(NameOf(shop.name, Redis)))
      else if v == "DATABASE_PORT" then Some(Plain("6379"))
      else if v == "DATABASE_PASSWORD" then Some(FromSecret(NameOf(shop.name, RedisSecret), "password"))
      else if v == "DATABASE_KIND" then Some(Plain("redis"))
      else None
    else
      if v == "DATABASE_HOST" then Some(FromSecret(NameOf(shop.name, PostgresSecret), "host"))
      else if v == "DATABASE_PORT" then Some(FromSecret(NameOf(shop.name, PostgresSecret), "port"))
      else if v == "DATABASE_NAME" then Some(FromSecret(NameOf(shop.name, PostgresSecret), "dbname"))
      else if v == "DATABASE_USER" then Some(FromSecret(NameOf(shop.name, PostgresSecret), "username"))
      else if v == "DATABASE_PASSWORD" then Some(FromSecret(NameOf(shop.name, PostgresSecret), "password"))
      else if v == "DATABASE_KIND" then Some(Plain("postgres"))
      else None
  }

  predicate IsBackend(service: string)
  {
    service == "auth" || service == "order" || service == "payment" || service == "inventory"
  }

  function Or(a: Option<EnvValue>, b: Option<EnvValue>): Option<EnvValue>
  {
    if a.Some? then a else b
  }

  function ServiceVariable(cfg: Config, shop: Shop, m: Microservice, payout: string, v: string): Option<EnvValue>
  {
    Or(if m.name == "frontend" then FrontendVariable(shop, v) else None,
       Or(if m.name == "payment" then PaymentVariable(cfg, shop, payout, v) else None,
          Or(TokenVariable(shop, m.name, v),
             if IsBackend(m.name) then DatabaseVariable(shop, v) else None)))
  }

  /** What a variable holds in the container of a microservice, if it is set there. */
  function Variable(cfg: Config, shop: Shop, m: Microservice, payout: string, v: string): Option<EnvValue>
  {
    Or(IdentityVariable(shop, m, v), Or(TracingVariable(cfg, shop, m, v), ServiceVariable(cfg, shop, m, payout, v)))
  }

  // ---- The lists are these tables ----

  lemma IdentityIsExact(shop: Shop, m: Microservice, v: string)
    ensures ValueOf(BaseEnv(shop, m), v) == IdentityVariable(shop, m, v)
  {
    var e := BaseEnv(shop, m);
    ValueOfSix(e[0], e[1], e[2], e[3], e[4], e[5], v);
    assert e == [e[0], e[1], e[2], e[3], e[4], e[5]];
  }

  lemma TracingIsExact(cfg: Config, shop: Shop, m: Microservice, v: string)
    ensures ValueOf(TracingEnv(cfg, shop, m), v) == TracingVariable(cfg, shop, m, v)
  {
    var e := TracingEnv(cfg, shop, m);
    if m.hasTracing {
      ValueOfThree(e[0], e[1], e[2], v);
      assert e == [e[0], e[1], e[2]];
    }
  }

  lemma DatabaseIsExact(shop: Shop, v: string)
    ensures ValueOf(TierEnv(shop), v) == DatabaseVariable(shop, v)
  {
    var e := TierEnv(shop);
    if shop.spec.databaseType == "light" {
      ValueOfFour(e[0], e[1], e[2], e[3], v);
      assert e == [e[0], e[1], e[2], e[3]];
    } else {
      ValueOfSix(e[0], e[1], e[2], e[3], e[4], e[5], v);
      assert e == [e[0], e[1], e[2], e[3], e[4], e[5]];
    }
  }

  lemma FrontendIsExact(cfg: Config, shop: Shop, m: Microservice, payout: string, v: string)
    requires m.name == "frontend"
    ensures ValueOf(ServiceEnv(cfg, shop, m, payout, TierEnv(shop)), v) == FrontendVariable(shop, v)
  {
    var e := ServiceEnv(cfg, shop, m, payout, TierEnv(shop));
    var stem := "http://" + ResourceName(shop.name);
    assert stem + "-auth" == "http://" + NameOf(shop.name, Service("auth"));
    assert stem + "-order" == "http://" + NameOf(shop.name, Service("order"));
    assert stem + "-payment" == "http://" + NameOf(shop.name, Service("payment"));
    assert stem + "-inventory" == "http://" + NameOf(shop.name, Service("inventory"));
    ValueOfFour(e[0], e[1], e[2], e[3], v);
    assert e == [e[0], e[1], e[2], e[3]];
  }

  lemma PaymentIsExact(cfg: Config, shop: Shop, m: Microservice, payout: string, v: string)
    requires m.name == "payment"
    ensures ValueOf(ServiceEnv(cfg, shop, m, payout, TierEnv(shop)), v) ==
              Or(PaymentVariable(cfg, shop, payout, v), DatabaseVariable(shop, v))
  {
    var e, db := ServiceEnv(cfg, shop, m, payout, TierEnv(shop)), TierEnv(shop);
    var own := e[..5];
    assert "http://" + ResourceName(shop.name) + "-order:3000" ==
        "http://" + NameOf(shop.name, Service("order")) + ":3000";
    assert own == [own[0], own[1], own[2], own[3], own[4]] && e == own + db;
    ValueOfFive(own[0], own[1], own[2], own[3], own[4], v);
    ValueOfConcat(own, db, v);
    DatabaseIsExact(shop, v);
  }

  lemma AuthIsExact(cfg: Config, shop: Shop, m: Microservice, payout: string, v: string)
    requires m.name == "auth"
    ensures ValueOf(ServiceEnv(cfg, shop, m, payout, TierEnv(shop)), v) ==
              Or(TokenVariable(shop, "auth", v), DatabaseVariable(shop, v))
  {
    var e, db := ServiceEnv(cfg, shop, m, payout, TierEnv(shop)), TierEnv(shop);
    var own := e[..2];
    assert own == [own[0], own[1]] && e == own + db;
    ValueOfTwo(own[0], own[1], v);
    ValueOfConcat(own, db, v);
    DatabaseIsExact(shop, v);
  }

  lemma InventoryIsExact(cfg: Config, shop: Shop, m: Microservice, payout: string, v: string)
    requires m.name == "inventory"
    ensures ValueOf(ServiceEnv(cfg, shop, m, payout, TierEnv(shop)), v) ==
              Or(TokenVariable(shop, "inventory", v), DatabaseVariable(shop, v))
  {
    var e, db := ServiceEnv(cfg, shop, m, payout, TierEnv(shop)), TierEnv(shop);
    var own := e[..1];
    assert own == [own[0]] && e == own + db;
    ValueOfOne(own[0], v);
    ValueOfConcat(own, db, v);
    DatabaseIsExact(shop, v);
  }

  lemma ServiceIsExact(cfg: Config, shop: Shop, m: Microservice, payout: string, v: string)
    ensures ValueOf(ServiceEnv(cfg, shop, m, payout, TierEnv(shop)), v) == ServiceVariable(cfg, shop, m, payout, v)
  {
    if m.name == "frontend" {
      FrontendIsExact(cfg, shop, m, payout, v);
    } else if m.name == "payment" {
      PaymentIsExact(cfg, shop, m, payout, v);
    } else if m.name == "auth" {
      AuthIsExact(cfg, shop, m, payout, v);
    } else if m.name == "inventory" {
      InventoryIsExact(cfg, shop, m, payout, v);
    } else if m.name == "order" {
      DatabaseIsExact(shop, v);
    }
  }

  /** For every microservice and every variable name: the appended lists give exactly what
      the tables say, and nothing else is set. */
  lemma EnvironmentIsExact(cfg: Config, shop: Shop, m: Microservice, payout: string, v: string)
    ensures ValueOf(AppEnv(cfg, shop, m, payout, TierEnv(shop)), v) == Variable(cfg, shop, m, payout, v)
  {
    var service := ServiceEnv(cfg, shop, m, payout, TierEnv(shop));
    IdentityIsExact(shop, m, v);
    TracingIsExact(cfg, shop, m, v);
    ServiceIsExact(cfg, shop, m, payout, v);
    ValueOfConcat(BaseEnv(shop, m), TracingEnv(cfg, shop, m), v);
    ValueOfConcat(BaseEnv(shop, m) + TracingEnv(cfg, shop, m), service, v);
  }

  // ---- References to Secrets ----

  /** The password of the database is set in the four backends and nowhere else, and access
      and refresh secrets where they are used. */
  lemma SecretReferences(cfg: Config, shop: Shop, m: Microservice, payout: string)
    ensures var env := AppEnv(cfg, shop, m, payout, TierEnv(shop));
            && ValueOf(env, "DATABASE_PASSWORD") ==
                 (if IsBackend(m.name) then Some(FromSecret(NameOf(shop.name, DatabaseSecret(shop)), "password"))
                  else None)
            && ValueOf(env, "JWT_ACCESS_SECRET") ==
                 (if m.name == "auth" || m.name == "inventory"
                  then Some(FromSecret(NameOf(shop.name, JwtSecret), "access")) else None)
            && ValueOf(env, "JWT_REFRESH_SECRET") ==
                 (if m.name == "auth" then Some(FromSecret(NameOf(shop.name, JwtSecret), "refresh")) else None)
  {
    EnvironmentIsExact(cfg, shop, m, payout, "DATABASE_PASSWORD");
    EnvironmentIsExact(cfg, shop, m, payout, "JWT_ACCESS_SECRET");
    EnvironmentIsExact(cfg, shop, m, payout, "JWT_REFRESH_SECRET");
    PasswordVariable(cfg, shop, m, payout);
    AccessVariable(cfg, shop, m, payout);
    RefreshVariable(cfg, shop, m, payout);
  }

  lemma PasswordVariable(cfg: Config, shop: Shop, m: Microservice, payout: string)
    ensures Variable(cfg, shop, m, payout, "DATABASE_PASSWORD") ==
              if IsBackend(m.name) then Some(FromSecret(NameOf(shop.name, DatabaseSecret(shop)), "password")) else None
  {
  }

  lemma AccessVariable(cfg: Config, shop: Shop, m: Microservice, payout: string)
    ensures Variable(cfg, shop, m, payout, "JWT_ACCESS_SECRET") ==
              if m.name == "auth" || m.name == "inventory" then Some(FromSecret(NameOf(shop.name, JwtSecret), "access"))
              else None
  {
  }

  lemma RefreshVariable(cfg: Config, shop: Shop, m: Microservice, payout: string)
    ensures Variable(cfg, shop, m, payout, "JWT_REFRESH_SECRET") ==
              if m.name == "auth" then Some(FromSecret(NameOf(shop.name, JwtSecret), "refresh")) else None
  {
  }

  // ---- Port numbers ----

  /** The number that a string of digits stands for. */
  function NumberOf(s: string): int
  {
    if s == "" then 0 else 10 * NumberOf(s[..|s| - 1]) + (s[|s| - 1] as int - '0' as int)
  }

  predicate IsDecimal(s: string)
  {
    && s != "" && (s[0] == '0' ==> |s| == 1)
    && forall i | 0 <= i < |s| :: '0' <= s[i] <= '9'
  }

  /** The port is written in decimal, without leading zeros, and reads back as the port. */
  lemma {:induction false} DigitsReadBack(n: nat)
    ensures IsDecimal(Digits(n)) && NumberOf(Digits(n)) == n
    decreases n
  {
    if n >= 10 {
      DigitsReadBack(n / 10);
      var s := Digits(n);
      assert s[..|s| - 1] == Digits(n / 10);
      assert n / 10 > 0 && NumberOf(Digits(n / 10)) == n / 10;
      assert s[0] == Digits(n / 10)[0];
      NonZeroHead(Digits(n / 10));
    } else {
      assert Digits(n)[..0] == "";
    }
  }

  lemma NonZeroHead(s: string)
    requires IsDecimal(s) && NumberOf(s) > 0
    ensures s[0] != '0'
  {
    assert s[..0] == "";
  }

  lemma PortReadsBack(m: Microservice)
    requires m.port >= 0
    ensures IsDecimal(PortText(m.port)) && NumberOf(PortText(m.port)) == m.port
  {
    DigitsReadBack(m.port);
  }
}
