/** The Shop controller: what one reconcile reads and writes, step by step. */
module ShopModel {
  import opened Wrappers
  import opened Names
  import opened Labels

  // ---- Objects ----

  datatype EnvValue = Plain(value: string) | FromSecret(secret: string, key: string)

  datatype EnvVar = EnvVar(name: string, value: EnvValue)

  /** `foreign` stands for every container field the operator does not set. */
  datatype Container = Container(name: string, image: string, pullPolicy: string, port: int, env: seq<EnvVar>,
      foreign: string)

  datatype AlertRule = AlertRule(alert: string, scopeNs: string, scopeShop: string, labels: LabelSet,
      displayName: string)

  datatype IngressPath = IngressPath(path: string, service: string, port: int)

  datatype ShopSpec = ShopSpec(
    availability: string,
    databaseType: string,
    displayName: string,
    walletAddress: string,
    channelName: string,
    serverID: string)

  datatype Condition = Condition(status: bool, reason: string)

  datatype ShopStatus = ShopStatus(replicas: int, ready: bool, conditions: map<string, Condition>)

  datatype Body =
    | Blank
    | ShopBody(spec: ShopSpec, status: ShopStatus)
    | WalletBody(shopRef: string, address: string, published: string)
    | DiscordBody(channelName: string, serverID: string, channelStatus: string)
    | MonitorBody(selector: LabelSet, component: string, components: seq<string>)
    | DashboardBody(file: string, ns: string, shop: string, title: string)
    | AlertsBody(rules: seq<AlertRule>)
    | RoutingBody(route: Route)
    | SecretBody(data: map<string, string>)
    | PostgresBody(instances: int, storage: string, readyInstances: int)
    | RedisBody(image: string, secretName: string, secretKey: string)
    | StatefulSetBody(stsReady: int)
    | DeploymentBody(replicas: int, podSelector: LabelSet, podLabels: LabelSet, containers: seq<Container>,
        readyReplicas: int)
    | ServiceBody(target: LabelSet, port: int, clusterIP: string)
    | JobBody(image: string, env: seq<EnvVar>, succeeded: int)
    | IngressBody(annotations: map<string, string>, class_: string, host: string, paths: seq<IngressPath>)

  /** `owner` is the Shop named by the controller reference. */
  datatype Object = Object(labels: LabelSet, owner: Option<string>, body: Body)

  type Cluster = map<Key, Object>

  // ---- Configuration ----

  datatype Microservice = Microservice(
    name: string,
    envVar: string,
    image: string,
    port: int,
    ingressPath: string,
    hasMigrations: bool,
    hasMetrics: bool,
    hasTracing: bool)

  /** What a reconcile takes from outside the cluster: the process environment, the
      installed CRDs, the microservice table, a source of passwords (one value per
      Secret and key) and the image hash. */
  datatype Config = Config(
    env: map<string, string>,
    installed: set<Kind>,
    services: seq<Microservice>,
    random: (string, string) -> string,
    hash: string -> string)

  const SHOP_MICROSERVICES: seq<Microservice> := [
    Microservice("auth", "SHOP_AUTH_IMAGE", "ghcr.io/devops-siit-master/shophub-auth-service:dev", 3000, "/auth-api",
        true, true, true),
    Microservice("order", "SHOP_ORDER_IMAGE", "ghcr.io/devops-siit-master/shophub-order-service:dev", 3000,
        "/order-api", false, true, true),
    Microservice("payment", "SHOP_PAYMENT_IMAGE", "ghcr.io/devops-siit-master/shophub-payment-service:dev", 3000,
        "/payment-api", false, true, true),
    Microservice("inventory", "SHOP_INVENTORY_IMAGE", "ghcr.io/devops-siit-master/shophub-inventory-service:dev", 3000,
        "/inventory-api", false, true, true),
    Microservice("frontend", "SHOP_FRONTEND_IMAGE", "ghcr.io/devops-siit-master/shophub-frontend:dev", 8080, "/",
        false, false, false)]

  /** What the naming scheme relies on: dash-free, distinct service names and
      eight-digit hashes. */
  ghost predicate ValidConfig(cfg: Config)
  {
    && (forall i | 0 <= i < |cfg.services| :: '-' !in cfg.services[i].name)
    && (forall i, j | 0 <= i < j < |cfg.services| :: cfg.services[i].name != cfg.services[j].name)
    && (forall image :: |cfg.hash(image)| == HASH_LENGTH)
  }

  datatype Shop = Shop(ns: string, name: string, spec: ShopSpec)

  function Getenv(cfg: Config, name: string, default: string): string
  {
    if name in cfg.env && cfg.env[name] != "" then cfg.env[name] else default
  }

  function MicroserviceImage(cfg: Config, m: Microservice): string
  {
    Getenv(cfg, m.envVar, m.image)
  }

  const REPLICAS_STANDARD := 2
  const REPLICAS_HIGH := 3

  function DesiredReplicas(availability: string): int
  {
    if availability == "high" then REPLICAS_HIGH else REPLICAS_STANDARD
  }

  function DisplayName(shop: Shop): string
  {
    if shop.spec.displayName == "" then shop.name else shop.spec.displayName
  }

  function ShopHost(cfg: Config, shop: Shop): string
  {
    shop.name + "." + Getenv(cfg, "SHOP_INGRESS_DOMAIN", "localtest.me")
  }

  // ---- Reading the cluster ----

  function RoleKey(shop: Shop, role: Role): Key
  {
    ChildKey(shop.ns, shop.name, role)
  }

  function Lookup(c: Cluster, key: Key): Option<Object>
  {
    if key in c then Some(c[key]) else None
  }

  function Get(c: Cluster, shop: Shop, role: Role): Option<Object>
  {
    Lookup(c, RoleKey(shop, role))
  }

  function BaseOf(prior: Option<Object>): Object
  {
    if prior.Some? then prior.value else Object(map[], None, Blank)
  }

  /** A controller reference to someone else cannot be replaced. */
  predicate Adoptable(shop: Shop, prior: Option<Object>)
  {
    prior.Some? && prior.value.owner.Some? ==> prior.value.owner.value == shop.name
  }

  function PublishedAddress(wallet: Option<Object>): string
  {
    if wallet.Some? && wallet.value.body.WalletBody? then wallet.value.body.published else ""
  }

  function ReadyReplicas(deployment: Option<Object>): int
  {
    if deployment.Some? && deployment.value.body.DeploymentBody? then deployment.value.body.readyReplicas else 0
  }

  function Succeeded(job: Option<Object>): int
  {
    if job.Some? && job.value.body.JobBody? then job.value.body.succeeded else 0
  }

  function ReadyInstances(postgres: Option<Object>): int
  {
    if postgres.Some? && postgres.value.body.PostgresBody? then postgres.value.body.readyInstances else 0
  }

  function StatefulSetReady(sts: Option<Object>): int
  {
    if sts.Some? && sts.value.body.StatefulSetBody? then sts.value.body.stsReady else 0
  }

  // ---- Environment of the containers ----

  function PostgresEnv(shop: Shop): seq<EnvVar>
  {
    var secret := NameOf(shop.name, PostgresSecret);
    [EnvVar("DATABASE_HOST", FromSecret(secret, "host")),
     EnvVar("DATABASE_PORT", FromSecret(secret, "port")),
     EnvVar("DATABASE_NAME", FromSecret(secret, "dbname")),
     EnvVar("DATABASE_USER", FromSecret(secret, "username")),
     EnvVar("DATABASE_PASSWORD", FromSecret(secret, "password")),
     EnvVar("DATABASE_KIND", Plain("postgres"))]
  }

  function RedisEnv(shop: Shop): seq<EnvVar>
  {
    [EnvVar("DATABASE_HOST", Plain(RedisName(shop.name))),
     EnvVar("DATABASE_PORT", Plain("6379")),
     EnvVar("DATABASE_PASSWORD", FromSecret(NameOf(shop.name, RedisSecret), "password")),
     EnvVar("DATABASE_KIND", Plain("redis"))]
  }

  function Digits(n: nat): string
  {
    if n < 10 then [n as char + '0'] else Digits(n / 10) + [(n % 10) as char + '0']
  }

  function PortText(port: int): string
  {
    if port < 0 then "-" + Digits(-port) else Digits(port)
  }

  function BaseEnv(shop: Shop, m: Microservice): seq<EnvVar>
  {
    [EnvVar("SHOP_NAME", Plain(shop.name)),
     EnvVar("SERVICE_NAME", Plain(m.name)),
     EnvVar("SHOP_DISPLAY_NAME", Plain(shop.spec.displayName)),
     EnvVar("DATABASE_TYPE", Plain(shop.spec.databaseType)),
     EnvVar("DISCORD_CHANNEL_REF", Plain(DiscordName(shop.name))),
     EnvVar("PORT", Plain(PortText(m.port)))]
  }

  function TracingEnv(cfg: Config, shop: Shop, m: Microservice): seq<EnvVar>
  {
    if !m.hasTracing then []
    else
      [EnvVar("OTEL_EXPORTER_OTLP_ENDPOINT",
              Plain(Getenv(cfg, "TEMPO_OTLP_ENDPOINT", "http://tempo.observability.svc.cluster.local:4318/v1/traces"))),
       EnvVar("OTEL_SERVICE_NAME", Plain(ServiceResourceName(shop.name, m.name))),
       EnvVar("OTEL_RESOURCE_ATTRIBUTES", Plain("shop.instance=" + shop.name))]
  }

  function ServiceEnv(cfg: Config, shop: Shop, m: Microservice, payout: string, dbEnv: seq<EnvVar>): seq<EnvVar>
  {
    var stem := "http://" + ResourceName(shop.name);
    var jwt := NameOf(shop.name, JwtSecret);
    if m.name == "frontend" then
      [EnvVar("AUTH_API_URL", Plain(stem + "-auth")),
       EnvVar("VITE_ORDER_API", Plain(stem + "-order")),
       EnvVar("VITE_PAYMENT_API", Plain(stem + "-payment")),
       EnvVar("VITE_INVENTORY_API", Plain(stem + "-inventory"))]
    else if m.name == "payment" then
      [EnvVar("WALLET_REF", Plain(WalletName(shop.name))),
       EnvVar("SHOP_WALLET_ADDRESS", Plain(payout)),
       EnvVar("ORDER_SERVICE_URL", Plain(stem + "-order:3000")),
       EnvVar("USDT_ADDRESS", Plain(Getenv(cfg, "USDT_ADDRESS", ""))),
       EnvVar("SEPOLIA_RPC_URL", Plain(Getenv(cfg, "SEPOLIA_RPC_URL", "https://sepolia.drpc.org")))] + dbEnv
    else if m.name == "auth" then
      [EnvVar("JWT_ACCESS_SECRET", FromSecret(jwt, "access")),
       EnvVar("JWT_REFRESH_SECRET", FromSecret(jwt, "refresh"))] + dbEnv
    else if m.name == "order" then
      dbEnv
    else if m.name == "inventory" then
      [EnvVar("JWT_ACCESS_SECRET", FromSecret(jwt, "access"))] + dbEnv
    else
      []
  }

  function AppEnv(cfg: Config, shop: Shop, m: Microservice, payout: string, dbEnv: seq<EnvVar>): seq<EnvVar>
  {
    BaseEnv(shop, m) + TracingEnv(cfg, shop, m) + ServiceEnv(cfg, shop, m, payout, dbEnv)
  }

  // ---- What each object is made into ----

  function OwnedBy(shop: Shop, labels: LabelSet, body: Body): Object
  {
    Object(labels, Some(shop.name), body)
  }

  function MadeWallet(shop: Shop, o: Object): Object
  {
    OwnedBy(shop, LabelsFor(shop.name), WalletBody(shop.name, shop.spec.walletAddress, PublishedAddress(Some(o))))
  }

  function MadeDiscord(shop: Shop, o: Object): Object
  {
    OwnedBy(shop, LabelsFor(shop.name),
            DiscordBody(shop.spec.channelName, shop.spec.serverID,
                        if o.body.DiscordBody? then o.body.channelStatus else ""))
  }

  function MetricNames(services: seq<Microservice>): seq<string>
  {
    if services == [] then []
    else (if services[0].hasMetrics then [services[0].name] else []) + MetricNames(services[1..])
  }

  function MadeMonitor(cfg: Config, shop: Shop): Object
  {
    OwnedBy(shop, LabelsFor(shop.name)["release" := "kube-prometheus-stack"],
            MonitorBody(map[INSTANCE := shop.name], COMPONENT, MetricNames(cfg.services)))
  }

  function MadeDashboard(shop: Shop): Object
  {
    OwnedBy(shop, LabelsFor(shop.name)["grafana_dashboard" := "1"],
            DashboardBody(ResourceName(shop.name) + "-dashboard.json", shop.ns, shop.name, DisplayName(shop)))
  }

  function MadeAlerts(shop: Shop): Object
  {
    OwnedBy(shop, LabelsFor(shop.name)["release" := "kube-prometheus-stack"],
            AlertsBody([AlertRule("ShopHighErrorRate", shop.ns, shop.name, AlertLabels(shop.name, "warning"),
                DisplayName(shop)),
                        AlertRule("ShopPodCrashLooping", shop.ns, shop.name, AlertLabels(shop.name, "critical"),
                            DisplayName(shop))]))
  }

  function MadeRouting(shop: Shop): Object
  {
    OwnedBy(shop, LabelsFor(shop.name), RoutingBody(RouteFor(shop.name)))
  }

  function MadeRedisSecret(cfg: Config, shop: Shop): Object
  {
    OwnedBy(shop, map[], SecretBody(map["password" := cfg.random(NameOf(shop.name, RedisSecret), "password")]))
  }

  function MadeJwtSecret(cfg: Config, shop: Shop): Object
  {
    var name := NameOf(shop.name, JwtSecret);
    OwnedBy(shop, map[], SecretBody(map["access" := cfg.random(name, "access"),
        "refresh" := cfg.random(name, "refresh")]))
  }

  function MadePostgres(shop: Shop): Object
  {
    OwnedBy(shop, map[], PostgresBody(1, "1Gi", 0))
  }

  function MadeRedis(cfg: Config, shop: Shop): Object
  {
    OwnedBy(shop, map[],
            RedisBody(Getenv(cfg, "REDIS_IMAGE", "quay.io/opstree/redis:v7.0.15"), NameOf(shop.name, RedisSecret),
                "password"))
  }

  function MadeJob(cfg: Config, shop: Shop, m: Microservice, env: seq<EnvVar>): Object
  {
    OwnedBy(shop, LabelsForComponent(shop.name, m.name + "-migrate"), JobBody(MicroserviceImage(cfg, m), env, 0))
  }

  /** Only the first container is the operator's; sidecars and foreign fields stay. */
  function MadeContainers(cfg: Config, m: Microservice, env: seq<EnvVar>, prior: seq<Container>): seq<Container>
  {
    var foreign := if prior == [] then "" else prior[0].foreign;
    var first := Container(m.name, MicroserviceImage(cfg, m), Getenv(cfg, "SHOP_IMAGE_PULL_POLICY", "IfNotPresent"),
        m.port, env, foreign);
    [first] + (if prior == [] then [] else prior[1..])
  }

  function MadeDeployment(cfg: Config, shop: Shop, m: Microservice, env: seq<EnvVar>, o: Object): Object
  {
    var labels := LabelsForComponent(shop.name, m.name);
    OwnedBy(shop, labels,
            DeploymentBody(DesiredReplicas(shop.spec.availability), labels, labels,
                           MadeContainers(cfg, m, env, if o.body.DeploymentBody? then o.body.containers else []),
                           ReadyReplicas(Some(o))))
  }

  function MadeService(shop: Shop, m: Microservice, o: Object): Object
  {
    var labels := LabelsForComponent(shop.name, m.name);
    OwnedBy(shop, labels, ServiceBody(labels, m.port, if o.body.ServiceBody? then o.body.clusterIP else ""))
  }

  function IngressPaths(shop: Shop, services: seq<Microservice>): seq<IngressPath>
  {
    if services == [] then []
    else
      var m := services[0];
      var path := if m.ingressPath == "/" then "/()(.*)" else m.ingressPath + "(/|$)(.*)";
      (if m.ingressPath == "" then [] else [IngressPath(path, ServiceResourceName(shop.name, m.name), m.port)])
      + IngressPaths(shop, services[1..])
  }

  function MadeIngress(cfg: Config, shop: Shop, o: Object): Object
  {
    var annotations := if o.body.IngressBody? then o.body.annotations else map[];
    OwnedBy(shop, LabelsFor(shop.name),
            IngressBody(annotations["nginx.ingress.kubernetes.io/rewrite-target" := "/$2"]
                                   ["nginx.ingress.kubernetes.io/use-regex" := "true"],
                        Getenv(cfg, "SHOP_INGRESS_CLASS", "nginx"), ShopHost(cfg, shop),
                            IngressPaths(shop, cfg.services)))
  }

  // ---- The database and the status ----

  datatype DbState = OperatorMissing | Provisioning | DbReady

  /** What a reconcile carries from step to step. */
  datatype Locals = Locals(failed: bool, dbState: DbState, dbEnv: seq<EnvVar>, allReady: bool)

  const START := Locals(false, Provisioning, [], false)

  function WithDatabase(l: Locals, state: DbState, env: seq<EnvVar>): Locals
  {
    l.(dbState := state, dbEnv := env, allReady := state == DbReady)
  }

  const AVAILABLE := "Available"

  function AvailableCondition(ready: bool, dbState: DbState): Condition
  {
    if ready then Condition(true, "ShopReady")
    else if dbState == OperatorMissing then Condition(false, "DatabaseOperatorMissing")
    else if dbState == Provisioning then Condition(false, "DatabaseProvisioning")
    else Condition(false, "DeploymentProgressing")
  }

  function MadeStatus(shop: Shop, l: Locals, prior: ShopStatus): ShopStatus
  {
    ShopStatus(DesiredReplicas(shop.spec.availability), l.allReady,
               prior.conditions[AVAILABLE := AvailableCondition(l.allReady, l.dbState)])
  }

  datatype Result = Finished | RequeueAfter(seconds: nat) | Failed

  const DATABASE_REQUEUE := 30
  const DEPLOYMENT_REQUEUE := 15

  function ResultOf(l: Locals): Result
  {
    if l.failed then Failed
    else if l.dbState != DbReady then RequeueAfter(DATABASE_REQUEUE)
    else if !l.allReady then RequeueAfter(DEPLOYMENT_REQUEUE)
    else Finished
  }

  // ---- Steps ----

  datatype Step =
    | WalletStep
    | DiscordStep
    | MonitorStep
    | DashboardStep
    | AlertsStep
    | RoutingStep
    | RedisSecretStep
    | RedisStep
    | PostgresStep
    | JwtSecretStep
    | MigrateStep(m: Microservice)
    | DeployStep(m: Microservice)
    | ServiceStep(m: Microservice)
    | StatusStep
    | IngressStep

  /** The one object a step may write. */
  function Target(cfg: Config, step: Step): Role
  {
    match step
    case WalletStep => Wallet
    case DiscordStep => Discord
    case MonitorStep => Metrics
    case DashboardStep => Dashboard
    case AlertsStep => Alerts
    case RoutingStep => AlertRouting
    case RedisSecretStep => RedisSecret
    case RedisStep => Redis
    case PostgresStep => Postgres
    case JwtSecretStep => JwtSecret
    case MigrateStep(m) => Migration(m.name, cfg.hash(MicroserviceImage(cfg, m)))
    case DeployStep(m) => Deployment(m.name)
    case ServiceStep(m) => Service(m.name)
    case StatusStep => ShopItself
    case IngressStep => Ingress
  }

  /** The one other object a step may look at. */
  function Other(cfg: Config, step: Step): Role
  {
    match step
    case RoutingStep => WebhookSecret
    case RedisStep => RedisStatefulSet
    case MigrateStep(_) => Wallet
    case DeployStep(_) => Wallet
    case _ => Target(cfg, step)
  }

  predicate Reads(cfg: Config, step: Step, role: Role)
  {
    role == Target(cfg, step) || role == Other(cfg, step)
  }

  datatype Effect = Effect(write: Option<Object>, l: Locals)

  /** CreateOrUpdate: whatever was there is converged, unless it belongs to someone else. */
  function Upsert(shop: Shop, prior: Option<Object>, made: Object, l: Locals): Effect
  {
    if Adoptable(shop, prior) then Effect(Some(made), l) else Effect(None, l.(failed := true))
  }

  /** Create if absent; what exists is left alone. */
  function Ensure(prior: Option<Object>, made: Object, l: Locals): Effect
  {
    Effect(if prior.Some? then None else Some(made), l)
  }

  predicate NeedsMigration(shop: Shop, m: Microservice)
  {
    m.hasMigrations && shop.spec.databaseType == "standard"
  }

  /** What a step does, given its target as it was and the other object it reads. */
  function Decide(cfg: Config, shop: Shop, step: Step, l: Locals, prior: Option<Object>, other: Option<Object>): Effect
  {
    match step
    case WalletStep => Upsert(shop, prior, MadeWallet(shop, BaseOf(prior)), l)
    case DiscordStep => Upsert(shop, prior, MadeDiscord(shop, BaseOf(prior)), l)
    case MonitorStep =>
      if MetricNames(cfg.services) == [] || ServiceMonitorKind !in cfg.installed then Effect(None, l)
      else Upsert(shop, prior, MadeMonitor(cfg, shop), l)
    case DashboardStep => Upsert(shop, prior, MadeDashboard(shop), l)
    case AlertsStep =>
      if PrometheusRuleKind !in cfg.installed then Effect(None, l)
      else Upsert(shop, prior, MadeAlerts(shop), l)
    case RoutingStep =>
      if other.None? || AlertmanagerConfigKind !in cfg.installed then Effect(None, l)
      else Upsert(shop, prior, MadeRouting(shop), l)
    case RedisSecretStep => Ensure(prior, MadeRedisSecret(cfg, shop), l)
    case RedisStep =>
      if RedisKind !in cfg.installed then Effect(None, WithDatabase(l, OperatorMissing, RedisEnv(shop)))
      else
        var state := if StatefulSetReady(other) >= 1 then DbReady else Provisioning;
        Ensure(prior, MadeRedis(cfg, shop), WithDatabase(l, state, RedisEnv(shop)))
    case PostgresStep =>
      if PostgresKind !in cfg.installed then Effect(None, WithDatabase(l, OperatorMissing, PostgresEnv(shop)))
      else
        var state := if ReadyInstances(prior) >= 1 then DbReady else Provisioning;
        Ensure(prior, MadePostgres(shop), WithDatabase(l, state, PostgresEnv(shop)))
    case JwtSecretStep => Ensure(prior, MadeJwtSecret(cfg, shop), l)
    case MigrateStep(m) =>
      if l.dbState != DbReady then Effect(None, if m.hasMigrations then l.(allReady := false) else l)
      else if !NeedsMigration(shop, m) then Effect(None, l)
      else
        Ensure(prior, MadeJob(cfg, shop, m, AppEnv(cfg, shop, m, PublishedAddress(other), l.dbEnv)),
               if Succeeded(prior) > 0 then l else l.(allReady := false))
    case DeployStep(m) =>
      var made := MadeDeployment(cfg, shop, m, AppEnv(cfg, shop, m, PublishedAddress(other), l.dbEnv), BaseOf(prior));
      var e := Upsert(shop, prior, made, l);
      if e.l.failed || ReadyReplicas(prior) == DesiredReplicas(shop.spec.availability) then e
      else e.(l := e.l.(allReady := false))
    case ServiceStep(m) => Upsert(shop, prior, MadeService(shop, m, BaseOf(prior)), l)
    case StatusStep =>
      if prior.Some? && prior.value.body.ShopBody? then
        var body := prior.value.body;
        Effect(Some(prior.value.(body := ShopBody(body.spec, MadeStatus(shop, l, body.status)))), l)
      else Effect(None, l.(failed := true))
    case IngressStep => Upsert(shop, prior, MadeIngress(cfg, shop, BaseOf(prior)), l)
  }

  function Act(cfg: Config, shop: Shop, step: Step, l: Locals, view: Cluster): Effect
  {
    Decide(cfg, shop, step, l, Get(view, shop, Target(cfg, step)), Get(view, shop, Other(cfg, step)))
  }

  datatype State = State(c: Cluster, l: Locals)

  function Write(c: Cluster, key: Key, write: Option<Object>): Cluster
  {
    if write.Some? then c[key := write.value] else c
  }

  /** After an error nothing more is done. */
  function Do(cfg: Config, shop: Shop, step: Step, s: State): State
  {
    if s.l.failed then s
    else
      var e := Act(cfg, shop, step, s.l, s.c);
      State(Write(s.c, RoleKey(shop, Target(cfg, step)), e.write), e.l)
  }

  function Run(cfg: Config, shop: Shop, steps: seq<Step>, s: State): State
    decreases |steps|
  {
    if steps == [] then s else Run(cfg, shop, steps[1..], Do(cfg, shop, steps[0], s))
  }

  function DatabaseSteps(shop: Shop): seq<Step>
  {
    if shop.spec.databaseType == "light" then [RedisSecretStep, RedisStep] else [PostgresStep]
  }

  function ServiceSteps(services: seq<Microservice>): seq<Step>
  {
    if services == [] then []
    else [MigrateStep(services[0]), DeployStep(services[0]), ServiceStep(services[0])] + ServiceSteps(services[1..])
  }

  const CHILD_STEPS: seq<Step> := [WalletStep, DiscordStep, MonitorStep, DashboardStep, AlertsStep, RoutingStep]

  function Program(cfg: Config, shop: Shop): seq<Step>
  {
    CHILD_STEPS + DatabaseSteps(shop) + [JwtSecretStep] + ServiceSteps(cfg.services) + [StatusStep, IngressStep]
  }

  /** A whole uninterrupted reconcile of a Shop that was read as `shop`. */
  function Reconciled(cfg: Config, shop: Shop, c: Cluster): State
  {
    Run(cfg, shop, Program(cfg, shop), State(c, START))
  }

  // ---- Faults ----

  /** What became of a step's API calls: all worked; one failed without effect; or
      the write took effect but its reply was lost. */
  datatype Fate = Worked | Refused | LostReply

  /** Some steps make no API call at all. */
  predicate CallsServer(cfg: Config, shop: Shop, step: Step, l: Locals)
  {
    match step
    case MonitorStep => MetricNames(cfg.services) != []
    case MigrateStep(m) => l.dbState == DbReady && NeedsMigration(shop, m)
    case _ => true
  }

  function DoFaulty(cfg: Config, shop: Shop, step: Step, s: State, fate: Fate): State
  {
    if s.l.failed || fate == Worked || !CallsServer(cfg, shop, step, s.l) then Do(cfg, shop, step, s)
    else if fate == Refused then State(s.c, s.l.(failed := true))
    else
      var done := Do(cfg, shop, step, s);
      State(done.c, s.l.(failed := true))
  }

  /** `fates` says what happens at the step that targets each role. */
  function RunFaulty(cfg: Config, shop: Shop, steps: seq<Step>, s: State, fates: Role -> Fate): State
    decreases |steps|
  {
    if steps == [] then s
    else RunFaulty(cfg, shop, steps[1..], DoFaulty(cfg, shop, steps[0], s, fates(Target(cfg, steps[0]))), fates)
  }
}
