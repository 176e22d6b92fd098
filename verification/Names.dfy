/** How the names of a Shop's child objects are built, and why two Shops in one
    namespace never share an object. */
module Names {
  import opened Text

  datatype Kind =
    | ShopKind | WalletKind | DiscordChannelKind | ServiceMonitorKind | ConfigMapKind
    | PrometheusRuleKind | AlertmanagerConfigKind | SecretKind | PostgresKind | RedisKind
    | StatefulSetKind | DeploymentKind | ServiceKind | JobKind | IngressKind

  /** What an object is for. Roles with a service name exist once per microservice;
      a migration Job also carries the hash of the image it runs. */
  datatype Role =
    | ShopItself
    | Wallet
    | Discord
    | Metrics
    | Dashboard
    | Alerts
    | AlertRouting
    | Postgres
    | Redis
    | RedisStatefulSet
    | JwtSecret
    | RedisSecret
    | WebhookSecret
    | PostgresSecret
    | Deployment(service: string)
    | Service(service: string)
    | Migration(service: string, hash: string)
    | Ingress

  datatype Key = Key(kind: Kind, ns: string, name: string)

  const HASH_LENGTH := 8

  function KindOf(role: Role): Kind
  {
    match role
    case ShopItself => ShopKind
    case Wallet => WalletKind
    case Discord => DiscordChannelKind
    case Metrics => ServiceMonitorKind
    case Dashboard => ConfigMapKind
    case Alerts => PrometheusRuleKind
    case AlertRouting => AlertmanagerConfigKind
    case Postgres => PostgresKind
    case Redis => RedisKind
    case RedisStatefulSet => StatefulSetKind
    case JwtSecret => SecretKind
    case RedisSecret => SecretKind
    case WebhookSecret => SecretKind
    case PostgresSecret => SecretKind
    case Deployment(_) => DeploymentKind
    case Service(_) => ServiceKind
    case Migration(_, _) => JobKind
    case Ingress => IngressKind
  }

  function ResourceName(shop: string): string { "shop-" + shop }

  function WalletName(shop: string): string { ResourceName(shop) + "-wallet" }

  function DiscordName(shop: string): string { ResourceName(shop) + "-discord" }

  /** The Secret that the DiscordChannel controller derives from its own object's name. */
  function WebhookSecretName(channel: string): string { channel + "-webhook" }

  function PostgresName(shop: string): string { ResourceName(shop) + "-db" }

  function RedisName(shop: string): string { ResourceName(shop) + "-redis" }

  function ServiceResourceName(shop: string, service: string): string { ResourceName(shop) + "-" + service }

  function MigrationName(shop: string, service: string, hash: string): string
  {
    shop + "-" + service + "-migrate-" + hash
  }

  function NameOf(shop: string, role: Role): string
  {
    match role
    case ShopItself => shop
    case Wallet => WalletName(shop)
    case Discord => DiscordName(shop)
    case Metrics => ResourceName(shop) + "-metrics"
    case Dashboard => ResourceName(shop) + "-dashboard"
    case Alerts => ResourceName(shop) + "-alerts"
    case AlertRouting => ResourceName(shop) + "-alert-routing"
    case Postgres => PostgresName(shop)
    case Redis => RedisName(shop)
    case RedisStatefulSet => RedisName(shop)
    case JwtSecret => ResourceName(shop) + "-auth-jwt"
    case RedisSecret => RedisName(shop) + "-auth"
    case WebhookSecret => WebhookSecretName(DiscordName(shop))
    case PostgresSecret => PostgresName(shop) + "-app"
    case Deployment(service) => ServiceResourceName(shop, service)
    case Service(service) => ServiceResourceName(shop, service)
    case Migration(service, hash) => MigrationName(shop, service, hash)
    case Ingress => ResourceName(shop) + "-ingress"
  }

  function ChildKey(ns: string, shop: string, role: Role): Key
  {
    Key(KindOf(role), ns, NameOf(shop, role))
  }

  /** Service names have no dash, and image hashes have a fixed length. */
  predicate Proper(role: Role)
  {
    match role
    case Deployment(service) => '-' !in service
    case Service(service) => '-' !in service
    case Migration(service, hash) => '-' !in service && |hash| == HASH_LENGTH
    case _ => true
  }

  /** For roles without parameters the name is the Shop's resource name and a fixed suffix. */
  function FixedSuffix(role: Role): string
  {
    match role
    case Wallet => "-wallet"
    case Discord => "-discord"
    case Metrics => "-metrics"
    case Dashboard => "-dashboard"
    case Alerts => "-alerts"
    case AlertRouting => "-alert-routing"
    case Postgres => "-db"
    case Redis => "-redis"
    case RedisStatefulSet => "-redis"
    case JwtSecret => "-auth-jwt"
    case RedisSecret => "-redis-auth"
    case WebhookSecret => "-discord-webhook"
    case PostgresSecret => "-db-app"
    case Ingress => "-ingress"
    case _ => ""
  }

  predicate IsFixed(role: Role)
  {
    !role.ShopItself? && !role.Deployment? && !role.Service? && !role.Migration?
  }

  lemma FixedName(shop: string, role: Role)
    requires IsFixed(role)
    ensures NameOf(shop, role) == ResourceName(shop) + FixedSuffix(role)
  {
    var stem := ResourceName(shop);
    match role
    case RedisSecret => assert (stem + "-redis") + "-auth" == stem + "-redis-auth";
    case WebhookSecret => assert (stem + "-discord") + "-webhook" == stem + "-discord-webhook";
    case PostgresSecret => assert (stem + "-db") + "-app" == stem + "-db-app";
    case _ =>
  }

  /** Over all Shop names, an object name of a given kind determines both the Shop
      and the role. */
  lemma ChildNamesAreCollisionFree(shop1: string, role1: Role, shop2: string, role2: Role)
    requires Proper(role1) && Proper(role2) && KindOf(role1) == KindOf(role2)
    ensures NameOf(shop1, role1) == NameOf(shop2, role2) <==> shop1 == shop2 && role1 == role2
  {
    if NameOf(shop1, role1) == NameOf(shop2, role2) {
      if IsFixed(role1) {
        FixedCollision(shop1, role1, shop2, role2);
      } else if role1.Migration? {
        MigrationCollision(shop1, role1.service, role1.hash, shop2, role2.service, role2.hash);
      } else if role1.Deployment? || role1.Service? {
        CutLast('-', ResourceName(shop1), role1.service, ResourceName(shop2), role2.service);
        CutPrefix("shop-", shop1, shop2);
      }
    }
  }

  lemma FixedCollision(shop1: string, role1: Role, shop2: string, role2: Role)
    requires IsFixed(role1) && IsFixed(role2) && KindOf(role1) == KindOf(role2)
    requires NameOf(shop1, role1) == NameOf(shop2, role2)
    ensures shop1 == shop2 && role1 == role2
  {
    FixedName(shop1, role1);
    FixedName(shop2, role2);
    if role1 != role2 {
      LastCharacter(ResourceName(shop1), FixedSuffix(role1), ResourceName(shop2), FixedSuffix(role2));
    }
    CutSuffix(ResourceName(shop1), FixedSuffix(role1), ResourceName(shop2), FixedSuffix(role2));
    CutPrefix("shop-", shop1, shop2);
  }

  lemma MigrationCollision(shop1: string, service1: string, hash1: string, shop2: string, service2: string,
                           hash2: string)
    requires '-' !in service1 && '-' !in service2 && |hash1| == |hash2|
    requires MigrationName(shop1, service1, hash1) == MigrationName(shop2, service2, hash2)
    ensures shop1 == shop2 && service1 == service2 && hash1 == hash2
  {
    var middle := "-migrate-";
    CutSuffix(shop1 + "-" + service1 + middle, hash1, shop2 + "-" + service2 + middle, hash2);
    CutSuffix(shop1 + "-" + service1, middle, shop2 + "-" + service2, middle);
    CutLast('-', shop1, service1, shop2, service2);
  }

  /** The same for whole keys: children of different Shops are different objects. */
  lemma ChildKeysAreCollisionFree(ns1: string, shop1: string, role1: Role, ns2: string, shop2: string, role2: Role)
    requires Proper(role1) && Proper(role2)
    ensures ChildKey(ns1, shop1, role1) == ChildKey(ns2, shop2, role2) <==>
              ns1 == ns2 && shop1 == shop2 && role1 == role2
  {
    if KindOf(role1) == KindOf(role2) {
      ChildNamesAreCollisionFree(shop1, role1, shop2, role2);
    }
  }
}
