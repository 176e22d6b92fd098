/** The small systems that share the Shop controller with another one take steps of the
    Shop's own program: seen through a projection of the cluster, handing over, looking,
    deploying and routing are the program's Wallet, Deployment and routing steps. A step
    decides on the view that the caches give it and is committed to the cluster itself. */
module Projections {
  import opened Wrappers
  import opened Names
  import opened Labels
  import opened ShopModel
  import W = ShopWriteOnce
  import P = PayoutPipeline
  import A = AlertRouting

  /** The cluster after a step that decided on a possibly older view of it. */
  function Committed(cfg: Config, shop: Shop, step: Step, l: Locals, c: Cluster, view: Cluster): Cluster
  {
    W.Commit(c, view, RoleKey(shop, Target(cfg, step)), Act(cfg, shop, step, l, view).write)
  }

  /** A fresh view is the cluster itself, and then the step is the program's step. */
  lemma CommittedIsDo(cfg: Config, shop: Shop, step: Step, l: Locals, c: Cluster)
    requires !l.failed
    ensures Committed(cfg, shop, step, l, c, c) == Do(cfg, shop, step, State(c, l)).c
  {
  }

  // ---- The payout address ----

  function WalletOf(c: Cluster, shop: Shop): Option<P.WalletObject>
  {
    var o := Get(c, shop, Wallet);
    if o.Some? && o.value.body.WalletBody?
        then Some(P.WalletObject(o.value.body.address, o.value.body.published)) else None
  }

  function PayoutOf(c: Cluster, shop: Shop, m: Microservice): Option<string>
  {
    var o := Get(c, shop, Deployment(m.name));
    if o.Some? && o.value.body.DeploymentBody? && o.value.body.containers != [] then
      match W.ValueOf(o.value.body.containers[0].env, W.PAYOUT_VARIABLE)
      case Some(Plain(value)) => Some(value)
      case _ => None
    else None
  }

  /** Versions agree exactly when the objects do. */
  predicate SameVersion<T(==)>(c: Cluster, view: Cluster, key: Key, stored: P.Stored<T>, seen: P.Stored<T>)
  {
    P.Commits(stored, seen) <==> Lookup(c, key) == Lookup(view, key)
  }

  /** Handing the address over is the Wallet step. */
  lemma HandIsWalletStep(cfg: Config, shop: Shop, l: Locals, c: Cluster, view: Cluster, s: P.System)
    requires s.shopPc == P.Began(shop.spec.walletAddress) && Adoptable(shop, Get(view, shop, Wallet))
    requires s.wallet.val == WalletOf(c, shop) && s.walletSeen.val == WalletOf(view, shop)
    requires SameVersion(c, view, RoleKey(shop, Wallet), s.wallet, s.walletSeen)
    ensures P.Enabled(s, P.ShopHand) ==>
              P.Next(s, P.ShopHand).wallet.val == WalletOf(Committed(cfg, shop, WalletStep, l, c, view), shop)
    ensures !P.Enabled(s, P.ShopHand) ==> Committed(cfg, shop, WalletStep, l, c, view) == c
  {
    var made := MadeWallet(shop, BaseOf(Get(view, shop, Wallet)));
    assert Act(cfg, shop, WalletStep, l, view).write == Some(made);
  }

  /** Looking the payout address up is what the Deployment step does first. */
  lemma LookIsRead(shop: Shop, view: Cluster, s: P.System)
    requires s.shopPc.Handed? && s.walletSeen.val == WalletOf(view, shop)
    ensures P.Next(s, P.ShopLook(false)).shopPc.payout == PublishedAddress(Get(view, shop, Wallet))
  {
  }

  lemma DeployStepWrites(cfg: Config, shop: Shop, m: Microservice, l: Locals, view: Cluster)
    requires m.name == "payment" && (l.dbEnv == PostgresEnv(shop) || l.dbEnv == RedisEnv(shop))
    requires Adoptable(shop, Get(view, shop, Deployment(m.name)))
    ensures var write := Act(cfg, shop, DeployStep(m), l, view).write;
            && write.Some? && write.value.body.DeploymentBody? && write.value.body.containers != []
            && W.ValueOf(write.value.body.containers[0].env, W.PAYOUT_VARIABLE) ==
                 Some(Plain(PublishedAddress(Get(view, shop, Wallet))))
  {
    W.PayoutReachesPaymentOnly(cfg, shop, m, PublishedAddress(Get(view, shop, Wallet)), l.dbEnv);
  }

  /** Writing the payment Deployment is the Deployment step. */
  lemma DeployIsDeployStep(cfg: Config, shop: Shop, m: Microservice, l: Locals, c: Cluster, view: Cluster, s: P.System)
    requires m.name == "payment" && (l.dbEnv == PostgresEnv(shop) || l.dbEnv == RedisEnv(shop))
    requires Adoptable(shop, Get(view, shop, Deployment(m.name)))
    requires s.shopPc.Looked? && s.shopPc.payout == PublishedAddress(Get(view, shop, Wallet))
    requires s.payment.val == PayoutOf(c, shop, m) && s.shopPc.seen.val == PayoutOf(view, shop, m)
    requires SameVersion(c, view, RoleKey(shop, Deployment(m.name)), s.payment, s.shopPc.seen)
    ensures P.Enabled(s, P.ShopDeploy) ==>
              P.Next(s, P.ShopDeploy).payment.val == PayoutOf(Committed(cfg, shop, DeployStep(m), l, c, view), shop, m)
    ensures !P.Enabled(s, P.ShopDeploy) ==> Committed(cfg, shop, DeployStep(m), l, c, view) == c
  {
    DeployCommitted(cfg, shop, m, l, c, view);
    SeenAlready(c, view, shop, m);
  }

  /** What the payment container carries after the step was committed, or was not. */
  lemma DeployCommitted(cfg: Config, shop: Shop, m: Microservice, l: Locals, c: Cluster, view: Cluster)
    requires m.name == "payment" && (l.dbEnv == PostgresEnv(shop) || l.dbEnv == RedisEnv(shop))
    requires Adoptable(shop, Get(view, shop, Deployment(m.name)))
    ensures var current := Get(c, shop, Deployment(m.name)) == Get(view, shop, Deployment(m.name));
            var after := Committed(cfg, shop, DeployStep(m), l, c, view);
            if current then PayoutOf(after, shop, m) == Some(PublishedAddress(Get(view, shop, Wallet))) else after == c
  {
    DeployStepWrites(cfg, shop, m, l, view);
    var write := Act(cfg, shop, DeployStep(m), l, view).write;
    CommitShows(cfg, shop, m, l, c, view, write);
  }

  lemma SeenAlready(c: Cluster, view: Cluster, shop: Shop, m: Microservice)
    ensures Get(c, shop, Deployment(m.name)) == Get(view, shop, Deployment(m.name)) ==>
              PayoutOf(c, shop, m) == PayoutOf(view, shop, m)
  {
  }

  lemma CommitShows(cfg: Config, shop: Shop, m: Microservice, l: Locals, c: Cluster, view: Cluster,
                    write: Option<Object>)
    requires write == Act(cfg, shop, DeployStep(m), l, view).write && write.Some?
    ensures var key := RoleKey(shop, Deployment(m.name));
            Committed(cfg, shop, DeployStep(m), l, c, view) ==
              if Lookup(c, key) == Lookup(view, key) then c[key := write.value] else c
  {
  }

  // ---- The alert route ----

  function RouteOf(c: Cluster, shop: Shop): Option<Route>
  {
    var o := Get(c, shop, AlertRouting);
    if o.Some? && o.value.body.RoutingBody? then Some(o.value.body.route) else None
  }

  /** Writing the route, or leaving it, is the routing step. */
  lemma WriteIsRoutingStep(cfg: Config, shop: Shop, l: Locals, c: Cluster, view: Cluster, s: A.System)
    requires AlertmanagerConfigKind in cfg.installed && Adoptable(shop, Get(view, shop, AlertRouting))
    requires s.pc.Looked? && (s.pc.found <==> Get(view, shop, WebhookSecret).Some?)
    requires s.routing == RouteOf(c, shop) && Get(c, shop, AlertRouting) == Get(view, shop, AlertRouting)
    ensures A.Next(s, A.Write(shop.name)).routing == RouteOf(Committed(cfg, shop, RoutingStep, l, c, view), shop)
  {
    assert KindOf(WebhookSecret) != KindOf(AlertRouting);
    assert Act(cfg, shop, RoutingStep, l, view).write == if s.pc.found then Some(MadeRouting(shop)) else None;
  }
}
