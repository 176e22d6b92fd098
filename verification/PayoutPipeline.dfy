/** The payout address on its way from the Shop's spec through the Wallet to the
    payment Deployment: two controllers, two work queues, and caches that lag
    behind the API server until a watch event is delivered. */
module PayoutPipeline {
  import opened Wrappers
  import opened Address
  import opened WalletController

  /** An object on the API server, or its absence. Every change has a new version. */
  datatype Stored<T> = Stored(rv: nat, val: Option<T>)

  datatype WalletObject = WalletObject(spec: string, status: string)

  /** Where a Shop reconcile stands. `missed` says that the lookup of the payout
      address failed, which the controller does not report. */
  datatype ShopPc =
    | Idle
    | Began(addr: string)
    | Handed(addr: string)
    | Looked(payout: string, missed: bool, seen: Stored<string>)
    | Deployed

  /** The API server's objects, the controllers' cached copies of them, the queues
      and the running reconciles. `blind` remembers whether the last Deployment
      written was based on a failed lookup; `declared` lists every address that was
      ever a Wallet's spec; `tampered` says that someone else wrote a Wallet status or
      the payment environment. */
  datatype System = System(
    shop: Stored<string>,
    wallet: Stored<WalletObject>,
    payment: Stored<string>,
    shopSeen: Stored<string>,
    walletSeen: Stored<WalletObject>,
    paymentSeen: Stored<string>,
    shopQueued: bool,
    walletQueued: bool,
    shopPc: ShopPc,
    walletPc: Option<Stored<WalletObject>>,
    blind: bool,
    declared: set<string>,
    tampered: bool)

  datatype Action =
    // people and other controllers
    | EditShop(addr: string)
    | EditWallet(wallet: Option<WalletObject>)
    | EditPayment(payment: Option<string>)
    // watch events reach the cache and wake the owner
    | DeliverShop
    | DeliverWallet
    | DeliverPayment
    // resyncs, periodic requeues and events about fields that are not modelled
    | WakeShop
    | WakeWallet
    // the Shop controller
    | ShopBegin
    | ShopHand
    | ShopLook(fails: bool)
    | ShopDeploy
    | ShopEnd
    | ShopFail
    // the Wallet controller
    | WalletBegin
    | WalletPublish
    | WalletFail
    // the process restarts: everything is listed and queued again
    | Restart

  function Changed<T>(o: Stored<T>, val: Option<T>): Stored<T>
  {
    Stored(o.rv + 1, val)
  }

  /** May a write that was prepared on `base` be committed? A create needs absence,
      an update the latest version. */
  predicate Commits<T(==)>(current: Stored<T>, base: Stored<T>)
  {
    if base.val.None? then current.val.None? else current.rv == base.rv
  }

  predicate Enabled(s: System, a: Action)
  {
    match a
    case ShopBegin => s.shopQueued && s.shopPc.Idle?
    case ShopHand =>
      && s.shopPc.Began?
      && ((s.walletSeen.val.Some? && s.walletSeen.val.value.spec == s.shopPc.addr) || Commits(s.wallet, s.walletSeen))
    case ShopLook(_) => s.shopPc.Handed?
    case ShopDeploy =>
      && s.shopPc.Looked?
      && (s.shopPc.seen.val == Some(s.shopPc.payout) || Commits(s.payment, s.shopPc.seen))
    case ShopEnd => s.shopPc.Deployed?
    case ShopFail => !s.shopPc.Idle?
    case WalletBegin => s.walletQueued && s.walletPc.None?
    case WalletPublish => s.walletPc.Some? && s.walletPc.value.val.Some? && s.wallet.rv == s.walletPc.value.rv
    case WalletFail => s.walletPc.Some?
    case _ => true
  }

  function Next(s: System, a: Action): System
    requires Enabled(s, a)
  {
    match a
    case EditShop(addr) => s.(shop := Changed(s.shop, Some(addr)))
    case EditWallet(val) =>
      var kept := val.None? || val.value.status == "" ||
          (s.wallet.val.Some? && val.value.status == s.wallet.val.value.status);
      s.(wallet := Changed(s.wallet, val), tampered := s.tampered || !kept,
         declared := if val.Some? then s.declared + {val.value.spec} else s.declared)
    case EditPayment(val) =>
      s.(payment := Changed(s.payment, val), tampered := s.tampered || (val.Some? && val != s.payment.val))
    case DeliverShop => s.(shopSeen := s.shop, shopQueued := true)
    case DeliverWallet => s.(walletSeen := s.wallet, shopQueued := true, walletQueued := true)
    case DeliverPayment => s.(paymentSeen := s.payment, shopQueued := true)
    case WakeShop => s.(shopQueued := true)
    case WakeWallet => s.(walletQueued := true)
    case ShopBegin =>
      if s.shopSeen.val.None? then s.(shopQueued := false)
      else s.(shopQueued := false, shopPc := Began(s.shopSeen.val.value))
    case ShopHand =>
      var addr := s.shopPc.addr;
      var done := s.(shopPc := Handed(addr));
      if s.walletSeen.val.None? then
        done.(wallet := Changed(s.wallet, Some(WalletObject(addr, ""))), declared := s.declared + {addr})
      else if s.walletSeen.val.value.spec != addr then
        done.(wallet := Changed(s.wallet, Some(s.walletSeen.val.value.(spec := addr))), declared := s.declared + {addr})
      else done
    case ShopLook(fails) =>
      var payout := if fails || s.walletSeen.val.None? then "" else s.walletSeen.val.value.status;
      s.(shopPc := Looked(payout, fails, s.paymentSeen))
    case ShopDeploy =>
      var done := s.(shopPc := Deployed, blind := s.shopPc.missed);
      if s.shopPc.seen.val == Some(s.shopPc.payout) then done
      else done.(payment := Changed(s.payment, Some(s.shopPc.payout)))
    case ShopEnd => s.(shopPc := Idle)
    case ShopFail => s.(shopPc := Idle, shopQueued := true)
    case WalletBegin =>
      s.(walletQueued := false, walletPc := if s.walletSeen.val.None? then None else Some(s.walletSeen))
    case WalletPublish =>
      var w := s.walletPc.value.val.value;
      var verdict := Published(w.spec);
      var done := s.(walletPc := None);
      if verdict == w.status then done
      else done.(wallet := Changed(s.wallet, Some(w.(status := verdict))))
    case WalletFail => s.(walletPc := None, walletQueued := true)
    case Restart =>
      s.(shopPc := Idle, walletPc := None, shopQueued := true, walletQueued := true,
         shopSeen := s.shop, walletSeen := s.wallet, paymentSeen := s.payment)
  }

  /** A new Shop, not yet noticed by the operator. */
  function Initial(addr: string): System
  {
    System(Stored(1, Some(addr)), Stored(0, None), Stored(0, None),
           Stored(0, None), Stored(0, None), Stored(0, None),
           false, false, Idle, None, false, {}, false)
  }

  ghost predicate Leads(s: System, acts: seq<Action>, t: System)
    decreases |acts|
  {
    if acts == [] then s == t
    else Enabled(s, acts[0]) && Leads(Next(s, acts[0]), acts[1..], t)
  }

  ghost predicate Reachable(s: System)
  {
    exists addr, acts :: Leads(Initial(addr), acts, s)
  }

  // ---- The invariant ----

  ghost predicate CacheOk<T(!new)>(current: Stored<T>, seen: Stored<T>)
  {
    seen.rv <= current.rv && (seen.rv == current.rv ==> seen == current)
  }

  predicate UpToDate(s: System)
  {
    s.shopSeen.rv == s.shop.rv && s.walletSeen.rv == s.wallet.rv && s.paymentSeen.rv == s.payment.rv
  }

  predicate Handover(s: System)
  {
    s.shop.val.Some? && s.wallet.val.Some? && s.wallet.val.value.spec == s.shop.val.value
  }

  /** What a settled payment Deployment carries. */
  predicate Delivered(s: System)
  {
    Handover(s) && s.payment.val == Some(if s.blind then "" else s.wallet.val.value.status)
  }

  /** Unless something is still on its way, the current reconcile has done its part. */
  predicate ShopProgress(s: System)
  {
    !s.shopQueued && UpToDate(s) ==>
      match s.shopPc
      case Idle => Delivered(s)
      case Began(addr) => s.shop.val == Some(addr)
      case Handed(addr) => s.shop.val == Some(addr) && Handover(s)
      case Looked(payout, missed, seen) =>
        Handover(s) && payout == (if missed then "" else s.wallet.val.value.status) && seen == s.payment
      case Deployed => Delivered(s)
  }

  predicate WalletProgress(s: System)
  {
    && (s.walletPc.Some? ==>
         && s.walletPc.value.val.Some? && s.walletPc.value.rv <= s.walletSeen.rv
         && (s.walletQueued || s.walletPc.value == s.walletSeen))
    && (!s.walletQueued && s.walletSeen.rv == s.wallet.rv && s.walletPc.None? && s.wallet.val.Some? ==>
          s.wallet.val.value.status == Published(s.wallet.val.value.spec))
  }

  ghost predicate Inv(s: System)
  {
    CachesOk(s) && ShopProgress(s) && WalletProgress(s)
  }

  ghost predicate CachesOk(s: System)
  {
    && s.shop.val.Some?
    && CacheOk(s.shop, s.shopSeen) && CacheOk(s.wallet, s.walletSeen) && CacheOk(s.payment, s.paymentSeen)
    && (s.shopPc.Looked? ==> CacheOk(s.payment, s.shopPc.seen))
    && (s.walletPc.Some? ==> CacheOk(s.wallet, s.walletPc.value))
  }

  predicate ByShop(a: Action)
  {
    a.ShopBegin? || a.ShopHand? || a.ShopLook? || a.ShopDeploy? || a.ShopEnd? || a.ShopFail?
  }

  predicate ByWallet(a: Action)
  {
    a.WalletBegin? || a.WalletPublish? || a.WalletFail?
  }

  lemma ShopKeepsCaches(s: System, a: Action)
    requires CachesOk(s) && Enabled(s, a) && ByShop(a)
    ensures CachesOk(Next(s, a))
  {
  }

  lemma OthersKeepCaches(s: System, a: Action)
    requires CachesOk(s) && Enabled(s, a) && !ByShop(a)
    ensures CachesOk(Next(s, a))
  {
  }

  /** Edits and cache updates: either something is still to be delivered, or the
      owner has just been queued. */
  lemma OutsideKeeps(s: System, a: Action)
    requires Inv(s) && Enabled(s, a)
    requires !ByShop(a) && !ByWallet(a)
    ensures ShopProgress(Next(s, a)) && WalletProgress(Next(s, a))
  {
  }

  lemma ShopKeeps(s: System, a: Action)
    requires Inv(s) && Enabled(s, a)
    requires ByShop(a)
    ensures ShopProgress(Next(s, a)) && WalletProgress(Next(s, a))
  {
  }

  lemma WalletKeeps(s: System, a: Action)
    requires Inv(s) && Enabled(s, a)
    requires ByWallet(a)
    ensures ShopProgress(Next(s, a)) && WalletProgress(Next(s, a))
  {
  }

  lemma StepKeeps(s: System, a: Action)
    requires Inv(s) && Enabled(s, a)
    ensures Inv(Next(s, a))
  {
    if ByShop(a) {
      ShopKeepsCaches(s, a);
      ShopKeeps(s, a);
    } else if ByWallet(a) {
      OthersKeepCaches(s, a);
      WalletKeeps(s, a);
    } else {
      OthersKeepCaches(s, a);
      OutsideKeeps(s, a);
    }
  }

  lemma {:induction false} LeadsKeeps(s: System, acts: seq<Action>, t: System)
    requires Inv(s) && Leads(s, acts, t)
    ensures Inv(t)
    decreases |acts|
  {
    if acts != [] {
      StepKeeps(s, acts[0]);
      LeadsKeeps(Next(s, acts[0]), acts[1..], t);
    }
  }

  lemma ReachableOk(s: System)
    requires Reachable(s)
    ensures Inv(s)
  {
    var addr, acts :| Leads(Initial(addr), acts, s);
    LeadsKeeps(Initial(addr), acts, s);
  }

  // ---- At rest ----

  /** Nothing queued, running or awaiting retry, and no watch event outstanding. */
  predicate AtRest(s: System)
  {
    !s.shopQueued && !s.walletQueued && s.shopPc.Idle? && s.walletPc.None? && UpToDate(s)
  }

  /** What the payment service should be given. */
  function Expected(s: System): string
    requires s.shop.val.Some?
  {
    if IsValidAddress(s.shop.val.value) then s.shop.val.value else ""
  }

  /** No wake-up is ever lost: whatever edits, errors, crashes, stale caches and
      deletions came before, at rest the payment service has the Shop's address if it
      is valid and none otherwise - exactly when the last lookup of the Wallet did not
      fail, or there was nothing to deliver anyway. */
  lemma CorrectAtRest(s: System)
    requires Reachable(s) && AtRest(s)
    ensures s.shop.val.Some? && s.payment.val.Some?
    ensures s.payment.val.value == Expected(s) <==> !s.blind || Expected(s) == ""
    ensures s.blind ==> s.payment.val.value == ""
    ensures s.wallet.val == Some(WalletObject(s.shop.val.value, Expected(s)))
  {
    ReachableOk(s);
    PublishesValidOnly(s.wallet.val.value.spec);
  }

  /** Rest is not reached without the work being done: while the payment service has
      the wrong address and no lookup failed, something is still on its way. */
  lemma WrongMeansBusy(s: System)
    requires Reachable(s) && !s.blind
    requires s.shop.val.Some? && s.payment.val != Some(Expected(s))
    ensures !AtRest(s)
  {
    if AtRest(s) { CorrectAtRest(s); }
  }

  // ---- Safety ----

  /** Nothing, or a valid address that was once declared on the Wallet. */
  predicate Safe(s: System, address: string)
  {
    address == "" || (IsValidAddress(address) && address in s.declared)
  }

  ghost predicate AllSafe(s: System)
  {
    && (s.wallet.val.Some? ==> Safe(s, s.wallet.val.value.status) && s.wallet.val.value.spec in s.declared)
    && (s.walletSeen.val.Some? ==> Safe(s, s.walletSeen.val.value.status) && s.walletSeen.val.value.spec in s.declared)
    && (s.walletPc.Some? && s.walletPc.value.val.Some? ==> s.walletPc.value.val.value.spec in s.declared)
    && (s.shopPc.Looked? ==> Safe(s, s.shopPc.payout))
    && (s.payment.val.Some? ==> Safe(s, s.payment.val.value))
  }

  lemma PublishedIsSafe(s: System, spec: string)
    requires spec in s.declared
    ensures Safe(s, Published(spec))
  {
    PublishesValidOnly(spec);
  }

  lemma StatusWriteKeepsSafe(s: System, w: WalletObject, verdict: string, t: System)
    requires AllSafe(s) && Safe(s, verdict) && w.spec in s.declared
    requires t == s.(walletPc := None, wallet := Changed(s.wallet, Some(w.(status := verdict))))
    ensures AllSafe(t)
  {
  }

  lemma PublishKeepsSafe(s: System)
    requires AllSafe(s) && Enabled(s, WalletPublish)
    ensures AllSafe(Next(s, WalletPublish))
  {
    var w := s.walletPc.value.val.value;
    PublishedIsSafe(s, w.spec);
    if Published(w.spec) != w.status {
      StatusWriteKeepsSafe(s, w, Published(w.spec), Next(s, WalletPublish));
    }
  }

  lemma HandKeepsSafe(s: System)
    requires AllSafe(s) && Enabled(s, ShopHand)
    ensures AllSafe(Next(s, ShopHand))
  {
  }

  lemma LookKeepsSafe(s: System, fails: bool)
    requires AllSafe(s) && Enabled(s, ShopLook(fails))
    ensures AllSafe(Next(s, ShopLook(fails)))
  {
  }

  lemma DeployKeepsSafe(s: System)
    requires AllSafe(s) && Enabled(s, ShopDeploy)
    ensures AllSafe(Next(s, ShopDeploy))
  {
  }

  lemma ShopKeepsSafe(s: System, a: Action)
    requires AllSafe(s) && Enabled(s, a)
    requires ByShop(a)
    ensures AllSafe(Next(s, a))
  {
    match a
    case ShopHand => HandKeepsSafe(s);
    case ShopLook(fails) => LookKeepsSafe(s, fails);
    case ShopDeploy => DeployKeepsSafe(s);
    case _ =>
  }

  lemma OutsideKeepsSafe(s: System, a: Action)
    requires AllSafe(s) && Enabled(s, a) && !Next(s, a).tampered
    requires !ByShop(a) && !a.WalletPublish?
    ensures AllSafe(Next(s, a))
  {
  }

  lemma StepKeepsSafe(s: System, a: Action)
    requires AllSafe(s) && Enabled(s, a) && !Next(s, a).tampered
    ensures AllSafe(Next(s, a))
  {
    if ByShop(a) {
      ShopKeepsSafe(s, a);
    } else if a.WalletPublish? {
      PublishKeepsSafe(s);
    } else {
      OutsideKeepsSafe(s, a);
    }
  }

  lemma {:induction false} LeadsKeepsSafe(s: System, acts: seq<Action>, t: System)
    requires AllSafe(s) && Leads(s, acts, t) && !t.tampered
    ensures AllSafe(t)
    decreases |acts|
  {
    if acts != [] {
      if Next(s, acts[0]).tampered {
        TamperingIsRemembered(Next(s, acts[0]), acts[1..], t);
      }
      StepKeepsSafe(s, acts[0]);
      LeadsKeepsSafe(Next(s, acts[0]), acts[1..], t);
    }
  }

  lemma {:induction false} TamperingIsRemembered(s: System, acts: seq<Action>, t: System)
    requires Leads(s, acts, t) && s.tampered
    ensures t.tampered
    decreases |acts|
  {
    if acts != [] {
      TamperingIsRemembered(Next(s, acts[0]), acts[1..], t);
    }
  }

  /** In every reachable state, as long as nobody else writes them, the published
      address and the payment environment are empty or a valid address that was
      declared on the Wallet before. */
  lemma PayoutIsSafe(s: System)
    requires Reachable(s) && !s.tampered
    ensures s.wallet.val.Some? ==> Safe(s, s.wallet.val.value.status)
    ensures s.payment.val.Some? ==> Safe(s, s.payment.val.value)
  {
    var addr, acts :| Leads(Initial(addr), acts, s);
    LeadsKeepsSafe(Initial(addr), acts, s);
  }
}
