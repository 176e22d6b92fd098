/** The payout pipeline can always find its way to rest, and what a failed lookup does. */
module PayoutProgress {
  import opened Wrappers
  import opened Address
  import opened WalletController
  import opened PayoutPipeline

  /** The steps of a system that is left alone: events are delivered, reconciles run,
      lookups work, and the only failures are write conflicts, which are retried. */
  predicate Undisturbed(s: System, a: Action)
  {
    Enabled(s, a) &&
    match a
    case DeliverShop => true
    case DeliverWallet => true
    case DeliverPayment => true
    case ShopBegin => true
    case ShopHand => true
    case ShopLook(fails) => !fails
    case ShopDeploy => true
    case ShopEnd => true
    case ShopFail => (s.shopPc.Began? && !Enabled(s, ShopHand)) || (s.shopPc.Looked? && !Enabled(s, ShopDeploy))
    case WalletBegin => true
    case WalletPublish => true
    case WalletFail => !Enabled(s, WalletPublish)
    case _ => false
  }

  ghost predicate Runs(s: System, acts: seq<Action>, t: System)
    decreases |acts|
  {
    if acts == [] then s == t
    else Undisturbed(s, acts[0]) && Runs(Next(s, acts[0]), acts[1..], t)
  }

  ghost predicate Flows(s: System, t: System)
  {
    exists acts :: Runs(s, acts, t)
  }

  lemma {:induction false} RunsAppend(s: System, acts1: seq<Action>, t: System, acts2: seq<Action>, u: System)
    requires Runs(s, acts1, t) && Runs(t, acts2, u)
    ensures Runs(s, acts1 + acts2, u)
    decreases |acts1|
  {
    if acts1 == [] {
      assert acts1 + acts2 == acts2;
    } else {
      RunsAppend(Next(s, acts1[0]), acts1[1..], t, acts2, u);
      assert (acts1 + acts2)[1..] == acts1[1..] + acts2;
    }
  }

  lemma FlowsTrans(s: System, t: System, u: System)
    requires Flows(s, t) && Flows(t, u)
    ensures Flows(s, u)
  {
    var acts1 :| Runs(s, acts1, t);
    var acts2 :| Runs(t, acts2, u);
    RunsAppend(s, acts1, t, acts2, u);
  }

  lemma FlowsSelf(s: System)
    ensures Flows(s, s)
  {
    assert Runs(s, [], s);
  }

  /** One more step. */
  lemma Then(s: System, t: System, a: Action) returns (u: System)
    requires Flows(s, t) && Inv(t) && Undisturbed(t, a)
    ensures u == Next(t, a) && Flows(s, u) && Inv(u)
  {
    u := Next(t, a);
    StepKeeps(t, a);
    assert Runs(u, [], u);
    assert [a][0] == a && [a][1..] == [];
    assert Runs(t, [a], u);
    FlowsTrans(s, t, u);
  }

  /** A running Wallet reconcile ends. */
  lemma WalletEnds(s: System) returns (t: System)
    requires Inv(s)
    ensures Inv(t) && Flows(s, t) && t.walletPc.None? && t.shopPc == s.shopPc && t.shop == s.shop
  {
    FlowsSelf(s);
    t := s;
    if s.walletPc.Some? {
      if Enabled(s, WalletPublish) {
        t := Then(s, s, WalletPublish);
      } else {
        t := Then(s, s, WalletFail);
      }
    }
  }

  /** A Shop reconcile that was running has ended. */
  predicate Ended(s: System, t: System)
  {
    t.walletPc.None? && t.shopPc.Idle? && t.shop == s.shop
  }

  lemma DeployedEnds(s: System) returns (t: System)
    requires Inv(s) && s.walletPc.None? && s.shopPc.Deployed?
    ensures Inv(t) && Flows(s, t) && Ended(s, t)
  {
    FlowsSelf(s);
    t := Then(s, s, ShopEnd);
  }

  lemma LookedEnds(s: System) returns (t: System)
    requires Inv(s) && s.walletPc.None? && s.shopPc.Looked?
    ensures Inv(t) && Flows(s, t) && Ended(s, t)
  {
    FlowsSelf(s);
    if Enabled(s, ShopDeploy) {
      var u := Then(s, s, ShopDeploy);
      t := DeployedEnds(u);
      FlowsTrans(s, u, t);
    } else {
      t := Then(s, s, ShopFail);
    }
  }

  lemma HandedEnds(s: System) returns (t: System)
    requires Inv(s) && s.walletPc.None? && s.shopPc.Handed?
    ensures Inv(t) && Flows(s, t) && Ended(s, t)
  {
    FlowsSelf(s);
    var u := Then(s, s, ShopLook(false));
    t := LookedEnds(u);
    FlowsTrans(s, u, t);
  }

  lemma BeganEnds(s: System) returns (t: System)
    requires Inv(s) && s.walletPc.None? && s.shopPc.Began?
    ensures Inv(t) && Flows(s, t) && Ended(s, t)
  {
    if Enabled(s, ShopHand) {
      t := HandThenEnds(s);
    } else {
      FlowsSelf(s);
      t := Then(s, s, ShopFail);
    }
  }

  lemma HandThenEnds(s: System) returns (t: System)
    requires Inv(s) && s.walletPc.None? && Enabled(s, ShopHand)
    ensures Inv(t) && Flows(s, t) && Ended(s, t)
  {
    FlowsSelf(s);
    var u := Then(s, s, ShopHand);
    t := HandedEnds(u);
    FlowsTrans(s, u, t);
  }

  /** A running Shop reconcile ends. */
  lemma ShopEnds(s: System) returns (t: System)
    requires Inv(s) && s.walletPc.None?
    ensures Inv(t) && Flows(s, t) && Ended(s, t)
  {
    match s.shopPc
    case Idle => FlowsSelf(s); t := s;
    case Began(_) => t := BeganEnds(s);
    case Handed(_) => t := HandedEnds(s);
    case Looked(_, _, _) => t := LookedEnds(s);
    case Deployed => t := DeployedEnds(s);
  }

  /** Both controllers idle, and everything delivered. */
  predicate Ready(s: System)
  {
    s.shopPc.Idle? && s.walletPc.None? && UpToDate(s)
  }

  lemma Delivered(s: System) returns (t: System)
    requires Inv(s) && s.shopPc.Idle? && s.walletPc.None?
    ensures Inv(t) && Flows(s, t) && Ready(t) && t.shopQueued && t.walletQueued
    ensures t.shop == s.shop && t.wallet == s.wallet && t.payment == s.payment && t.blind == s.blind
  {
    FlowsSelf(s);
    var s1 := Then(s, s, DeliverShop);
    var s2 := Then(s, s1, DeliverWallet);
    t := Then(s, s2, DeliverPayment);
  }

  /** The first half of a Shop reconcile that starts up to date. */
  lemma HandOver(s: System) returns (t: System)
    requires Inv(s) && Ready(s) && s.shopQueued
    ensures Inv(t) && Flows(s, t) && t.shopPc.Handed?
    ensures t == s.(shopQueued := false, shopPc := t.shopPc, wallet := t.wallet, declared := t.declared)
    ensures Handover(t) && (Handover(s) ==> t.wallet == s.wallet)
  {
    FlowsSelf(s);
    assert s.shopSeen == s.shop && s.walletSeen == s.wallet;
    var s1 := Then(s, s, ShopBegin);
    t := Then(s, s1, ShopHand);
  }

  /** The second half, with a working lookup. */
  lemma Deploy(s: System) returns (t: System)
    requires Inv(s) && s.shopPc.Handed? && s.paymentSeen == s.payment && s.walletSeen.val.Some?
    ensures Inv(t) && Flows(s, t) && t.shopPc.Idle?
    ensures t == s.(shopPc := Idle, payment := t.payment, blind := false)
    ensures t.payment.val == Some(s.walletSeen.val.value.status)
    ensures s.payment.val == Some(s.walletSeen.val.value.status) ==> t.payment == s.payment
  {
    FlowsSelf(s);
    var s1 := Then(s, s, ShopLook(false));
    var s2 := Then(s, s1, ShopDeploy);
    t := Then(s, s2, ShopEnd);
  }

  /** Without a Wallet in the cache the second half writes an empty address. */
  lemma DeployNothing(s: System) returns (t: System)
    requires Inv(s) && s.shopPc.Handed? && s.paymentSeen == s.payment && s.walletSeen.val.None?
    ensures Inv(t) && Flows(s, t) && t.shopPc.Idle?
    ensures t == s.(shopPc := Idle, payment := t.payment, blind := false)
  {
    FlowsSelf(s);
    var s1 := Then(s, s, ShopLook(false));
    var s2 := Then(s, s1, ShopDeploy);
    t := Then(s, s2, ShopEnd);
  }

  /** A Shop reconcile that starts up to date hands the address over and writes the
      Deployment from a working lookup. */
  lemma ShopCycle(s: System) returns (t: System)
    requires Inv(s) && Ready(s) && s.shopQueued
    ensures Inv(t) && Flows(s, t) && t.shopPc.Idle? && t.walletPc.None? && t.walletQueued == s.walletQueued
    ensures t.shop == s.shop && !t.shopQueued && !t.blind && Handover(t)
    ensures Handover(s) ==> t.wallet == s.wallet && t.payment.val == Some(s.wallet.val.value.status)
    ensures Handover(s) && s.payment.val == Some(s.wallet.val.value.status) ==> Ready(t) && t.payment == s.payment
  {
    assert s.walletSeen == s.wallet && s.paymentSeen == s.payment;
    var h := HandOver(s);
    if h.walletSeen.val.Some? {
      t := Deploy(h);
    } else {
      t := DeployNothing(h);
    }
    FlowsTrans(s, h, t);
  }

  /** A Wallet reconcile that starts up to date leaves the verdict published. */
  lemma WalletCycle(s: System) returns (t: System)
    requires Inv(s) && Ready(s) && s.walletQueued && s.wallet.val.Some?
    ensures Inv(t) && Flows(s, t) && t.shopPc.Idle? && t.walletPc.None? && !t.walletQueued &&
              t.shopQueued == s.shopQueued
    ensures t.shop == s.shop && t.payment == s.payment && t.blind == s.blind
    ensures t.wallet.val == Some(WalletObject(s.wallet.val.value.spec, Published(s.wallet.val.value.spec)))
    ensures s.wallet.val.value.status == Published(s.wallet.val.value.spec) ==> Ready(t) && t.wallet == s.wallet
  {
    FlowsSelf(s);
    assert s.walletSeen == s.wallet;
    var s1 := Then(s, s, WalletBegin);
    t := Then(s, s1, WalletPublish);
  }

  /** From every reachable state, whatever went wrong before, the system left alone
      can come to rest, and then the payment service has what it should. */
  lemma RestIsReachable(s: System) returns (t: System)
    requires Reachable(s)
    ensures Flows(s, t) && AtRest(t) && t.shop == s.shop
    ensures t.shop.val.Some? && t.payment.val == Some(Expected(t))
  {
    ReachableOk(s);
    var s1 := WalletEnds(s);
    var s2 := ShopEnds(s1);
    FlowsTrans(s, s1, s2);
    var s3 := Delivered(s2);
    FlowsTrans(s, s2, s3);
    var s4 := ShopCycle(s3);
    FlowsTrans(s, s3, s4);
    var s5 := Delivered(s4);
    FlowsTrans(s, s4, s5);
    var s6 := WalletCycle(s5);
    FlowsTrans(s, s5, s6);
    var s7 := Delivered(s6);
    FlowsTrans(s, s6, s7);
    t := Settle(s7);
    FlowsTrans(s, s7, t);
  }

  lemma Settle(s: System) returns (t: System)
    requires Inv(s) && Ready(s) && s.shopQueued && s.walletQueued && Handover(s)
    requires s.wallet.val.value.status == Published(s.wallet.val.value.spec)
    ensures Flows(s, t) && AtRest(t) && t.shop == s.shop
    ensures t.shop.val.Some? && t.payment.val == Some(Expected(t))
  {
    var s1 := ShopCycle(s);
    var s2 := Delivered(s1);
    FlowsTrans(s, s1, s2);
    var s3 := ShopCycle(s2);
    FlowsTrans(s, s2, s3);
    t := WalletCycle(s3);
    FlowsTrans(s, s3, t);
    PublishesValidOnly(s.wallet.val.value.spec);
  }

  // ---- A failed lookup ----

  lemma LeadsOne(s: System, acts: seq<Action>, t: System, a: Action)
    requires Leads(s, acts, t) && Enabled(t, a)
    ensures Leads(s, acts + [a], Next(t, a))
    decreases |acts|
  {
    if acts == [] {
      assert Leads(Next(s, a), [], Next(t, a));
      assert ([a])[1..] == [];
    } else {
      LeadsOne(Next(s, acts[0]), acts[1..], t, a);
      assert (acts + [a])[1..] == acts[1..] + [a];
    }
  }

  lemma On(s: System, a: Action) returns (t: System)
    requires Reachable(s) && Enabled(s, a)
    ensures Reachable(t) && t == Next(s, a)
  {
    var addr, acts :| Leads(Initial(addr), acts, s);
    LeadsOne(Initial(addr), acts, s, a);
    t := Next(s, a);
  }

  lemma {:induction false} RunsAreReachable(s: System, acts: seq<Action>, t: System)
    requires Reachable(s) && Runs(s, acts, t)
    ensures Reachable(t)
    decreases |acts|
  {
    if acts != [] {
      var u := On(s, acts[0]);
      RunsAreReachable(u, acts[1..], t);
    }
  }

  /** The exception is real. For any valid address there is a state at rest in which
      the payment service has none, because the last lookup of the Wallet failed: the
      controller does not report that failure, so nothing retries it. */
  lemma FailedLookupIsForgotten(addr: string) returns (s: System)
    requires IsValidAddress(addr)
    ensures Reachable(s) && AtRest(s) && !s.tampered
    ensures s.shop.val == Some(addr) && s.payment.val == Some("")
  {
    var s0 := Initial(addr);
    assert Leads(s0, [], s0);
    var r := RestIsReachable(s0);
    var acts :| Runs(s0, acts, r);
    RunsAreReachable(s0, acts, r);
    UndisturbedIsHonest(s0, acts, r);
    CorrectAtRest(r);
    ReachableOk(r);
    // a periodic resync whose lookup fails, and again when the Deployment's event arrives
    var s1 := On(r, WakeShop);
    var s2 := BlindCycle(s1);
    var s3 := On(s2, DeliverPayment);
    s := BlindCycle(s3);
  }

  /** A whole Shop reconcile of a handed-over address whose lookup fails. */
  lemma BlindCycle(s: System) returns (t: System)
    requires Reachable(s) && s.shopPc.Idle? && s.shopQueued && Handover(s)
    requires s.shopSeen == s.shop && s.walletSeen == s.wallet && s.paymentSeen == s.payment
    ensures Reachable(t)
    ensures t == s.(shopQueued := false, blind := true, payment := t.payment)
    ensures t.payment.val == Some("")
    ensures s.payment.val == Some("") ==> t.payment == s.payment
  {
    var s1 := On(s, ShopBegin);
    var s2 := On(s1, ShopHand);
    var s3 := On(s2, ShopLook(true));
    var s4 := On(s3, ShopDeploy);
    t := On(s4, ShopEnd);
  }

  lemma {:induction false} UndisturbedIsHonest(s: System, acts: seq<Action>, t: System)
    requires Runs(s, acts, t) && !s.tampered
    ensures !t.tampered
    decreases |acts|
  {
    if acts != [] {
      UndisturbedIsHonest(Next(s, acts[0]), acts[1..], t);
    }
  }
}
