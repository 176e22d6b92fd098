/** Left alone, the payout pipeline comes to rest by itself: not only can it, it does,
    as soon as write conflicts stop. */
module PayoutTermination {
  import opened Wrappers
  import opened WalletController
  import opened PayoutPipeline
  import opened PayoutProgress

  /** The steps of a system that is left alone, with events delivered only when there is
      something to deliver. */
  predicate Due(s: System, a: Action)
  {
    && Undisturbed(s, a)
    && (a.DeliverShop? ==> s.shopSeen.rv != s.shop.rv)
    && (a.DeliverWallet? ==> s.walletSeen.rv != s.wallet.rv)
    && (a.DeliverPayment? ==> s.paymentSeen.rv != s.payment.rv)
  }

  /** A write that is refused because it was prepared on an old version. */
  predicate Conflict(a: Action)
  {
    a.ShopFail? || a.WalletFail?
  }

  // ---- How much can still happen ----

  function Count(b: bool): nat
  {
    if b then 1 else 0
  }

  predicate AddressArrived(s: System)
  {
    s.shopSeen.rv == s.shop.rv
  }

  /** A reconcile that is about to hand over an address the cache no longer shows. */
  predicate HandsOld(s: System)
  {
    s.shopPc.Began? && s.shopSeen.val != Some(s.shopPc.addr)
  }

  predicate HandedOver(s: System)
  {
    s.wallet.val.Some? && s.shopSeen.val == Some(s.wallet.val.value.spec)
  }

  /** At most this often the Wallet's spec can still change. */
  function SpecChanges(s: System): nat
  {
    3 * Count(!AddressArrived(s)) + 2 * Count(HandsOld(s)) + Count(!HandedOver(s))
  }

  predicate Judged(s: System)
  {
    s.wallet.val.Some? ==> s.wallet.val.value.status == Published(s.wallet.val.value.spec)
  }

  function WalletChanges(s: System): nat
  {
    2 * SpecChanges(s) + Count(!Judged(s))
  }

  /** What a reconcile would deploy that looks now. */
  function PayoutSeen(s: System): string
  {
    if s.walletSeen.val.None? then "" else s.walletSeen.val.value.status
  }

  predicate DeploysOld(s: System)
  {
    s.shopPc.Looked? && s.shopPc.payout != PayoutSeen(s)
  }

  function PaymentChanges(s: System): nat
  {
    3 * WalletChanges(s) + 3 * Count(s.walletSeen.rv != s.wallet.rv) + 2 * Count(DeploysOld(s))
    + Count(s.payment.val != Some(PayoutSeen(s)))
  }

  function Ahead(pc: ShopPc): nat
  {
    match pc
    case Idle => 0
    case Deployed => 1
    case Looked(_, _, _) => 2
    case Handed(_) => 3
    case Began(_) => 4
  }

  /** What is left to do when the objects stay as they are. */
  function Chores(s: System): nat
  {
    8 * Count(s.walletSeen.rv != s.wallet.rv) + 6 * Count(s.paymentSeen.rv != s.payment.rv)
    + 6 * Count(!AddressArrived(s)) + 5 * Count(s.shopQueued) + 2 * Count(s.walletQueued)
    + Ahead(s.shopPc) + Count(s.walletPc.Some?)
  }

  function Potential(s: System): nat
  {
    9 * WalletChanges(s) + 7 * PaymentChanges(s) + Chores(s)
  }

  const PER_CONFLICT := 5

  // ---- Every step uses some of it up ----

  /** Something was used up, and nothing came to be expected that was not paid for. */
  lemma Spent(s: System, t: System)
    requires WalletChanges(t) <= WalletChanges(s) && PaymentChanges(t) <= PaymentChanges(s)
    requires || Chores(t) < Chores(s)
             || (WalletChanges(t) < WalletChanges(s) && Chores(t) < Chores(s) + 9)
             || (PaymentChanges(t) < PaymentChanges(s) && Chores(t) < Chores(s) + 7)
    ensures Potential(t) < Potential(s)
  {
  }

  lemma DeliveryDescends(s: System, a: Action)
    requires Inv(s) && Due(s, a) && (a.DeliverShop? || a.DeliverWallet? || a.DeliverPayment?)
    ensures Potential(Next(s, a)) < Potential(s)
  {
    var t := Next(s, a);
    assert SpecChanges(t) <= SpecChanges(s);
    assert Chores(t) < Chores(s);
    Spent(s, t);
  }

  /** The address is handed over without a write. */
  lemma HandKeepsSpec(s: System)
    requires Inv(s) && Enabled(s, ShopHand) && Next(s, ShopHand).wallet == s.wallet
    ensures WalletChanges(Next(s, ShopHand)) <= WalletChanges(s)
    ensures Chores(Next(s, ShopHand)) < Chores(s)
  {
  }

  /** A hand-over that writes uses up one change of the spec. */
  lemma HandWritesSpec(s: System)
    requires Inv(s) && Enabled(s, ShopHand) && Next(s, ShopHand).wallet != s.wallet
    ensures SpecChanges(Next(s, ShopHand)) < SpecChanges(s)
  {
    var t := Next(s, ShopHand);
    assert s.walletSeen == s.wallet || s.wallet.val.None?;
    assert t.wallet.val.Some? && t.wallet.val.value.spec == s.shopPc.addr;
    assert !HandsOld(t) && AddressArrived(t) == AddressArrived(s);
    if HandsOld(s) {
      assert Count(HandsOld(s)) == 1;
    } else {
      assert HandedOver(t) && !HandedOver(s);
    }
  }

  lemma HandWritesChores(s: System)
    requires Inv(s) && Enabled(s, ShopHand)
    ensures Chores(Next(s, ShopHand)) < Chores(s) + 9
  {
  }

  lemma HandPayments(s: System)
    requires Inv(s) && Enabled(s, ShopHand)
    requires if Next(s, ShopHand).wallet == s.wallet then WalletChanges(Next(s, ShopHand)) <= WalletChanges(s)
             else WalletChanges(Next(s, ShopHand)) < WalletChanges(s)
    ensures PaymentChanges(Next(s, ShopHand)) <= PaymentChanges(s)
  {
    var t := Next(s, ShopHand);
    assert PayoutSeen(t) == PayoutSeen(s) && !DeploysOld(t) && t.payment == s.payment;
  }

  lemma HandDescends(s: System)
    requires Inv(s) && Enabled(s, ShopHand)
    ensures Potential(Next(s, ShopHand)) < Potential(s)
  {
    var t := Next(s, ShopHand);
    if t.wallet == s.wallet {
      HandKeepsSpec(s);
    } else {
      HandWritesSpec(s);
      HandWritesChores(s);
      assert WalletChanges(t) < WalletChanges(s);
    }
    HandPayments(s);
    Spent(s, t);
  }

  lemma DeployPayments(s: System)
    requires Inv(s) && Enabled(s, ShopDeploy)
    ensures var t := Next(s, ShopDeploy);
            if t.payment == s.payment
                then PaymentChanges(t) <= PaymentChanges(s) else PaymentChanges(t) < PaymentChanges(s)
  {
    var t := Next(s, ShopDeploy);
    assert WalletChanges(t) == WalletChanges(s) && PayoutSeen(t) == PayoutSeen(s) && !DeploysOld(t);
    if t.payment != s.payment {
      assert s.payment.val != Some(s.shopPc.payout) && t.payment.val == Some(s.shopPc.payout);
    }
  }

  lemma DeployChores(s: System)
    requires Inv(s) && Enabled(s, ShopDeploy)
    ensures var t := Next(s, ShopDeploy);
            Chores(t) < Chores(s) + (if t.payment == s.payment then 0 else 7)
  {
  }

  lemma DeployDescends(s: System)
    requires Inv(s) && Enabled(s, ShopDeploy)
    ensures Potential(Next(s, ShopDeploy)) < Potential(s)
  {
    DeployPayments(s);
    DeployChores(s);
    assert WalletChanges(Next(s, ShopDeploy)) == WalletChanges(s);
    Spent(s, Next(s, ShopDeploy));
  }

  lemma ShopMoveChanges(s: System, a: Action)
    requires Inv(s) && Due(s, a) && (a.ShopBegin? || a.ShopLook? || a.ShopEnd?)
    ensures WalletChanges(Next(s, a)) <= WalletChanges(s)
    ensures PaymentChanges(Next(s, a)) <= PaymentChanges(s)
  {
    var t := Next(s, a);
    assert !HandsOld(t) && SpecChanges(t) <= SpecChanges(s);
    assert !DeploysOld(t);
  }

  lemma ShopMoveDescends(s: System, a: Action)
    requires Inv(s) && Due(s, a) && (a.ShopBegin? || a.ShopLook? || a.ShopEnd?)
    ensures Potential(Next(s, a)) < Potential(s)
  {
    ShopMoveChanges(s, a);
    ShopMoveChores(s, a);
    Spent(s, Next(s, a));
  }

  lemma ShopMoveChores(s: System, a: Action)
    requires Inv(s) && Due(s, a) && (a.ShopBegin? || a.ShopLook? || a.ShopEnd?)
    ensures Chores(Next(s, a)) < Chores(s)
  {
  }

  /** What publishing does: the reconcile ends, and the status becomes the verdict. */
  predicate Publishes(s: System, t: System)
  {
    && s.walletPc.Some? && s.wallet.val.Some?
    && t == s.(walletPc := None, wallet := t.wallet)
    && s.walletSeen.rv <= s.wallet.rv <= t.wallet.rv
    && (if Judged(s) then t.wallet == s.wallet
        else t.wallet.val == Some(s.wallet.val.value.(status := Published(s.wallet.val.value.spec))))
  }

  lemma PublishShape(s: System)
    requires Inv(s) && Enabled(s, WalletPublish)
    ensures Publishes(s, Next(s, WalletPublish))
  {
    assert s.walletPc.value == s.wallet;
  }

  /** A verdict that is written uses up one change of the Wallet. */
  lemma PublishChanges(s: System, t: System)
    requires Publishes(s, t)
    ensures WalletChanges(t) == WalletChanges(s) - Count(!Judged(s))
  {
    assert HandedOver(t) == HandedOver(s) && HandsOld(t) == HandsOld(s) && AddressArrived(t) == AddressArrived(s);
    assert SpecChanges(t) == SpecChanges(s);
    assert Judged(t);
  }

  lemma PublishPayments(s: System, t: System)
    requires Publishes(s, t) && WalletChanges(t) == WalletChanges(s) - Count(!Judged(s))
    ensures PaymentChanges(t) <= PaymentChanges(s)
  {
    assert PayoutSeen(t) == PayoutSeen(s) && DeploysOld(t) == DeploysOld(s) && t.payment == s.payment;
  }

  lemma PublishChores(s: System, t: System)
    requires Publishes(s, t)
    ensures Chores(t) < Chores(s) + 9 * Count(!Judged(s))
  {
    assert AddressArrived(t) == AddressArrived(s);
    assert Count(t.walletSeen.rv != t.wallet.rv) <= Count(s.walletSeen.rv != s.wallet.rv) + Count(!Judged(s));
  }

  lemma PublishDescends(s: System)
    requires Inv(s) && Enabled(s, WalletPublish)
    ensures Potential(Next(s, WalletPublish)) < Potential(s)
  {
    var t := Next(s, WalletPublish);
    PublishShape(s);
    PublishChanges(s, t);
    PublishPayments(s, t);
    PublishChores(s, t);
    Spent(s, t);
  }

  lemma WalletBeginDescends(s: System)
    requires Inv(s) && Enabled(s, WalletBegin)
    ensures Potential(Next(s, WalletBegin)) < Potential(s)
  {
    var t := Next(s, WalletBegin);
    assert WalletChanges(t) == WalletChanges(s) && PaymentChanges(t) == PaymentChanges(s);
    Spent(s, t);
  }

  /** A conflict ends a reconcile and puts it back into its queue. */
  lemma ShopConflictCosts(s: System)
    requires Enabled(s, ShopFail)
    ensures Potential(Next(s, ShopFail)) <= Potential(s) + PER_CONFLICT
  {
    var t := Next(s, ShopFail);
    assert !HandsOld(t) && !DeploysOld(t);
    assert WalletChanges(t) <= WalletChanges(s);
    assert PaymentChanges(t) <= PaymentChanges(s);
    assert Chores(t) <= Chores(s) + PER_CONFLICT;
  }

  lemma WalletConflictCosts(s: System)
    requires Enabled(s, WalletFail)
    ensures Potential(Next(s, WalletFail)) <= Potential(s) + PER_CONFLICT
  {
    var t := Next(s, WalletFail);
    assert WalletChanges(t) == WalletChanges(s) && PaymentChanges(t) == PaymentChanges(s);
    assert Chores(t) <= Chores(s) + PER_CONFLICT;
  }

  lemma ConflictCosts(s: System, a: Action)
    requires Due(s, a) && Conflict(a)
    ensures Potential(Next(s, a)) <= Potential(s) + PER_CONFLICT
  {
    if a.ShopFail? {
      ShopConflictCosts(s);
    } else {
      WalletConflictCosts(s);
    }
  }

  lemma StepDescends(s: System, a: Action)
    requires Inv(s) && Due(s, a) && !Conflict(a)
    ensures Potential(Next(s, a)) < Potential(s)
  {
    match a
    case ShopHand => HandDescends(s);
    case ShopDeploy => DeployDescends(s);
    case DeliverShop => DeliveryDescends(s, a);
    case DeliverWallet => DeliveryDescends(s, a);
    case DeliverPayment => DeliveryDescends(s, a);
    case WalletBegin => WalletBeginDescends(s);
    case WalletPublish => PublishDescends(s);
    case _ => ShopMoveDescends(s, a);
  }

  // ---- Whole runs ----

  ghost predicate DueRuns(s: System, acts: seq<Action>, t: System)
    decreases |acts|
  {
    if acts == [] then s == t
    else Due(s, acts[0]) && DueRuns(Next(s, acts[0]), acts[1..], t)
  }

  function Conflicts(acts: seq<Action>): nat
  {
    if acts == [] then 0 else Count(Conflict(acts[0])) + Conflicts(acts[1..])
  }

  /** The length of a run is bounded by the state it starts from and the number of write
      conflicts in it. */
  lemma {:induction false} RunsAreBounded(s: System, acts: seq<Action>, t: System)
    requires Inv(s) && DueRuns(s, acts, t)
    ensures Inv(t)
    ensures |acts| + Potential(t) <= Potential(s) + (PER_CONFLICT + 1) * Conflicts(acts)
    decreases |acts|
  {
    if acts != [] {
      var a := acts[0];
      StepKeeps(s, a);
      if Conflict(a) {
        ConflictCosts(s, a);
      } else {
        StepDescends(s, a);
      }
      RunsAreBounded(Next(s, a), acts[1..], t);
    }
  }

  /** A conflict comes of an old version, so delivering events makes an end of them. */
  lemma ConflictsAreOutdated(s: System, a: Action)
    requires Inv(s) && Due(s, a) && Conflict(a)
    ensures a.WalletFail? ==> s.walletPc.value.rv < s.wallet.rv
    ensures a.ShopFail? && s.shopPc.Began? ==> s.walletSeen.rv < s.wallet.rv
    ensures a.ShopFail? && s.shopPc.Looked? ==> s.shopPc.seen.rv < s.payment.rv
    ensures a.ShopFail? ==> s.shopPc.Began? || s.shopPc.Looked?
  {
  }

  /** Where nothing can happen any more, the system is at rest, and the other way round. */
  lemma StuckIsRest(s: System)
    requires Inv(s)
    ensures AtRest(s) <==> forall a :: !Due(s, a)
  {
    if !AtRest(s) {
      var a := SomethingDue(s);
      assert Due(s, a);
    }
  }

  lemma SomethingDue(s: System) returns (a: Action)
    requires Inv(s) && !AtRest(s)
    ensures Due(s, a)
  {
    if s.walletPc.Some? {
      a := if Enabled(s, WalletPublish) then WalletPublish else WalletFail;
    } else if !s.shopPc.Idle? {
      a := ShopMove(s);
    } else if !UpToDate(s) {
      a := if s.shopSeen.rv != s.shop.rv then DeliverShop
           else if s.walletSeen.rv != s.wallet.rv then DeliverWallet
           else DeliverPayment;
    } else {
      a := if s.shopQueued then ShopBegin else WalletBegin;
    }
  }

  function ShopMove(s: System): Action
    requires !s.shopPc.Idle?
  {
    match s.shopPc
    case Began(_) => if Enabled(s, ShopHand) then ShopHand else ShopFail
    case Handed(_) => ShopLook(false)
    case Looked(_, _, _) => if Enabled(s, ShopDeploy) then ShopDeploy else ShopFail
    case Deployed => ShopEnd
  }

  /** From every reachable state: whatever the order in which events are delivered and
      reconciles take their steps, a run of the system left alone is no longer than a
      bound known at its start plus six steps for each write conflict; and when it can go
      no further, the payment service has what it should, unless the last lookup had
      failed before and nothing has looked since. */
  lemma LeftAloneItComesToRest(s: System, acts: seq<Action>, t: System)
    requires Reachable(s) && DueRuns(s, acts, t)
    ensures |acts| <= Potential(s) + 6 * Conflicts(acts)
    ensures (forall a :: !Due(t, a)) ==>
              && AtRest(t) && t.shop.val.Some? && t.shop == s.shop
              && (t.payment.val == Some(Expected(t)) <==> !t.blind || Expected(t) == "")
  {
    ReachableOk(s);
    RunsAreBounded(s, acts, t);
    DueRunsAreRuns(s, acts, t);
    StuckIsRest(t);
    RunsAreReachable(s, acts, t);
    if AtRest(t) {
      CorrectAtRest(t);
    }
  }

  lemma {:induction false} DueRunsAreRuns(s: System, acts: seq<Action>, t: System)
    requires DueRuns(s, acts, t)
    ensures Runs(s, acts, t) && t.shop == s.shop
    decreases |acts|
  {
    if acts != [] {
      DueRunsAreRuns(Next(s, acts[0]), acts[1..], t);
    }
  }
}
