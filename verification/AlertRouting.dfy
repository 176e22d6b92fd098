/** Two controllers on one DiscordChannel: the DiscordChannel controller writes the
    webhook Secret and then the status; the status write wakes the Shop controller,
    which routes the Shop's alerts to that Secret. */
module AlertRouting {
  import opened Wrappers
  import opened Names
  import opened Labels
  import C = ChannelLifecycle
  import T = ChannelTheorems
  import V = ChannelConvergence

  datatype ShopPc =
    | Idle
    | Began
    | Looked(found: bool, at: nat)

  /** The channel system, and the Shop controller's view of it. Its caches learn of the
      DiscordChannel's versions and of the Secret by separate events; only the former
      wake it. `seen` counts the versions that have arrived. `now` counts the steps so
      far; the three times are those of the last version's arrival, of the Secret's
      arrival, and of the lookup made by the last reconcile that completed. */
  datatype System = System(
    channel: C.System,
    seen: nat,
    queued: bool,
    pc: ShopPc,
    routing: Option<Route>,
    now: nat,
    versionAt: nat,
    secretAt: Option<nat>,
    lookAt: Option<nat>)

  datatype Action =
    | Channel(action: C.Action)
    | Deliver
    | DeliverSecret
    | Wake
    | Begin
    | Look
    | Write(shop: string)
    | Fail

  ghost predicate Enabled(s: System, a: Action)
  {
    match a
    case Channel(action) => C.Enabled(s.channel, action)
    case DeliverSecret => s.channel.w.secret.Some? && s.secretAt.None?
    case Begin => s.queued && s.pc.Idle?
    case Look => s.pc.Began?
    case Write(_) => s.pc.Looked?
    case Fail => !s.pc.Idle?
    case _ => true
  }

  ghost function Next(s: System, a: Action): System
    requires Enabled(s, a)
  {
    var t := s.(now := s.now + 1);
    match a
    case Channel(action) => t.(channel := C.Next(s.channel, action))
    case Deliver => t.(seen := |s.channel.w.history|, queued := true, versionAt := s.now)
    case DeliverSecret => t.(secretAt := Some(s.now))
    case Wake => t.(queued := true)
    case Begin => t.(queued := false, pc := Began)
    case Look => t.(pc := Looked(s.secretAt.Some?, s.now))
    case Write(shop) =>
      var done := t.(pc := Idle, lookAt := Some(s.pc.at));
      if s.pc.found then done.(routing := Some(RouteFor(shop))) else done
    case Fail => t.(pc := Idle, queued := true)
  }

  /** The runs of one Shop: it writes its own routing object only. */
  ghost predicate Leads(s: System, acts: seq<Action>, t: System, shop: string)
    decreases |acts|
  {
    if acts == [] then s == t
    else
      && Enabled(s, acts[0])
      && (acts[0].Write? ==> acts[0].shop == shop)
      && Leads(Next(s, acts[0]), acts[1..], t, shop)
  }

  function Initial(): System
  {
    System(C.Initial(), 0, false, Idle, None, 0, 0, None, None)
  }

  ghost predicate Reachable(s: System, shop: string)
  {
    exists acts :: Leads(Initial(), acts, s, shop)
  }

  /** Nothing in flight in either controller, nothing queued, nothing to deliver. */
  ghost predicate AtRest(s: System)
  {
    && !s.queued && s.pc.Idle? && V.AllDone(s.channel)
    && s.seen == |s.channel.w.history| && (s.secretAt.Some? <==> s.channel.w.secret.Some?)
  }

  ghost predicate WebhookStored(c: C.System)
  {
    |c.w.history| > 0 && C.Last(c.w).webhookID != ""
  }

  /** Was the Secret there by the time of this lookup? */
  predicate Before(secretAt: Option<nat>, lookAt: Option<nat>)
  {
    secretAt.Some? && lookAt.Some? && secretAt.value < lookAt.value
  }

  /** The times are in order, and the route is there if a completed lookup found the Secret. */
  ghost predicate TimesOk(s: System, shop: string)
  {
    && (s.secretAt.Some? ==> s.channel.w.secret.Some? && s.secretAt.value < s.now)
    && (s.pc.Looked? ==> s.pc.at < s.now && (s.pc.found <==> Before(s.secretAt, Some(s.pc.at))))
    && (s.pc.Looked? && s.lookAt.Some? ==> s.lookAt.value < s.pc.at)
    && (s.lookAt.Some? ==> s.lookAt.value < s.now)
    && s.routing == if Before(s.secretAt, s.lookAt) then Some(RouteFor(shop)) else None
  }

  /** After the latest version has arrived, a lookup is done, under way or queued. */
  ghost predicate LooksAfter(s: System)
  {
    && s.versionAt <= s.now && (s.seen > 0 ==> s.versionAt < s.now)
    && (!s.queued && s.seen > 0 ==>
          match s.pc
          case Idle => s.lookAt.Some? && s.versionAt < s.lookAt.value
          case Began => true
          case Looked(_, at) => s.versionAt < at)
  }

  ghost predicate Inv(s: System, shop: string)
  {
    C.Reachable(s.channel) && s.seen <= |s.channel.w.history| && TimesOk(s, shop) && LooksAfter(s)
  }

  /** The channel's history grows, and a Secret once written stays. */
  lemma ChannelGrows(c: C.System, action: C.Action)
    requires C.Reachable(c) && C.Enabled(c, action)
    ensures C.Reachable(C.Next(c, action))
    ensures c.w.history <= C.Next(c, action).w.history
    ensures c.w.secret.Some? ==> C.Next(c, action).w.secret.Some?
  {
    var t := C.Next(c, action);
    T.ReachableStep(c, action);
    assert C.Leads(t, [], t);
    assert [action][0] == action && [action][1..] == [];
    assert C.Leads(c, [action], t);
    T.HistoryExtends(c, [action], t);
  }

  lemma StepKeeps(s: System, a: Action, shop: string)
    requires Inv(s, shop) && Enabled(s, a) && (a.Write? ==> a.shop == shop)
    ensures Inv(Next(s, a), shop)
  {
    if a.Channel? {
      ChannelGrows(s.channel, a.action);
    }
  }

  lemma {:induction false} LeadsKeeps(s: System, acts: seq<Action>, t: System, shop: string)
    requires Inv(s, shop) && Leads(s, acts, t, shop)
    ensures Inv(t, shop)
    decreases |acts|
  {
    if acts != [] {
      StepKeeps(s, acts[0], shop);
      LeadsKeeps(Next(s, acts[0]), acts[1..], t, shop);
    }
  }

  lemma InitialOk(shop: string)
    ensures Inv(Initial(), shop)
  {
    assert C.Leads(C.Initial(), [], C.Initial());
  }

  lemma ReachableOk(s: System, shop: string)
    requires Reachable(s, shop)
    ensures Inv(s, shop)
  {
    var acts :| Leads(Initial(), acts, s, shop);
    InitialOk(shop);
    LeadsKeeps(Initial(), acts, s, shop);
  }

  /** At rest with a stored webhook id, the Shop's alerts are routed to the very Secret
      that the other controller created exactly when that Secret reached the cache before
      the last completed lookup. That lookup came after the last version's arrival, so it
      is enough that the Secret arrived before that version did. */
  lemma RoutedAtRest(s: System, shop: string)
    requires Reachable(s, shop) && AtRest(s) && WebhookStored(s.channel)
    ensures s.secretAt.Some? && s.lookAt.Some? && s.versionAt < s.lookAt.value
    ensures s.routing == Some(RouteFor(shop)) <==> s.secretAt.value < s.lookAt.value
    ensures s.secretAt.value < s.versionAt ==> s.routing == Some(RouteFor(shop))
    ensures s.routing.Some? ==>
              s.routing.value.secretName == WebhookSecretName(DiscordName(shop)) == NameOf(shop, WebhookSecret)
  {
    ReachableOk(s, shop);
    T.StoredVersionsAreOrdered(s.channel, |s.channel.w.history| - 1);
  }

  /** Do the caches learn of the Secret before they learn of any later version? */
  ghost predicate InOrder(s: System, acts: seq<Action>)
    decreases |acts|
  {
    acts != [] && Enabled(s, acts[0]) ==>
      && (acts[0].Deliver? && s.channel.w.secret.Some? ==> s.secretAt.Some?)
      && InOrder(Next(s, acts[0]), acts[1..])
  }

  /** The latest version arrived with a stored webhook id, so after the Secret. */
  ghost predicate ArrivedAfter(s: System)
  {
    s.seen == |s.channel.w.history| && WebhookStored(s.channel) ==>
      s.secretAt.Some? && s.secretAt.value < s.versionAt
  }

  lemma ArrivalKept(s: System, a: Action, shop: string)
    requires Inv(s, shop) && ArrivedAfter(s) && Enabled(s, a)
    requires a.Deliver? && s.channel.w.secret.Some? ==> s.secretAt.Some?
    ensures ArrivedAfter(Next(s, a))
  {
    if a.Channel? {
      ChannelGrows(s.channel, a.action);
      if |C.Next(s.channel, a.action).w.history| == |s.channel.w.history| {
        assert C.Next(s.channel, a.action).w.history == s.channel.w.history;
      }
    }
    if a.Deliver? && WebhookStored(s.channel) {
      T.StoredVersionsAreOrdered(s.channel, |s.channel.w.history| - 1);
    }
  }

  lemma {:induction false} ArrivalAlong(s: System, acts: seq<Action>, t: System, shop: string)
    requires Inv(s, shop) && ArrivedAfter(s) && Leads(s, acts, t, shop) && InOrder(s, acts)
    ensures ArrivedAfter(t)
    decreases |acts|
  {
    if acts != [] {
      ArrivalKept(s, acts[0], shop);
      StepKeeps(s, acts[0], shop);
      ArrivalAlong(Next(s, acts[0]), acts[1..], t, shop);
    }
  }

  /** If the caches learn of things in the order in which they happened, rest with a
      stored webhook id means that the alerts are routed. */
  lemma OrderedEventsRoute(acts: seq<Action>, t: System, shop: string)
    requires Leads(Initial(), acts, t, shop) && InOrder(Initial(), acts)
    requires AtRest(t) && WebhookStored(t.channel)
    ensures t.routing == Some(RouteFor(shop))
  {
    InitialOk(shop);
    ArrivalAlong(Initial(), acts, t, shop);
    RoutedAtRest(t, shop);
  }

  // ---- Progress ----

  /** Nothing but reconciles and deliveries. */
  predicate Undisturbed(a: Action)
  {
    match a
    case Channel(action) => action.Begin? || action.Call?
    case Wake => false
    case Fail => false
    case _ => true
  }

  ghost predicate Flows(s: System, t: System, shop: string)
  {
    exists acts :: Leads(s, acts, t, shop) && forall i | 0 <= i < |acts| :: Undisturbed(acts[i])
  }

  lemma {:induction false} LeadsAppend(s: System, acts1: seq<Action>, t: System, acts2: seq<Action>, u: System,
                                       shop: string)
    requires Leads(s, acts1, t, shop) && Leads(t, acts2, u, shop)
    ensures Leads(s, acts1 + acts2, u, shop)
    decreases |acts1|
  {
    if acts1 == [] {
      assert acts1 + acts2 == acts2;
    } else {
      LeadsAppend(Next(s, acts1[0]), acts1[1..], t, acts2, u, shop);
      assert (acts1 + acts2)[0] == acts1[0] && (acts1 + acts2)[1..] == acts1[1..] + acts2;
    }
  }

  lemma FlowsTrans(s: System, t: System, u: System, shop: string)
    requires Flows(s, t, shop) && Flows(t, u, shop)
    ensures Flows(s, u, shop)
  {
    var acts1 :| Leads(s, acts1, t, shop) && forall i | 0 <= i < |acts1| :: Undisturbed(acts1[i]);
    var acts2 :| Leads(t, acts2, u, shop) && forall i | 0 <= i < |acts2| :: Undisturbed(acts2[i]);
    LeadsAppend(s, acts1, t, acts2, u, shop);
    assert forall i | 0 <= i < |acts1 + acts2| :: Undisturbed((acts1 + acts2)[i]);
  }

  lemma LeadsOne(s: System, a: Action, shop: string)
    requires Enabled(s, a) && (a.Write? ==> a.shop == shop)
    ensures Leads(s, [a], Next(s, a), shop)
  {
    assert [a][0] == a && [a][1..] == [];
    assert Leads(Next(s, a), [], Next(s, a), shop);
  }

  /** One more step. */
  lemma Then(s: System, t: System, a: Action, shop: string) returns (u: System)
    requires Flows(s, t, shop) && Enabled(t, a) && Undisturbed(a) && (a.Write? ==> a.shop == shop)
    ensures u == Next(t, a) && Flows(s, u, shop)
  {
    u := Next(t, a);
    LeadsOne(t, a, shop);
    assert forall i | 0 <= i < |[a]| :: Undisturbed([a][i]);
    assert Flows(t, u, shop);
    FlowsTrans(s, t, u, shop);
  }

  ghost function Lifted(acts: seq<C.Action>): seq<Action>
  {
    seq(|acts|, i requires 0 <= i < |acts| => Channel(acts[i]))
  }

  /** A run of the DiscordChannel controller alone is a run of both. */
  lemma {:induction false} LiftedLeads(s: System, acts: seq<C.Action>, c: C.System, shop: string)
    requires C.Leads(s.channel, acts, c)
    ensures Leads(s, Lifted(acts), s.(channel := c, now := s.now + |acts|), shop)
    decreases |acts|
  {
    if acts == [] {
      assert s.(channel := c, now := s.now + |acts|) == s;
    } else {
      var s' := Next(s, Channel(acts[0]));
      LiftedLeads(s', acts[1..], c, shop);
      assert s'.(channel := c, now := s'.now + |acts[1..]|) == s.(channel := c, now := s.now + |acts|);
      assert Lifted(acts)[0] == Channel(acts[0]) && Lifted(acts)[1..] == Lifted(acts[1..]);
    }
  }

  /** A Shop reconcile that is under way ends. */
  lemma ReconcileEnds(s: System, shop: string) returns (t: System)
    ensures Flows(s, t, shop) && t.pc.Idle? && t.channel == s.channel && t.secretAt == s.secretAt
  {
    t := s;
    assert Leads(s, [], s, shop);
    assert Flows(s, s, shop);
    if t.pc.Began? {
      t := Then(s, t, Look, shop);
    }
    if t.pc.Looked? {
      t := Then(s, t, Write(shop), shop);
    }
  }

  lemma SecretArrives(s: System, shop: string) returns (t: System)
    requires s.channel.w.secret.Some?
    ensures Flows(s, t, shop) && t.secretAt.Some? && t.channel == s.channel && t.pc == s.pc
  {
    t := s;
    assert Leads(s, [], s, shop);
    assert Flows(s, s, shop);
    if s.secretAt.None? {
      t := Then(s, s, DeliverSecret, shop);
    }
  }

  lemma RouteOnce(s: System, shop: string) returns (t: System)
    requires s.pc.Idle? && s.channel.w.secret.Some? && s.secretAt.Some? && V.AllDone(s.channel)
    ensures Flows(s, t, shop) && AtRest(t) && t.channel == s.channel && t.routing == Some(RouteFor(shop))
  {
    assert Leads(s, [], s, shop);
    assert Flows(s, s, shop);
    var s1 := Then(s, s, Deliver, shop);
    var s2 := Then(s, s1, Begin, shop);
    var s3 := Then(s, s2, Look, shop);
    t := Then(s, s3, Write(shop), shop);
  }

  /** From every reachable state of an object that is not being deleted, both controllers,
      left alone, can come to rest with both ids stored and the alerts routed. `replies`
      stands for Discord's answers; they carry ids that it has not used. */
  lemma RouteIsReachable(s: System, shop: string, replies: nat -> C.Reply) returns (t: System)
    requires Reachable(s, shop)
    requires s.channel.w.obj.Some? && !s.channel.w.obj.value.deleting && V.AllClean(s.channel.w, replies)
    ensures Flows(s, t, shop) && AtRest(t) && WebhookStored(t.channel)
    ensures t.routing == Some(RouteFor(shop))
  {
    var s1 := ChannelSettles(s, shop, replies);
    var s2 := ReconcileEnds(s1, shop);
    FlowsTrans(s, s1, s2, shop);
    var s3 := SecretArrives(s2, shop);
    FlowsTrans(s, s2, s3, shop);
    t := RouteOnce(s3, shop);
    FlowsTrans(s, s3, t, shop);
  }

  lemma ChannelSettles(s: System, shop: string, replies: nat -> C.Reply) returns (t: System)
    requires Reachable(s, shop)
    requires s.channel.w.obj.Some? && !s.channel.w.obj.value.deleting && V.AllClean(s.channel.w, replies)
    ensures Flows(s, t, shop) && V.AllDone(t.channel) && WebhookStored(t.channel) && t.channel.w.secret.Some?
  {
    ReachableOk(s, shop);
    var c, acts := V.SettledIsReachable(s.channel, replies);
    T.ReachableLeads(s.channel, acts, c);
    T.StoredVersionsAreOrdered(c, |c.w.history| - 1);
    t := ChannelFlows(s, acts, c, shop);
  }

  lemma ChannelFlows(s: System, acts: seq<C.Action>, c: C.System, shop: string) returns (t: System)
    requires C.Leads(s.channel, acts, c) && V.CallsOnly(acts)
    ensures t == s.(channel := c, now := s.now + |acts|) && Flows(s, t, shop)
  {
    LiftedLeads(s, acts, c, shop);
    t := s.(channel := c, now := s.now + |acts|);
    assert forall i | 0 <= i < |Lifted(acts)| :: Undisturbed(Lifted(acts)[i]);
  }

  // ---- The exception is real ----

  lemma On(s: System, a: Action, shop: string) returns (t: System)
    requires Reachable(s, shop) && Enabled(s, a) && (a.Write? ==> a.shop == shop)
    ensures t == Next(s, a) && Reachable(t, shop)
  {
    var acts :| Leads(Initial(), acts, s, shop);
    LeadsOne(s, a, shop);
    t := Next(s, a);
    LeadsAppend(Initial(), acts, s, [a], t, shop);
  }

  /** For every run of the DiscordChannel controller that has come to rest with a stored
      webhook id there is one of both controllers that rests, with everything delivered and
      no route at all: the Secret's own event wakes nobody, so a reconcile that runs before
      the Secret reaches the cache is the last one. */
  lemma LateSecretLeavesAlertsUnrouted(c: C.System, shop: string) returns (s: System)
    requires C.Reachable(c) && WebhookStored(c) && V.AllDone(c)
    ensures Reachable(s, shop) && AtRest(s) && WebhookStored(s.channel)
    ensures s.channel == c && s.routing.None?
  {
    var acts :| C.Leads(C.Initial(), acts, c);
    T.StoredVersionsAreOrdered(c, |c.w.history| - 1);
    LiftedLeads(Initial(), acts, c, shop);
    var s0 := Initial().(channel := c, now := |acts|);
    assert Reachable(s0, shop);
    var s1 := On(s0, Deliver, shop);
    var s2 := On(s1, Begin, shop);
    var s3 := On(s2, Look, shop);
    var s4 := On(s3, Write(shop), shop);
    s := On(s4, DeliverSecret, shop);
  }

  /** There are such runs. */
  lemma LateSecretExample(shop: string) returns (s: System)
    ensures Reachable(s, shop) && AtRest(s) && WebhookStored(s.channel) && s.routing.None?
  {
    var c0 := C.Initial();
    assert C.Leads(c0, [], c0);
    var replies: nat -> C.Reply := (k: nat) => C.Reply(C.Worked, "id", "token", 200, C.Token);
    var c, acts := V.SettledIsReachable(c0, replies);
    T.ReachableLeads(c0, acts, c);
    s := LateSecretLeavesAlertsUnrouted(c, shop);
  }
}
