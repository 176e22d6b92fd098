/** What every step of the DiscordChannel controller keeps. */
module ChannelInvariant {
  import opened Wrappers
  import opened DiscordApi
  import opened ChannelLifecycle

  /** How a later version may differ from an earlier one. */
  ghost predicate Grows(a: Channel, b: Channel)
  {
    && (a.channelID != "" ==> b.channelID == a.channelID)
    && (a.webhookID != "" ==> b.webhookID == a.webhookID)
    && (a.deleting ==> b.deleting)
    && (a.finalizer && !b.finalizer ==> b.deleting)
    && (a.deleting && !a.finalizer ==> !b.finalizer)
    && (a.webhookID != "" && b.ready.IsTrue? ==> a.ready.IsTrue?)
  }

  /** What every stored version says about the world. */
  ghost predicate VersionOk(w: World, v: Channel)
  {
    && (v.channelID != "" ==> v.channelID in w.created)
    && (v.channelID != "" && !v.finalizer ==> v.deleting && v.channelID !in w.live)
    && (v.webhookID != "" ==>
         && v.channelID != "" && w.secret.Some?
         && v.webhookID in w.hooks && w.hooks[v.webhookID].channel == v.channelID)
    && (v.ready.IsTrue? ==> v.webhookID != "")
  }

  ghost predicate HistoryOk(w: World)
  {
    && |w.history| > 0
    && (forall i | 0 <= i < |w.history| :: w.history[i].rv == i)
    && (forall i {:trigger VersionOk(w, w.history[i])} | 0 <= i < |w.history| :: VersionOk(w, w.history[i]))
    && (forall i, j {:trigger Grows(w.history[i], w.history[j])} | 0 <= i <= j < |w.history| ::
         Grows(w.history[i], w.history[j]))
    && (w.obj.Some? ==> w.obj.value == Last(w))
    && (w.obj.None? ==> Last(w).deleting && !Last(w).finalizer)
  }

  ghost predicate SecretOk(w: World)
    requires |w.history| > 0
  {
    && (forall h | h in w.hooks :: '/' !in h)
    && (forall g, h | g in w.hooks && h in w.hooks && w.hooks[g].maker == w.hooks[h].maker :: g == h)
    && (w.secret.Some? ==>
         var s := w.secret.value;
         && s.hook in w.hooks
         && s.url == WebhookUrl(s.hook, w.hooks[s.hook].token)
         && w.hooks[s.hook].maker == s.maker
         && w.hooks[s.hook].channel == Last(w).channelID
         && Last(w).channelID != "")
  }

  ghost predicate Holds(r: Run, c: string)
  {
    r.pc.SaveChannel? && r.copy.channelID == c
  }

  /** Which reconcile still has no webhook of its own. */
  predicate Hookless(pc: Pc)
  {
    pc.FetchToken? || pc.AddFinalizer? || pc.CreateRemote? || pc.SaveChannel? || pc.CreateHook?
  }

  ghost predicate Building(copy: Channel)
  {
    !copy.deleting && copy.finalizer && copy.webhookID == ""
  }

  /** The two reasons that have to do with the bot token. */
  predicate TokenReason(reason: Reason)
  {
    reason == SecretNotFound || reason == SecretMissingKey
  }

  /** What an in-flight reconcile knows, call by call. */
  ghost predicate RunOk(w: World, id: nat, r: Run)
    requires |w.history| > 0
  {
    && r.copy.rv < |w.history|
    && (Hookless(r.pc) ==> forall h | h in w.hooks :: w.hooks[h].maker != id)
    && Knows(w, id, r.pc, r.copy, w.history[r.copy.rv])
  }

  ghost predicate Knows(w: World, id: nat, pc: Pc, copy: Channel, base: Channel)
    requires |w.history| > 0
  {
    && (!pc.Done? && !pc.SaveChannel? ==> copy == base)
    && (pc.DeleteRemote? || pc.DropFinalizer? ==> base.deleting && base.finalizer)
    && (pc.DropFinalizer? && base.channelID != "" ==> base.channelID !in w.live)
    && (pc.AddFinalizer? ==> !base.deleting && !base.finalizer)
    && (pc.MarkUnready? && !TokenReason(pc.reason) ==> Building(base))
    && (pc.CreateRemote? ==> Building(base) && base.channelID == "")
    && (pc.SaveChannel? ==>
         && copy == base.(channelID := copy.channelID)
         && Building(base) && base.channelID == ""
         && copy.channelID != "" && copy.channelID in w.created
         && copy.channelID !in w.lost && copy.channelID != Last(w).channelID)
    && (pc.CreateHook? || pc.WriteSecret? || pc.SaveWebhook? ==> Building(base) && base.channelID != "")
    && (pc.WriteSecret? || pc.SaveWebhook? ==>
         && pc.hook != "" && pc.hook in w.hooks
         && w.hooks[pc.hook].channel == base.channelID && w.hooks[pc.hook].maker == id)
    && (pc.WriteSecret? ==> w.hooks[pc.hook].token == pc.token)
    && (pc.SaveWebhook? ==> w.secret.Some?)
  }

  ghost predicate Bounded(w: World)
    requires |w.history| > 0
  {
    && "" !in w.created && "" !in w.lost
    && w.lost <= w.created && w.live <= w.created
    && Last(w).channelID !in w.lost
  }

  /** Every channel ever created is accounted for. */
  ghost predicate Accounted(w: World, runs: map<nat, Run>)
    requires |w.history| > 0
  {
    && Bounded(w)
    && (forall c | c in w.created ::
         c == Last(w).channelID || c in w.lost || exists id | id in runs :: Holds(runs[id], c))
    && (forall i, j | i in runs && j in runs && i != j && runs[i].pc.SaveChannel? && runs[j].pc.SaveChannel? ::
         runs[i].copy.channelID != runs[j].copy.channelID)
  }

  ghost predicate Inv(s: System)
  {
    && HistoryOk(s.w)
    && SecretOk(s.w)
    && (forall h | h in s.w.hooks :: s.w.hooks[h].maker < s.next)
    && (forall id | id in s.runs :: id < s.next && RunOk(s.w, id, s.runs[id]))
    && Accounted(s.w, s.runs)
  }

  /** How the world may move while one reconcile makes a call. */
  ghost predicate Evolves(w: World, w': World)
  {
    && w.history <= w'.history
    && w.created <= w'.created
    && (forall c | c in w.created && c in w'.live :: c in w.live)
    && (forall h | h in w.hooks :: h in w'.hooks && w'.hooks[h] == w.hooks[h])
    && (w.secret.Some? ==> w'.secret == w.secret)
  }

  lemma VersionKept(w: World, w': World, v: Channel)
    requires VersionOk(w, v) && Evolves(w, w')
    ensures VersionOk(w', v)
  {
  }

  /** Nothing stored changes: the old versions stay as good as they were. */
  lemma HistoryKept(w: World, w': World)
    requires HistoryOk(w) && Evolves(w, w') && w'.history == w.history && w'.obj == w.obj
    ensures HistoryOk(w')
  {
    forall i | 0 <= i < |w.history|
      ensures VersionOk(w', w'.history[i])
    {
      VersionKept(w, w', w.history[i]);
    }
    forall i, j | 0 <= i <= j < |w.history|
      ensures Grows(w'.history[i], w'.history[j])
    {
      assert Grows(w.history[i], w.history[j]);
    }
  }

  lemma RunKept(w: World, w': World, id: nat, r: Run)
    requires |w.history| > 0 && Evolves(w, w') && RunOk(w, id, r) && HistoryOk(w)
    requires r.pc.SaveChannel? ==>
              r.copy.channelID !in w'.lost && r.copy.channelID != w'.history[|w'.history| - 1].channelID
    requires forall h | h in w'.hooks && h !in w.hooks :: w'.hooks[h].maker != id
    ensures RunOk(w', id, r)
  {
    var i := r.copy.rv;
    assert w'.history[i] == w.history[i];
    assert VersionOk(w, w.history[i]);
  }

  /** A new version may be appended when it grows out of the latest one. */
  lemma Appended(w: World, next: Channel)
    requires HistoryOk(w) && w.obj.Some?
    requires VersionOk(w, next) && Grows(Last(w), next)
    ensures Evolves(w, Touch(w, next))
    ensures HistoryOk(Touch(w, next))
    ensures Last(Touch(w, next)) == next.(rv := |w.history|)
  {
    var w' := Touch(w, next);
    var v := next.(rv := |w.history|);
    assert VersionOk(w', v);
    forall i | 0 <= i < |w.history|
      ensures VersionOk(w', w'.history[i])
    {
      VersionKept(w, w', w.history[i]);
    }
    forall i, j | 0 <= i <= j < |w'.history|
      ensures Grows(w'.history[i], w'.history[j])
    {
      if j < |w.history| {
        assert Grows(w.history[i], w.history[j]);
      } else if i < |w.history| {
        assert Grows(w.history[i], w.history[|w.history| - 1]);
      }
    }
  }

  lemma Stored(w: World, next: Channel)
    requires HistoryOk(w) && w.obj.Some?
    requires VersionOk(w, next) && Grows(Last(w), next)
    requires next.rv == Last(w).rv
    ensures Evolves(w, Store(w, next))
    ensures HistoryOk(Store(w, next))
    ensures Last(Store(w, next)) == next.(rv := Last(Store(w, next)).rv)
  {
    if w.obj != Some(next) {
      Appended(w, next);
    }
  }

  /** A write that lands was based on the latest version. */
  lemma LandsOnLast(w: World, copy: Channel, fate: Fate)
    requires HistoryOk(w) && Lands(w, copy, fate)
    ensures copy.rv == |w.history| - 1 && w.history[copy.rv] == Last(w) == w.obj.value
    ensures VersionOk(w, Last(w))
  {
  }

  lemma WorldChangeKeeps(s: System, w': World)
    requires Inv(s)
    requires Evolves(s.w, w') && HistoryOk(w')
    requires w'.hooks == s.w.hooks && w'.secret == s.w.secret && w'.lost == s.w.lost && w'.created == s.w.created
    requires w'.live <= s.w.live
    requires Last(w').channelID == Last(s.w).channelID
    ensures Inv(s.(w := w'))
  {
    forall id | id in s.runs
      ensures RunOk(w', id, s.runs[id])
    {
      RunKept(s.w, w', id, s.runs[id]);
    }
  }

  lemma EnvironmentKeeps(s: System, a: Action)
    requires Inv(s) && Enabled(s, a)
    requires a.RequestDelete? || a.Edit? || a.ToggleForeign? || a.RemoveRemotely?
    ensures Inv(Next(s, a))
  {
    var w' := Next(s, a).w;
    if a.RemoveRemotely? {
      HistoryKept(s.w, w');
    } else {
      var v := s.w.obj.value;
      assert v == Last(s.w) && VersionOk(s.w, v);
      var next := match a
        case RequestDelete => v.(deleting := true)
        case Edit => v
        case _ => v.(foreign := !v.foreign);
      Appended(s.w, next);
    }
    WorldChangeKeeps(s, w');
  }

  lemma BeginKeeps(s: System, version: nat)
    requires Inv(s) && Enabled(s, Begin(version))
    ensures Inv(Next(s, Begin(version)))
  {
    var t := Next(s, Begin(version));
    assert RunOk(t.w, s.next, t.runs[s.next]);
    forall c | c in t.w.created
      ensures c == Last(t.w).channelID || c in t.w.lost || exists id | id in t.runs :: Holds(t.runs[id], c)
    {
      if id :| id in s.runs && Holds(s.runs[id], c) {
        assert Holds(t.runs[id], c);
      }
    }
  }

  lemma CrashKeepsAccounts(s: System, run: nat)
    requires Inv(s) && Enabled(s, Crash(run))
    ensures Accounted(Next(s, Crash(run)).w, Next(s, Crash(run)).runs)
  {
    var t := Next(s, Crash(run));
    assert RunOk(s.w, run, s.runs[run]);
    forall c | c in t.w.created
      ensures c == Last(t.w).channelID || c in t.w.lost || exists id | id in t.runs :: Holds(t.runs[id], c)
    {
      if id :| id in s.runs && Holds(s.runs[id], c) {
        if id != run {
          assert Holds(t.runs[id], c);
        }
      }
    }
  }

  lemma CrashKeeps(s: System, run: nat)
    requires Inv(s) && Enabled(s, Crash(run))
    ensures Inv(Next(s, Crash(run)))
  {
    var t := Next(s, Crash(run));
    HistoryKept(s.w, t.w);
    forall id | id in t.runs
      ensures RunOk(t.w, id, t.runs[id])
    {
      RunKept(s.w, t.w, id, s.runs[id]);
    }
    CrashKeepsAccounts(s, run);
  }

  /** What one call does to the world and to the reconcile that made it. */
  ghost predicate CallOk(w: World, id: nat, r: Run, o: Outcome)
    requires |w.history| > 0
  {
    var w' := o.w;
    && Evolves(w, w') && HistoryOk(w') && SecretOk(w') && RunOk(w', id, o.run)
    && (forall h | h in w'.hooks && h !in w.hooks :: w'.hooks[h].maker == id)
    && Moves(w, r, o)
    && HookMoves(w, id, r, w')
  }

  /** Only the last call of a reconcile stores a webhook id, and only its own. */
  ghost predicate HookMoves(w: World, id: nat, r: Run, w': World)
    requires |w.history| > 0
  {
    && |w'.history| > 0
    && (Last(w').webhookID != Last(w).webhookID ==>
         && r.pc.SaveWebhook? && w.secret.Some? && w'.secret == w.secret
         && Last(w').webhookID in w'.hooks && w'.hooks[Last(w').webhookID].maker == id)
  }

  /** How channel ids change hands in one call. */
  ghost predicate Moves(w: World, r: Run, o: Outcome)
    requires |w.history| > 0
  {
    var w' := o.w;
    && |w'.history| > 0
    && Bounded(w')
    // a channel id only moves from "new" to "held" to "stored" or "lost"
    && (forall c | c in w'.created && c !in w.created :: Holds(o.run, c) || c in w'.lost)
    && (o.run.pc.SaveChannel? ==> o.run.copy.channelID !in w.created)
    && (forall c | c in w'.lost && c in w.created :: c in w.lost || Holds(r, c))
    && w.lost <= w'.lost
    && (Last(w').channelID == Last(w).channelID || (Last(w).channelID == "" && Holds(r, Last(w').channelID)))
    && (r.pc.SaveChannel? ==> r.copy.channelID == Last(w').channelID || r.copy.channelID in w'.lost)
  }

  /** All that a call needs to know: the world's own invariants and its reconcile's. */
  ghost predicate Callable(w: World, id: nat, r: Run)
  {
    HistoryOk(w) && SecretOk(w) && Bounded(w) && RunOk(w, id, r)
  }

  lemma SameWorldCall(w: World, id: nat, r: Run, o: Outcome)
    requires Callable(w, id, r) && !r.pc.SaveChannel?
    requires o.w == w && RunOk(w, id, o.run) && !o.run.pc.SaveChannel?
    ensures CallOk(w, id, r, o)
  {
  }

  lemma FetchTokenCall(w: World, id: nat, r: Run, reply: Reply)
    requires Callable(w, id, r) && r.pc.FetchToken?
    ensures CallOk(w, id, r, Advance(w, id, r, reply))
  {
    var o := Advance(w, id, r, reply);
    assert VersionOk(w, w.history[r.copy.rv]);
    assert RunOk(w, id, o.run);
    SameWorldCall(w, id, r, o);
  }

  lemma MarkUnreadyCall(w: World, id: nat, r: Run, reply: Reply)
    requires Callable(w, id, r) && r.pc.MarkUnready?
    ensures CallOk(w, id, r, Advance(w, id, r, reply))
  {
    if Lands(w, r.copy, reply.fate) {
      LandsOnLast(w, r.copy, reply.fate);
      Stored(w, r.copy.(ready := IsFalse(r.pc.reason)));
    }
  }

  lemma DeleteRemoteCall(w: World, id: nat, r: Run, reply: Reply)
    requires Callable(w, id, r) && r.pc.DeleteRemote? && Allowed(w, r, reply)
    ensures CallOk(w, id, r, Advance(w, id, r, reply))
  {
    var o := Advance(w, id, r, reply);
    HistoryKept(w, o.w);
  }

  lemma DropFinalizerCall(w: World, id: nat, r: Run, reply: Reply)
    requires Callable(w, id, r) && r.pc.DropFinalizer?
    ensures CallOk(w, id, r, Advance(w, id, r, reply))
  {
    if Lands(w, r.copy, reply.fate) {
      LandsOnLast(w, r.copy, reply.fate);
      Stored(w, r.copy.(finalizer := false));
    }
  }

  lemma AddFinalizerCall(w: World, id: nat, r: Run, reply: Reply)
    requires Callable(w, id, r) && r.pc.AddFinalizer?
    ensures CallOk(w, id, r, Advance(w, id, r, reply))
  {
    var o := Advance(w, id, r, reply);
    if Lands(w, r.copy, reply.fate) {
      LandsOnLast(w, r.copy, reply.fate);
      Stored(w, r.copy.(finalizer := true));
      assert VersionOk(o.w, Last(o.w));
      assert o.w.history[Last(o.w).rv] == Last(o.w);
    }
  }

  lemma CreateRemoteCall(w: World, id: nat, r: Run, reply: Reply)
    requires Callable(w, id, r) && r.pc.CreateRemote? && Allowed(w, r, reply)
    ensures CallOk(w, id, r, Advance(w, id, r, reply))
  {
    var o := Advance(w, id, r, reply);
    assert VersionOk(w, Last(w));
    HistoryKept(w, o.w);
  }

  lemma SaveChannelCall(w: World, id: nat, r: Run, reply: Reply)
    requires Callable(w, id, r) && r.pc.SaveChannel?
    ensures CallOk(w, id, r, Advance(w, id, r, reply))
  {
    var o := Advance(w, id, r, reply);
    if Lands(w, r.copy, reply.fate) {
      LandsOnLast(w, r.copy, reply.fate);
      Stored(w, r.copy);
      assert o.w.history[Last(o.w).rv] == Last(o.w);
    } else {
      HistoryKept(w, o.w);
    }
  }

  lemma CreateHookCall(w: World, id: nat, r: Run, reply: Reply)
    requires Callable(w, id, r) && r.pc.CreateHook? && Allowed(w, r, reply)
    ensures CallOk(w, id, r, Advance(w, id, r, reply))
  {
    var o := Advance(w, id, r, reply);
    HistoryKept(w, o.w);
  }

  lemma WriteSecretCall(w: World, id: nat, r: Run, reply: Reply)
    requires Callable(w, id, r) && r.pc.WriteSecret?
    ensures CallOk(w, id, r, Advance(w, id, r, reply))
  {
    var o := Advance(w, id, r, reply);
    assert Grows(w.history[r.copy.rv], Last(w));
    HistoryKept(w, o.w);
  }

  lemma SaveWebhookCall(w: World, id: nat, r: Run, reply: Reply)
    requires Callable(w, id, r) && r.pc.SaveWebhook?
    ensures CallOk(w, id, r, Advance(w, id, r, reply))
  {
    if Lands(w, r.copy, reply.fate) {
      LandsOnLast(w, r.copy, reply.fate);
      Stored(w, r.copy.(webhookID := r.pc.hook, ready := IsTrue));
    }
  }

  lemma CallIsOk(s: System, id: nat, reply: Reply)
    requires Inv(s) && Enabled(s, Call(id, reply))
    ensures CallOk(s.w, id, s.runs[id], Advance(s.w, id, s.runs[id], reply))
  {
    var w, r := s.w, s.runs[id];
    assert Callable(w, id, r);
    match r.pc
    case FetchToken => FetchTokenCall(w, id, r, reply);
    case MarkUnready(_) => MarkUnreadyCall(w, id, r, reply);
    case DeleteRemote => DeleteRemoteCall(w, id, r, reply);
    case DropFinalizer => DropFinalizerCall(w, id, r, reply);
    case AddFinalizer => AddFinalizerCall(w, id, r, reply);
    case CreateRemote => CreateRemoteCall(w, id, r, reply);
    case SaveChannel => SaveChannelCall(w, id, r, reply);
    case CreateHook => CreateHookCall(w, id, r, reply);
    case WriteSecret(_, _) => WriteSecretCall(w, id, r, reply);
    case SaveWebhook(_) => SaveWebhookCall(w, id, r, reply);
  }

  lemma CallKeepsAccounts(s: System, id: nat, o: Outcome)
    requires Inv(s) && id in s.runs && CallOk(s.w, id, s.runs[id], o)
    ensures Accounted(o.w, s.runs[id := o.run])
  {
    var runs' := s.runs[id := o.run];
    forall c | c in o.w.created
      ensures c == Last(o.w).channelID || c in o.w.lost || exists i | i in runs' :: Holds(runs'[i], c)
    {
      if c !in s.w.created {
        if Holds(o.run, c) { assert Holds(runs'[id], c); }
      } else if i :| i in s.runs && Holds(s.runs[i], c) {
        if i != id { assert Holds(runs'[i], c); }
      }
    }
    forall i, j | i in runs' && j in runs' && i != j && runs'[i].pc.SaveChannel? && runs'[j].pc.SaveChannel?
      ensures runs'[i].copy.channelID != runs'[j].copy.channelID
    {
      assert i != id ==> RunOk(s.w, i, s.runs[i]);
      assert j != id ==> RunOk(s.w, j, s.runs[j]);
    }
  }

  /** The other reconciles still know what they knew. */
  lemma CallKeepsOthers(s: System, id: nat, o: Outcome, j: nat)
    requires Inv(s) && id in s.runs && CallOk(s.w, id, s.runs[id], o) && j in s.runs && j != id
    ensures RunOk(o.w, j, s.runs[j])
  {
    assert RunOk(s.w, j, s.runs[j]);
    RunKept(s.w, o.w, j, s.runs[j]);
  }

  lemma CallKeeps(s: System, id: nat, reply: Reply)
    requires Inv(s) && Enabled(s, Call(id, reply))
    ensures Inv(Next(s, Call(id, reply)))
  {
    var o := Advance(s.w, id, s.runs[id], reply);
    var t := Next(s, Call(id, reply));
    assert CallOk(s.w, id, s.runs[id], o) by { CallIsOk(s, id, reply); }
    CallKeepsAll(s, id, o, t);
  }

  lemma CallKeepsAll(s: System, id: nat, o: Outcome, t: System)
    requires Inv(s) && id in s.runs && CallOk(s.w, id, s.runs[id], o)
    requires t == s.(w := o.w, runs := s.runs[id := o.run])
    ensures Inv(t)
  {
    forall j | j in t.runs
      ensures j < t.next && RunOk(t.w, j, t.runs[j])
    {
      if j != id { CallKeepsOthers(s, id, o, j); }
    }
    CallKeepsAccounts(s, id, o);
  }

  /** Every step of the system keeps the invariant. */
  lemma StepKeeps(s: System, a: Action)
    requires Inv(s) && Enabled(s, a)
    ensures Inv(Next(s, a))
  {
    match a
    case Begin(version) => BeginKeeps(s, version);
    case Call(run, reply) => CallKeeps(s, run, reply);
    case Crash(run) => CrashKeeps(s, run);
    case _ => EnvironmentKeeps(s, a);
  }

  lemma {:induction false} LeadsKeeps(s: System, acts: seq<Action>, t: System)
    requires Inv(s) && Leads(s, acts, t)
    ensures Inv(t)
    decreases |acts|
  {
    if acts != [] {
      StepKeeps(s, acts[0]);
      LeadsKeeps(Next(s, acts[0]), acts[1..], t);
    }
  }

  /** The invariant holds in every reachable state. */
  lemma ReachableOk(s: System)
    requires Reachable(s)
    ensures Inv(s)
  {
    var acts :| Leads(Initial(), acts, s);
    assert Grows(NEW_OBJECT, NEW_OBJECT);
    LeadsKeeps(Initial(), acts, s);
  }
}
