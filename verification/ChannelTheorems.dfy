/** What holds of the DiscordChannel controller over every run, with any number
    of overlapping reconciles, stale reads, lost replies and crashes. */
module ChannelTheorems {
  import opened Wrappers
  import opened DiscordApi
  import opened ChannelLifecycle
  import opened ChannelInvariant

  lemma {:induction false} LeadsSnoc(s: System, acts: seq<Action>, t: System, a: Action)
    requires Leads(s, acts, t) && Enabled(t, a)
    ensures Leads(s, acts + [a], Next(t, a))
    decreases |acts|
  {
    if acts == [] {
      assert Leads(Next(s, a), [], Next(t, a));
      assert ([a])[1..] == [];
    } else {
      LeadsSnoc(Next(s, acts[0]), acts[1..], t, a);
      assert (acts + [a])[1..] == acts[1..] + [a];
    }
  }

  lemma ReachableStep(s: System, a: Action)
    requires Reachable(s) && Enabled(s, a)
    ensures Reachable(Next(s, a))
  {
    var acts :| Leads(Initial(), acts, s);
    LeadsSnoc(Initial(), acts, s, a);
  }

  lemma {:induction false} HistoryExtends(s: System, acts: seq<Action>, t: System)
    requires Leads(s, acts, t)
    ensures s.w.history <= t.w.history
    decreases |acts|
  {
    if acts != [] {
      match acts[0] {
        case Call(run, reply) => RankDecreases(s.w, run, s.runs[run], reply);
        case _ =>
      }
      HistoryExtends(Next(s, acts[0]), acts[1..], t);
    }
  }

  lemma {:induction false} LeadsAppend(s: System, acts1: seq<Action>, t: System, acts2: seq<Action>, u: System)
    requires Leads(s, acts1, t) && Leads(t, acts2, u)
    ensures Leads(s, acts1 + acts2, u)
    decreases |acts1|
  {
    if acts1 == [] {
      assert acts1 + acts2 == acts2;
    } else {
      LeadsAppend(Next(s, acts1[0]), acts1[1..], t, acts2, u);
      assert (acts1 + acts2)[1..] == acts1[1..] + acts2;
    }
  }

  lemma ReachableLeads(s: System, acts: seq<Action>, t: System)
    requires Reachable(s) && Leads(s, acts, t)
    ensures Reachable(t)
  {
    var before :| Leads(Initial(), before, s);
    LeadsAppend(Initial(), before, s, acts, t);
  }

  /** The latest version grows along every run. */
  lemma LastGrows(s: System, acts: seq<Action>, t: System)
    requires Reachable(s) && Leads(s, acts, t)
    ensures Inv(s) && Inv(t) && Grows(Last(s.w), Last(t.w))
  {
    ReachableOk(s);
    LeadsKeeps(s, acts, t);
    HistoryExtends(s, acts, t);
    var i, j := |s.w.history| - 1, |t.w.history| - 1;
    assert t.w.history[i] == s.w.history[i];
    assert Grows(t.w.history[i], t.w.history[j]);
  }

  /** A stored channel or webhook id is never replaced or cleared, and deletion
      is never undone. */
  lemma IdentifiersAreWriteOnce(s: System, acts: seq<Action>, t: System)
    requires Reachable(s) && Leads(s, acts, t)
    ensures |s.w.history| > 0 && |t.w.history| > 0
    ensures Last(s.w).channelID != "" ==> Last(t.w).channelID == Last(s.w).channelID
    ensures Last(s.w).webhookID != "" ==> Last(t.w).webhookID == Last(s.w).webhookID
    ensures Last(s.w).deleting ==> Last(t.w).deleting
    ensures s.w.obj.None? ==> t.w.obj.None?
  {
    LastGrows(s, acts, t);
    if s.w.obj.None? {
      StaysRemoved(s, acts, t);
    }
  }

  lemma {:induction false} StaysRemoved(s: System, acts: seq<Action>, t: System)
    requires Leads(s, acts, t) && s.w.obj.None?
    ensures t.w.obj.None?
    decreases |acts|
  {
    if acts != [] {
      StaysRemoved(Next(s, acts[0]), acts[1..], t);
    }
  }

  /** Every version ever stored: a webhook id comes with a channel id and an
      existing Secret, and Ready=True comes with both ids. */
  lemma StoredVersionsAreOrdered(s: System, i: nat)
    requires Reachable(s) && i < |s.w.history|
    ensures s.w.history[i].webhookID != "" ==> s.w.history[i].channelID != "" && s.w.secret.Some?
    ensures s.w.history[i].ready.IsTrue? ==> s.w.history[i].channelID != "" && s.w.history[i].webhookID != ""
  {
    ReachableOk(s);
    assert VersionOk(s.w, s.w.history[i]);
  }

  /** The Secret exists before the step that first stores a webhook id. */
  lemma SecretComesFirst(s: System, a: Action)
    requires Reachable(s) && Enabled(s, a) && |s.w.history| > 0 && |Next(s, a).w.history| > 0
    requires Last(s.w).webhookID == "" && Last(Next(s, a).w).webhookID != ""
    ensures s.w.secret.Some? && Next(s, a).w.secret == s.w.secret
  {
    ReachableOk(s);
    match a
    case Call(run, reply) => CallIsOk(s, run, reply);
    case _ =>
  }

  // ---- Channel accounting ----

  function Kept(w: World): set<string>
    requires |w.history| > 0
  {
    if Last(w).channelID == "" then {} else {Last(w).channelID}
  }

  /** The channels whose ids are known only to a reconcile in flight. */
  ghost function Held(runs: map<nat, Run>): set<string>
  {
    set id | id in runs && runs[id].pc.SaveChannel? :: runs[id].copy.channelID
  }

  /** Every channel ever created is stored, held by an in-flight reconcile, or
      lost, and never two of these at once. */
  lemma ChannelAccounting(s: System)
    requires Reachable(s)
    ensures |s.w.history| > 0
    ensures s.w.created == Kept(s.w) + Held(s.runs) + s.w.lost
    ensures Kept(s.w) !! Held(s.runs) !! s.w.lost
    ensures |s.w.created| == |Kept(s.w)| + |Held(s.runs)| + |s.w.lost|
    ensures s.w.live <= s.w.created
  {
    ReachableOk(s);
    var kept, held, lost := Kept(s.w), Held(s.runs), s.w.lost;
    assert VersionOk(s.w, s.w.history[|s.w.history| - 1]);
    forall c | c in held
      ensures c in s.w.created && c !in lost && c !in kept
    {
      var id :| id in s.runs && s.runs[id].pc.SaveChannel? && s.runs[id].copy.channelID == c;
      assert RunOk(s.w, id, s.runs[id]);
    }
    forall c | c in s.w.created
      ensures c in kept + held + lost
    {
      if id :| id in s.runs && Holds(s.runs[id], c) {
        assert c in held;
      }
    }
    assert |kept + held| == |kept| + |held|;
    assert |kept + held + lost| == |kept + held| + |lost|;
  }

  /** No two in-flight reconciles hold the same channel. */
  lemma HeldByOne(s: System, i: nat, j: nat)
    requires Reachable(s)
    requires i in s.runs && j in s.runs && s.runs[i].pc.SaveChannel? && s.runs[j].pc.SaveChannel?
    requires s.runs[i].copy.channelID == s.runs[j].copy.channelID
    ensures i == j
  {
    ReachableOk(s);
  }

  /** If nothing was lost and nothing is in flight, at most one channel was ever
      created, and it is the stored one. */
  lemma AtMostOneChannel(s: System)
    requires Reachable(s)
    requires s.w.lost == {} && Held(s.runs) == {}
    ensures |s.w.history| > 0 && s.w.created == Kept(s.w) && |s.w.created| <= 1
  {
    ChannelAccounting(s);
  }

  /** Exactly three things lose a channel: a crash before its id is stored, a
      status write that does not take effect, and a create whose reply is lost. */
  ghost predicate Loses(s: System, a: Action)
    requires Enabled(s, a)
  {
    match a
    case Crash(run) => s.runs[run].pc.SaveChannel?
    case Call(run, reply) =>
      var r := s.runs[run];
      || (r.pc.SaveChannel? && !Lands(s.w, r.copy, reply.fate))
      || (r.pc.CreateRemote? && reply.fate == LostReply)
    case _ => false
  }

  lemma LostExactlyWhen(s: System, a: Action)
    requires Reachable(s) && Enabled(s, a)
    ensures s.w.lost <= Next(s, a).w.lost
    ensures Next(s, a).w.lost != s.w.lost <==> Loses(s, a)
  {
    ReachableOk(s);
    match a
    case Crash(run) => CrashLoses(s.w, run, s.runs[run]);
    case Call(run, reply) => CallLoses(s.w, run, s.runs[run], reply);
    case _ =>
  }

  lemma CrashLoses(w: World, id: nat, r: Run)
    requires HistoryOk(w) && Bounded(w) && RunOk(w, id, r)
    ensures w.lost <= CrashWorld(w, r).lost
    ensures CrashWorld(w, r).lost != w.lost <==> r.pc.SaveChannel?
  {
  }

  lemma CallLoses(w: World, id: nat, r: Run, reply: Reply)
    requires HistoryOk(w) && Bounded(w) && RunOk(w, id, r) && Allowed(w, r, reply)
    ensures w.lost <= Advance(w, id, r, reply).w.lost
    ensures Advance(w, id, r, reply).w.lost != w.lost <==>
              || (r.pc.SaveChannel? && !Lands(w, r.copy, reply.fate))
              || (r.pc.CreateRemote? && reply.fate == LostReply)
  {
  }

  // ---- Deletion ----

  /** The step that removes the finalizer leaves no live stored channel, whatever
      snapshot the reconcile started from. */
  lemma FinalizerRemovalIsSafe(s: System, a: Action)
    requires Reachable(s) && Enabled(s, a)
    requires |s.w.history| > 0 && Last(s.w).finalizer
    ensures |Next(s, a).w.history| > 0
    ensures !Last(Next(s, a).w).finalizer ==>
              Last(s.w).deleting && (Last(s.w).channelID == "" || Last(s.w).channelID !in s.w.live)
  {
    ReachableOk(s);
    StepKeeps(s, a);
    if a.Call? {
      assert RunOk(s.w, a.run, s.runs[a.run]);
      OnlyCleanupReleases(s.w, a.run, s.runs[a.run], a.reply);
    }
  }

  lemma OnlyCleanupReleases(w: World, id: nat, r: Run, reply: Reply)
    requires HistoryOk(w) && RunOk(w, id, r) && Last(w).finalizer
    ensures |Advance(w, id, r, reply).w.history| > 0
    ensures !Last(Advance(w, id, r, reply).w).finalizer ==>
              Last(w).deleting && (Last(w).channelID == "" || Last(w).channelID !in w.live)
  {
  }

  /** Once the object is gone, a live channel can only be one that is still held
      by a reconcile or one that was lost. */
  lemma RemovedLeavesNoOrphan(s: System)
    requires Reachable(s) && s.w.obj.None?
    ensures s.w.live <= Held(s.runs) + s.w.lost
    ensures s.w.lost == {} && Held(s.runs) == {} ==> s.w.live == {}
  {
    ReachableOk(s);
    ChannelAccounting(s);
    assert VersionOk(s.w, s.w.history[|s.w.history| - 1]);
  }

  // ---- Ending ----

  /** Nothing is left to do on this version. */
  predicate NothingLeft(v: Channel)
  {
    if v.deleting then !v.finalizer else v.webhookID != ""
  }

  /** A reconcile that ends without an error and without asking to be called again has
      left nothing to do on the latest version, unless deletion was requested after
      the version that it worked on and has still to be handled. */
  lemma FinishedMeansNothingLeft(s: System, run: nat, reply: Reply)
    requires Reachable(s) && Enabled(s, Call(run, reply))
    requires Next(s, Call(run, reply)).runs[run].pc == Done(Finished)
    ensures var t, seen := Next(s, Call(run, reply)), s.runs[run].copy;
            && |t.w.history| > 0
            && (NothingLeft(Last(t.w)) <==> !(Last(t.w).deleting && Last(t.w).finalizer))
            && (!NothingLeft(Last(t.w)) ==> !seen.deleting && seen.rv < Last(t.w).rv)
  {
    ReachableOk(s);
    StepKeeps(s, Call(run, reply));
    var r := s.runs[run];
    assert RunOk(s.w, run, r);
    assert Grows(s.w.history[r.copy.rv], s.w.history[|s.w.history| - 1]);
    FinishesHow(s.w, run, r, reply);
  }

  /** The four ways to finish. */
  lemma FinishesHow(w: World, id: nat, r: Run, reply: Reply)
    requires HistoryOk(w) && RunOk(w, id, r) && !r.pc.Done?
    requires Advance(w, id, r, reply).run.pc == Done(Finished)
    ensures var w' := Advance(w, id, r, reply).w;
            && |w'.history| > 0
            && (|| (w' == w && r.copy == w.history[r.copy.rv] &&
                     (if r.copy.deleting then !r.copy.finalizer else r.copy.webhookID != ""))
                || (Last(w').deleting && !Last(w').finalizer)
                || (!Last(w').deleting && Last(w').webhookID != ""))
  {
  }

  // ---- The webhook Secret ----

  /** The Secret's URL always names a webhook made on the stored channel; once a
      webhook id is stored, the URL names that very webhook exactly when the
      reconcile that created the Secret is the one that created the webhook. */
  lemma SecretProvenance(s: System)
    requires Reachable(s) && s.w.secret.Some?
    ensures |s.w.history| > 0
    ensures var secret := s.w.secret.value;
            && secret.hook in s.w.hooks
            && secret.url == WebhookUrl(secret.hook, s.w.hooks[secret.hook].token)
            && s.w.hooks[secret.hook].channel == Last(s.w).channelID != ""
    ensures var secret, stored := s.w.secret.value, Last(s.w).webhookID;
            stored != "" ==>
              && stored in s.w.hooks
              && (secret.url == WebhookUrl(stored, s.w.hooks[stored].token) <==>
                  secret.maker == s.w.hooks[stored].maker)
  {
    ReachableOk(s);
    var secret, stored := s.w.secret.value, Last(s.w).webhookID;
    assert VersionOk(s.w, s.w.history[|s.w.history| - 1]);
    if stored != "" {
      WebhookUrlInjective(secret.hook, s.w.hooks[secret.hook].token, stored, s.w.hooks[stored].token);
    }
  }

  /** The reconcile that stores a webhook id is the one that created that webhook. */
  lemma StoredByItsMaker(s: System, run: nat, reply: Reply)
    requires Reachable(s) && Enabled(s, Call(run, reply))
    requires |Next(s, Call(run, reply)).w.history| > 0 && Last(s.w).webhookID == ""
    requires Last(Next(s, Call(run, reply)).w).webhookID != ""
    ensures var t := Next(s, Call(run, reply));
            Last(t.w).webhookID in t.w.hooks && t.w.hooks[Last(t.w).webhookID].maker == run
  {
    ReachableOk(s);
    CallIsOk(s, run, reply);
  }

  // ---- Ready ----

  /** Once the webhook id is stored, a Ready condition that is not True stays so. */
  lemma ReadyIsNotRestored(s: System, acts: seq<Action>, t: System)
    requires Reachable(s) && Leads(s, acts, t) && |s.w.history| > 0
    requires Last(s.w).webhookID != "" && !Last(s.w).ready.IsTrue?
    ensures |t.w.history| > 0 && !Last(t.w).ready.IsTrue?
  {
    LastGrows(s, acts, t);
  }

  /** The step that turns Ready off once the webhook id is stored: recording, on the
      latest version, that the bot token is missing. */
  predicate DropsReady(s: System, a: Action)
  {
    && |s.w.history| > 0 && Last(s.w).webhookID != ""
    && a.Call? && a.run in s.runs && s.runs[a.run].pc.MarkUnready?
    && Lands(s.w, s.runs[a.run].copy, a.reply.fate)
  }

  /** Nothing else turns it off, and the reason is always one of the token's two. */
  lemma ReadyDropsExactlyWhen(s: System, a: Action)
    requires Reachable(s) && Enabled(s, a)
    requires |s.w.history| > 0 && Last(s.w).webhookID != "" && Last(s.w).ready.IsTrue?
    ensures |Next(s, a).w.history| > 0
    ensures !Last(Next(s, a).w).ready.IsTrue? <==> DropsReady(s, a)
    ensures DropsReady(s, a) ==>
              var reason := s.runs[a.run].pc.reason;
              TokenReason(reason) && Last(Next(s, a).w).ready == IsFalse(reason)
  {
    ReachableOk(s);
    StepKeeps(s, a);
    if a.Call? {
      assert RunOk(s.w, a.run, s.runs[a.run]);
      CallDropsReady(s.w, a.run, s.runs[a.run], a.reply);
    }
  }

  lemma CallDropsReady(w: World, id: nat, r: Run, reply: Reply)
    requires HistoryOk(w) && RunOk(w, id, r) && Last(w).webhookID != "" && Last(w).ready.IsTrue?
    ensures var w' := Advance(w, id, r, reply).w;
            && |w'.history| > 0
            && (if r.pc.MarkUnready? && Lands(w, r.copy, reply.fate)
                then TokenReason(r.pc.reason) && Last(w').ready == IsFalse(r.pc.reason)
                else Last(w').ready.IsTrue?)
  {
  }

  /** The step that first stores the webhook id turns Ready on. */
  lemma StoringTurnsReadyOn(s: System, a: Action)
    requires Reachable(s) && Enabled(s, a) && |s.w.history| > 0 && Last(s.w).webhookID == ""
    ensures |Next(s, a).w.history| > 0
    ensures Last(Next(s, a).w).webhookID != "" ==> Last(Next(s, a).w).ready.IsTrue?
  {
    ReachableOk(s);
    StepKeeps(s, a);
    if a.Call? {
      assert RunOk(s.w, a.run, s.runs[a.run]);
      CallStoresReady(s.w, a.run, s.runs[a.run], a.reply);
    }
  }

  lemma CallStoresReady(w: World, id: nat, r: Run, reply: Reply)
    requires HistoryOk(w) && RunOk(w, id, r) && Last(w).webhookID == ""
    ensures var w' := Advance(w, id, r, reply).w;
            |w'.history| > 0 && (Last(w').webhookID != "" ==> Last(w').ready.IsTrue?)
  {
  }

  /** Was Ready turned off somewhere along these actions? */
  ghost predicate DropsAlong(s: System, acts: seq<Action>)
    decreases |acts|
  {
    acts != [] && Enabled(s, acts[0]) && (DropsReady(s, acts[0]) || DropsAlong(Next(s, acts[0]), acts[1..]))
  }

  lemma {:induction false} ReadyAlong(s: System, acts: seq<Action>, t: System)
    requires Reachable(s) && Leads(s, acts, t) && |s.w.history| > 0
    requires Last(s.w).webhookID == "" || Last(s.w).ready.IsTrue?
    ensures |t.w.history| > 0
    ensures Last(t.w).webhookID != "" ==> (Last(t.w).ready.IsTrue? <==> !DropsAlong(s, acts))
    decreases |acts|
  {
    if acts != [] {
      var a := acts[0];
      ReachableStep(s, a);
      if Last(s.w).webhookID == "" {
        StoringTurnsReadyOn(s, a);
        ReadyAlong(Next(s, a), acts[1..], t);
      } else {
        ReadyDropsExactlyWhen(s, a);
        IdentifierStays(s, a);
        if DropsReady(s, a) {
          ReachableStep(s, a);
          ReadyIsNotRestored(Next(s, a), acts[1..], t);
        } else {
          ReadyAlong(Next(s, a), acts[1..], t);
        }
      }
    }
  }

  lemma IdentifierStays(s: System, a: Action)
    requires Reachable(s) && Enabled(s, a) && |s.w.history| > 0 && Last(s.w).webhookID != ""
    ensures |Next(s, a).w.history| > 0 && Last(Next(s, a).w).webhookID != ""
  {
    assert Leads(Next(s, a), [], Next(s, a));
    assert [a][0] == a && [a][1..] == [];
    assert Leads(s, [a], Next(s, a));
    IdentifiersAreWriteOnce(s, [a], Next(s, a));
  }

  /** Over every run from the start: Ready=True comes with a stored webhook id, and a
      stored webhook id comes with Ready=True exactly when no reconcile recorded a
      missing token on a version that already had it. */
  lemma ReadyIffStoredUnlessDropped(acts: seq<Action>, t: System)
    requires Leads(Initial(), acts, t)
    ensures |t.w.history| > 0
    ensures Last(t.w).ready.IsTrue? <==> Last(t.w).webhookID != "" && !DropsAlong(Initial(), acts)
  {
    var s := Initial();
    assert Leads(s, [], s);
    ReadyAlong(s, acts, t);
    StoredVersionsAreOrdered(t, |t.w.history| - 1);
  }

  // ---- What the token read answered ----

  /** The answers that reconciles got when they asked for the token, added along a run. */
  ghost function Answers(s: System, acts: seq<Action>, known: map<nat, BotRead>): map<nat, BotRead>
    decreases |acts|
  {
    if acts == [] || !Enabled(s, acts[0]) then known
    else
      var a := acts[0];
      Answers(Next(s, a), acts[1..],
              if a.Call? && s.runs[a.run].pc.FetchToken? then known[a.run := a.reply.bot] else known)
  }

  /** Where a reconcile can be after this answer. */
  predicate Follows(pc: Pc, answer: BotRead)
  {
    match answer
    case NotFound => pc == MarkUnready(SecretNotFound) || pc == Done(Requeue(300))
    case NoKey => pc == MarkUnready(SecretMissingKey) || pc == Done(Requeue(300))
    case ReadError => pc == Done(Failed)
    case Token =>
      !pc.FetchToken? && !(pc.MarkUnready? && TokenReason(pc.reason)) && !(pc.Done? && pc.result.Requeue?)
  }

  ghost predicate AnswersOk(s: System, known: map<nat, BotRead>)
  {
    && (forall id | id in s.runs :: id < s.next)
    && (forall id | id in known :: id < s.next)
    && (forall id | id in s.runs && s.runs[id].pc.FetchToken? :: id !in known)
    && (forall id | id in s.runs && !s.runs[id].pc.FetchToken? :: id in known && Follows(s.runs[id].pc, known[id]))
  }

  lemma CallFollows(w: World, id: nat, r: Run, reply: Reply, answer: BotRead)
    requires |w.history| > 0 && !r.pc.Done?
    requires if r.pc.FetchToken? then answer == reply.bot else Follows(r.pc, answer)
    ensures Follows(Advance(w, id, r, reply).run.pc, answer)
  {
  }

  lemma {:induction false} AnswersAlong(s: System, acts: seq<Action>, t: System, known: map<nat, BotRead>)
    requires Leads(s, acts, t) && AnswersOk(s, known)
    ensures AnswersOk(t, Answers(s, acts, known))
    decreases |acts|
  {
    if acts != [] {
      var a := acts[0];
      var known' := if a.Call? && s.runs[a.run].pc.FetchToken? then known[a.run := a.reply.bot] else known;
      if a.Call? {
        CallFollows(s.w, a.run, s.runs[a.run], a.reply, known'[a.run]);
      }
      AnswersAlong(Next(s, a), acts[1..], t, known');
    }
  }

  /** In every run, where a reconcile has got to is what its token read answered: in
      particular it is recording a missing token, or has asked to be called again, exactly
      if there was none; and after any other failure it has ended with an error. */
  lemma TokenDecides(acts: seq<Action>, s: System, run: nat)
    requires Leads(Initial(), acts, s) && run in s.runs && !s.runs[run].pc.FetchToken?
    ensures run in Answers(Initial(), acts, map[])
    ensures Follows(s.runs[run].pc, Answers(Initial(), acts, map[])[run])
  {
    AnswersAlong(Initial(), acts, s, map[]);
  }

  /** Once the webhook id is stored, Ready drops only in a reconcile that was told that the
      token is missing, and the reason it leaves says in which way. */
  lemma ReadyDropsOnlyWithoutToken(acts: seq<Action>, s: System, a: Action)
    requires Leads(Initial(), acts, s) && Enabled(s, a)
    requires |s.w.history| > 0 && Last(s.w).webhookID != "" && Last(s.w).ready.IsTrue?
    requires |Next(s, a).w.history| > 0 && !Last(Next(s, a).w).ready.IsTrue?
    ensures a.Call? && a.run in Answers(Initial(), acts, map[])
    ensures var answer := Answers(Initial(), acts, map[])[a.run];
            || (answer == NotFound && Last(Next(s, a).w).ready == IsFalse(SecretNotFound))
            || (answer == NoKey && Last(Next(s, a).w).ready == IsFalse(SecretMissingKey))
  {
    ReadyDropsExactlyWhen(s, a);
    TokenDecides(acts, s, a.run);
  }

  // ---- Two runs that go wrong ----

  function Plain(id: string): Reply
  {
    Reply(Worked, id, "t", 200, Token)
  }

  /** The first reconcile of a new object, up to and including the create call. */
  lemma FirstCreate() returns (s: System)
    ensures Reachable(s)
    ensures s.next == 1 && s.runs.Keys == {0} && s.runs[0].pc.SaveChannel? && s.runs[0].copy.channelID == "c0"
    ensures |s.w.history| == 2 && s.w.obj == Some(Last(s.w)) && s.runs[0].copy == Last(s.w).(channelID := "c0")
    ensures Last(s.w) == Channel(1, true, false, false, "", "", Unset)
    ensures s.w.created == {"c0"} == s.w.live && s.w.lost == {} && s.w.secret.None? && s.w.hooks == map[]
  {
    var s0 := Initial();
    assert Leads(s0, [], s0);
    var a0 := Begin(0);
    ReachableStep(s0, a0);
    var s1 := Next(s0, a0);
    var a1 := Call(0, Plain("x"));
    ReachableStep(s1, a1);
    var s2 := Next(s1, a1);
    ReachableStep(s2, a1);
    var s3 := Next(s2, a1);
    var a3 := Call(0, Plain("c0"));
    ReachableStep(s3, a3);
    s := Next(s3, a3);
  }

  /** An unrelated edit between the create and the status write is enough to lose
      a channel without any crash or network error. */
  lemma EditLosesChannel() returns (s: System)
    ensures Reachable(s) && s.w.lost == {"c0"} && s.w.created == {"c0"}
    ensures |s.w.history| > 0 && Last(s.w).channelID == "" && Held(s.runs) == {}
  {
    var s0 := FirstCreate();
    ReachableStep(s0, Edit);
    var s1 := Next(s0, Edit);
    var a := Call(0, Plain("x"));
    ReachableStep(s1, a);
    s := Next(s1, a);
  }

  /** A crash after the Secret is written leaves the next reconcile with another
      webhook, and the Secret keeps naming the first one. */
  lemma SecretCanNameAnotherWebhook() returns (s: System)
    ensures Reachable(s) && |s.w.history| > 0 && s.w.secret.Some?
    ensures Last(s.w).webhookID in s.w.hooks && Last(s.w).ready == IsTrue
    ensures s.w.secret.value.url != WebhookUrl(Last(s.w).webhookID, s.w.hooks[Last(s.w).webhookID].token)
  {
    var s0 := FirstCreate();
    var ok := Call(0, Plain("x"));
    ReachableStep(s0, ok);
    var s1 := Next(s0, ok);
    var hook0 := Call(0, Plain("h0"));
    ReachableStep(s1, hook0);
    var s2 := Next(s1, hook0);
    ReachableStep(s2, ok);
    var s3 := Next(s2, ok);
    assert s3.w.secret.value.maker == 0;
    ReachableStep(s3, Crash(0));
    var s4 := Next(s3, Crash(0));
    s := SecondRun(s4);
    SecretProvenance(s);
  }

  lemma SecondRun(s4: System) returns (s: System)
    requires Reachable(s4) && s4.next == 1 && |s4.w.history| == 3 && s4.w.obj == Some(Last(s4.w))
    requires Last(s4.w) == Channel(2, true, false, false, "c0", "", Unset)
    requires s4.w.hooks.Keys == {"h0"} && s4.w.secret.Some? && s4.w.secret.value.maker == 0
    ensures Reachable(s) && |s.w.history| > 0 && s.w.secret == s4.w.secret
    ensures Last(s.w).webhookID == "h1" && "h1" in s.w.hooks && s.w.hooks["h1"].maker == 1
    ensures Last(s.w).ready == IsTrue
  {
    ReachableStep(s4, Begin(2));
    var s5 := Next(s4, Begin(2));
    var ok := Call(1, Plain("x"));
    ReachableStep(s5, ok);
    var s6 := Next(s5, ok);
    var hook1 := Call(1, Plain("h1"));
    ReachableStep(s6, hook1);
    var s7 := Next(s6, hook1);
    ReachableStep(s7, ok);
    var s8 := Next(s7, ok);
    ReachableStep(s8, ok);
    s := Next(s8, ok);
  }

  /** A reconcile that read the object just before its deletion was requested finishes
      while the finalizer and the live channel are still there. */
  lemma FinishedOnOldSnapshot() returns (s: System)
    ensures Reachable(s) && 1 in s.runs && s.runs[1].pc == Done(Finished)
    ensures |s.w.history| > 0 && Last(s.w).deleting && Last(s.w).finalizer && !NothingLeft(Last(s.w))
    ensures Last(s.w).channelID in s.w.live
  {
    var s0 := FirstCreate();
    var ok := Call(0, Plain("x"));
    ReachableStep(s0, ok);
    var s4 := FirstFinish(Next(s0, ok));
    s := DeletedMeanwhile(s4);
  }

  /** The rest of the first reconcile: webhook, Secret and status. */
  lemma FirstFinish(s1: System) returns (s4: System)
    requires Reachable(s1) && s1.next == 1 && |s1.w.history| > 0 && s1.w.obj == Some(Last(s1.w))
    requires 0 in s1.runs && s1.runs[0] == Run(CreateHook, Last(s1.w)) && s1.w.hooks == map[] && s1.w.secret.None?
    requires Last(s1.w).finalizer && !Last(s1.w).deleting && Last(s1.w).channelID in s1.w.live
    ensures Reachable(s4) && s4.next == 1 && |s4.w.history| > 0 && s4.w.obj == Some(Last(s4.w))
    ensures Last(s4.w).finalizer && !Last(s4.w).deleting && Last(s4.w).webhookID != ""
    ensures Last(s4.w).channelID in s4.w.live
  {
    var ok, hook := Call(0, Plain("x")), Call(0, Plain("h0"));
    ReachableStep(s1, hook);
    var s2 := Next(s1, hook);
    ReachableStep(s2, ok);
    var s3 := Next(s2, ok);
    ReachableStep(s3, ok);
    s4 := Next(s3, ok);
  }

  lemma DeletedMeanwhile(s4: System) returns (s: System)
    requires Reachable(s4) && s4.next == 1 && |s4.w.history| > 0 && s4.w.obj == Some(Last(s4.w))
    requires Last(s4.w).finalizer && !Last(s4.w).deleting && Last(s4.w).webhookID != ""
    requires Last(s4.w).channelID in s4.w.live
    ensures Reachable(s) && 1 in s.runs && s.runs[1].pc == Done(Finished)
    ensures |s.w.history| > 0 && Last(s.w).deleting && Last(s.w).finalizer && Last(s.w).channelID in s.w.live
  {
    var begin := Begin(|s4.w.history| - 1);
    ReachableStep(s4, begin);
    var s5 := Next(s4, begin);
    ReachableStep(s5, RequestDelete);
    var s6 := Next(s5, RequestDelete);
    var a := Call(1, Plain("x"));
    ReachableStep(s6, a);
    s := Next(s6, a);
  }
}
