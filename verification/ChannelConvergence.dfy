/** Progress of the DiscordChannel controller: what one undisturbed reconcile
    achieves from any reachable state, and that it then stays achieved. */
module ChannelConvergence {
  import opened Wrappers
  import opened DiscordApi
  import opened ChannelLifecycle
  import opened ChannelInvariant
  import opened ChannelTheorems

  // ---- A whole reconcile is a run of the system ----

  /** Every reply used by the reconcile is one that Discord may give. */
  ghost predicate AllowedAlong(w: World, id: nat, r: Run, replies: nat -> Reply, k: nat)
    requires |w.history| > 0
    decreases Rank(r.pc)
  {
    r.pc.Done? ||
    (RankDecreases(w, id, r, replies(k));
     var o := Advance(w, id, r, replies(k));
     Allowed(w, r, replies(k)) && AllowedAlong(o.w, id, o.run, replies, k + 1))
  }

  /** The calls of one reconcile, as actions of the system. */
  ghost function Calls(w: World, id: nat, r: Run, replies: nat -> Reply, k: nat): seq<Action>
    requires |w.history| > 0
    decreases Rank(r.pc)
  {
    if r.pc.Done? then []
    else
      RankDecreases(w, id, r, replies(k));
      var o := Advance(w, id, r, replies(k));
      [Call(id, replies(k))] + Calls(o.w, id, o.run, replies, k + 1)
  }

  /** An undisturbed reconcile is one of the runs of the system, so everything
      proved of reachable states holds after it. */
  lemma {:induction false} ExecIsARun(s: System, id: nat, replies: nat -> Reply, k: nat)
    requires id in s.runs && |s.w.history| > 0
    requires AllowedAlong(s.w, id, s.runs[id], replies, k)
    ensures var o := Exec(s.w, id, s.runs[id], replies, k);
            Leads(s, Calls(s.w, id, s.runs[id], replies, k), s.(w := o.w, runs := s.runs[id := o.run]))
    decreases Rank(s.runs[id].pc)
  {
    var r := s.runs[id];
    if r.pc.Done? {
      assert s.runs[id := r] == s.runs;
    } else {
      RankDecreases(s.w, id, r, replies(k));
      var a := Call(id, replies(k));
      var t := Next(s, a);
      ExecIsARun(t, id, replies, k + 1);
      var o := Exec(s.w, id, r, replies, k);
      var rest := Calls(t.w, id, t.runs[id], replies, k + 1);
      assert Calls(s.w, id, r, replies, k) == [a] + rest;
      assert ([a] + rest)[1..] == rest;
      assert t.runs[id := o.run] == s.runs[id := o.run];
    }
  }

  lemma {:induction false} ExecEnds(w: World, id: nat, r: Run, replies: nat -> Reply, k: nat)
    requires |w.history| > 0
    ensures Exec(w, id, r, replies, k).run.pc.Done?
    ensures w.history <= Exec(w, id, r, replies, k).w.history
    decreases Rank(r.pc)
  {
    if !r.pc.Done? {
      RankDecreases(w, id, r, replies(k));
      var o := Advance(w, id, r, replies(k));
      ExecEnds(o.w, id, o.run, replies, k + 1);
    }
  }

  // ---- Convergence ----

  /** What is still missing on a DiscordChannel. */
  function Missing(v: Channel): nat
  {
    (if v.finalizer then 0 else 1) + (if v.channelID == "" then 1 else 0) + (if v.webhookID == "" then 1 else 0)
  }

  lemma MissingNeverIncreases(s: System, acts: seq<Action>, t: System)
    requires Reachable(s) && Leads(s, acts, t)
    requires |s.w.history| > 0 && |t.w.history| > 0 && !Last(t.w).deleting
    ensures Missing(Last(t.w)) <= Missing(Last(s.w))
  {
    LastGrows(s, acts, t);
  }

  /** A reply without faults, with ids that Discord has not used before. */
  predicate Clean(w: World, reply: Reply)
  {
    && reply.fate == Worked && reply.bot == Token
    && reply.id != "" && '/' !in reply.id && reply.id !in w.created && reply.id !in w.hooks
  }

  ghost predicate AllClean(w: World, replies: nat -> Reply)
  {
    forall k :: Clean(w, replies(k))
  }

  function Fresh(w: World): Run
    requires |w.history| > 0
  {
    Run(FetchToken, Last(w))
  }

  /** What the channel looks like once nothing is missing. `was` is the version
      the reconcile started from. */
  ghost predicate Settled(w: World, w': World, id: nat, was: Channel)
    requires |w'.history| > 0
  {
    var now := Last(w');
    && w'.obj == Some(now)
    && now.finalizer && !now.deleting && now.channelID != "" && now.webhookID != ""
    && w'.lost == w.lost
    && (was.channelID != "" ==> now.channelID == was.channelID && w'.created == w.created)
    && (was.channelID == "" ==>
         && w'.created == w.created + {now.channelID}
         && now.channelID !in w.created && now.channelID in w'.live)
    && (was.webhookID != "" ==> now.webhookID == was.webhookID && w'.hooks == w.hooks && now.ready == was.ready)
    && (was.webhookID == "" ==>
         && now.ready == IsTrue
         && now.webhookID !in w.hooks && now.webhookID in w'.hooks
         && w'.hooks[now.webhookID].channel == now.channelID && w'.hooks[now.webhookID].maker == id
         && (w.secret.None? ==> w'.secret == Some(
               WebhookSecret(WebhookUrl(now.webhookID, w'.hooks[now.webhookID].token), now.webhookID, id))))
    && (w.secret.Some? ==> w'.secret == w.secret)
  }

  /** The tail of a clean reconcile, from the webhook call on. */
  lemma CleanWebhook(w: World, id: nat, r: Run, replies: nat -> Reply, k: nat)
    requires HistoryOk(w) && w.obj == Some(r.copy) && r.pc == CreateHook
    requires r.copy.finalizer && !r.copy.deleting && r.copy.channelID != "" && r.copy.webhookID == ""
    requires forall j | k <= j ::
               replies(j).fate == Worked && replies(j).id != "" && '/' !in replies(j).id && replies(j).id !in w.hooks
    ensures AllowedAlong(w, id, r, replies, k)
    ensures var o := Exec(w, id, r, replies, k);
            && o.run.pc == Done(Finished)
            && |o.w.history| > 0
            && o.w.created == w.created && o.w.live == w.live
            && Settled(w, o.w, id, r.copy)
  {
    WebhookAllowed(w, id, r, replies, k);
    WebhookRuns(w, id, r, replies, k);
  }

  lemma WebhookAllowed(w: World, id: nat, r: Run, replies: nat -> Reply, k: nat)
    requires |w.history| > 0 && r.pc == CreateHook
    requires forall j | k <= j ::
               replies(j).fate == Worked && replies(j).id != "" && '/' !in replies(j).id && replies(j).id !in w.hooks
    ensures AllowedAlong(w, id, r, replies, k)
  {
    var o1 := Advance(w, id, r, replies(k));
    PublishAllowed(o1.w, id, o1.run, replies, k + 1);
    AllowedStep(w, id, r, replies, k);
  }

  /** The calls after the webhook was created are always allowed. */
  lemma {:induction false} PublishAllowed(w: World, id: nat, r: Run, replies: nat -> Reply, k: nat)
    requires |w.history| > 0 && (r.pc.WriteSecret? || r.pc.SaveWebhook? || r.pc.Done?)
    ensures AllowedAlong(w, id, r, replies, k)
    decreases Rank(r.pc)
  {
    if !r.pc.Done? {
      RankDecreases(w, id, r, replies(k));
      var o := Advance(w, id, r, replies(k));
      PublishAllowed(o.w, id, o.run, replies, k + 1);
    }
  }

  lemma WebhookRuns(w: World, id: nat, r: Run, replies: nat -> Reply, k: nat)
    requires HistoryOk(w) && w.obj == Some(r.copy) && r.pc == CreateHook
    requires r.copy.finalizer && !r.copy.deleting && r.copy.channelID != "" && r.copy.webhookID == ""
    requires forall j | k <= j :: replies(j).fate == Worked && replies(j).id != "" && replies(j).id !in w.hooks
    ensures var o := Exec(w, id, r, replies, k);
            && o.run.pc == Done(Finished)
            && |o.w.history| > 0
            && o.w.created == w.created && o.w.live == w.live
            && Settled(w, o.w, id, r.copy)
  {
    var o1, o2, o3 := WebhookSettles(w, id, r, replies(k), replies(k + 1), replies(k + 2));
    ExecThree(w, id, r, replies, k, o1, o2, o3);
  }

  lemma ExecThree(w: World, id: nat, r: Run, replies: nat -> Reply, k: nat, o1: Outcome, o2: Outcome, o3: Outcome)
    requires |w.history| > 0 && !r.pc.Done? && o1 == Advance(w, id, r, replies(k))
    requires |o1.w.history| > 0 && !o1.run.pc.Done? && o2 == Advance(o1.w, id, o1.run, replies(k + 1))
    requires |o2.w.history| > 0 && !o2.run.pc.Done? && o3 == Advance(o2.w, id, o2.run, replies(k + 2))
    requires |o3.w.history| > 0 && o3.run.pc.Done?
    ensures Exec(w, id, r, replies, k) == o3
  {
    ExecStep(w, id, r, replies, k);
    ExecStep(o1.w, id, o1.run, replies, k + 1);
    ExecStep(o2.w, id, o2.run, replies, k + 2);
  }

  /** The three calls: create the webhook, write the Secret, store the id. */
  lemma WebhookSettles(w: World, id: nat, r: Run, first: Reply, second: Reply, third: Reply)
    returns (o1: Outcome, o2: Outcome, o3: Outcome)
    requires HistoryOk(w) && w.obj == Some(r.copy) && r.pc == CreateHook
    requires r.copy.finalizer && !r.copy.deleting && r.copy.channelID != "" && r.copy.webhookID == ""
    requires first.fate == Worked && first.id != "" && first.id !in w.hooks
    requires second.fate == Worked && third.fate == Worked
    ensures o1 == Advance(w, id, r, first) && |o1.w.history| > 0 && !o1.run.pc.Done?
    ensures o2 == Advance(o1.w, id, o1.run, second) && |o2.w.history| > 0 && !o2.run.pc.Done?
    ensures o3 == Advance(o2.w, id, o2.run, third) && o3.run.pc == Done(Finished) && |o3.w.history| > 0
    ensures o3.w.created == w.created && o3.w.live == w.live
    ensures Settled(w, o3.w, id, r.copy)
  {
    o1 := Advance(w, id, r, first);
    o2 := Advance(o1.w, id, o1.run, second);
    o3 := Advance(o2.w, id, o2.run, third);
  }

  /** A clean reconcile after the finalizer check. */
  lemma CleanBuild(w: World, id: nat, r: Run, replies: nat -> Reply, k: nat)
    requires HistoryOk(w) && w.obj == Some(r.copy) && r.pc == Proceed(r.copy)
    requires r.copy.finalizer && !r.copy.deleting
    requires r.copy.webhookID != "" ==> r.copy.channelID != ""
    requires forall j | k <= j :: Clean(w, replies(j))
    ensures AllowedAlong(w, id, r, replies, k)
    ensures var o := Exec(w, id, r, replies, k);
            && o.run.pc == Done(Finished)
            && |o.w.history| > 0
            && Settled(w, o.w, id, r.copy)
  {
    if r.copy.webhookID != "" {
    } else if r.copy.channelID != "" {
      CleanWebhook(w, id, r, replies, k);
    } else {
      CleanChannel(w, id, r, replies, k);
    }
  }

  lemma CleanChannel(w: World, id: nat, r: Run, replies: nat -> Reply, k: nat)
    requires HistoryOk(w) && w.obj == Some(r.copy) && r.pc == CreateRemote
    requires r.copy.finalizer && !r.copy.deleting && r.copy.webhookID == "" && r.copy.channelID == ""
    requires forall j | k <= j :: Clean(w, replies(j))
    ensures AllowedAlong(w, id, r, replies, k)
    ensures var o := Exec(w, id, r, replies, k);
            && o.run.pc == Done(Finished)
            && |o.w.history| > 0
            && Settled(w, o.w, id, r.copy)
  {
    assert Clean(w, replies(k)) && Clean(w, replies(k + 1));
    var o := CleanSave(w, id, r, replies, k);
    CleanFromSaved(w, id, r, o, replies, k);
  }

  lemma CleanFromSaved(w: World, id: nat, r: Run, o: Outcome, replies: nat -> Reply, k: nat)
    requires |w.history| > 0 && SavedFrom(w, o, r.copy, replies(k).id)
    requires r.copy.finalizer && !r.copy.deleting && r.copy.webhookID == "" && r.copy.channelID == ""
    requires Exec(w, id, r, replies, k) == Exec(o.w, id, o.run, replies, k + 2)
    requires AllowedAlong(o.w, id, o.run, replies, k + 2) ==> AllowedAlong(w, id, r, replies, k)
    requires forall j | k <= j :: Clean(w, replies(j))
    ensures AllowedAlong(w, id, r, replies, k)
    ensures var end := Exec(w, id, r, replies, k);
            && end.run.pc == Done(Finished)
            && |end.w.history| > 0
            && Settled(w, end.w, id, r.copy)
  {
    CleanAfterSave(w, id, r.copy, replies(k).id, o, replies, k + 2);
  }

  lemma AllowedStep(w: World, id: nat, r: Run, replies: nat -> Reply, k: nat)
    requires |w.history| > 0 && Allowed(w, r, replies(k))
    requires var o := Advance(w, id, r, replies(k)); |o.w.history| > 0 && AllowedAlong(o.w, id, o.run, replies, k + 1)
    ensures AllowedAlong(w, id, r, replies, k)
  {
  }

  /** A clean create and a clean save of the new channel's id. */
  lemma CleanSave(w: World, id: nat, r: Run, replies: nat -> Reply, k: nat) returns (o: Outcome)
    requires HistoryOk(w) && w.obj == Some(r.copy) && r.pc == CreateRemote
    requires r.copy.finalizer && !r.copy.deleting && r.copy.webhookID == "" && r.copy.channelID == ""
    requires Clean(w, replies(k)) && Clean(w, replies(k + 1))
    ensures SavedFrom(w, o, r.copy, replies(k).id)
    ensures Exec(w, id, r, replies, k) == Exec(o.w, id, o.run, replies, k + 2)
    ensures AllowedAlong(o.w, id, o.run, replies, k + 2) ==> AllowedAlong(w, id, r, replies, k)
  {
    var o1 := Advance(w, id, r, replies(k));
    o := Advance(o1.w, id, o1.run, replies(k + 1));
    SavedHistory(w, o1.w, o.w, o1.run.copy);
    ExecStep(w, id, r, replies, k);
    ExecStep(o1.w, id, o1.run, replies, k + 1);
    if AllowedAlong(o.w, id, o.run, replies, k + 2) {
      AllowedStep(o1.w, id, o1.run, replies, k + 1);
      AllowedStep(w, id, r, replies, k);
    }
  }

  /** The state right after a new channel's id has been stored. */
  ghost predicate SavedFrom(w: World, o: Outcome, was: Channel, channel: string)
  {
    && HistoryOk(o.w)
    && o.run.pc == CreateHook && o.w.obj == Some(o.run.copy)
    && o.run.copy == was.(rv := o.run.copy.rv, channelID := channel)
    && channel != "" && channel !in w.created
    && o.w.created == w.created + {channel} && channel in o.w.live
    && o.w.hooks == w.hooks && o.w.secret == w.secret && o.w.lost == w.lost
  }

  lemma CleanAfterSave(w: World, id: nat, was: Channel, channel: string, o: Outcome, replies: nat -> Reply, k: nat)
    requires SavedFrom(w, o, was, channel)
    requires was.finalizer && !was.deleting && was.webhookID == "" && was.channelID == ""
    requires forall j | k <= j :: Clean(w, replies(j))
    ensures AllowedAlong(o.w, id, o.run, replies, k)
    ensures var end := Exec(o.w, id, o.run, replies, k);
            && end.run.pc == Done(Finished)
            && |end.w.history| > 0
            && Settled(w, end.w, id, was)
  {
    CleanWebhook(o.w, id, o.run, replies, k);
  }

  lemma SavedHistory(w: World, w1: World, w2: World, next: Channel)
    requires HistoryOk(w) && w.obj.Some?
    requires w1 == w.(created := w.created + {next.channelID}, live := w.live + {next.channelID})
    requires next.channelID !in w.created && next.channelID != ""
    requires next == Last(w).(channelID := next.channelID) && Last(w).channelID == "" && next.finalizer
    requires w2 == Touch(w1, next)
    ensures HistoryOk(w2)
  {
    HistoryKept(w, w1);
    assert VersionOk(w, w.history[|w.history| - 1]);
    assert Grows(w.history[|w.history| - 1], w.history[|w.history| - 1]);
    Appended(w1, next);
  }

  /** From any state the faults of the past may have left behind, one clean
      reconcile that reads the latest version brings the channel to rest. */
  lemma CleanReconcileSettles(s: System, id: nat, replies: nat -> Reply)
    requires Reachable(s) && s.w.obj.Some? && !s.w.obj.value.deleting
    requires AllClean(s.w, replies)
    ensures |s.w.history| > 0
    ensures AllowedAlong(s.w, id, Fresh(s.w), replies, 0)
    ensures var o := Exec(s.w, id, Fresh(s.w), replies, 0);
            && o.run.pc == Done(Finished)
            && |o.w.history| > 0
            && Settled(s.w, o.w, id, Last(s.w))
            && Missing(Last(o.w)) == 0
  {
    ReachableOk(s);
    var w, r := s.w, Fresh(s.w);
    assert VersionOk(w, w.history[|w.history| - 1]);
    assert forall k :: Clean(w, replies(k));
    var o1 := Advance(w, id, r, replies(0));
    assert Exec(w, id, r, replies, 0) == Exec(o1.w, id, o1.run, replies, 1);
    if r.copy.finalizer {
      CleanBuild(w, id, o1.run, replies, 1);
    } else {
      var next := r.copy.(finalizer := true);
      assert Grows(r.copy, next) && VersionOk(w, next);
      Appended(w, next);
      var o2 := Advance(o1.w, id, o1.run, replies(1));
      assert Exec(o1.w, id, o1.run, replies, 1) == Exec(o2.w, id, o2.run, replies, 2);
      assert o2.w == Touch(w, next);
      CleanBuild(o2.w, id, o2.run, replies, 2);
      assert AllowedAlong(o1.w, id, o1.run, replies, 1);
    }
  }

  /** With the token present, a reconcile of a settled channel makes no Discord
      call and no write, whatever else the environment answers. */
  lemma SettledStaysQuiet(w: World, id: nat, replies: nat -> Reply)
    requires |w.history| > 0
    requires Last(w).finalizer && !Last(w).deleting && Last(w).webhookID != ""
    requires replies(0).bot == Token
    ensures Exec(w, id, Fresh(w), replies, 0) == Outcome(w, Fresh(w).(pc := Done(Finished)))
  {
    var o1 := Advance(w, id, Fresh(w), replies(0));
    assert Exec(w, id, Fresh(w), replies, 0) == Exec(o1.w, id, o1.run, replies, 1);
  }

  /** Any number of faulted reconciles and edits, then one clean reconcile, then
      silence: the combined statement. */
  lemma Converges(s: System, acts: seq<Action>, t: System, id: nat, clean: nat -> Reply, later: nat -> Reply)
    requires Reachable(s) && Leads(s, acts, t)
    requires t.w.obj.Some? && !t.w.obj.value.deleting && AllClean(t.w, clean)
    requires later(0).bot == Token
    ensures |t.w.history| > 0
    ensures var o := Exec(t.w, id, Fresh(t.w), clean, 0);
            && |o.w.history| > 0
            && Missing(Last(o.w)) == 0
            && forall next: nat :: Exec(o.w, next, Fresh(o.w), later, 0) ==
                Outcome(o.w, Fresh(o.w).(pc := Done(Finished)))
  {
    ReachableLeads(s, acts, t);
    CleanReconcileSettles(t, id, clean);
    var o := Exec(t.w, id, Fresh(t.w), clean, 0);
    forall next: nat
      ensures Exec(o.w, next, Fresh(o.w), later, 0) == Outcome(o.w, Fresh(o.w).(pc := Done(Finished)))
    {
      SettledStaysQuiet(o.w, next, later);
    }
  }

  // ---- Coming to rest ----

  ghost predicate AllDone(s: System)
  {
    forall id | id in s.runs :: s.runs[id].pc.Done?
  }

  /** Every call fails without effect. */
  function Refusing(): nat -> Reply
  {
    (k: nat) => Reply(Refused, "", "", 500, ReadError)
  }

  /** A reconcile whose calls all fail changes nothing but the record of what was lost. */
  lemma {:induction false} RefusedChangesNothing(w: World, id: nat, r: Run, k: nat)
    requires |w.history| > 0
    ensures AllowedAlong(w, id, r, Refusing(), k)
    ensures Exec(w, id, r, Refusing(), k).w == w.(lost := Exec(w, id, r, Refusing(), k).w.lost)
    decreases Rank(r.pc)
  {
    if !r.pc.Done? {
      RankDecreases(w, id, r, Refusing()(k));
      var o := Advance(w, id, r, Refusing()(k));
      RefusedStep(w, id, r, Refusing()(k));
      RefusedChangesNothing(o.w, id, o.run, k + 1);
    }
  }

  lemma RefusedStep(w: World, id: nat, r: Run, reply: Reply)
    requires |w.history| > 0 && reply == Refusing()(0)
    ensures Allowed(w, r, reply)
    ensures var w' := Advance(w, id, r, reply).w; w' == w.(lost := w'.lost)
  {
  }

  /** Whatever is in flight can end. */
  lemma RunsCanEnd(s: System) returns (t: System, acts: seq<Action>)
    requires |s.w.history| > 0
    ensures Leads(s, acts, t) && AllDone(t) && CallsOnly(acts)
    ensures t.next == s.next && t.runs.Keys == s.runs.Keys && t.w == s.w.(lost := t.w.lost)
    decreases |set id | id in s.runs && !s.runs[id].pc.Done?|
  {
    if id :| id in s.runs && !s.runs[id].pc.Done? {
      var o := Exec(s.w, id, s.runs[id], Refusing(), 0);
      RefusedChangesNothing(s.w, id, s.runs[id], 0);
      ExecIsARun(s, id, Refusing(), 0);
      ExecEnds(s.w, id, s.runs[id], Refusing(), 0);
      CallsAreCalls(s.w, id, s.runs[id], Refusing(), 0);
      var s1 := s.(w := o.w, runs := s.runs[id := o.run]);
      var pending := set j | j in s.runs && !s.runs[j].pc.Done?;
      assert (set j | j in s1.runs && !s1.runs[j].pc.Done?) == pending - {id};
      assert id in pending;
      var rest;
      t, rest := RunsCanEnd(s1);
      acts := Calls(s.w, id, s.runs[id], Refusing(), 0) + rest;
      LeadsAppend(s, Calls(s.w, id, s.runs[id], Refusing(), 0), s1, rest, t);
    } else {
      t, acts := s, [];
    }
  }

  /** Nothing happens but reconciles that begin and make calls. */
  ghost predicate CallsOnly(acts: seq<Action>)
  {
    forall i | 0 <= i < |acts| :: acts[i].Call? || acts[i].Begin?
  }

  lemma {:induction false} CallsAreCalls(w: World, id: nat, r: Run, replies: nat -> Reply, k: nat)
    requires |w.history| > 0
    ensures CallsOnly(Calls(w, id, r, replies, k))
    decreases Rank(r.pc)
  {
    if !r.pc.Done? {
      RankDecreases(w, id, r, replies(k));
      var o := Advance(w, id, r, replies(k));
      CallsAreCalls(o.w, id, o.run, replies, k + 1);
    }
  }

  /** From every reachable state of an object that is not being deleted, the controller
      can come to rest with both ids stored. */
  lemma SettledIsReachable(s: System, replies: nat -> Reply) returns (t: System, acts: seq<Action>)
    requires Reachable(s) && s.w.obj.Some? && !s.w.obj.value.deleting && AllClean(s.w, replies)
    ensures Leads(s, acts, t) && AllDone(t) && CallsOnly(acts)
    ensures |t.w.history| > 0 && t.w.obj == Some(Last(t.w)) && Missing(Last(t.w)) == 0
  {
    ReachableOk(s);
    var s1, acts1 := RunsCanEnd(s);
    ReachableLeads(s, acts1, s1);
    forall k
      ensures Clean(s1.w, replies(k))
    {
      assert Clean(s.w, replies(k));
    }
    var acts2;
    t, acts2 := CleanRun(s1, replies);
    acts := acts1 + acts2;
    LeadsAppend(s, acts1, s1, acts2, t);
  }

  lemma CleanRun(s: System, replies: nat -> Reply) returns (t: System, acts: seq<Action>)
    requires Reachable(s) && s.w.obj.Some? && !s.w.obj.value.deleting && AllClean(s.w, replies) && AllDone(s)
    ensures Leads(s, acts, t) && AllDone(t) && CallsOnly(acts)
    ensures |t.w.history| > 0 && t.w.obj == Some(Last(t.w)) && Missing(Last(t.w)) == 0
  {
    ReachableOk(s);
    var id, begin := s.next, Begin(|s.w.history| - 1);
    CleanReconcileSettles(s, id, replies);
    var s1 := Next(s, begin);
    assert s1.runs[id] == Fresh(s.w) && s1.w == s.w;
    ExecIsARun(s1, id, replies, 0);
    CallsAreCalls(s.w, id, Fresh(s.w), replies, 0);
    var o := Exec(s.w, id, Fresh(s.w), replies, 0);
    t := s1.(w := o.w, runs := s1.runs[id := o.run]);
    var calls := Calls(s.w, id, Fresh(s.w), replies, 0);
    acts := [begin] + calls;
    assert acts[0] == begin && acts[1..] == calls;
  }

  // ---- Deletion ----

  /** A reconcile that reads a deleted object still carrying the finalizer removes
      it exactly when there is no channel or Discord accepts the delete; 404 is
      accepted, so a retry after a lost reply goes through. */
  lemma DeletionRetry(s: System, id: nat, replies: nat -> Reply)
    requires Reachable(s) && s.w.obj.Some? && s.w.obj.value.deleting && s.w.obj.value.finalizer
    requires replies(0).bot == Token
    requires forall k | k >= 1 :: replies(k).fate == Worked
    requires replies(1).code == 404 ==> s.w.obj.value.channelID !in s.w.live
    ensures |s.w.history| > 0
    ensures var o := Exec(s.w, id, Fresh(s.w), replies, 0);
            var gone := Last(s.w).channelID == "" || DeleteAccepted(replies(1).code);
            && |o.w.history| > 0
            && (o.run.pc == Done(Finished) <==> gone)
            && (!Last(o.w).finalizer <==> gone)
            && (gone ==> Last(s.w).channelID !in o.w.live || Last(s.w).channelID == "")
            && (gone && !Last(s.w).foreign ==> o.w.obj.None?)
            && (!gone ==> o.w == s.w && o.run.pc == Done(Failed))
  {
    ReachableOk(s);
    var w, r := s.w, Fresh(s.w);
    var o1 := Advance(w, id, r, replies(0));
    var o2 := Advance(o1.w, id, o1.run, replies(1));
    assert Exec(w, id, r, replies, 0) == Exec(o1.w, id, o1.run, replies, 1);
    assert Exec(o1.w, id, o1.run, replies, 1) == Exec(o2.w, id, o2.run, replies, 2);
    if !o2.run.pc.Done? {
      var o3 := Advance(o2.w, id, o2.run, replies(2));
      assert Exec(o2.w, id, o2.run, replies, 2) == Exec(o3.w, id, o3.run, replies, 3);
    }
  }

  /** Did the first attempt delete the channel and then fail, one way or another? Either
      Discord's answer was lost, or the finalizer update was refused. */
  predicate DeletedButNotReleased(replies: nat -> Reply)
  {
    && replies(0).bot == Token
    && (|| (replies(1).fate == LostReply && !DeleteAccepted(replies(1).code))
        || (Deletes(replies(1).code) && replies(2).fate == Refused))
  }

  /** A reconcile that deletes the channel but fails to release the object changes
      nothing else, and the next one, which Discord answers with 404, releases it. */
  lemma RetryReleases(s: System, id1: nat, first: nat -> Reply, id2: nat, second: nat -> Reply)
    requires Reachable(s) && s.w.obj.Some? && s.w.obj.value.deleting && s.w.obj.value.finalizer
    requires s.w.obj.value.channelID != "" && DeletedButNotReleased(first)
    requires second(0).bot == Token && second(1).code == 404 && second(1).fate == Worked && second(2).fate == Worked
    ensures |s.w.history| > 0
    ensures var o1 := Exec(s.w, id1, Fresh(s.w), first, 0);
            && o1.run.pc == Done(Failed)
            && o1.w == s.w.(live := s.w.live - {Last(s.w).channelID})
            && var o2 := Exec(o1.w, id2, Fresh(o1.w), second, 0);
            && o2.run.pc == Done(Finished)
            && |o2.w.history| > 0
            && !Last(o2.w).finalizer && Last(o2.w).channelID == Last(s.w).channelID
            && Last(s.w).channelID !in o2.w.live
            && (!Last(s.w).foreign ==> o2.w.obj.None?)
  {
    ReachableOk(s);
    var w := s.w.(live := s.w.live - {Last(s.w).channelID});
    FailedRelease(s.w, id1, Fresh(s.w), first);
    var a := Advance(w, id2, Fresh(w), second(0));
    ExecStep(w, id2, Fresh(w), second, 0);
    var b := Advance(a.w, id2, a.run, second(1));
    ExecStep(a.w, id2, a.run, second, 1);
    ExecStep(b.w, id2, b.run, second, 2);
    assert b.w == w;
  }

  lemma FailedRelease(w: World, id: nat, r: Run, replies: nat -> Reply)
    requires |w.history| > 0 && r.pc == FetchToken
    requires r.copy.deleting && r.copy.finalizer && r.copy.channelID != "" && DeletedButNotReleased(replies)
    ensures Exec(w, id, r, replies, 0).w == w.(live := w.live - {r.copy.channelID})
    ensures Exec(w, id, r, replies, 0).run.pc == Done(Failed)
  {
    var a := Advance(w, id, r, replies(0));
    ExecStep(w, id, r, replies, 0);
    var b := Advance(a.w, id, a.run, replies(1));
    ExecStep(a.w, id, a.run, replies, 1);
    if !b.run.pc.Done? {
      ExecStep(b.w, id, b.run, replies, 2);
    }
  }

  // ---- The failing exits ----

  /** Nothing but the Ready condition of the latest version differs. */
  ghost predicate OnlyReadyChanged(w: World, w': World, ready: Ready)
    requires |w.history| > 0
  {
    && |w'.history| > 0
    && Last(w') == Last(w).(rv := Last(w').rv, ready := ready)
    && w' == w.(history := w'.history, obj := w'.obj)
  }

  /** Without a usable token nothing is asked of Discord; the reason is recorded and
      the reconcile is repeated five minutes later. */
  lemma MissingToken(s: System, id: nat, replies: nat -> Reply)
    requires Reachable(s) && s.w.obj.Some?
    requires replies(0).bot == NotFound || replies(0).bot == NoKey
    requires replies(1).fate == Worked
    ensures |s.w.history| > 0
    ensures var o := Exec(s.w, id, Fresh(s.w), replies, 0);
            && o.run.pc == Done(Requeue(300))
            && OnlyReadyChanged(s.w, o.w,
                IsFalse(if replies(0).bot == NotFound then SecretNotFound else SecretMissingKey))
  {
    ReachableOk(s);
    var o1 := Advance(s.w, id, Fresh(s.w), replies(0));
    ExecStep(s.w, id, Fresh(s.w), replies, 0);
    ExecStep(o1.w, id, o1.run, replies, 1);
  }

  /** A read of the token that fails for any other reason is returned as an error, and
      nothing is asked of Discord and nothing written. */
  lemma FailedTokenRead(w: World, id: nat, copy: Channel, replies: nat -> Reply)
    requires |w.history| > 0 && replies(0).bot == ReadError
    ensures Exec(w, id, Run(FetchToken, copy), replies, 0) == Outcome(w, Run(Done(Failed), copy))
  {
    ExecStep(w, id, Run(FetchToken, copy), replies, 0);
  }

  /** A refused create is recorded on the object and returned as an error, and no
      channel id is stored. */
  lemma RefusedChannel(s: System, id: nat, replies: nat -> Reply, k: nat)
    requires Reachable(s) && id in s.runs && s.runs[id].pc.CreateRemote? && s.w.obj == Some(s.runs[id].copy)
    requires replies(k).fate == Refused && replies(k + 1).fate == Worked
    ensures |s.w.history| > 0
    ensures var o := Exec(s.w, id, s.runs[id], replies, k);
            && o.run.pc == Done(Failed)
            && OnlyReadyChanged(s.w, o.w, IsFalse(ChannelCreationFailed))
            && Last(o.w).channelID == ""
  {
    ReachableOk(s);
    assert RunOk(s.w, id, s.runs[id]);
    var o1 := Advance(s.w, id, s.runs[id], replies(k));
    ExecStep(s.w, id, s.runs[id], replies, k);
    ExecStep(o1.w, id, o1.run, replies, k + 1);
  }

  /** The same for the webhook; the stored channel id is kept for the retry. */
  lemma RefusedWebhook(s: System, id: nat, replies: nat -> Reply, k: nat)
    requires Reachable(s) && id in s.runs && s.runs[id].pc.CreateHook? && s.w.obj == Some(s.runs[id].copy)
    requires replies(k).fate == Refused && replies(k + 1).fate == Worked
    ensures |s.w.history| > 0
    ensures var o := Exec(s.w, id, s.runs[id], replies, k);
            && o.run.pc == Done(Failed)
            && OnlyReadyChanged(s.w, o.w, IsFalse(WebhookCreationFailed))
            && Last(o.w).channelID != "" && Last(o.w).webhookID == ""
  {
    ReachableOk(s);
    assert RunOk(s.w, id, s.runs[id]);
    var o1 := Advance(s.w, id, s.runs[id], replies(k));
    ExecStep(s.w, id, s.runs[id], replies, k);
    ExecStep(o1.w, id, o1.run, replies, k + 1);
  }

  // ---- The Ready condition ----

  /** A reconcile that finds no usable token turns Ready off, and if the webhook
      id was already stored nothing ever turns it on again. */
  lemma MissingTokenIsPermanent(s: System, replies: nat -> Reply, acts: seq<Action>, t: System)
    requires Reachable(s) && s.w.obj.Some? && s.w.obj.value.webhookID != ""
    requires replies(0).bot == NotFound || replies(0).bot == NoKey
    requires replies(1).fate == Worked
    requires |s.w.history| > 0
    requires var started := Next(s, Begin(|s.w.history| - 1));
             var o := Exec(started.w, s.next, started.runs[s.next], replies, 0);
             Leads(started.(w := o.w, runs := started.runs[s.next := o.run]), acts, t)
    ensures |t.w.history| > 0 && !Last(t.w).ready.IsTrue?
  {
    ReachableOk(s);
    var a := Begin(|s.w.history| - 1);
    ReachableStep(s, a);
    var s1 := Next(s, a);
    var id, w, r := s.next, s.w, Fresh(s.w);
    assert s1.runs[id] == r && s1.w == w;
    var o1 := Advance(w, id, r, replies(0));
    var o2 := Advance(o1.w, id, o1.run, replies(1));
    assert Exec(w, id, r, replies, 0) == Exec(o1.w, id, o1.run, replies, 1);
    assert Exec(o1.w, id, o1.run, replies, 1) == Exec(o2.w, id, o2.run, replies, 2) == o2;
    assert AllowedAlong(o2.w, id, o2.run, replies, 2);
    assert AllowedAlong(o1.w, id, o1.run, replies, 1);
    assert AllowedAlong(w, id, r, replies, 0);
    ExecIsARun(s1, id, replies, 0);
    var s2 := s1.(w := o2.w, runs := s1.runs[id := o2.run]);
    ReachableLeads(s1, Calls(w, id, r, replies, 0), s2);
    ReadyIsNotRestored(s2, acts, t);
  }
}
