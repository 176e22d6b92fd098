/** The DiscordChannel controller as a step machine.

    One step is one API-server or Discord call. Several reconciles of the same
    object may be in flight at once, each on its own (possibly old) snapshot,
    and any of them may stop at any call. */
module ChannelLifecycle {
  import opened Wrappers
  import opened DiscordApi

  datatype Reason = SecretNotFound | SecretMissingKey | ChannelCreationFailed | WebhookCreationFailed

  /** The Ready condition. */
  datatype Ready = Unset | IsTrue | IsFalse(reason: Reason)

  /** One stored version of the DiscordChannel object. `rv` is its resource
      version; `foreign` says that some other controller holds a finalizer. */
  datatype Channel = Channel(
    rv: nat,
    finalizer: bool,
    foreign: bool,
    deleting: bool,
    channelID: string,
    webhookID: string,
    ready: Ready)

  /** A webhook on Discord, with the reconcile that asked for it. */
  datatype Webhook = Webhook(channel: string, token: string, maker: nat)

  /** The webhook Secret. `hook` and `maker` record which webhook its URL was built
      from and which reconcile created it; the controller never reads them. */
  datatype WebhookSecret = WebhookSecret(url: string, hook: string, maker: nat)

  /** The API server and Discord. `history` lists every version ever stored,
      `created` every channel ever created, and `lost` the channels whose id was
      never stored and is no longer known to any reconcile. */
  datatype World = World(
    obj: Option<Channel>,
    history: seq<Channel>,
    secret: Option<WebhookSecret>,
    live: set<string>,
    created: set<string>,
    hooks: map<string, Webhook>,
    lost: set<string>)

  /** The call a reconcile makes next. */
  datatype Pc =
    | FetchToken
    | MarkUnready(reason: Reason)
    | DeleteRemote
    | DropFinalizer
    | AddFinalizer
    | CreateRemote
    | SaveChannel
    | CreateHook
    | WriteSecret(hook: string, token: string)
    | SaveWebhook(hook: string)
    | Done(result: Result)

  datatype Result = Finished | Requeue(seconds: nat) | Failed

  /** An in-flight reconcile: its next call and its in-memory copy of the object. */
  datatype Run = Run(pc: Pc, copy: Channel)

  /** What became of a call: it worked, it had no effect and failed, or it took
      effect but the caller saw an error. */
  datatype Fate = Worked | Refused | LostReply

  datatype BotRead = Token | NoKey | NotFound | ReadError

  /** Everything the outside world chooses about one call. */
  datatype Reply = Reply(fate: Fate, id: string, token: string, code: int, bot: BotRead)

  datatype Outcome = Outcome(w: World, run: Run)

  const MISSING_TOKEN_REQUEUE := 300

  function Last(w: World): Channel
    requires |w.history| > 0
  {
    w.history[|w.history| - 1]
  }

  /** Optimistic locking: a write takes effect only on the version it was based on. */
  predicate Lands(w: World, copy: Channel, fate: Fate)
  {
    w.obj.Some? && w.obj.value.rv == copy.rv && fate != Refused
  }

  /** The API server's write: no new version when nothing changed, and a deleted
      object disappears with its last finalizer. */
  function Store(w: World, next: Channel): World
  {
    if w.obj == Some(next) then w
    else
      var v := next.(rv := |w.history|);
      w.(history := w.history + [v],
         obj := if v.deleting && !v.finalizer && !v.foreign then None else Some(v))
  }

  /** Where Reconcile goes once the finalizer is in place. */
  function Proceed(copy: Channel): Pc
  {
    if copy.webhookID != "" then Done(Finished)
    else if copy.channelID == "" then CreateRemote
    else CreateHook
  }

  function AfterToken(copy: Channel): Pc
  {
    if copy.deleting then
      if !copy.finalizer then Done(Finished)
      else if copy.channelID != "" then DeleteRemote
      else DropFinalizer
    else if !copy.finalizer then AddFinalizer
    else Proceed(copy)
  }

  function UnreadyResult(reason: Reason): Result
  {
    if reason == SecretNotFound || reason == SecretMissingKey then Requeue(MISSING_TOKEN_REQUEUE) else Failed
  }

  function End(w: World, r: Run, result: Result): Outcome
  {
    Outcome(w, r.(pc := Done(result)))
  }

  /** One call of reconcile number `id`. */
  function Advance(w: World, id: nat, r: Run, reply: Reply): Outcome
    requires |w.history| > 0
  {
    var copy := r.copy;
    match r.pc
    case FetchToken =>
      (match reply.bot
       case ReadError => End(w, r, Failed)
       case NotFound => Outcome(w, r.(pc := MarkUnready(SecretNotFound)))
       case NoKey => Outcome(w, r.(pc := MarkUnready(SecretMissingKey)))
       case Token => Outcome(w, r.(pc := AfterToken(copy))))
    case MarkUnready(reason) =>
      var w' := if Lands(w, copy, reply.fate) then Store(w, copy.(ready := IsFalse(reason))) else w;
      End(w', r, UnreadyResult(reason))
    case DeleteRemote =>
      // Discord decides what happens to the channel, the client what to make of the answer.
      var w' := if Deletes(reply.code) || reply.fate == LostReply then w.(live := w.live - {copy.channelID}) else w;
      if DeleteAccepted(reply.code) then Outcome(w', r.(pc := DropFinalizer))
      else End(w', r, Failed)
    case DropFinalizer =>
      if Lands(w, copy, reply.fate) then
        End(Store(w, copy.(finalizer := false)), r, if reply.fate == Worked then Finished else Failed)
      else
        End(w, r, Failed)
    case AddFinalizer =>
      if Lands(w, copy, reply.fate) then
        var w' := Store(w, copy.(finalizer := true));
        if reply.fate == Worked then Outcome(w', Run(Proceed(Last(w')), Last(w')))
        else End(w', r, Failed)
      else
        End(w, r, Failed)
    case CreateRemote =>
      (match reply.fate
       case Worked =>
         Outcome(w.(created := w.created + {reply.id}, live := w.live + {reply.id}),
                 Run(SaveChannel, copy.(channelID := reply.id)))
       case Refused =>
         Outcome(w, r.(pc := MarkUnready(ChannelCreationFailed)))
       case LostReply =>
         Outcome(w.(created := w.created + {reply.id}, live := w.live + {reply.id}, lost := w.lost + {reply.id}),
                 r.(pc := MarkUnready(ChannelCreationFailed))))
    case SaveChannel =>
      if Lands(w, copy, reply.fate) then
        var w' := Store(w, copy);
        if reply.fate == Worked then Outcome(w', Run(CreateHook, Last(w')))
        else End(w', r, Failed)
      else
        End(w.(lost := w.lost + {copy.channelID}), r, Failed)
    case CreateHook =>
      var w' := if reply.fate == Refused then w
                else w.(hooks := w.hooks[reply.id := Webhook(copy.channelID, reply.token, id)]);
      if reply.fate == Worked then Outcome(w', r.(pc := WriteSecret(reply.id, reply.token)))
      else Outcome(w', r.(pc := MarkUnready(WebhookCreationFailed)))
    case WriteSecret(hook, token) =>
      // An existing Secret is left as it is and its presence is not an error.
      var w' := if reply.fate == Refused || w.secret.Some? then w
                else w.(secret := Some(WebhookSecret(WebhookUrl(hook, token), hook, id)));
      if reply.fate == Worked then Outcome(w', r.(pc := SaveWebhook(hook)))
      else End(w', r, Failed)
    case SaveWebhook(hook) =>
      if Lands(w, copy, reply.fate) then
        End(Store(w, copy.(webhookID := hook, ready := IsTrue)), r, if reply.fate == Worked then Finished else Failed)
      else
        End(w, r, Failed)
    case Done(_) => Outcome(w, r)
  }

  /** What is assumed of Discord: successful creates return new non-empty ids,
      webhook ids have no slash, and 404 means that the channel is gone. */
  predicate Allowed(w: World, r: Run, reply: Reply)
  {
    match r.pc
    case CreateRemote => reply.fate != Refused ==> reply.id != "" && reply.id !in w.created
    case CreateHook => reply.fate != Refused ==> reply.id != "" && '/' !in reply.id && reply.id !in w.hooks
    case DeleteRemote => reply.code == 404 ==> r.copy.channelID !in w.live
    case _ => true
  }

  /** The controller together with its environment. */
  datatype System = System(w: World, runs: map<nat, Run>, next: nat)

  datatype Action =
    | Begin(version: nat)               // a reconcile reads some stored version, not always the latest
    | Call(run: nat, reply: Reply)
    | Crash(run: nat)
    | RequestDelete
    | Edit                              // a spec, label or annotation edit: a new version, same status
    | ToggleForeign                     // another controller adds or removes its own finalizer
    | RemoveRemotely(channel: string)   // someone deletes a channel on Discord

  ghost predicate Enabled(s: System, a: Action)
  {
    match a
    case Begin(version) => version < |s.w.history|
    case Call(run, reply) =>
      |s.w.history| > 0 && run in s.runs && !s.runs[run].pc.Done? && Allowed(s.w, s.runs[run], reply)
    case Crash(run) => run in s.runs
    case RequestDelete => s.w.obj.Some?
    case Edit => s.w.obj.Some?
    case ToggleForeign => s.w.obj.Some? && (s.w.obj.value.deleting ==> s.w.obj.value.foreign)
    case RemoveRemotely(_) => true
  }

  /** Any change, even one to fields that are not modelled, is a new version. */
  function Touch(w: World, next: Channel): World
  {
    var v := next.(rv := |w.history|);
    w.(history := w.history + [v],
       obj := if v.deleting && !v.finalizer && !v.foreign then None else Some(v))
  }

  function CrashWorld(w: World, r: Run): World
  {
    if r.pc.SaveChannel? then w.(lost := w.lost + {r.copy.channelID}) else w
  }

  ghost function Next(s: System, a: Action): System
    requires Enabled(s, a)
  {
    match a
    case Begin(version) =>
      System(s.w, s.runs[s.next := Run(FetchToken, s.w.history[version])], s.next + 1)
    case Call(run, reply) =>
      var o := Advance(s.w, run, s.runs[run], reply);
      s.(w := o.w, runs := s.runs[run := o.run])
    case Crash(run) => s.(w := CrashWorld(s.w, s.runs[run]), runs := s.runs - {run})
    case RequestDelete => s.(w := Touch(s.w, s.w.obj.value.(deleting := true)))
    case Edit => s.(w := Touch(s.w, s.w.obj.value))
    case ToggleForeign => s.(w := Touch(s.w, s.w.obj.value.(foreign := !s.w.obj.value.foreign)))
    case RemoveRemotely(channel) => s.(w := s.w.(live := s.w.live - {channel}))
  }

  const NEW_OBJECT := Channel(0, false, false, false, "", "", Unset)

  function Initial(): System
  {
    System(World(Some(NEW_OBJECT), [NEW_OBJECT], None, {}, {}, map[], {}), map[], 0)
  }

  ghost predicate Leads(s: System, acts: seq<Action>, t: System)
    decreases |acts|
  {
    if acts == [] then s == t
    else Enabled(s, acts[0]) && Leads(Next(s, acts[0]), acts[1..], t)
  }

  ghost predicate Reachable(s: System)
  {
    exists acts :: Leads(Initial(), acts, s)
  }

  /** How many calls a reconcile can still make. */
  function Rank(pc: Pc): nat
  {
    match pc
    case FetchToken => 9
    case AddFinalizer => 8
    case CreateRemote => 7
    case SaveChannel => 6
    case CreateHook => 5
    case WriteSecret(_, _) => 4
    case DeleteRemote => 3
    case SaveWebhook(_) => 2
    case DropFinalizer => 2
    case MarkUnready(_) => 1
    case Done(_) => 0
  }

  lemma RankDecreases(w: World, id: nat, r: Run, reply: Reply)
    requires |w.history| > 0 && !r.pc.Done?
    ensures Rank(Advance(w, id, r, reply).run.pc) < Rank(r.pc)
    ensures w.history <= Advance(w, id, r, reply).w.history
  {
  }

  /** An uninterrupted reconcile: the k-th call gets the k-th reply. */
  function Exec(w: World, id: nat, r: Run, replies: nat -> Reply, k: nat): Outcome
    requires |w.history| > 0
    decreases Rank(r.pc)
  {
    if r.pc.Done? then Outcome(w, r)
    else
      RankDecreases(w, id, r, replies(k));
      var o := Advance(w, id, r, replies(k));
      Exec(o.w, id, o.run, replies, k + 1)
  }

  lemma ExecStep(w: World, id: nat, r: Run, replies: nat -> Reply, k: nat)
    requires |w.history| > 0 && !r.pc.Done?
    ensures var o := Advance(w, id, r, replies(k));
            && |o.w.history| > 0
            && Exec(w, id, r, replies, k) == Exec(o.w, id, o.run, replies, k + 1)
            && (o.run.pc.Done? ==> Exec(w, id, r, replies, k) == o)
  {
    RankDecreases(w, id, r, replies(k));
    var o := Advance(w, id, r, replies(k));
    assert o.run.pc.Done? ==> Exec(o.w, id, o.run, replies, k + 1) == o;
  }
}
