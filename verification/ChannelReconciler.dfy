/** The DiscordChannel controller as it is written: one method that updates an
    in-memory object and writes it back between external calls. It is proved to
    be the step machine of ChannelLifecycle, run to its end. */
module ChannelReconciler {
  import opened Wrappers
  import opened DiscordApi
  import opened ChannelLifecycle

  /** The in-memory copy of the object, updated field by field. */
  class DiscordChannel {
    var resourceVersion: nat
    var finalizer: bool
    var foreign: bool
    var deleting: bool
    var channelID: string
    var webhookID: string
    var ready: Ready

    constructor (v: Channel)
      ensures Value() == v
    {
      resourceVersion, finalizer, foreign, deleting := v.rv, v.finalizer, v.foreign, v.deleting;
      channelID, webhookID, ready := v.channelID, v.webhookID, v.ready;
    }

    function Value(): Channel
      reads this
    {
      Channel(resourceVersion, finalizer, foreign, deleting, channelID, webhookID, ready)
    }

    /** A successful write decodes the server's answer into the object. */
    method Decode(v: Channel)
      modifies this
      ensures Value() == v
    {
      resourceVersion, finalizer, foreign, deleting := v.rv, v.finalizer, v.foreign, v.deleting;
      channelID, webhookID, ready := v.channelID, v.webhookID, v.ready;
    }
  }

  datatype GetReply = Version(index: nat) | Missing | GetError

  /** The API server and Discord, as seen through their clients. Call number k
      gets the answer replies(k). */
  class Clients {
    var world: World
    var calls: nat
    const replies: nat -> Reply

    constructor (w: World, replies: nat -> Reply)
      ensures world == w && calls == 0 && this.replies == replies
    {
      world, calls, this.replies := w, 0, replies;
    }

    method GetBotSecret() returns (bot: BotRead)
      modifies this`calls
      ensures calls == old(calls) + 1
      ensures bot == replies(old(calls)).bot
    {
      bot := replies(calls).bot;
      calls := calls + 1;
    }

    /** Update and Status().Update: rejected unless based on the latest version. */
    method Update(obj: DiscordChannel) returns (ok: bool)
      requires |world.history| > 0
      modifies this`calls, this`world, obj
      ensures calls == old(calls) + 1
      ensures var fate := replies(old(calls)).fate;
              var lands := Lands(old(world), old(obj.Value()), fate);
              && world == (if lands then Store(old(world), old(obj.Value())) else old(world))
              && ok == (lands && fate == Worked)
      ensures |world.history| > 0
      ensures obj.Value() == if ok then Last(world) else old(obj.Value())
    {
      var fate, v := replies(calls).fate, obj.Value();
      calls := calls + 1;
      var lands := Lands(world, v, fate);
      if lands {
        world := Store(world, v);
      }
      ok := lands && fate == Worked;
      if ok {
        obj.Decode(Last(world));
      }
    }

    method CreateChannel() returns (id: string, ok: bool)
      modifies this`calls, this`world
      ensures calls == old(calls) + 1
      ensures var reply := replies(old(calls));
              && id == reply.id && ok == (reply.fate == Worked)
              && world == match reply.fate
                          case Refused => old(world)
                          case Worked => old(world).(created := old(world).created + {id},
                              live := old(world).live + {id})
                          case LostReply => old(world).(created := old(world).created + {id},
                              live := old(world).live + {id},
                                                        lost := old(world).lost + {id})
    {
      var reply := replies(calls);
      calls := calls + 1;
      id, ok := reply.id, reply.fate == Worked;
      if reply.fate != Refused {
        world := world.(created := world.created + {id}, live := world.live + {id});
      }
      if reply.fate == LostReply {
        world := world.(lost := world.lost + {id});
      }
    }

    method DeleteChannel(channel: string) returns (ok: bool)
      modifies this`calls, this`world
      ensures calls == old(calls) + 1
      ensures var reply := replies(old(calls));
              && ok == DeleteAccepted(reply.code)
              && world == if Deletes(reply.code) || reply.fate == LostReply
                          then old(world).(live := old(world).live - {channel}) else old(world)
    {
      var reply := replies(calls);
      calls := calls + 1;
      ok := DeleteAccepted(reply.code);
      if Deletes(reply.code) || reply.fate == LostReply {
        world := world.(live := world.live - {channel});
      }
    }

    method CreateWebhook(channel: string, caller: nat) returns (hook: string, token: string, ok: bool)
      modifies this`calls, this`world
      ensures calls == old(calls) + 1
      ensures var reply := replies(old(calls));
              && hook == reply.id && token == reply.token && ok == (reply.fate == Worked)
              && world == if reply.fate == Refused then old(world)
                          else old(world).(hooks := old(world).hooks[hook := Webhook(channel, token, caller)])
    {
      var reply := replies(calls);
      calls := calls + 1;
      hook, token, ok := reply.id, reply.token, reply.fate == Worked;
      if reply.fate != Refused {
        world := world.(hooks := world.hooks[hook := Webhook(channel, token, caller)]);
      }
    }

    /** Creates the Secret unless one exists; "already exists" is not an error. */
    method CreateSecret(url: string, hook: string, caller: nat) returns (ok: bool)
      modifies this`calls, this`world
      ensures calls == old(calls) + 1
      ensures var reply := replies(old(calls));
              && ok == (reply.fate == Worked)
              && world == if reply.fate == Refused || old(world).secret.Some? then old(world)
                          else old(world).(secret := Some(WebhookSecret(url, hook, caller)))
    {
      var reply := replies(calls);
      calls := calls + 1;
      ok := reply.fate == Worked;
      if reply.fate != Refused && world.secret.None? {
        world := world.(secret := Some(WebhookSecret(url, hook, caller)));
      }
    }

    /** Bookkeeping only: nobody will ever learn this channel's id again. */
    method NoteLost(channel: string)
      modifies this`world
      ensures world == old(world).(lost := old(world).lost + {channel})
    {
      world := world.(lost := world.lost + {channel});
    }
  }

  /** The latest version is the object itself, as in every reachable state. */
  ghost predicate Coherent(w: World)
  {
    && |w.history| > 0
    && (forall i | 0 <= i < |w.history| :: w.history[i].rv == i)
    && (w.obj.Some? ==> w.obj.value == Last(w))
  }

  class DiscordChannelReconciler {
    const clients: Clients
    const id: nat

    constructor (clients: Clients, id: nat)
      ensures this.clients == clients && this.id == id
    {
      this.clients, this.id := clients, id;
    }

    /** Where the machine stands after the calls made so far. */
    ghost function Rest(pc: Pc, obj: DiscordChannel): Outcome
      reads clients, obj
      requires |clients.world.history| > 0
    {
      Exec(clients.world, id, Run(pc, obj.Value()), clients.replies, clients.calls)
    }

    lemma Unfold(pc: Pc, obj: DiscordChannel)
      requires |clients.world.history| > 0 && !pc.Done?
      ensures var o := Advance(clients.world, id, Run(pc, obj.Value()), clients.replies(clients.calls));
              && |o.w.history| > 0
              && Rest(pc, obj) == Exec(o.w, id, o.run, clients.replies, clients.calls + 1)
              && (o.run.pc.Done? ==> Rest(pc, obj) == o)
    {
      ExecStep(clients.world, id, Run(pc, obj.Value()), clients.replies, clients.calls);
    }

    method Reconcile(get: GetReply) returns (result: Result)
      requires Coherent(clients.world)
      requires get.Version? ==> get.index < |clients.world.history|
      modifies clients
      ensures get.Missing? ==> result == Finished && clients.world == old(clients.world)
      ensures get.GetError? ==> result == Failed && clients.world == old(clients.world)
      ensures get.Version? ==>
                var o := Exec(old(clients.world), id, Run(FetchToken, old(clients.world).history[get.index]),
                              clients.replies, old(clients.calls));
                clients.world == o.w && o.run.pc == Done(result)
      ensures get.Version? && clients.replies(old(clients.calls)).bot == ReadError ==>
                result == Failed && clients.world == old(clients.world)
      ensures get.Version? && clients.replies(old(clients.calls)).bot != Token ==>
                clients.world == old(clients.world).(history := clients.world.history, obj := clients.world.obj)
      ensures get.Version? && (clients.replies(old(clients.calls)).bot == NotFound ||
                               clients.replies(old(clients.calls)).bot == NoKey) ==>
                result == Requeue(300)
    {
      if get.Missing? { return Finished; }
      if get.GetError? { return Failed; }
      var obj := new DiscordChannel(clients.world.history[get.index]);
      ghost var whole := Rest(FetchToken, obj);

      Unfold(FetchToken, obj);
      var bot := clients.GetBotSecret();
      if bot == NotFound {
        result := Unready(obj, SecretNotFound);
        return;
      }
      if bot == ReadError {
        return Failed;
      }
      if bot == NoKey {
        result := Unready(obj, SecretMissingKey);
        return;
      }
      assert whole == Rest(AfterToken(obj.Value()), obj);
      result := CleanupOrBuild(obj);
    }

    /** With the token at hand: clean up after an object that is being deleted,
        otherwise make sure of the finalizer and build what is missing. */
    method CleanupOrBuild(obj: DiscordChannel) returns (result: Result)
      requires |clients.world.history| > 0
      modifies clients, obj
      ensures var o := old(Rest(AfterToken(obj.Value()), obj));
              clients.world == o.w && o.run.pc == Done(result)
    {
      if obj.deleting {
        result := Cleanup(obj);
        return;
      }
      ghost var whole := Rest(AfterToken(obj.Value()), obj);
      if !obj.finalizer {
        Unfold(AddFinalizer, obj);
        obj.finalizer := true;
        var added := clients.Update(obj);
        if !added {
          return Failed;
        }
      }
      assert whole == Rest(Proceed(obj.Value()), obj);
      result := Build(obj);
    }

    /** The object is being deleted: delete the channel, then let go of the object. */
    method Cleanup(obj: DiscordChannel) returns (result: Result)
      requires |clients.world.history| > 0 && obj.deleting
      modifies clients, obj
      ensures var o := old(Rest(AfterToken(obj.Value()), obj));
              clients.world == o.w && o.run.pc == Done(result)
    {
      if !obj.finalizer {
        return Finished;
      }
      if obj.channelID != "" {
        Unfold(DeleteRemote, obj);
        var deleted := clients.DeleteChannel(obj.channelID);
        if !deleted {
          return Failed;
        }
      }
      Unfold(DropFinalizer, obj);
      obj.finalizer := false;
      var dropped := clients.Update(obj);
      return if dropped then Finished else Failed;
    }

    method Build(obj: DiscordChannel) returns (result: Result)
      requires |clients.world.history| > 0
      modifies clients, obj
      ensures var o := old(Rest(Proceed(obj.Value()), obj));
              clients.world == o.w && o.run.pc == Done(result)
    {
      if obj.webhookID != "" {
        return Finished;
      }
      if obj.channelID == "" {
        result := BuildChannel(obj);
      } else {
        result := BuildWebhook(obj);
      }
    }

    method BuildChannel(obj: DiscordChannel) returns (result: Result)
      requires |clients.world.history| > 0
      modifies clients, obj
      ensures var o := old(Rest(CreateRemote, obj));
              clients.world == o.w && o.run.pc == Done(result)
    {
      Unfold(CreateRemote, obj);
      var channel, created := clients.CreateChannel();
      if !created {
        result := Unready(obj, ChannelCreationFailed);
        return;
      }
      obj.channelID := channel;
      assert old(Rest(CreateRemote, obj)) == Rest(SaveChannel, obj);
      result := RecordChannel(obj);
    }

    /** Store the new channel's id before anything else. */
    method RecordChannel(obj: DiscordChannel) returns (result: Result)
      requires |clients.world.history| > 0
      modifies clients, obj
      ensures var o := old(Rest(SaveChannel, obj));
              clients.world == o.w && o.run.pc == Done(result)
    {
      Unfold(SaveChannel, obj);
      var unsaved := !Lands(clients.world, obj.Value(), clients.replies(clients.calls).fate);
      var saved := clients.Update(obj);
      if !saved {
        if unsaved {
          clients.NoteLost(obj.channelID);
        }
        return Failed;
      }
      result := BuildWebhook(obj);
    }

    /** The failing exits: record the reason, and ignore whether that worked. */
    method Unready(obj: DiscordChannel, reason: Reason) returns (result: Result)
      requires |clients.world.history| > 0
      modifies clients, obj
      ensures var o := old(Rest(MarkUnready(reason), obj));
              clients.world == o.w && o.run.pc == Done(result)
    {
      Unfold(MarkUnready(reason), obj);
      obj.ready := IsFalse(reason);
      var _ := clients.Update(obj);
      return UnreadyResult(reason);
    }

    method BuildWebhook(obj: DiscordChannel) returns (result: Result)
      requires |clients.world.history| > 0
      modifies clients, obj
      ensures var o := old(Rest(CreateHook, obj));
              clients.world == o.w && o.run.pc == Done(result)
    {
      Unfold(CreateHook, obj);
      var hook, token, created := clients.CreateWebhook(obj.channelID, id);
      if !created {
        result := Unready(obj, WebhookCreationFailed);
        return;
      }
      assert old(Rest(CreateHook, obj)) == Rest(WriteSecret(hook, token), obj);
      result := PublishWebhook(obj, hook, token);
    }

    /** First the Secret, then the status. */
    method PublishWebhook(obj: DiscordChannel, hook: string, token: string) returns (result: Result)
      requires |clients.world.history| > 0
      modifies clients, obj
      ensures var o := old(Rest(WriteSecret(hook, token), obj));
              clients.world == o.w && o.run.pc == Done(result)
    {
      Unfold(WriteSecret(hook, token), obj);
      var written := clients.CreateSecret(WebhookUrl(hook, token), hook, id);
      if !written {
        return Failed;
      }
      assert old(Rest(WriteSecret(hook, token), obj)) == Rest(SaveWebhook(hook), obj);
      Unfold(SaveWebhook(hook), obj);
      obj.webhookID := hook;
      obj.ready := IsTrue;
      var stored := clients.Update(obj);
      return if stored then Finished else Failed;
    }
  }
}
