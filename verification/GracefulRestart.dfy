/**
 Graceful restart: snapshot, hand off to a successor, fall back to a snapshot successor, or keep
 serving. Every step with an outcome outside the daemon (token, spawn, accept, Hello, transfer,
 stop, rewrite) may go either way: `World` names those outcomes, and the exchange has its own. The
 log of effects records what was done; `Sound` states the safety claims over every prefix of it.
 */
module GracefulRestart {
  import opened Options
  import opened HandoffProto
  import opened HandoffEndpoints
  import opened HandoffSender

  /** The successor of the handoff, and the one that restores from the snapshot alone. */
  datatype Successor = HandoffSuccessor | SnapshotSuccessor

  /** `ReleaseFailed`: the snapshot successor started, but its spawn call reported an error. */
  datatype Effect =
    | PinsTaken
    | PinsReleased
    | Started(who: Successor)
    | StopProven(who: Successor)
    | StopFailed(who: Successor)
    | ReleaseFailed
    | HelloExact
    | Detached
    | Settled(settlement: Settlement)
    | HandoffDone
    | SnapshotRewritten

  type Log = seq<Effect>

  /** The effects of a log apart from settlements. */
  function Kinds(log: Log): set<Effect> {
    set e | e in log && !e.Settled?
  }

  predicate Running(done: set<Effect>, who: Successor) {
    Started(who) in done && StopProven(who) !in done
  }

  /** When an effect may follow the effects done so far. */
  predicate Allowed(done: set<Effect>, e: Effect) {
    match e
    case Detached => HelloExact in done && Running(done, HandoffSuccessor) && Detached !in done
    case Started(HandoffSuccessor) => Started(HandoffSuccessor) !in done && Started(SnapshotSuccessor) !in done
      && PinsTaken in done
    case Started(SnapshotSuccessor) =>
      && Started(SnapshotSuccessor) !in done && PinsTaken in done
      && !Running(done, HandoffSuccessor)
      && (Detached in done ==> SnapshotRewritten in done)
    case StopProven(who) => Started(who) in done && HandoffDone !in done
    case HelloExact => Running(done, HandoffSuccessor)
    case Settled(_) => Detached in done
    case HandoffDone => Detached in done && Running(done, HandoffSuccessor)
    case PinsReleased => PinsTaken in done && PinsReleased !in done
    case SnapshotRewritten => PinsReleased !in done && !Running(done, HandoffSuccessor)
    case _ => true
  }

  /** Every effect was allowed where it happened. */
  predicate Sound(log: Log) {
    log != [] ==> Sound(log[..|log| - 1]) && Allowed(Kinds(log[..|log| - 1]), log[|log| - 1])
  }

  lemma SoundSnoc(log: Log, e: Effect)
    requires Sound(log) && Allowed(Kinds(log), e)
    ensures Sound(log + [e])
    ensures Kinds(log + [e]) == if e.Settled? then Kinds(log) else Kinds(log) + {e}
  {
    assert (log + [e])[..|log|] == log;
  }

  lemma {:induction false} SoundAt(log: Log, i: nat)
    requires Sound(log) && i < |log|
    ensures Sound(log[..i]) && Allowed(Kinds(log[..i]), log[i])
    decreases |log|
  {
    if i < |log| - 1 {
      SoundAt(log[..|log| - 1], i);
      assert log[..|log| - 1][..i] == log[..i];
    }
  }

  // ----- What soundness means -----

  /** No owner detaches before an exact Hello from a successor that runs. */
  lemma DetachFollowsHello(log: Log, i: nat)
    requires Sound(log) && i < |log| && log[i] == Detached
    ensures HelloExact in log[..i] && Running(Kinds(log[..i]), HandoffSuccessor)
  {
    SoundAt(log, i);
  }

  /** A snapshot successor starts only when no handoff successor was started or that one is proven stopped. */
  lemma BackupFollowsStop(log: Log, i: nat)
    requires Sound(log) && i < |log| && log[i] == Started(SnapshotSuccessor)
    ensures Started(HandoffSuccessor) in log[..i] ==> StopProven(HandoffSuccessor) in log[..i]
    ensures Detached in log[..i] ==> SnapshotRewritten in log[..i]
  {
    SoundAt(log, i);
    assert forall e: Effect :: !e.Settled? ==> (e in log[..i] <==> e in Kinds(log[..i]));
  }

  /** At no point of a sound log do two successors run. */
  lemma {:induction false} NeverTwoSuccessors(log: Log, n: nat)
    requires Sound(log) && n <= |log|
    ensures !(Running(Kinds(log[..n]), HandoffSuccessor) && Running(Kinds(log[..n]), SnapshotSuccessor))
  {
    if n != 0 {
      NeverTwoSuccessors(log, n - 1);
      SoundAt(log, n - 1);
      assert log[..n] == log[..n - 1] + [log[n - 1]];
      SoundSnoc(log[..n - 1], log[n - 1]);
    }
  }

  // ----- Hello -----

  datatype Hello = Hello(isHello: bool, version: int, token: string, sourcePid: int)

  predicate ExactHello(message: Option<Hello>, token: string, needsPid: bool) {
    && message.Some? && message.value.isHello && message.value.version == PROTOCOL_VERSION
    && message.value.token == token && (needsPid ==> 0 < message.value.sourcePid)
  }

  method AcceptHello(message: Option<Hello>, token: string, needsPid: bool) returns (ok: bool)
    ensures ok <==> ExactHello(message, token, needsPid)
  {
    if message.None? || !message.value.isHello || message.value.version != PROTOCOL_VERSION {
      return false;
    }
    if message.value.token != token {
      return false;
    }
    return !needsPid || 0 < message.value.sourcePid;
  }

  // ----- The restart -----

  /** What each step of one restart meets outside the daemon. */
  datatype World = World(pinned: bool, present: bool, wrote: bool, spawned: bool, accepted: bool, hello: Option<Hello>,
                         stopped: bool, rewritten: bool, started: bool, released: bool)

  /** A handoff successor ran and said an exact Hello. */
  predicate Greeted(world: World, token: string, needsPid: bool) {
    && world.present && world.wrote && world.spawned && world.accepted
    && ExactHello(world.hello, token, needsPid)
  }

  /** How the exchange went: its decision, the settlement callbacks that failed, and its outcomes on the wire. */
  datatype Exchange = Exchange(committed: bool, failures: seq<Id>, accepted: set<Id>, history: seq<SendEvent>)

  const NO_EXCHANGE := Exchange(false, [], {}, [])

  /** The exchange is one that the predecessor can have run. */
  ghost predicate Ran(schema: Schema, upstreams: seq<Upstream>, x: Exchange) {
    if Exact(ReadyIds(upstreams)) then Ended(schema, upstreams, x.history, x.committed, x.accepted) else !x.committed
  }

  function SettlementOf(u: Upstream, x: Exchange): Settlement {
    Settlement(u.serverId, x.committed && u.serverId in x.accepted)
  }

  ghost predicate SettledBy(log: Log, upstreams: seq<Upstream>, x: Exchange) {
    forall u :: u in upstreams ==> Settled(SettlementOf(u, x)) in log
  }

  predicate Clean(x: Exchange) {
    x.committed && x.failures == []
  }

  datatype HandoffOutcome = Transferred | NoUpstreams | PreDetachAbort | FallbackSafe | FallbackUnsafe

  /** What the log tells about each way a handoff attempt can end. */
  ghost predicate Told(done: set<Effect>, outcome: HandoffOutcome) {
    && PinsTaken in done && PinsReleased !in done && ReleaseFailed !in done
    && Started(SnapshotSuccessor) !in done && StopProven(SnapshotSuccessor) !in done
    && (Started(HandoffSuccessor) in done && StopProven(HandoffSuccessor) !in done <==>
      outcome.Transferred? || StopFailed(HandoffSuccessor) in done)
    && (outcome.Transferred? <==> HandoffDone in done)
    && (Detached in done <==> outcome.Transferred? || outcome.FallbackSafe? || outcome.FallbackUnsafe?)
    && (outcome.Transferred? || outcome.NoUpstreams? || outcome.FallbackSafe? ==> StopFailed(HandoffSuccessor) !in done)
  }

  /** The code set out to stop the handoff successor. */
  predicate StopTried(done: set<Effect>) {
    StopProven(HandoffSuccessor) in done || StopFailed(HandoffSuccessor) in done
  }

  /** A successor can be stopped after an owner was committed to it. */
  lemma AdoptedCanBeStopped(id: Id) returns (log: Log)
    ensures Sound(log) && Settled(Settlement(id, true)) in log && StopProven(HandoffSuccessor) in log
  {
    log := StartPinned(HandoffSuccessor);
    SoundSnoc(log, HelloExact);
    log := log + [HelloExact];
    SoundSnoc(log, Detached);
    log := log + [Detached];
    log := CommitAndStop(log, id);
  }

  lemma CommitAndStop(front: Log, id: Id) returns (log: Log)
    requires Sound(front) && Kinds(front) == {PinsTaken, Started(HandoffSuccessor)} + {HelloExact} + {Detached}
    ensures Sound(log) && Settled(Settlement(id, true)) in log && StopProven(HandoffSuccessor) in log
  {
    SoundSnoc(front, Settled(Settlement(id, true)));
    log := front + [Settled(Settlement(id, true))];
    SoundSnoc(log, StopProven(HandoffSuccessor));
    log := log + [StopProven(HandoffSuccessor)];
  }

  lemma ToldBeforeDetach(done: set<Effect>)
    requires done == {PinsTaken}
    ensures Told(done, NoUpstreams) && Told(done, PreDetachAbort) && Detached !in done
    ensures Allowed(done, Started(HandoffSuccessor))
    ensures var started := done + {Started(HandoffSuccessor)};
            && Running(started, HandoffSuccessor) && HandoffDone !in started
            && Told(started + {StopProven(HandoffSuccessor)}, PreDetachAbort)
            && Told(started + {StopFailed(HandoffSuccessor)}, PreDetachAbort)
            && Detached !in started + {StopProven(HandoffSuccessor)}
            && Detached !in started + {StopFailed(HandoffSuccessor)}
            && started + {HelloExact} == {PinsTaken, Started(HandoffSuccessor), HelloExact}
  {
  }

  lemma ToldAfterDetach(done: set<Effect>)
    requires done == {PinsTaken, Started(HandoffSuccessor), HelloExact} + {Detached}
    ensures Running(done, HandoffSuccessor) && HandoffDone !in done
    ensures Told(done + {HandoffDone}, Transferred)
    ensures Told(done + {StopProven(HandoffSuccessor)}, FallbackSafe)
    ensures Told(done + {StopFailed(HandoffSuccessor)}, FallbackUnsafe)
  {
  }

  lemma EachIsSettled(log: Log, settlements: seq<Settlement>, upstreams: seq<Upstream>, x: Exchange)
    requires |settlements| <= |log| && log[|log| - |settlements|..] == SettledAll(settlements)
    requires |settlements| == |upstreams|
    requires forall i :: 0 <= i < |upstreams| ==> settlements[i] == SettlementOf(upstreams[i], x)
    ensures SettledBy(log, upstreams, x)
  {
    forall u | u in upstreams
      ensures Settled(SettlementOf(u, x)) in log
    {
      var i :| 0 <= i < |upstreams| && upstreams[i] == u;
      assert log[|log| - |settlements| + i] == SettledAll(settlements)[i];
    }
  }

  /** The snapshot successor's effects, if it was started. */
  function SnapshotEffects(world: World): set<Effect> {
    (if world.started then {Started(SnapshotSuccessor)} else {})
    + (if world.started && !world.released then {ReleaseFailed} else {})
  }

  lemma FallenBack(done: set<Effect>, world: World)
    requires Told(done, FallbackSafe)
    ensures Allowed(done, SnapshotRewritten) && Allowed(done, PinsReleased) && Refused(done + {PinsReleased})
    ensures KeepsHandoff(done, done + {PinsReleased}) && Started(SnapshotSuccessor) !in done + {PinsReleased}
    ensures var rewritten := done + {SnapshotRewritten};
            var after := rewritten + SnapshotEffects(world);
            && Allowed(rewritten, Started(SnapshotSuccessor)) && Allowed(after, PinsReleased)
            && KeepsHandoff(done, after) && KeepsHandoff(done, after + {PinsReleased})
            && (Started(SnapshotSuccessor) in after <==> world.started)
            && (Started(SnapshotSuccessor) in after + {PinsReleased} <==> world.started)
            && (if world.started && world.released then Handed(after) else Refused(after + {PinsReleased}))
  {
  }

  class Restart {
    var log: Log
    var shuttingDown: bool

    constructor ()
      ensures log == [] && !shuttingDown
    {
      log, shuttingDown := [], false;
    }

    method Emit(e: Effect)
      requires Sound(log) && Allowed(Kinds(log), e)
      modifies this`log
      ensures Sound(log) && log == old(log) + [e]
      ensures Kinds(log) == if e.Settled? then Kinds(old(log)) else Kinds(old(log)) + {e}
    {
      SoundSnoc(log, e);
      log := log + [e];
    }

    /** Kills the handoff successor and waits for its exit, within a bound. */
    method StopSuccessor(ok: bool)
      requires Sound(log) && Running(Kinds(log), HandoffSuccessor) && HandoffDone !in Kinds(log)
      modifies this`log
      ensures Sound(log)
        && log == old(log) + [if ok then StopProven(HandoffSuccessor) else StopFailed(HandoffSuccessor)]
      ensures Kinds(log) ==
        Kinds(old(log)) + {if ok then StopProven(HandoffSuccessor) else StopFailed(HandoffSuccessor)}
    {
      Emit(if ok then StopProven(HandoffSuccessor) else StopFailed(HandoffSuccessor));
    }

    /** Records one settlement for each detached upstream. */
    method LogSettlements(settlements: seq<Settlement>)
      requires Sound(log) && Detached in Kinds(log)
      modifies this`log
      ensures Sound(log) && log == old(log) + SettledAll(settlements) && Kinds(log) == Kinds(old(log))
    {
      for i := 0 to |settlements|
        invariant Sound(log) && log == old(log) + SettledAll(settlements[..i]) && Kinds(log) == Kinds(old(log))
      {
        assert SettledAll(settlements[..i + 1]) == SettledAll(settlements[..i]) + [Settled(settlements[i])];
        Emit(Settled(settlements[i]));
      }
      assert settlements[..|settlements|] == settlements;
    }

    /**
     The exchange after an exact Hello: every owner detaches, and each detached owner is settled
     once, in order, by the decision the exchange came to. It is reported as failed exactly if it did
     not commit, or if it committed and some settlement callback failed.
     */
    method TransferAll(schema: Schema, upstreams: seq<Upstream>)
      returns (ok: bool, settlements: seq<Settlement>, ghost x: Exchange)
      requires Sound(log) && HelloExact in Kinds(log) && Running(Kinds(log), HandoffSuccessor)
      requires Detached !in Kinds(log)
      modifies this`log
      ensures Sound(log) && log == old(log) + [Detached] + SettledAll(settlements)
      ensures Kinds(log) == Kinds(old(log)) + {Detached}
      ensures |settlements| == |upstreams|
      ensures forall i :: 0 <= i < |upstreams| ==> settlements[i] == SettlementOf(upstreams[i], x)
      ensures Ran(schema, upstreams, x) && (ok <==> Clean(x))
    {
      Emit(Detached);
      var result, error, accepted, failures;
      ghost var history;
      result, error, accepted, settlements, failures, history := PerformHandoff(schema, upstreams);
      LogSettlements(settlements);
      ok, x := !error, Exchange(result.phase.AtCommitted?, failures, accepted, history);
    }

    /**
     Runs the predecessor's side of one handoff attempt. Failures up to Hello stop the successor
     and detach nothing; a failure after Hello is safe for a backup only once the successor is
     proven stopped.
     */
    method AttemptHandoff(schema: Schema, upstreams: seq<Upstream>, token: string, needsPid: bool, world: World)
      returns (outcome: HandoffOutcome, ghost x: Exchange)
      requires Sound(log) && Kinds(log) == {PinsTaken}
      modifies this`log
      ensures Sound(log) && Told(Kinds(log), outcome)
      ensures Started(HandoffSuccessor) in Kinds(log) <==> world.present && world.wrote && world.spawned
      ensures Detached in Kinds(log) <==> Greeted(world, token, needsPid)
      ensures StopTried(Kinds(log)) <==> Started(HandoffSuccessor) in Kinds(log) && !outcome.Transferred?
      ensures StopProven(HandoffSuccessor) in Kinds(log) <==> StopTried(Kinds(log)) && world.stopped
      ensures outcome.NoUpstreams? <==> !world.present
      ensures Detached in Kinds(log) ==> Ran(schema, upstreams, x) && SettledBy(log, upstreams, x)
      ensures outcome.Transferred? <==> Greeted(world, token, needsPid) && Clean(x)
      ensures outcome.FallbackSafe? <==>
        Greeted(world, token, needsPid) && !Clean(x) && world.stopped
      ensures outcome.FallbackUnsafe? <==>
        Greeted(world, token, needsPid) && !Clean(x) && !world.stopped
    {
      ToldBeforeDetach(Kinds(log));
      x := NO_EXCHANGE;
      if !world.present {
        return NoUpstreams, x;
      }
      if !world.wrote || !world.spawned {
        return PreDetachAbort, x;
      }
      Emit(Started(HandoffSuccessor));
      var exact := false;
      if world.accepted {
        exact := AcceptHello(world.hello, token, needsPid);
      }
      if !exact {
        StopSuccessor(world.stopped);
        return PreDetachAbort, x;
      }
      Emit(HelloExact);
      outcome, x := TransferOrStop(schema, upstreams, world);
    }

    /**
     Keeps the successor exactly if the exchange committed and every settlement callback
     succeeded. A callback that fails after the commit stops a successor that has adopted owners.
     */
    method TransferOrStop(schema: Schema, upstreams: seq<Upstream>, world: World)
      returns (outcome: HandoffOutcome, ghost x: Exchange)
      requires Sound(log) && Kinds(log) == {PinsTaken, Started(HandoffSuccessor), HelloExact}
      modifies this`log
      ensures Sound(log) && Told(Kinds(log), outcome)
      ensures Started(HandoffSuccessor) in Kinds(log) && Detached in Kinds(log)
      ensures Ran(schema, upstreams, x) && SettledBy(log, upstreams, x)
      ensures outcome.Transferred? <==> Clean(x)
      ensures StopTried(Kinds(log)) <==> !Clean(x)
      ensures StopProven(HandoffSuccessor) in Kinds(log) <==> StopTried(Kinds(log)) && world.stopped
      ensures !outcome.Transferred? ==> outcome == (if world.stopped then FallbackSafe else FallbackUnsafe)
    {
      var ok, settlements;
      ok, settlements, x := TransferAll(schema, upstreams);
      EachIsSettled(log, settlements, upstreams, x);
      ToldAfterDetach(Kinds(log));
      if ok {
        Emit(HandoffDone);
        return Transferred, x;
      }
      StopSuccessor(world.stopped);
      return if world.stopped then FallbackSafe else FallbackUnsafe, x;
    }

    /** Starts the snapshot successor; its spawn call can fail before or after the start. */
    method PrepareSnapshotRestart(world: World) returns (ok: bool)
      requires Sound(log) && Allowed(Kinds(log), Started(SnapshotSuccessor))
      modifies this`log
      ensures Sound(log) && old(log) <= log
      ensures ok <==> world.started && world.released
      ensures Kinds(log) == Kinds(old(log)) + SnapshotEffects(world)
    {
      if !world.started {
        return false;
      }
      Emit(Started(SnapshotSuccessor));
      if !world.released {
        Emit(ReleaseFailed);
      }
      return world.released;
    }

    /** Serves again: no owner detached. */
    method AbortRestart()
      requires Sound(log) && Allowed(Kinds(log), PinsReleased)
      modifies this
      ensures Sound(log) && old(log) <= log && Kinds(log) == Kinds(old(log)) + {PinsReleased} && !shuttingDown
    {
      Emit(PinsReleased);
      shuttingDown := false;
    }

    /** Stays closed: owners detached and no successor is safe to start. */
    method BlockRestart()
      requires Sound(log) && Allowed(Kinds(log), PinsReleased)
      modifies this`log
      ensures Sound(log) && old(log) <= log && Kinds(log) == Kinds(old(log)) + {PinsReleased}
    {
      Emit(PinsReleased);
    }

    /** After a failed exchange whose successor is proven stopped: rewrite the snapshot, then one clean successor. */
    method FallBack(world: World) returns (callback: bool)
      requires Sound(log) && Told(Kinds(log), FallbackSafe)
      modifies this`log
      ensures Sound(log) && old(log) <= log && KeepsHandoff(Kinds(old(log)), Kinds(log))
      ensures callback <==> world.rewritten && world.started && world.released
      ensures Started(SnapshotSuccessor) in Kinds(log) <==> world.rewritten && world.started
      ensures if callback then Handed(Kinds(log)) else Refused(Kinds(log))
    {
      FallenBack(Kinds(log), world);
      callback := false;
      if world.rewritten {
        Emit(SnapshotRewritten);
        callback := PrepareSnapshotRestart(world);
      }
      if !callback {
        BlockRestart();
      }
    }

    /**
     A graceful restart, exactly. With the lifecycle open and the snapshot pinned the answer is a
     callback if and only if a successor took over: the snapshot successor where there is nothing to
     hand off, else the handoff successor after a clean commit, else the snapshot successor after a
     proven stop and a rewritten snapshot. A callback means that exactly one successor was started
     and not stopped, with the daemon closed and its pins held. Without one the pins are released;
     the daemon serves again exactly if no owner detached; and a successor can be left running only
     where its stop failed or its spawn call failed after the start.
     */
    method HandleGracefulRestart(lifecycleOpen: bool, schema: Schema, upstreams: seq<Upstream>, token: string,
        needsPid: bool, world: World)
      returns (callback: bool, ghost x: Exchange)
      requires log == [] && !shuttingDown
      modifies this
      ensures Sound(log)
      ensures callback ==> Handed(Kinds(log)) && shuttingDown
      ensures !callback ==> (shuttingDown <==> Detached in Kinds(log)) && (Refused(Kinds(log)) || log == [])
      ensures !lifecycleOpen || !world.pinned ==> !callback && log == []
      ensures lifecycleOpen && world.pinned ==>
        (callback <==>
          if !world.present then world.started && world.released
          else
            && world.wrote && world.spawned && world.accepted && ExactHello(world.hello, token, needsPid)
            && ((x.committed && x.failures == [])
              || (world.stopped && world.rewritten && world.started && world.released)))
      ensures lifecycleOpen && world.pinned ==>
        var done, greeted := Kinds(log), Greeted(world, token, needsPid);
        && (Started(HandoffSuccessor) in done <==> world.present && world.wrote && world.spawned)
        && (Detached in done <==> greeted)
        && (greeted ==> Ran(schema, upstreams, x) && SettledBy(log, upstreams, x))
        && (StopTried(done) <==> Started(HandoffSuccessor) in done && !(greeted && Clean(x)))
        && (StopProven(HandoffSuccessor) in done <==> StopTried(done) && world.stopped)
        && (Started(SnapshotSuccessor) in done <==>
          && world.started
          && (!world.present || (greeted && StopProven(HandoffSuccessor) in done && world.rewritten)))
    {
      x := NO_EXCHANGE;
      if !lifecycleOpen {
        return false, x;
      }
      shuttingDown := true;
      if !world.pinned {
        shuttingDown := false;
        return false, x;
      }
      Emit(PinsTaken);
      assert Kinds([]) == {};
      var outcome;
      outcome, x := AttemptHandoff(schema, upstreams, token, needsPid, world);
      callback := Conclude(outcome, world);
    }

    /** What each ending of the handoff attempt leads to. */
    method Conclude(outcome: HandoffOutcome, world: World) returns (callback: bool)
      requires Sound(log) && Told(Kinds(log), outcome) && shuttingDown
      modifies this
      ensures Sound(log) && old(log) <= log && KeepsHandoff(Kinds(old(log)), Kinds(log))
      ensures callback <==>
        || outcome.Transferred?
        || (outcome.NoUpstreams? && world.started && world.released)
        || (outcome.FallbackSafe? && world.rewritten && world.started && world.released)
      ensures Started(SnapshotSuccessor) in Kinds(log) <==>
        world.started && (outcome.NoUpstreams? || (outcome.FallbackSafe? && world.rewritten))
      ensures callback ==> Handed(Kinds(log)) && shuttingDown
      ensures !callback ==> (shuttingDown <==> Detached in Kinds(log)) && Refused(Kinds(log))
    {
      match outcome
      case Transferred =>
        return true;
      case NoUpstreams =>
        callback := PrepareSnapshotRestart(world);
        if !callback {
          AbortRestart();
        }
      case PreDetachAbort =>
        AbortRestart();
        return false;
      case FallbackUnsafe =>
        BlockRestart();
        return false;
      case FallbackSafe =>
        callback := FallBack(world);
    }
  }

  /** What the handoff attempt did stays as it was. */
  ghost predicate KeepsHandoff(was: set<Effect>, done: set<Effect>) {
    && (Started(HandoffSuccessor) in done <==> Started(HandoffSuccessor) in was)
    && (StopProven(HandoffSuccessor) in done <==> StopProven(HandoffSuccessor) in was)
    && (StopFailed(HandoffSuccessor) in done <==> StopFailed(HandoffSuccessor) in was)
    && (HelloExact in done <==> HelloExact in was) && (Detached in done <==> Detached in was)
    && (HandoffDone in done <==> HandoffDone in was)
  }

  /** A handed-over restart: one successor runs, never two, and the pins stay held. */
  ghost predicate Handed(done: set<Effect>) {
    && PinsTaken in done && PinsReleased !in done
    && (Running(done, HandoffSuccessor) <==> !Running(done, SnapshotSuccessor))
    && StopFailed(HandoffSuccessor) !in done && ReleaseFailed !in done
  }

  /**
   A refused restart: the pins are released, and a successor runs exactly if its stop failed or its
   release failed.
   */
  ghost predicate Refused(done: set<Effect>) {
    && PinsTaken in done && PinsReleased in done
    && (Running(done, HandoffSuccessor) <==> StopFailed(HandoffSuccessor) in done)
    && (Running(done, SnapshotSuccessor) <==> ReleaseFailed in done)
  }

  /** Both cases happen: a refused restart that leaves the handoff successor, or the snapshot successor, running. */
  lemma RefusedCanLeaveRunning(who: Successor) returns (log: Log)
    ensures Sound(log) && Refused(Kinds(log)) && Running(Kinds(log), who)
  {
    var failure := if who.HandoffSuccessor? then StopFailed(who) else ReleaseFailed;
    log := StartPinned(who);
    SoundSnoc(log, failure);
    log := ReleaseAfter(log + [failure], who, failure);
  }

  lemma StartPinned(who: Successor) returns (log: Log)
    ensures Sound(log) && Kinds(log) == {PinsTaken, Started(who)}
  {
    assert Kinds([]) == {};
    SoundSnoc([], PinsTaken);
    log := [] + [PinsTaken];
    SoundSnoc(log, Started(who));
    log := log + [Started(who)];
  }

  lemma ReleaseAfter(front: Log, who: Successor, failure: Effect) returns (log: Log)
    requires Sound(front) && Kinds(front) == {PinsTaken, Started(who), failure}
    requires failure == if who.HandoffSuccessor? then StopFailed(who) else ReleaseFailed
    ensures Sound(log) && Refused(Kinds(log)) && Running(Kinds(log), who)
  {
    SoundSnoc(front, PinsReleased);
    log := front + [PinsReleased];
  }

  function SettledAll(settlements: seq<Settlement>): Log {
    seq(|settlements|, i requires 0 <= i < |settlements| => Settled(settlements[i]))
  }

}
