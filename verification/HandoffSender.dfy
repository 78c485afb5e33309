/** The predecessor's side of the handoff: what it announces, how it runs the wire, and how it settles. */
module HandoffSender {
  import opened Options
  import opened HandoffProto
  import opened HandoffPartition
  import opened HandoffEndpoints

  // ----- What may be announced -----

  /** The upstreams that may, or may not, be announced, in order. */
  function Sendables(schema: Schema, upstreams: seq<Upstream>, want: bool): seq<Upstream> {
    if upstreams == [] then
      []
    else
      var front, last := Sendables(schema, upstreams[..|upstreams| - 1], want), upstreams[|upstreams| - 1];
      if Sendable(schema, last) == want then front + [last] else front
  }

  lemma SendablesSnoc(schema: Schema, upstreams: seq<Upstream>, u: Upstream, want: bool)
    ensures Sendables(schema, upstreams + [u], want) ==
              if Sendable(schema, u) == want then Sendables(schema, upstreams, want) + [u]
              else Sendables(schema, upstreams, want)
  {
    assert (upstreams + [u])[..|upstreams|] == upstreams;
  }

  lemma {:induction false} SendablesMembers(schema: Schema, upstreams: seq<Upstream>, want: bool)
    ensures forall u :: u in Sendables(schema, upstreams, want) <==> u in upstreams && Sendable(schema, u) == want
    decreases |upstreams|
  {
    if upstreams != [] {
      SendablesMembers(schema, upstreams[..|upstreams| - 1], want);
      assert upstreams == upstreams[..|upstreams| - 1] + [upstreams[|upstreams| - 1]];
    }
  }

  lemma SendableIds(schema: Schema, upstreams: seq<Upstream>)
    ensures forall id :: id in ReadyIds(Sendables(schema, upstreams, true)) ==> id in ReadyIds(upstreams)
  {
    var sent := Sendables(schema, upstreams, true);
    SendablesMembers(schema, upstreams, true);
    forall id | id in ReadyIds(sent)
      ensures id in ReadyIds(upstreams)
    {
      var i :| 0 <= i < |sent| && sent[i].serverId == id;
      assert sent[i] in upstreams;
      var j :| 0 <= j < |upstreams| && upstreams[j] == sent[i];
      assert ReadyIds(upstreams)[j] == id;
    }
  }

  /**
   Exactly the sendable upstreams of an exact list are announced, and the announcement is one every
   receiver admits.
   */
  lemma {:induction false} AnnouncementIsValid(schema: Schema, upstreams: seq<Upstream>)
    requires Exact(ReadyIds(upstreams))
    ensures ValidReady(RefsOf(Sendables(schema, upstreams, true)))
    decreases |upstreams|
  {
    if upstreams != [] {
      var front, last := upstreams[..|upstreams| - 1], upstreams[|upstreams| - 1];
      assert ReadyIds(upstreams) == ReadyIds(front) + [last.serverId];
      ExactSnoc(ReadyIds(front), last.serverId);
      AnnouncementIsValid(schema, front);
      if Sendable(schema, last) {
        var sent := Sendables(schema, front, true);
        SendableIds(schema, front);
        assert Order(RefsOf(sent)) == ReadyIds(sent);
        ExactSnoc(ReadyIds(sent), last.serverId);
        assert Order(RefsOf(sent + [last])) == ReadyIds(sent) + [last.serverId];
        assert forall i :: 0 <= i < |sent| ==> RefsOf(sent + [last])[i] == RefsOf(sent)[i];
      }
    }
  }

  /** The filter before the announcement: an empty or repeated identity stops the handoff. */
  method Prefilter(schema: Schema, upstreams: seq<Upstream>)
    returns (ok: bool, ready: seq<Upstream>, preAborted: seq<Id>)
    ensures ok <==> Exact(ReadyIds(upstreams))
    ensures ok ==>
      ready == Sendables(schema, upstreams, true) && preAborted == ReadyIds(Sendables(schema, upstreams, false))
    ensures ok ==> forall u :: u in ready <==>
      && u in upstreams && !(NATIVE_PREFIX <= u.serverId) && u.pid > 0
      && u.stdin != 0 && u.stdout != 0 && u.stderr != 0 && (u.authority != 0 <==> schema.requiresAuthority)
  {
    var seen: set<Id> := {};
    ready, preAborted := [], [];
    for i := 0 to |upstreams|
      invariant Exact(ReadyIds(upstreams[..i])) && seen == Set(ReadyIds(upstreams[..i]))
      invariant ready == Sendables(schema, upstreams[..i], true)
      invariant preAborted == ReadyIds(Sendables(schema, upstreams[..i], false))
    {
      var u := upstreams[i];
      var ids := ReadyIds(upstreams[..i]);
      assert upstreams[..i + 1] == upstreams[..i] + [u];
      assert ReadyIds(upstreams[..i + 1]) == ids + [u.serverId];
      if u.serverId == "" || u.serverId in seen {
        StopIsRight(upstreams, i);
        return false, [], [];
      }
      SendablesSnoc(schema, upstreams[..i], u, true);
      SendablesSnoc(schema, upstreams[..i], u, false);
      seen := seen + {u.serverId};
      if Sendable(schema, u) {
        ready := ready + [u];
      } else {
        assert ReadyIds(Sendables(schema, upstreams[..i], false) + [u]) == preAborted + [u.serverId];
        preAborted := preAborted + [u.serverId];
      }
    }
    assert upstreams[..|upstreams|] == upstreams;
    SendablesMembers(schema, upstreams, true);
    return true, ready, preAborted;
  }

  lemma StopIsRight(upstreams: seq<Upstream>, i: nat)
    requires i < |upstreams| && (upstreams[i].serverId == "" || upstreams[i].serverId in Set(ReadyIds(upstreams[..i])))
    ensures !Exact(ReadyIds(upstreams))
  {
    var ids := ReadyIds(upstreams);
    assert ids[i] == upstreams[i].serverId && ids[i] in ids;
    if ids[i] != "" {
      var before := ReadyIds(upstreams[..i]);
      var j :| 0 <= j < |before| && before[j] == ids[i];
      assert ids[j] == ids[i];
    }
  }

  // ----- Settlement -----

  /** One settled upstream: committed, or aborted. */
  datatype Settlement = Settlement(id: Id, commit: bool)

  /** Settles every upstream once, in order; a callback's failure is noted and does not stop the others. */
  method SettleUpstreams(upstreams: seq<Upstream>, accepted: set<Id>) returns (log: seq<Settlement>, failures: seq<Id>)
    ensures |log| == |upstreams|
    ensures forall i :: 0 <= i < |log| ==>
      log[i] == Settlement(upstreams[i].serverId, upstreams[i].serverId in accepted)
    ensures forall id :: id in failures ==> id in ReadyIds(upstreams)
  {
    log, failures := [], [];
    for i := 0 to |upstreams|
      invariant |log| == i
      invariant forall j :: 0 <= j < i ==>
        log[j] == Settlement(upstreams[j].serverId, upstreams[j].serverId in accepted)
      invariant forall id :: id in failures ==> id in ReadyIds(upstreams)
    {
      var id := upstreams[i].serverId;
      log := log + [Settlement(id, id in accepted)];
      var failed := *;
      if failed {
        assert ReadyIds(upstreams)[i] == id;
        failures := failures + [id];
      }
    }
  }

  /** The log names each upstream once, in order, with its decision. */
  predicate Settles(log: seq<Settlement>, upstreams: seq<Upstream>, accepted: set<Id>) {
    && |log| == |upstreams|
    && forall i :: 0 <= i < |log| ==> log[i] == Settlement(upstreams[i].serverId, upstreams[i].serverId in accepted)
  }

  /** The deferred settlement aborts everything, unless the inner one already ran. */
  method SettleDeferred(upstreams: seq<Upstream>, inner: seq<Settlement>, settled: bool) returns (log: seq<Settlement>)
    requires !settled ==> inner == []
    ensures if settled then log == inner else Settles(log, upstreams, {})
  {
    log := inner;
    if !settled {
      var deferred, joined := SettleUpstreams(upstreams, {});
      log := inner + deferred;
    }
  }

  // ----- The wire -----

  ghost function SenderRun(s: Sender, events: seq<SendEvent>): (now: Option<Sender>)
    requires SenderOk(s)
    ensures now.Some? ==> SenderOk(now.value) && now.value.ready == s.ready && now.value.schema == s.schema
  {
    if events == [] then
      Some(s)
    else
      var mid, last := SenderRun(s, events[..|events| - 1]), events[|events| - 1];
      if mid.Some? && SenderEnabled(mid.value, last) then Some(SenderNext(mid.value, last)) else None
  }

  /** What goes out for the announcement and the first `n` upstreams: the metadata, then the handles, in order. */
  function Script(schema: Schema, ready: seq<Upstream>, n: nat): seq<Msg>
    requires n <= |ready|
  {
    if n == 0 then
      [Ready(2, seq(|ready|, i requires 0 <= i < |ready| =>
        UpstreamRef(ready[i].serverId, ready[i].command, ready[i].pid)))]
    else
      Script(schema, ready, n - 1) + Batch(schema, ready[n - 1])
  }

  function Batch(schema: Schema, u: Upstream): seq<Msg> {
    if schema.requiresAuthority then
      [Transfer(2, u.serverId, "stdin", "stdout", "stderr", Some("tree_authority")),
       Handles([u.stdin, u.stdout, u.stderr, u.authority])]
    else
      [Transfer(2, u.serverId, "stdin", "stdout", "stderr", None), Handles([u.stdin, u.stdout, u.stderr])]
  }

  /** All that a sender has written. */
  function Written(s: Sender): seq<Msg>
    requires SenderOk(s)
  {
    match s.phase
    case WriteReady => []
    case WriteMeta => Script(s.schema, s.ready, Turn(s))
    case WriteHandles => Script(s.schema, s.ready, Turn(s)) + Batch(s.schema, s.ready[Turn(s)])[..1]
    case ReadAck => Script(s.schema, s.ready, Turn(s)) + Batch(s.schema, s.ready[Turn(s)])
    case WriteDone => Script(s.schema, s.ready, Turn(s))
    case _ => Script(s.schema, s.ready, Turn(s)) + [Done(2, s.receipted, s.rejected)]
  }

  /** The messages of a run's successful writes. */
  ghost function WireLog(s: Sender, events: seq<SendEvent>): seq<Msg>
    requires SenderOk(s) && SenderRun(s, events).Some?
  {
    if events == [] then
      []
    else
      var mid := SenderRun(s, events[..|events| - 1]).value;
      WireLog(s, events[..|events| - 1]) + if events[|events| - 1] == Wrote(true) then [SenderMessage(mid)] else []
  }

  lemma {:induction false} SenderSnoc(s: Sender, events: seq<SendEvent>, e: SendEvent)
    requires SenderOk(s) && SenderRun(s, events).Some? && SenderEnabled(SenderRun(s, events).value, e)
    ensures var mid := SenderRun(s, events).value;
            && SenderRun(s, events + [e]) == Some(SenderNext(mid, e))
            && WireLog(s, events + [e]) ==
              WireLog(s, events) + if e == Wrote(true) then [SenderMessage(mid)] else []
  {
    assert (events + [e])[..|events|] == events;
  }

  lemma BatchIsSent(schema: Schema, u: Upstream)
    ensures Batch(schema, u) == [MetaOf(schema, u), HandlesOf(schema, u)]
  {
    assert HandlesOf(schema, u).fds == Batch(schema, u)[1].fds;
  }

  lemma WriteGrows(s: Sender)
    requires SenderOk(s) && SenderWrites(s)
    ensures Written(SenderNext(s, Wrote(true))) == Written(s) + [SenderMessage(s)]
  {
    if s.phase.WriteReady? {
      assert Script(s.schema, s.ready, 0) == [Ready(2, RefsOf(s.ready))];
    } else if s.phase.WriteMeta? || s.phase.WriteHandles? {
      BatchIsSent(s.schema, s.ready[Turn(s)]);
    }
  }

  lemma FailureKeeps(s: Sender)
    requires SenderOk(s)
    ensures SenderOk(s.(failed := true)) && Written(s.(failed := true)) == Written(s)
  {
    assert Turn(s.(failed := true)) == Turn(s);
  }

  lemma ReadKeeps(s: Sender, message: Option<Msg>)
    requires SenderOk(s) && SenderReads(s)
    ensures Written(SenderNext(s, Got(message))) == Written(s)
  {
    if SenderNext(s, Got(message)).failed {
      FailureKeeps(s);
    }
  }

  /** After every run a sender has written exactly the script up to where it is. */
  lemma {:induction false} SentIsWritten(s: Sender, events: seq<SendEvent>)
    requires SenderOk(s) && s == InitSender(s.schema, s.ready) && SenderRun(s, events).Some?
    ensures WireLog(s, events) == Written(SenderRun(s, events).value)
    decreases |events|
  {
    if events != [] {
      SentIsWritten(s, events[..|events| - 1]);
      var mid := SenderRun(s, events[..|events| - 1]).value;
      match events[|events| - 1]
      case Wrote(ok) =>
        if ok {
          WriteGrows(mid);
        } else {
          FailureKeeps(mid);
        }
      case Got(message) => ReadKeeps(mid, message);
    }
  }

  /** A write or a read on the wire, with whatever outcome the peer and the transport give it. */
  method WireWrite(m: Msg) returns (ok: bool) {
    ok := *;
  }

  method WireRead() returns (message: Option<Msg>) {
    message := *;
  }

  /** What a message read for a receipt does: an acknowledgment of this identity and version counts, once. */
  lemma ReceiptEffect(s: Sender, message: Option<Msg>)
    requires SenderOk(s) && !s.failed && s.phase.ReadAck?
    ensures var id, s' := s.ready[Turn(s)].serverId, SenderNext(s, Got(message));
            && (!s'.failed <==> message == Some(Ack(2, id, true)) || message == Some(Ack(2, id, false)))
            && s'.receipted == s.receipted + (if !s'.failed && message.value.ok then [id] else [])
            && s'.rejected == s.rejected + (if !s'.failed && !message.value.ok then [id] else [])
            && s'.phase == (if s'.failed then ReadAck else NextTurn(s'))
            && (s'.failed || Turn(s') == Turn(s) + 1)
  {
  }

  /** A sender in its own variables, with the machine state it stands for. */
  class Predecessor {
    const schema: Schema
    const ready: seq<Upstream>
    var phase: SendPhase
    var failed: bool
    var receipted: seq<Id>
    var rejected: seq<Id>
    var accepted: set<Id>
    ghost var history: seq<SendEvent>
    ghost var sent: seq<Msg>

    ghost function St(): Sender
      reads this
    {
      Sender(schema, ready, phase, failed, receipted, rejected, accepted)
    }

    /** Its state is what its history of outcomes makes of a fresh sender, and what went out fits it. */
    ghost predicate Valid()
      reads this
    {
      SenderOk(InitSender(schema, ready)) && SenderRun(InitSender(schema, ready), history) == Some(St())
        && SenderOk(St()) && sent == WireLog(InitSender(schema, ready), history)
    }

    constructor (schema: Schema, ready: seq<Upstream>)
      ensures Valid() && history == [] && St() == InitSender(schema, ready)
      ensures this.schema == schema && this.ready == ready
    {
      this.schema, this.ready := schema, ready;
      phase, failed, receipted, rejected, accepted := WriteReady, false, [], [], {};
      history, sent := [], [];
    }

    /** Writes the message of the current phase and moves on. */
    method Write(m: Msg, next: SendPhase) returns (ok: bool)
      requires Valid() && SenderWrites(St()) && m == SenderMessage(St())
      requires SenderNext(St(), Wrote(true)) == St().(phase := next)
      modifies this
      ensures Valid() && ok == !failed && history == old(history) + [Wrote(ok)]
      ensures sent == old(sent) + if ok then [m] else []
      ensures St() == SenderNext(old(St()), Wrote(ok))
    {
      ok := WireWrite(m);
      SenderSnoc(InitSender(schema, ready), history, Wrote(ok));
      if ok {
        phase, sent := next, sent + [m];
      } else {
        failed := true;
      }
      history := history + [Wrote(ok)];
    }

    /** Reads the receipt of the current turn. */
    method ReadReceipt() returns (message: Option<Msg>)
      requires Valid() && !failed && phase.ReadAck?
      modifies this
      ensures Valid() && history == old(history) + [Got(message)] && St() == SenderNext(old(St()), Got(message))
      ensures failed || Turn(St()) == Turn(old(St())) + 1
      ensures phase == if failed then ReadAck else NextTurn(St())
      ensures var id := ready[Turn(old(St()))].serverId;
              && (!failed <==>
                message == Some(Ack(2, id, true)) || message == Some(Ack(2, id, false)))
              && receipted == old(receipted) + (if !failed && message.value.ok then [id] else [])
              && rejected == old(rejected) + (if !failed && !message.value.ok then [id] else [])
    {
      message := WireRead();
      SenderSnoc(InitSender(schema, ready), history, Got(message));
      ReceiptEffect(St(), message);
      CountReceipt(message);
      history := history + [Got(message)];
    }

    /** Counts an acknowledgment of the current turn's identity; any other message fails the exchange. */
    method CountReceipt(message: Option<Msg>)
      requires SenderOk(St()) && !failed && phase.ReadAck?
      modifies this`failed, this`receipted, this`rejected, this`phase
      ensures St() == SenderNext(old(St()), Got(message))
    {
      var id := ready[|receipted| + |rejected|].serverId;
      if message.None? || !message.value.Ack? || message.value.version != PROTOCOL_VERSION
        || message.value.serverId != id {
        failed := true;
        return;
      }
      if message.value.ok {
        receipted := receipted + [id];
      } else {
        rejected := rejected + [id];
      }
      phase := if |receipted| + |rejected| < |ready| then WriteMeta else WriteDone;
    }

    /** Reads the final acknowledgment and accepts exactly a final partition. */
    method ReadFinalAck() returns (message: Option<Msg>)
      requires Valid() && !failed && phase.ReadFinal?
      modifies this
      ensures Valid() && history == old(history) + [Got(message)] && St() == SenderNext(old(St()), Got(message))
      ensures failed || phase.Committed?
      ensures !failed <==>
                && message.Some? && message.value.FinalAck? && message.value.version == PROTOCOL_VERSION
                && FinalPartition(ReadyIds(ready), receipted, message.value.accepted, message.value.aborted)
      ensures !failed ==> accepted == Set(message.value.accepted)
    {
      message := WireRead();
      SenderSnoc(InitSender(schema, ready), history, Got(message));
      if message.None? || !message.value.FinalAck? || message.value.version != PROTOCOL_VERSION {
        failed := true;
      } else {
        var partition :=
          ValidateFinalPartition(ReadyIds(ready), receipted, message.value.accepted, message.value.aborted);
        if partition.Partition? {
          phase, accepted := Committed, partition.accepted;
        } else {
          failed := true;
        }
      }
      history := history + [Got(message)];
    }

    /** One transfer: metadata, handles, receipt. */
    method SendOne()
      requires Valid() && !failed && phase.WriteMeta?
      modifies this
      ensures Valid() && (failed || Turn(St()) == Turn(old(St())) + 1)
      ensures !failed ==> phase == NextTurn(St())
      ensures failed ==> phase.WriteMeta? || phase.WriteHandles? || phase.ReadAck?
    {
      var u := ready[|receipted| + |rejected|];
      var ok := Write(MetaOf(schema, u), WriteHandles);
      if ok {
        ok := Write(HandlesOf(schema, u), ReadAck);
        if ok {
          var ack := ReadReceipt();
        }
      }
    }

    /** The whole exchange; it ends committed or failed. */
    method Exchange()
      requires Valid() && St() == InitSender(schema, ready)
      modifies this
      ensures Valid() && (failed || phase.Committed?)
      ensures !failed ==> sent == Script(schema, ready, |ready|) + [Done(2, receipted, rejected)]
    {
      var ok := Write(Ready(PROTOCOL_VERSION, RefsOf(ready)), if |ready| == 0 then WriteDone else WriteMeta);
      if !ok {
        return;
      }
      while |receipted| + |rejected| < |ready|
        invariant Valid() && !failed && phase == NextTurn(St())
        decreases |ready| - Turn(St())
      {
        SendOne();
        if failed {
          return;
        }
      }
      ok := Write(Done(PROTOCOL_VERSION, receipted, rejected), ReadFinal);
      if ok {
        var ack := ReadFinalAck();
      }
      SentIsWritten(InitSender(schema, ready), history);
    }
  }

  // ----- The whole handoff -----

  datatype HandoffPhase = AtReady | AtTransfer | AtReceiptAck | AtDoneSend | AtFinalAck | AtCommitted

  datatype HandoffResult = HandoffResult(transferred: seq<Id>, aborted: seq<Id>, phase: HandoffPhase)

  function FailedAt(phase: SendPhase): HandoffPhase {
    match phase
    case WriteReady => AtReady
    case WriteMeta => AtTransfer
    case WriteHandles => AtTransfer
    case ReadAck => AtReceiptAck
    case WriteDone => AtDoneSend
    case _ => AtFinalAck
  }

  /** How one exchange ended for the predecessor, as the machine sees it. */
  ghost predicate Ended(schema: Schema, upstreams: seq<Upstream>, history: seq<SendEvent>, committed: bool,
      accepted: set<Id>) {
    var s := InitSender(schema, Sendables(schema, upstreams, true));
    && SenderRun(s, history).Some?
    && var end := SenderRun(s, history).value;
    && (committed <==> !end.failed)
    && (committed ==> end.phase.Committed? && end.accepted == accepted)
  }

  /** Runs the exchange for the sendable upstreams. */
  method RunExchange(schema: Schema, ghost upstreams: seq<Upstream>, ready: seq<Upstream>)
    returns (committed: bool, phase: SendPhase, rejected: seq<Id>, accepted: set<Id>, ghost history: seq<SendEvent>)
    requires ready == Sendables(schema, upstreams, true)
    ensures Ended(schema, upstreams, history, committed, accepted)
    ensures var end := SenderRun(InitSender(schema, ready), history).value;
            phase == end.phase && rejected == end.rejected
  {
    var sender := new Predecessor(schema, ready);
    sender.Exchange();
    return !sender.failed, sender.phase, sender.rejected, sender.accepted, sender.history;
  }

  /** What the result of an exchange reports. */
  ghost predicate Reports(schema: Schema, upstreams: seq<Upstream>, history: seq<SendEvent>, result: HandoffResult,
      accepted: set<Id>) {
    && Ended(schema, upstreams, history, result.phase.AtCommitted?, accepted)
    && var end := SenderRun(InitSender(schema, Sendables(schema, upstreams, true)), history).value;
    && (result.phase.AtCommitted? ==>
      && result.transferred == Choose(ReadyIds(upstreams), accepted, true)
      && result.aborted == Choose(ReadyIds(upstreams), accepted, false))
    && (!result.phase.AtCommitted? ==>
      && result.transferred == []
      && (result.phase.AtReady? <==> end.phase.WriteReady?)
      && (result.phase.AtTransfer? <==> end.phase.WriteMeta? || end.phase.WriteHandles?)
      && (result.phase.AtReceiptAck? <==> end.phase.ReadAck?)
      && (result.phase.AtDoneSend? <==> end.phase.WriteDone?)
      && result.aborted ==
        if result.phase.AtDoneSend? then ReadyIds(Sendables(schema, upstreams, false)) + end.rejected else [])
  }

  /** The exchange, and the settlement of a committed one. */
  method ExchangeAndSettle(schema: Schema, upstreams: seq<Upstream>, ready: seq<Upstream>, preAborted: seq<Id>)
    returns (result: HandoffResult, accepted: set<Id>, log: seq<Settlement>, failures: seq<Id>,
        ghost history: seq<SendEvent>)
    requires ready == Sendables(schema, upstreams, true) && preAborted == ReadyIds(Sendables(schema, upstreams, false))
    ensures Reports(schema, upstreams, history, result, accepted)
    ensures if result.phase.AtCommitted? then Settles(log, upstreams, accepted) else log == []
    ensures !result.phase.AtCommitted? ==> failures == []
  {
    var committed, phase, rejected;
    committed, phase, rejected, accepted, history := RunExchange(schema, upstreams, ready);
    if !committed {
      var aborted := if phase.WriteDone? then preAborted + rejected else [];
      return HandoffResult([], aborted, FailedAt(phase)), accepted, [], [], history;
    }
    log, failures := SettleUpstreams(upstreams, accepted);
    var transferred := OrderedIds(ReadyIds(upstreams), accepted, true);
    var aborted := OrderedIds(ReadyIds(upstreams), accepted, false);
    result := HandoffResult(transferred, aborted, AtCommitted);
  }

  /**
   The predecessor's handoff. On every exit the settlement log names each upstream once, in
   order: committed if the exchange committed and accepted it, aborted otherwise. The inner
   settlement runs only on the committed path and the deferred one only off it.
   */
  method PerformHandoff(schema: Schema, upstreams: seq<Upstream>)
    returns (result: HandoffResult, error: bool, accepted: set<Id>, log: seq<Settlement>, failures: seq<Id>,
        ghost history: seq<SendEvent>)
    ensures |log| == |upstreams|
    ensures forall i :: 0 <= i < |log| ==>
              log[i].id == upstreams[i].serverId
              && (log[i].commit <==> result.phase.AtCommitted? && upstreams[i].serverId in accepted)
    ensures !Exact(ReadyIds(upstreams)) ==> error && result == HandoffResult([], [], AtReady) && history == []
    ensures Exact(ReadyIds(upstreams)) ==> Reports(schema, upstreams, history, result, accepted)
    ensures !result.phase.AtCommitted? ==> error
    ensures result.phase.AtCommitted? ==> Exact(ReadyIds(upstreams)) && (error <==> failures != [])
  {
    accepted, history, log, failures := {}, [], [], [];
    var ok, ready, preAborted := Prefilter(schema, upstreams);
    if !ok {
      result := HandoffResult([], [], AtReady);
    } else {
      result, accepted, log, failures, history := ExchangeAndSettle(schema, upstreams, ready, preAborted);
    }
    error := !result.phase.AtCommitted? || failures != [];
    log := SettleDeferred(upstreams, log, result.phase.AtCommitted?);
  }

  /** A sender that committed accepted only identities it announced and saw receipted. */
  lemma {:induction false} AcceptedWereReceipted(s: Sender, events: seq<SendEvent>)
    requires SenderOk(s) && s == InitSender(s.schema, s.ready)
    ensures var now := SenderRun(s, events);
            now.Some? ==> now.value.accepted <= Set(now.value.receipted) && now.value.accepted <= Set(ReadyIds(s.ready))
    decreases |events|
  {
    if events != [] {
      AcceptedWereReceipted(s, events[..|events| - 1]);
      var mid := SenderRun(s, events[..|events| - 1]);
      if mid.Some? && SenderEnabled(mid.value, events[|events| - 1]) {
        var next := SenderNext(mid.value, events[|events| - 1]);
        assert forall id :: id in mid.value.receipted ==> id in next.receipted;
      }
    }
  }

  lemma {:induction false} SettledOnce(ids: seq<Id>, log: seq<Settlement>, accepted: set<Id>, id: Id)
    requires |log| == |ids| && NoDuplicates(ids) && id in ids
    requires forall i :: 0 <= i < |log| ==> log[i] == Settlement(ids[i], ids[i] in accepted)
    ensures multiset(log)[Settlement(id, id in accepted)] == 1 && multiset(log)[Settlement(id, id !in accepted)] == 0
    decreases |ids|
  {
    var front, last := ids[..|ids| - 1], ids[|ids| - 1];
    assert ids == front + [last] && log == log[..|front|] + [log[|front|]];
    if id in front {
      SettledOnce(front, log[..|front|], accepted, id);
      assert last != id;
    } else {
      assert id == last;
      assert forall i :: 0 <= i < |front| ==> log[..|front|][i].id == front[i];
    }
  }

  /**
   Exactly-once settlement of a committed handoff: each input identity has one log entry, its
   commit or its abort; the committed ones are those the final acknowledgment accepted, all of
   them announced and receipted; and the two result lists split the input without loss.
   */
  lemma {:induction false} CommittedSettlement(
      schema: Schema, upstreams: seq<Upstream>, history: seq<SendEvent>, accepted: set<Id>, log: seq<Settlement>,
          id: Id)
    requires Exact(ReadyIds(upstreams)) && Ended(schema, upstreams, history, true, accepted)
    requires |log| == |upstreams| && id in ReadyIds(upstreams)
    requires forall i :: 0 <= i < |log| ==>
      log[i] == Settlement(upstreams[i].serverId, upstreams[i].serverId in accepted)
    ensures multiset(log)[Settlement(id, id in accepted)] == 1 && multiset(log)[Settlement(id, id !in accepted)] == 0
    ensures accepted <= Set(ReadyIds(Sendables(schema, upstreams, true))) <= Set(ReadyIds(upstreams))
    ensures var ids := ReadyIds(upstreams);
            multiset(Choose(ids, accepted, true)) + multiset(Choose(ids, accepted, false)) == multiset(ids)
    ensures Set(Choose(ReadyIds(upstreams), accepted, true)) == accepted
  {
    var ids := ReadyIds(upstreams);
    SettledOnce(ids, log, accepted, id);
    AcceptedWereReceipted(InitSender(schema, Sendables(schema, upstreams, true)), history);
    SendableIds(schema, upstreams);
    ChoosePartitions(ids, accepted);
    ChooseSet(ids, accepted, true);
  }
}
