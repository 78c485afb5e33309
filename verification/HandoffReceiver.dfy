/** What the successor keeps against any peer: exact receipts and conserved handles. */
module HandoffReceiver {
  import opened Options
  import opened HandoffProto
  import opened HandoffEndpoints

  // ----- Receipts -----

  predicate InTransfer(r: Receiver) {
    r.phase.ReadMeta? || r.phase.ReadHandles? || r.phase.WriteReceipt?
  }

  /** Receipts: disjoint parts of the announcement, one more identity decided per turn. */
  ghost predicate ReceiptsOk(r: Receiver) {
    && ValidReady(r.refs) && r.turn <= |r.refs|
    && r.received.Keys <= Set(Order(r.refs)) && r.rejected <= Set(Order(r.refs)) && r.received.Keys !! r.rejected
    && |r.received.Keys| + |r.rejected| == r.turn + (if r.phase.WriteReceipt? && Stored(r) then 1 else 0)
    && (r.phase.ReadReady? ==> r.refs == [] && r.turn == 0)
    && (InTransfer(r) ==> r.turn < |r.refs|)
    && (!InTransfer(r) && !r.phase.ReadReady? ==> r.turn == |r.refs|)
  }

  /** Handles: every batch that arrived is closed once, handed out once, or still owned. */
  ghost predicate BatchesOk(r: Receiver) {
    && (forall id :: id in r.received ==> r.received[id].batch < |r.fates|)
    && (forall a, b :: a in r.received && b in r.received && a != b ==> r.received[a].batch != r.received[b].batch)
    && r.owned <= r.received.Keys && r.taken <= r.received.Keys
    && (forall b :: 0 <= b < |r.fates| ==>
      r.fates[b].closed + r.fates[b].handed == if b in OwnedBatches(r) then 0 else 1)
    && (forall id :: id in r.taken ==> id !in r.owned && r.fates[r.received[id].batch].handed == 1)
    && (r.failed || r.finalized ==> r.owned == {})
  }

  ghost predicate ReceiverInv(r: Receiver) {
    && ValidSchema(r.schema) && ReceiptsOk(r) && BatchesOk(r)
    && r.accepted <= r.taken
    && (!r.failed && !r.finalized ==> forall id :: id in r.received ==> id in r.owned || id in r.taken)
    && (r.phase.WriteFinal? || r.phase.Finalized? ==> r.finalized)
    && (InTransfer(r) || r.phase.ReadReady? || r.phase.ReadDone? ==> !r.finalized && r.taken == {} && r.accepted == {})
  }

  lemma InitReceiverInv(schema: Schema)
    requires ValidSchema(schema)
    ensures ReceiverInv(InitReceiver(schema))
  {
    var r := InitReceiver(schema);
    assert OwnedBatches(r) == {};
    assert Order(r.refs) == [];
  }

  lemma FailInv(r: Receiver)
    requires ReceiverInv(r)
    ensures ReceiverInv(Fail(r))
  {
    assert OwnedBatches(Fail(r)) == {};
  }

  lemma TakeReadyInv(r: Receiver, message: Option<Msg>)
    requires ReceiverInv(r) && r.phase.ReadReady? && !r.failed
    ensures ReceiverInv(TakeReady(r, message))
  {
    FailInv(r);
    assert Set(Order(r.refs)) == {};
    var next := TakeReady(r, message);
    if !next.failed {
      assert OwnedBatches(next) == OwnedBatches(r);
    }
  }

  lemma StoreInv(r: Receiver, fds: seq<Handle>)
    requires ReceiverInv(r) && r.phase.ReadHandles? && !r.failed && ValidTransfer(r, fds, false)
    ensures ReceiverInv(TakeBatch(r, fds, false))
  {
    var next := TakeBatch(r, fds, false);
    var id := r.meta.serverId;
    assert next.received.Keys == r.received.Keys + {id};
    assert Stored(next);
    StoreBatches(r, next, id);
  }

  lemma StoreBatches(r: Receiver, next: Receiver, id: Id)
    requires BatchesOk(r) && id !in r.received && id in next.received && next.received[id].batch == |r.fates|
    requires next ==
      r.(phase := next.phase, fates := r.fates + [Fate(0, 0)], owned := r.owned + {id}, received := next.received)
    requires next.received == r.received[id := next.received[id]] && !r.failed && !r.finalized
    ensures BatchesOk(next)
  {
    assert OwnedBatches(next) == OwnedBatches(r) + {|r.fates|};
  }

  lemma RefuseInv(r: Receiver, fds: seq<Handle>, error: bool)
    requires ReceiverInv(r) && r.phase.ReadHandles? && !r.failed && !ValidTransfer(r, fds, error)
    ensures ReceiverInv(TakeBatch(r, fds, error)) && !Stored(TakeBatch(r, fds, error))
  {
    var next := TakeBatch(r, fds, error);
    assert OwnedBatches(next) == OwnedBatches(r);
  }

  /** A verdict that went out counts its turn, and a refusal joins the rejected identities. */
  lemma {:induction false} VerdictReceipts(r: Receiver)
    requires ReceiptsOk(r) && r.phase.WriteReceipt? && !r.failed && !SendReceipt(r).failed
    ensures ReceiptsOk(SendReceipt(r))
  {
    var next := SendReceipt(r);
    if !Stored(r) {
      assert next.rejected == r.rejected + {NamedId(r.meta)};
    }
  }

  lemma SameBatches(r: Receiver, next: Receiver)
    requires BatchesOk(r) && next.received == r.received && next.owned == r.owned && next.taken == r.taken
      && next.fates == r.fates
    requires next.failed == r.failed && next.finalized == r.finalized
    ensures BatchesOk(next)
  {
    assert OwnedBatches(next) == OwnedBatches(r);
  }

  lemma SendReceiptInv(r: Receiver)
    requires ReceiverInv(r) && r.phase.WriteReceipt? && !r.failed
    ensures ReceiverInv(SendReceipt(r))
  {
    if SendReceipt(r).failed {
      FailInv(r);
    } else {
      VerdictReceipts(r);
      SameBatches(r, SendReceipt(r));
    }
  }

  lemma TakeOutBatches(r: Receiver, id: Id)
    requires BatchesOk(r) && id in r.owned
    ensures BatchesOk(TakeOut(r, id))
  {
    var next := TakeOut(r, id);
    var batch := r.received[id].batch;
    assert OwnedBatches(r) == OwnedBatches(next) + {batch};
    assert batch !in OwnedBatches(next);
    forall other | other in next.taken
      ensures other !in next.owned && next.fates[next.received[other].batch].handed == 1
    {
      assert r.fates[batch].handed == 0;
    }
  }

  lemma TakeOutInv(r: Receiver, id: Id)
    requires ReceiverInv(r) && (r.phase.Prepared? || r.phase.Finalized?)
    ensures ReceiverInv(TakeOut(r, id))
  {
    if id in r.owned {
      TakeOutBatches(r, id);
    }
  }

  lemma {:induction false} BeginFinalInv(r: Receiver, accepted: seq<Id>)
    requires ReceiverInv(r) && (r.phase.Prepared? || r.phase.Finalized?)
    ensures ReceiverInv(BeginFinal(r, accepted))
  {
    if !r.finalized {
      var next := BeginFinal(r, accepted);
      assert OwnedBatches(next) == {};
    }
  }

  lemma ReadInv(r: Receiver, message: Option<Msg>)
    requires ReceiverInv(r) && ReceiverReads(r)
    ensures ReceiverInv(ReceiverNext(r, Read(message)))
  {
    FailInv(r);
    if r.phase.ReadReady? {
      TakeReadyInv(r, message);
    } else if message.Some? {
      assert OwnedBatches(r.(phase := ReadHandles, meta := message.value)) == OwnedBatches(r);
      assert OwnedBatches(r.(phase := Prepared)) == OwnedBatches(r);
    }
  }

  lemma SentInv(r: Receiver, ok: bool)
    requires ReceiverInv(r) && ReceiverWrites(r)
    ensures ReceiverInv(ReceiverNext(r, Sent(ok)))
  {
    if r.phase.WriteReceipt? {
      FailInv(r);
      SendReceiptInv(r);
    } else {
      assert OwnedBatches(r.(phase := Finalized, failed := !ok)) == OwnedBatches(r);
    }
  }

  lemma {:induction false} ReceiverNextInv(r: Receiver, e: ReceiveEvent)
    requires ReceiverInv(r) && ReceiverEnabled(r, e)
    ensures ReceiverInv(ReceiverNext(r, e))
  {
    match e
    case Read(message) => ReadInv(r, message);
    case Recv(fds, error) =>
      if ValidTransfer(r, fds, error) {
        StoreInv(r, fds);
      } else {
        RefuseInv(r, fds, error);
      }
    case Sent(ok) => SentInv(r, ok);
    case Take(id) => TakeOutInv(r, id);
    case Finalize(accepted) => BeginFinalInv(r, accepted);
    case Abort =>
      FailInv(r);
      assert OwnedBatches(Fail(r).(finalized := true, phase := Finalized)) == {};
  }

  // ----- What is received -----

  /** An announced identity determines its announcement. */
  lemma RefOf(refs: seq<UpstreamRef>, i: nat, j: nat)
    requires ValidReady(refs) && i < |refs| && j < |refs| && refs[i].serverId == refs[j].serverId
    ensures i == j
  {
    var order := Order(refs);
    assert order[i] == order[j];
  }

  /** A batch is stored as the upstream that its announcement and its handles make. */
  lemma BuiltAsAnnounced(r: Receiver, fds: seq<Handle>, ref: UpstreamRef, u: Upstream)
    requires ValidSchema(r.schema) && ValidReady(r.refs) && ValidTransfer(r, fds, false)
    requires ref in r.refs && ref.serverId == r.meta.serverId
    requires u == Upstream(r.meta.serverId, ref.command, ref.pid, fds[0], fds[1], fds[2],
                           if r.schema.requiresAuthority then fds[3] else 0)
    ensures UpstreamOf(r, fds) == u
  {
    forall i, j | 0 <= i < |r.refs| && 0 <= j < |r.refs| && r.refs[i].serverId == r.refs[j].serverId
      ensures i == j
    {
      RefOf(r.refs, i, j);
    }
  }

  /** Every received upstream was announced, and is one that the receiver could announce in turn. */
  ghost predicate Usable(r: Receiver) {
    forall id :: id in r.received ==>
      var u := r.received[id].upstream;
      u.serverId == id && Sendable(r.schema, u) && UpstreamRef(id, u.command, u.pid) in r.refs
  }

  lemma {:induction false} StoredIsUsable(r: Receiver, fds: seq<Handle>)
    requires ValidSchema(r.schema) && ValidReady(r.refs) && ValidTransfer(r, fds, false)
    ensures var u := UpstreamOf(r, fds);
            Sendable(r.schema, u) && UpstreamRef(r.meta.serverId, u.command, u.pid) in r.refs
  {
    var i :| 0 <= i < |r.refs| && Order(r.refs)[i] == r.meta.serverId;
    var ref := r.refs[i];
    var authority := if r.schema.requiresAuthority then fds[3] else 0;
    BuiltAsAnnounced(r, fds, ref, Upstream(ref.serverId, ref.command, ref.pid, fds[0], fds[1], fds[2], authority));
  }

  /** Only a batch changes what was received, and only a first announcement what was announced. */
  lemma {:induction false} KeepsReceived(r: Receiver, e: ReceiveEvent)
    requires ValidSchema(r.schema) && ReceiverEnabled(r, e) && !e.Recv?
    ensures ReceiverNext(r, e).received == r.received
    ensures r.phase.ReadReady? || ReceiverNext(r, e).refs == r.refs
  {
  }

  lemma {:induction false} UsableStep(r: Receiver, e: ReceiveEvent)
    requires ReceiverInv(r) && ReceiverEnabled(r, e) && Usable(r)
    ensures Usable(ReceiverNext(r, e))
  {
    if !e.Recv? {
      assert r.phase.ReadReady? ==> r.received.Keys <= {};
      KeepsReceived(r, e);
    } else if ValidTransfer(r, e.fds, e.error) {
      StoredIsUsable(r, e.fds);
    }
  }

  // ----- Runs against an arbitrary peer -----

  /** The state a sequence of outcomes leads to, if each was possible. */
  ghost function ReceiverRun(r: Receiver, events: seq<ReceiveEvent>): (now: Option<Receiver>)
    requires ValidSchema(r.schema)
    ensures now.Some? ==> now.value.schema == r.schema
  {
    if events == [] then
      Some(r)
    else
      var mid, last := ReceiverRun(r, events[..|events| - 1]), events[|events| - 1];
      if mid.Some? && ReceiverEnabled(mid.value, last) then Some(ReceiverNext(mid.value, last)) else None
  }

  lemma {:induction false} ReceiverRunInv(schema: Schema, events: seq<ReceiveEvent>)
    requires ValidSchema(schema) && ReceiverRun(InitReceiver(schema), events).Some?
    ensures ReceiverInv(ReceiverRun(InitReceiver(schema), events).value)
    decreases |events|
  {
    if events == [] {
      InitReceiverInv(schema);
    } else {
      ReceiverRunInv(schema, events[..|events| - 1]);
      ReceiverNextInv(ReceiverRun(InitReceiver(schema), events[..|events| - 1]).value, events[|events| - 1]);
    }
  }

  lemma ReceiptsPartition(r: Receiver)
    requires ReceiptsOk(r) && !InTransfer(r) && !r.phase.ReadReady?
    ensures r.received.Keys !! r.rejected && r.received.Keys + r.rejected == Set(Order(r.refs))
  {
    ExactSize(Order(r.refs));
    PartitionByCount(Set(Order(r.refs)), r.received.Keys, r.rejected);
  }

  /**
   Receipts are exact: whatever arrived, a receiver that got past its receive loop has received
   or rejected every announced identity, none both, and nothing else.
   */
  lemma {:induction false} ReceiptsPartitionReady(schema: Schema, events: seq<ReceiveEvent>)
    requires ValidSchema(schema)
    ensures var now := ReceiverRun(InitReceiver(schema), events);
            now.Some? && !InTransfer(now.value) && !now.value.phase.ReadReady? ==>
              && now.value.received.Keys !! now.value.rejected
              && now.value.received.Keys + now.value.rejected == Set(Order(now.value.refs))
  {
    var now := ReceiverRun(InitReceiver(schema), events);
    if now.Some? && !InTransfer(now.value) && !now.value.phase.ReadReady? {
      ReceiverRunInv(schema, events);
      ReceiptsPartition(now.value);
    }
  }

  lemma {:induction false} UsableRun(schema: Schema, events: seq<ReceiveEvent>)
    requires ValidSchema(schema) && ReceiverRun(InitReceiver(schema), events).Some?
    ensures Usable(ReceiverRun(InitReceiver(schema), events).value)
    decreases |events|
  {
    if events != [] {
      var front := events[..|events| - 1];
      UsableRun(schema, front);
      ReceiverRunInv(schema, front);
      UsableStep(ReceiverRun(InitReceiver(schema), front).value, events[|events| - 1]);
    }
  }

  /**
   Whatever the peer sends, every received upstream was announced with its command and its process
   number, is no native owner, and has all the handles of the transport, none of them missing.
   */
  lemma {:induction false} ReceivedAreUsable(schema: Schema, events: seq<ReceiveEvent>, id: Id)
    requires ValidSchema(schema)
    ensures var now := ReceiverRun(InitReceiver(schema), events);
            now.Some? && id in now.value.received ==>
              var u := now.value.received[id].upstream;
              && u.serverId == id && id != "" && !(NATIVE_PREFIX <= id) && u.pid > 0
              && UpstreamRef(id, u.command, u.pid) in now.value.refs
              && u.stdin != 0 && u.stdout != 0 && u.stderr != 0 && (u.authority != 0 <==> schema.requiresAuthority)
  {
    if ReceiverRun(InitReceiver(schema), events).Some? {
      UsableRun(schema, events);
      ReceiverRunInv(schema, events);
    }
  }

  /**
   Handles are conserved: under any sequence of transfers, takes, finalization and abort, every
   batch that arrived has been closed once, or handed out once, or is owned, and never two of
   these; a receipt that failed, finalized or aborted owns none.
   */
  lemma {:induction false} HandlesConserved(schema: Schema, events: seq<ReceiveEvent>, batch: nat)
    requires ValidSchema(schema)
    ensures var now := ReceiverRun(InitReceiver(schema), events);
            now.Some? && batch < |now.value.fates| ==>
              var fate := now.value.fates[batch];
              && (batch in OwnedBatches(now.value) ==> fate == Fate(0, 0) && !now.value.failed && !now.value.finalized)
              && (batch !in OwnedBatches(now.value) ==> fate == Fate(1, 0) || fate == Fate(0, 1))
  {
    if ReceiverRun(InitReceiver(schema), events).Some? {
      ReceiverRunInv(schema, events);
    }
  }
}
