/** The successor's receipt in the source's own form: an object whose methods update its fields. */
module HandoffReceipt {
  import opened Options
  import opened HandoffProto
  import opened HandoffPartition
  import opened HandoffEndpoints
  import opened HandoffReceiver

  /** What a history of outcomes makes of a fresh receiver. */
  ghost predicate Reached(schema: Schema, history: seq<ReceiveEvent>, r: Receiver) {
    ValidSchema(schema) && ReceiverRun(InitReceiver(schema), history) == Some(r)
  }

  lemma ReachedNext(schema: Schema, history: seq<ReceiveEvent>, r: Receiver, e: ReceiveEvent)
    requires Reached(schema, history, r) && ReceiverEnabled(r, e)
    ensures Reached(schema, history + [e], ReceiverNext(r, e))
  {
    assert (history + [e])[..|history|] == history;
  }

  lemma ReachedInv(schema: Schema, history: seq<ReceiveEvent>, r: Receiver)
    requires Reached(schema, history, r)
    ensures ReceiverInv(r)
  {
    ReceiverRunInv(schema, history);
  }

  lemma ValidExactly(refs: seq<UpstreamRef>)
    ensures ValidReady(refs) <==>
      && (forall ref :: ref in refs ==> ref.serverId != "" && !(NATIVE_PREFIX <= ref.serverId) && ref.pid > 0)
      && (forall i, j :: 0 <= i < j < |refs| ==> refs[i].serverId != refs[j].serverId)
  {
    assert forall i :: 0 <= i < |refs| ==> Order(refs)[i] == refs[i].serverId && refs[i] in refs;
  }

  method ValidateReady(refs: seq<UpstreamRef>) returns (ok: bool)
    ensures ok <==> ValidReady(refs)
    ensures ok <==>
      && (forall ref :: ref in refs ==> ref.serverId != "" && !(NATIVE_PREFIX <= ref.serverId) && ref.pid > 0)
      && (forall i, j :: 0 <= i < j < |refs| ==> refs[i].serverId != refs[j].serverId)
  {
    ValidExactly(refs);
    var seen: set<Id> := {};
    for i := 0 to |refs|
      invariant ValidReady(refs[..i]) && seen == Set(Order(refs[..i]))
    {
      var ref := refs[i];
      assert refs[..i + 1] == refs[..i] + [ref];
      assert Order(refs[..i + 1]) == Order(refs[..i]) + [ref.serverId];
      ExactSnoc(Order(refs[..i]), ref.serverId);
      if IsModern(ref.serverId) || ref.serverId == "" || ref.pid <= 0 || ref.serverId in seen {
        if ValidReady(refs) {
          ValidPrefix(refs, i + 1);
        }
        return false;
      }
      seen := seen + {ref.serverId};
    }
    assert refs[..|refs|] == refs;
    return true;
  }

  lemma ValidPrefix(refs: seq<UpstreamRef>, n: nat)
    requires ValidReady(refs) && n <= |refs|
    ensures ValidReady(refs[..n])
  {
    assert Order(refs[..n]) == Order(refs)[..n];
    assert forall id :: id in Order(refs)[..n] ==> id in Order(refs);
  }

  method WireRead() returns (message: Option<Msg>) {
    message := *;
  }

  method WireWrite(m: Msg) returns (ok: bool) {
    ok := *;
  }

  method WireRecv() returns (fds: seq<Handle>, error: bool) {
    fds, error := *, *;
  }

  /** The part of the batch invariant that closing needs: numbers in range, none shared. */
  ghost predicate Numbered(received: map<Id, Parcel>, n: nat) {
    && (forall id :: id in received ==> received[id].batch < n)
    && (forall a, b :: a in received && b in received && a != b ==> received[a].batch != received[b].batch)
  }

  lemma ClosingOneMore(fates: seq<Fate>, received: map<Id, Parcel>, done: set<Id>, id: Id)
    requires Numbered(received, |fates|) && done <= received.Keys && id in received && id !in done
    ensures var was, batch := Closing(fates, BatchesOf(done, received)), received[id].batch;
            Closing(fates, BatchesOf(done + {id}, received)) ==
              was[batch := was[batch].(closed := was[batch].closed + 1)]
  {
    assert BatchesOf(done + {id}, received) == BatchesOf(done, received) + {received[id].batch};
    assert received[id].batch !in BatchesOf(done, received);
  }

  class Receipt {
    const schema: Schema
    var phase: ReceivePhase
    var failed: bool
    var refs: seq<UpstreamRef>
    var turn: nat
    var meta: Msg
    var received: map<Id, Parcel>
    var rejected: set<Id>
    var owned: set<Id>
    var taken: set<Id>
    var finalized: bool
    var accepted: set<Id>
    var fates: seq<Fate>

    ghost function St(): Receiver
      reads this
    {
      Receiver(schema, phase, failed, refs, turn, meta, received, rejected, owned, taken, finalized, accepted, fates)
    }

    constructor (schema: Schema)
      ensures St() == InitReceiver(schema)
    {
      this.schema := schema;
      phase, failed, refs, turn, meta := ReadReady, false, [], 0, Handles([]);
      received, rejected, owned, taken, finalized, accepted, fates := map[], {}, {}, {}, false, {}, [];
    }

    /** Closes each batch that is still owned, once. */
    method CloseOwnedHandles()
      requires owned <= received.Keys && Numbered(received, |fates|)
      modifies this`owned, this`fates
      ensures St() == CloseOwned(old(St()))
    {
      var before := fates;
      ghost var done: set<Id> := {};
      while owned != {}
        invariant owned + done == old(owned) && owned !! done && fates == Closing(before, BatchesOf(done, received))
        decreases owned
      {
        var id :| id in owned;
        var batch := received[id].batch;
        ClosingOneMore(before, received, done, id);
        fates := fates[batch := fates[batch].(closed := fates[batch].closed + 1)];
        owned, done := owned - {id}, done + {id};
      }
      assert done == old(owned);
    }

    /** Hands one owned upstream out; a second take, or one after the receipt closed it, gets nothing. */
    method TakeUpstream(id: Id) returns (u: Option<Upstream>)
      modifies this`owned, this`taken, this`fates
      ensures St() == TakeOut(old(St()), id)
      ensures u.Some? <==> id in received && id in old(owned)
      ensures u.Some? ==> u.value == received[id].upstream && id in taken && id !in owned
    {
      if id !in received || id !in owned {
        return None;
      }
      owned, taken, fates := owned - {id}, taken + {id}, Handing(fates, received[id].batch);
      return Some(received[id].upstream);
    }

    /** Gives the receipt up: once, and never after a finalization. */
    method AbortReceipt()
      requires BatchesOk(St())
      modifies this`owned, this`fates, this`failed, this`finalized, this`phase
      ensures St() == if old(finalized) then old(St()) else Fail(old(St())).(finalized := true, phase := Finalized)
    {
      if finalized {
        return;
      }
      finalized := true;
      CloseOwnedHandles();
      failed, phase := true, Finalized;
    }

    /** The received upstreams in announced order. */
    method Upstreams() returns (ids: seq<Id>, upstreams: seq<Upstream>)
      ensures ids == Choose(Order(refs), received.Keys, true) && |upstreams| == |ids|
      ensures forall i :: 0 <= i < |ids| ==> ids[i] in received && upstreams[i] == received[ids[i]].upstream
    {
      ids, upstreams := [], [];
      var order := Order(refs);
      for i := 0 to |order|
        invariant ids == Choose(order[..i], received.Keys, true) && |upstreams| == |ids|
        invariant forall j :: 0 <= j < |ids| ==> ids[j] in received && upstreams[j] == received[ids[j]].upstream
      {
        assert order[..i + 1] == order[..i] + [order[i]];
        ChooseSnoc(order[..i], order[i], received.Keys, true);
        if order[i] in received {
          ids, upstreams := ids + [order[i]], upstreams + [received[order[i]].upstream];
        }
      }
      assert order[..|order|] == order;
    }

    /** Takes every listed upstream of a prepared receipt that owns them all; each take succeeds. */
    method TakeAll(ids: seq<Id>, ghost front: seq<ReceiveEvent>) returns (ok: bool, ghost history: seq<ReceiveEvent>)
      requires Reached(schema, front, St()) && phase.Prepared? && NoDuplicates(ids)
      requires forall id :: id in ids ==> id in received && id in owned
      modifies this`owned, this`taken, this`fates
      ensures Reached(schema, history, St()) && ok
      ensures taken == old(taken) + Set(ids)
    {
      history := front;
      for i := 0 to |ids|
        invariant Reached(schema, history, St()) && taken == old(taken) + Set(ids[..i])
        invariant forall j :: i <= j < |ids| ==> ids[j] in owned
      {
        assert ids[..i + 1] == ids[..i] + [ids[i]];
        ReachedNext(schema, history, St(), Take(ids[i]));
        history := history + [Take(ids[i])];
        var u := TakeUpstream(ids[i]);
        if u.None? {
          return false, history;
        }
      }
      assert ids[..|ids|] == ids;
      return true, history;
    }

    /** Whether every accepted identity was taken. */
    method AllTaken(ids: set<Id>) returns (ok: bool)
      ensures ok <==> ids <= taken
    {
      var outside := FirstOutside(ids, taken, true);
      return outside.None?;
    }

    /** The decision before the acknowledgment goes out; what is still owned is closed either way. */
    method Decide(ids: seq<Id>) returns (ok: bool)
      requires BatchesOk(St()) && !finalized
      modifies this`owned, this`fates, this`finalized, this`failed, this`phase, this`accepted
      ensures St() == BeginFinal(old(St()), ids)
      ensures ok <==> Exact(ids) && Set(ids) <= taken
    {
      var acceptedSet := ExactIdSet(ids);
      ok := false;
      if acceptedSet.Some? {
        ok := AllTaken(acceptedSet.value);
      }
      CloseOwnedHandles();
      finalized := true;
      if ok {
        accepted, phase := acceptedSet.value, WriteFinal;
      } else {
        failed, phase := true, Finalized;
      }
    }

    /**
     Decides the handoff: every accepted identity must have been taken; what is still owned is
     closed; and the acknowledgment splits the announced identities in order.
     */
    method FinalizeReceipt(ids: seq<Id>) returns (ok: bool, ack: Option<Msg>)
      requires BatchesOk(St())
      modifies this`owned, this`fates, this`finalized, this`failed, this`phase, this`accepted
      ensures old(finalized) ==> !ok && ack.None? && St() == old(St())
      ensures !old(finalized) && !(Exact(ids) && Set(ids) <= taken) ==>
        !ok && ack.None? && St() == BeginFinal(old(St()), ids)
      ensures !old(finalized) && Exact(ids) && Set(ids) <= taken ==>
                && St() == BeginFinal(old(St()), ids).(phase := Finalized, failed := !ok)
                && ack == Some(FinalAck(PROTOCOL_VERSION, Choose(Order(refs), Set(ids), true),
                    Choose(Order(refs), Set(ids), false)))
    {
      if finalized {
        return false, None;
      }
      ok := Decide(ids);
      if !ok {
        return false, None;
      }
      var orderedAccepted := OrderedIds(Order(refs), accepted, true);
      var aborted := OrderedIds(Order(refs), accepted, false);
      ack := Some(FinalAck(PROTOCOL_VERSION, orderedAccepted, aborted));
      ok := WireWrite(ack.value);
      phase, failed := Finalized, !ok;
    }

    /** Takes every listed upstream and accepts them all; only the acknowledgment can still fail. */
    method AdoptAll(ids: seq<Id>, ghost front: seq<ReceiveEvent>) returns (ok: bool, ghost history: seq<ReceiveEvent>)
      requires Reached(schema, front, St()) && phase.Prepared? && !finalized && !failed && taken == {} && Exact(ids)
      requires forall id :: id in ids ==> id in received && id in owned
      modifies this`owned, this`taken, this`fates, this`finalized, this`failed, this`phase, this`accepted
      ensures Reached(schema, history, St()) && owned == {} && taken == accepted == Set(ids) && ok == !failed
    {
      ok, history := TakeAll(ids, front);
      ReachedInv(schema, history, St());
      ghost var was := St();
      var ack;
      ok, ack := FinalizeReceipt(ids);
      ReachedNext(schema, history, was, Finalize(ids));
      ReachedNext(schema, history + [Finalize(ids)], BeginFinal(was, ids), Sent(ok));
      history := history + [Finalize(ids)] + [Sent(ok)];
    }

    /** Adopts everything a prepared receipt received. */
    method AdoptReceived(ghost front: seq<ReceiveEvent>)
      returns (ok: bool, upstreams: seq<Upstream>, ghost history: seq<ReceiveEvent>)
      requires Reached(schema, front, St()) && phase.Prepared? && !finalized && !failed && taken == {}
        && owned == received.Keys
      modifies this`owned, this`taken, this`fates, this`finalized, this`failed, this`phase, this`accepted
      ensures Reached(schema, history, St()) && owned == {} && taken == accepted == received.Keys && ok == !failed
      ensures Lists(upstreams, St())
    {
      var ids;
      ids, upstreams := Upstreams();
      ReachedInv(schema, front, St());
      ListedReceipts(St());
      ChooseExact(Order(refs), received.Keys, true);
      ok, history := AdoptAll(ids, front);
    }

    // ----- Receiving -----

    /** A failed receive closes what it owns before it reports. */
    method FailReceive()
      requires BatchesOk(St())
      modifies this`owned, this`fates, this`failed
      ensures St() == Fail(old(St()))
    {
      CloseOwnedHandles();
      failed := true;
    }

    method ReadAnnouncement() returns (ghost e: ReceiveEvent)
      requires ValidSchema(schema) && BatchesOk(St()) && !failed && phase.ReadReady?
      modifies this
      ensures e.Read? && St() == ReceiverNext(old(St()), e)
      ensures var m := e.message;
              && (!failed <==>
                m.Some? && m.value.Ready? && m.value.version == PROTOCOL_VERSION && ValidReady(m.value.upstreams))
              && (!failed ==> refs == m.value.upstreams)
    {
      var message := WireRead();
      e := Read(message);
      var ok := message.Some? && message.value.Ready? && message.value.version == PROTOCOL_VERSION;
      if ok {
        ok := ValidateReady(message.value.upstreams);
      }
      if !ok {
        FailReceive();
        return;
      }
      refs := message.value.upstreams;
      phase := if turn < |refs| then ReadMeta else ReadDone;
    }

    method ReadMetadata() returns (ghost e: ReceiveEvent)
      requires ValidSchema(schema) && BatchesOk(St()) && !failed && phase.ReadMeta?
      modifies this
      ensures e.Read? && St() == ReceiverNext(old(St()), e) && (failed || phase.ReadHandles?)
    {
      var message := WireRead();
      e := Read(message);
      if message.None? {
        FailReceive();
      } else {
        phase, meta := ReadHandles, message.value;
      }
    }

    /** The announcement of an identity, if there is one. */
    method FindRef(id: Id) returns (ref: Option<UpstreamRef>)
      ensures ref.None? <==> id !in Order(refs)
      ensures ref.None? <==> forall other :: other in refs ==> other.serverId != id
      ensures ref.Some? ==> ref.value in refs && ref.value.serverId == id
    {
      for i := 0 to |refs|
        invariant forall j :: 0 <= j < i ==> refs[j].serverId != id
      {
        if refs[i].serverId == id {
          assert Order(refs)[i] == id;
          return Some(refs[i]);
        }
      }
      return None;
    }

    /** The transfer test, in the source's order, on the batch that arrived. */
    method ValidateTransfer(fds: seq<Handle>, error: bool) returns (ref: Option<UpstreamRef>)
      ensures ref.Some? <==> ValidTransfer(St(), fds, error)
      ensures ref.Some? <==>
        && meta.Transfer? && meta.version == 2 && (exists ref :: ref in refs && ref.serverId == meta.serverId)
        && meta.serverId !in received && meta.serverId !in rejected && !error && |fds| == schema.count
        && meta.stdin == "stdin" && meta.stdout == "stdout" && meta.stderr == "stderr"
        && (if schema.requiresAuthority then meta.authority == Some("tree_authority") else meta.authority.None?)
        && forall fd :: fd in fds ==> fd != 0
      ensures ref.Some? ==> ref.value in refs && ref.value.serverId == meta.serverId
    {
      if !meta.Transfer? || meta.version != PROTOCOL_VERSION {
        return None;
      }
      ref := FindRef(meta.serverId);
      if ref.None? || meta.serverId in received || meta.serverId in rejected || error || |fds| != schema.count {
        return None;
      }
      if meta.stdin != "stdin" || meta.stdout != "stdout" || meta.stderr != "stderr" {
        return None;
      }
      if schema.requiresAuthority {
        if meta.authority != Some("tree_authority") {
          return None;
        }
      } else if meta.authority.Some? {
        return None;
      }
      for i := 0 to |fds|
        invariant 0 !in fds[..i]
      {
        if fds[i] == 0 {
          return None;
        }
      }
      assert fds[..|fds|] == fds;
    }

    method ReceiveBatch() returns (ghost e: ReceiveEvent)
      requires ValidSchema(schema) && ValidReady(refs) && !failed && phase.ReadHandles?
      modifies this
      ensures e.Recv? && St() == ReceiverNext(old(St()), e) && phase.WriteReceipt? && !failed
      ensures ValidTransfer(old(St()), e.fds, e.error) ==>
        && received.Keys == old(received.Keys) + {meta.serverId} && owned == old(owned) + {meta.serverId}
        && var u := received[meta.serverId].upstream;
           && u.stdin == e.fds[0] && u.stdout == e.fds[1] && u.stderr == e.fds[2]
           && u.authority == if schema.requiresAuthority then e.fds[3] else 0
      ensures !ValidTransfer(old(St()), e.fds, e.error) ==> received == old(received) && owned == old(owned)
    {
      var fds, error := WireRecv();
      e := Recv(fds, error);
      var ref := ValidateTransfer(fds, error);
      if ref.None? {
        fates := fates + [Fate(1, 0)];
      } else {
        var u := Upstream(meta.serverId, ref.value.command, ref.value.pid, fds[0], fds[1], fds[2],
                          if schema.requiresAuthority then fds[3] else 0);
        BuiltAsAnnounced(St(), fds, ref.value, u);
        received := received[meta.serverId := Parcel(u, |fates|)];
        owned := owned + {meta.serverId};
        fates := fates + [Fate(0, 0)];
      }
      phase := WriteReceipt;
    }

    /** Sends the verdict; a refusal of an unknown or repeated identity ends the receive. */
    method SendVerdict() returns (ghost e: ReceiveEvent, ack: Msg)
      requires ValidSchema(schema) && BatchesOk(St()) && !failed && phase.WriteReceipt?
      modifies this
      ensures e.Sent? && St() == ReceiverNext(old(St()), e) && ack == ReceiverMessage(old(St()))
    {
      var id := NamedId(meta);
      var stored := id in received && received[id].batch + 1 == |fates|;
      ack := Ack(PROTOCOL_VERSION, id, stored);
      var ok := WireWrite(ack);
      e := Sent(ok);
      var ref := FindRef(id);
      if !ok || (!stored && (ref.None? || id in received || id in rejected)) {
        FailReceive();
        return;
      }
      if !stored {
        rejected := rejected + {id};
      }
      turn := turn + 1;
      phase := if turn < |refs| then ReadMeta else ReadDone;
    }

    /** Whether Done lists exactly what this receipt received and rejected. */
    method ValidateDone(done: Msg) returns (ok: bool)
      requires ReceiptsOk(St()) && turn == |refs| && !phase.WriteReceipt?
      ensures ok <==> ValidDone(St(), done)
    {
      if !done.Done? || done.version != PROTOCOL_VERSION {
        return false;
      }
      var order := Order(refs);
      var got := OrderedIds(order, received.Keys, true);
      var refused := OrderedIds(order, rejected, true);
      ListedReceipts(St());
      var transferredSet := ExactIdSet(done.transferred);
      var abortedSet := ExactIdSet(done.aborted);
      if transferredSet.None? || abortedSet.None? {
        return false;
      }
      ok := SameIdSet(transferredSet.value, got);
      if ok {
        ok := SameIdSet(abortedSet.value, refused);
      }
    }

    method ReadDoneMessage() returns (ghost e: ReceiveEvent)
      requires ValidSchema(schema) && BatchesOk(St()) && ReceiptsOk(St()) && !failed && phase.ReadDone?
      modifies this
      ensures e.Read? && St() == ReceiverNext(old(St()), e)
      ensures St() == if failed then Fail(old(St())) else old(St()).(phase := Prepared)
    {
      var message := WireRead();
      e := Read(message);
      var ok := false;
      if message.Some? {
        ok := ValidateDone(message.value);
      }
      if ok {
        phase := Prepared;
      } else {
        FailReceive();
      }
    }

    /** One transfer: metadata, handles, verdict; or the receive fails on the way. */
    method ReceiveOne(ghost front: seq<ReceiveEvent>) returns (ghost history: seq<ReceiveEvent>)
      requires Reached(schema, front, St()) && !failed && phase.ReadMeta?
      modifies this
      ensures Reached(schema, history, St())
      ensures taken == old(taken)
      ensures if failed then owned == {} else turn == old(turn) + 1 && refs == old(refs)
      ensures !failed ==> phase == if turn < |refs| then ReadMeta else ReadDone
    {
      ghost var was := St();
      ReachedInv(schema, front, was);
      ghost var e := ReadMetadata();
      ReachedNext(schema, front, was, e);
      history := front + [e];
      if failed {
        return;
      }
      history := FinishOne(history);
    }

    method FinishOne(ghost front: seq<ReceiveEvent>) returns (ghost history: seq<ReceiveEvent>)
      requires Reached(schema, front, St()) && !failed && phase.ReadHandles?
      modifies this
      ensures Reached(schema, history, St())
      ensures taken == old(taken)
      ensures if failed then owned == {} else turn == old(turn) + 1 && refs == old(refs)
      ensures !failed ==> phase == if turn < |refs| then ReadMeta else ReadDone
    {
      ghost var was := St();
      ReachedInv(schema, front, was);
      ghost var e := ReceiveBatch();
      ReachedNext(schema, front, was, e);
      history := front + [e];
      was := St();
      ReachedInv(schema, history, was);
      var ack;
      e, ack := SendVerdict();
      ReachedNext(schema, history, was, e);
      history := history + [e];
    }

    /**
     The receive loop up to a validated Done. It ends prepared, with every announced identity
     received or rejected and none both, or failed, with nothing owned.
     */
    method Prepare() returns (ok: bool, ghost history: seq<ReceiveEvent>)
      requires ValidSchema(schema) && St() == InitReceiver(schema)
      modifies this
      ensures Reached(schema, history, St())
      ensures ok ==> phase.Prepared? && !failed && !finalized && taken == {} && owned == received.Keys
      ensures ok ==> received.Keys !! rejected && received.Keys + rejected == Set(Order(refs))
      ensures !ok ==> failed && owned == {} && taken == {}
    {
      ReachedInv(schema, [], St());
      ghost var e := ReadAnnouncement();
      ReachedNext(schema, [], InitReceiver(schema), e);
      history := [] + [e];
      while !failed && turn < |refs|
        invariant Reached(schema, history, St())
        invariant taken == {} && (failed || turn <= |refs|)
        invariant if failed then owned == {} else phase == if turn < |refs| then ReadMeta else ReadDone
        decreases !failed, |refs| - turn
      {
        history := ReceiveOne(history);
      }
      if failed {
        return false, history;
      }
      ok, history := FinishReceive(history);
    }

    method FinishReceive(ghost front: seq<ReceiveEvent>) returns (ok: bool, ghost history: seq<ReceiveEvent>)
      requires Reached(schema, front, St()) && !failed && phase.ReadDone? && taken == {}
      modifies this
      ensures Reached(schema, history, St())
      ensures ok ==> phase.Prepared? && !failed && !finalized && taken == {} && owned == received.Keys
      ensures ok ==> received.Keys !! rejected && received.Keys + rejected == Set(Order(refs))
      ensures !ok ==> failed && owned == {} && taken == {}
    {
      ghost var was := St();
      ReachedInv(schema, front, was);
      ReceiptsPartition(was);
      ghost var e := ReadDoneMessage();
      ReachedNext(schema, front, was, e);
      return !failed, front + [e];
    }
  }

  /** The two lists Done is compared with are exact lists of the receipt's two sets. */
  lemma ListedReceipts(r: Receiver)
    requires ReceiptsOk(r) && r.turn == |r.refs| && !r.phase.WriteReceipt?
    ensures var order := Order(r.refs);
            && NoDuplicates(Choose(order, r.received.Keys, true))
            && Set(Choose(order, r.received.Keys, true)) == r.received.Keys
            && NoDuplicates(Choose(order, r.rejected, true)) && Set(Choose(order, r.rejected, true)) == r.rejected
  {
    var order := Order(r.refs);
    ChooseExact(order, r.received.Keys, true);
    ChooseExact(order, r.rejected, true);
    ChooseSet(order, r.received.Keys, true);
    ChooseSet(order, r.rejected, true);
  }

  /**
   The receive call that treats receipt as adoption: it returns every received upstream, handed
   out once, or its receipt failed and it releases every handle that was handed to it; the receipt
   itself owns nothing in the end either way.
   */
  method ReceiveHandoff(schema: Schema)
    returns (upstreams: seq<Upstream>, ok: bool, released: seq<Upstream>, ghost history: seq<ReceiveEvent>,
        ghost end: Receiver)
    requires ValidSchema(schema)
    ensures Reached(schema, history, end) && end.owned == {} && ok == !end.failed
    ensures ok ==> released == [] && end.taken == end.received.Keys == end.accepted && Lists(upstreams, end)
    ensures !ok ==> upstreams == [] && (Lists(released, end) || (released == [] && end.taken == {}))
  {
    var receipt := new Receipt(schema);
    ok, history := receipt.Prepare();
    if !ok {
      return [], false, [], history, receipt.St();
    }
    var received;
    ok, received, history := receipt.AdoptReceived(history);
    end := receipt.St();
    return if ok then received else [], ok, if ok then [] else received, history, end;
  }

  /** The received upstreams, each once, in announced order. */
  ghost predicate Lists(upstreams: seq<Upstream>, r: Receiver) {
    var ids := Choose(Order(r.refs), r.received.Keys, true);
    && |upstreams| == |ids|
    && (forall i :: 0 <= i < |ids| ==> ids[i] in r.received && upstreams[i] == r.received[ids[i]].upstream)
  }
}
