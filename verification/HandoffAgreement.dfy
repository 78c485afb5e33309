/**
 Both endpoints over one ordered, lossy channel. A write that reports an error was not delivered;
 a read or a write may fail at any time; a handle batch may arrive altered. When no batch is in
 flight, a failed handle receive leaves that endpoint's connection dead, so that its
 acknowledgment cannot be sent either.
 */
module HandoffAgreement {
  import opened Options
  import opened HandoffProto
  import opened HandoffPartition
  import opened HandoffEndpoints
  import opened HandoffReceiver

  datatype System = System(s: Sender, r: Receiver, toReceiver: seq<Msg>, toSender: seq<Msg>)

  datatype Event =
    | SenderWrite(ok: bool)
    | SenderRead(ok: bool)
    | ReceiverRead(ok: bool)
    | ReceiverRecv(fds: seq<Handle>, error: bool)
    | ReceiverLost
    | ReceiverWrite(ok: bool)
    | ReceiverTake(id: Id)
    | ReceiverFinalize(accepted: seq<Id>)
    | ReceiverAbort

  predicate Enabled(sys: System, e: Event) {
    match e
    case SenderWrite(_) => SenderWrites(sys.s)
    case SenderRead(ok) => SenderReads(sys.s) && (ok ==> sys.toSender != [])
    case ReceiverRead(ok) => ReceiverReads(sys.r) && (ok ==> sys.toReceiver != [])
    case ReceiverRecv(_, _) => !sys.r.failed && sys.r.phase.ReadHandles? && sys.toReceiver != []
    case ReceiverLost => !sys.r.failed && sys.r.phase.ReadHandles?
    case ReceiverWrite(_) => ReceiverWrites(sys.r)
    case _ => sys.r.phase.Prepared? || sys.r.phase.Finalized?
  }

  ghost function Step(sys: System, e: Event): (next: System)
    requires SenderOk(sys.s) && ValidSchema(sys.r.schema) && Enabled(sys, e)
    ensures SenderOk(next.s) && next.s.ready == sys.s.ready
    ensures next.s.schema == sys.s.schema && next.r.schema == sys.r.schema
  {
    match e
    case SenderWrite(ok) =>
      var s' := SenderNext(sys.s, Wrote(ok));
      if ok then sys.(s := s', toReceiver := sys.toReceiver + [SenderMessage(sys.s)]) else sys.(s := s')
    case SenderRead(ok) =>
      if ok then sys.(s := SenderNext(sys.s, Got(Some(sys.toSender[0]))), toSender := sys.toSender[1..])
      else sys.(s := SenderNext(sys.s, Got(None)))
    case ReceiverRead(ok) =>
      if ok then sys.(r := ReceiverNext(sys.r, Read(Some(sys.toReceiver[0]))), toReceiver := sys.toReceiver[1..])
      else sys.(r := ReceiverNext(sys.r, Read(None)))
    case ReceiverRecv(fds, error) =>
      sys.(r := ReceiverNext(sys.r, Recv(fds, error)), toReceiver := sys.toReceiver[1..])
    case ReceiverLost =>
      sys.(r := ReceiverNext(ReceiverNext(sys.r, Recv([], true)), Sent(false)))
    case ReceiverWrite(ok) =>
      var r' := ReceiverNext(sys.r, Sent(ok));
      if ok then sys.(r := r', toSender := sys.toSender + [ReceiverMessage(sys.r)]) else sys.(r := r')
    case ReceiverTake(id) => sys.(r := ReceiverNext(sys.r, Take(id)))
    case ReceiverFinalize(accepted) => sys.(r := ReceiverNext(sys.r, Finalize(accepted)))
    case ReceiverAbort => sys.(r := ReceiverNext(sys.r, Abort))
  }

  // ----- How far apart the endpoints can be -----

  function Ids(sys: System): seq<Id> {
    ReadyIds(sys.s.ready)
  }

  /** What the sender has written since its last acknowledged turn. */
  function Ahead(s: Sender): seq<Msg>
    requires SenderOk(s)
  {
    match s.phase
    case WriteHandles => [MetaOf(s.schema, s.ready[Turn(s)])]
    case ReadAck => [MetaOf(s.schema, s.ready[Turn(s)]), HandlesOf(s.schema, s.ready[Turn(s)])]
    case ReadFinal => [Done(PROTOCOL_VERSION, s.receipted, s.rejected)]
    case _ => []
  }

  predicate SenderInTransfer(s: Sender) {
    s.phase.WriteMeta? || s.phase.WriteHandles? || s.phase.ReadAck?
  }

  /** A receipt on its way to the sender: the verdict of the sender's own turn. */
  ghost predicate ReceiptInFlight(sys: System)
    requires SenderOk(sys.s)
  {
    && sys.s.phase.ReadAck?
    && var id := sys.s.ready[Turn(sys.s)].serverId;
    && sys.toSender == [Ack(PROTOCOL_VERSION, id, id in sys.r.received)]
    && sys.r.turn == Turn(sys.s) + 1
  }

  /** Nothing in flight to the sender, and the receiver is at the sender's turn. */
  ghost predicate InStep(sys: System)
    requires SenderOk(sys.s)
  {
    && sys.toSender == [] && sys.r.turn == Turn(sys.s)
    && match sys.r.phase
       case ReadReady =>
         if sys.s.phase.WriteReady? then sys.toReceiver == []
         else !sys.s.phase.Committed? && sys.toReceiver == [Ready(PROTOCOL_VERSION, RefsOf(sys.s.ready))] + Ahead(sys.s)
       case ReadMeta => SenderInTransfer(sys.s) && sys.toReceiver == Ahead(sys.s)
       case ReadHandles =>
         && (sys.s.phase.WriteHandles? || sys.s.phase.ReadAck?)
         && Ahead(sys.s) == [sys.r.meta] + sys.toReceiver
       case WriteReceipt => sys.s.phase.ReadAck? && sys.toReceiver == [] && sys.r.meta == Ahead(sys.s)[0]
       case ReadDone => (sys.s.phase.WriteDone? || sys.s.phase.ReadFinal?) && sys.toReceiver == Ahead(sys.s)
       case Prepared => sys.s.phase.ReadFinal? && sys.toReceiver == []
       case WriteFinal => sys.s.phase.ReadFinal? && sys.toReceiver == []
       case Finalized => sys.s.phase.ReadFinal? || sys.s.phase.Committed?
  }

  ghost predicate FinalInFlight(sys: System)
    requires SenderOk(sys.s)
  {
    && sys.s.phase.ReadFinal? && sys.r.phase.Finalized? && sys.r.finalized && !sys.r.failed
    && sys.toSender ==
      [FinalAck(PROTOCOL_VERSION, Choose(Ids(sys), sys.r.accepted, true), Choose(Ids(sys), sys.r.accepted, false))]
  }

  ghost predicate Synced(sys: System)
    requires SenderOk(sys.s)
  {
    || FinalInFlight(sys)
    || (sys.toReceiver == [] && ReceiptInFlight(sys) && (sys.r.phase.ReadMeta? || sys.r.phase.ReadDone?))
    || InStep(sys)
    || (sys.r.failed && (sys.toSender == [] || ReceiptInFlight(sys)))
  }

  // ----- What they know of each other -----

  /** How many turns the receiver has a verdict for, sent or not. */
  function Decided(r: Receiver): nat {
    if r.phase.WriteReceipt? && Stored(r) then r.turn + 1 else r.turn
  }

  ghost predicate Agreed(sys: System)
    requires SenderOk(sys.s)
  {
    var ids, s, r := Ids(sys), sys.s, sys.r;
    && (!r.phase.ReadReady? ==> r.refs == RefsOf(s.ready))
    && Turn(s) <= r.turn <= |ids| && Decided(r) <= |ids|
    && s.receipted == Choose(ids[..Turn(s)], r.received.Keys, true)
    && s.rejected == Choose(ids[..Turn(s)], r.received.Keys, false)
    && r.received.Keys <= Set(ids[..Decided(r)])
    && r.rejected == Set(ids[..r.turn]) - r.received.Keys
    && (s.phase.Committed? ==> s.accepted == r.accepted && r.finalized && r.phase.Finalized? && !r.failed)
  }

  ghost predicate SystemInv(sys: System) {
    SenderOk(sys.s) && ReceiverInv(sys.r) && ValidReady(RefsOf(sys.s.ready)) && Synced(sys) && Agreed(sys)
  }

  lemma OrderOfRefs(ready: seq<Upstream>)
    ensures Order(RefsOf(ready)) == ReadyIds(ready)
  {
  }

  // ----- Sender steps -----

  /** A sender's failure moves nothing either. */
  lemma {:induction false} SenderFails(sys: System)
    requires SystemInv(sys)
    ensures SystemInv(sys.(s := sys.s.(failed := true)))
  {
    var next := sys.(s := sys.s.(failed := true));
    assert Turn(next.s) == Turn(sys.s) && Ahead(next.s) == Ahead(sys.s) && Ids(next) == Ids(sys);
    assert InStep(sys) ==> InStep(next);
    assert ReceiptInFlight(sys) ==> ReceiptInFlight(next);
  }

  /** What one write adds to what the sender is ahead by; the announcement itself is not part of a turn. */
  lemma AheadGrows(s: Sender)
    requires SenderOk(s) && SenderWrites(s)
    ensures var s' := SenderNext(s, Wrote(true));
            && Turn(s') == Turn(s) && s'.receipted == s.receipted && s'.rejected == s.rejected
            && s'.accepted == s.accepted
            && Ahead(s') == (if s.phase.WriteReady? then [] else Ahead(s) + [SenderMessage(s)])
            && !s'.phase.WriteReady? && !s'.phase.Committed?
            && (s'.phase.WriteMeta? ==> s.phase.WriteReady?) && (s'.phase.WriteDone? ==> s.phase.WriteReady?)
  {
  }

  lemma WrittenInStep(sys: System, s': Sender)
    requires SenderOk(sys.s) && SenderWrites(sys.s) && InStep(sys) && ReceiptsOk(sys.r)
    requires s' == SenderNext(sys.s, Wrote(true))
    ensures SenderOk(s') && InStep(sys.(s := s', toReceiver := sys.toReceiver + [SenderMessage(sys.s)]))
  {
    AheadGrows(sys.s);
    if sys.s.phase.WriteReady? {
      assert sys.r.phase.ReadReady?;
      assert sys.toReceiver + [SenderMessage(sys.s)] == [Ready(PROTOCOL_VERSION, RefsOf(sys.s.ready))] + Ahead(s');
    }
  }

  lemma {:induction false} WrittenSynced(sys: System, next: System)
    requires SenderOk(sys.s) && SenderWrites(sys.s) && ReceiptsOk(sys.r) && Synced(sys) && Agreed(sys)
    requires next == sys.(s := SenderNext(sys.s, Wrote(true)), toReceiver := sys.toReceiver + [SenderMessage(sys.s)])
    ensures Synced(next) && Agreed(next)
  {
    AheadGrows(sys.s);
    assert Ids(next) == Ids(sys);
    if !sys.r.failed {
      WrittenInStep(sys, next.s);
    }
  }

  lemma {:induction false} SenderWriteInv(sys: System, ok: bool)
    requires SystemInv(sys) && Enabled(sys, SenderWrite(ok))
    ensures SystemInv(Step(sys, SenderWrite(ok)))
  {
    if ok {
      WrittenSynced(sys, Step(sys, SenderWrite(true)));
    } else {
      SenderFails(sys);
    }
  }

  /** The sender after it read the receipt of its turn. */
  function Receipted(s: Sender, ok: bool): Sender
    requires SenderOk(s) && s.phase.ReadAck?
  {
    var id := s.ready[Turn(s)].serverId;
    var next := if ok then s.(receipted := s.receipted + [id]) else s.(rejected := s.rejected + [id]);
    next.(phase := NextTurn(next))
  }

  lemma ReceiptAgreed(sys: System, next: System, ok: bool)
    requires SenderOk(sys.s) && Agreed(sys) && ReceiptInFlight(sys)
      && ok == (sys.s.ready[Turn(sys.s)].serverId in sys.r.received)
    requires next == System(Receipted(sys.s, ok), sys.r, sys.toReceiver, []) && SenderOk(next.s)
    ensures Agreed(next) && Turn(next.s) == sys.r.turn
  {
    var ids, t, received := Ids(sys), Turn(sys.s), sys.r.received.Keys;
    assert ids[..t + 1] == ids[..t] + [ids[t]];
    ChooseSnoc(ids[..t], ids[t], received, true);
    ChooseSnoc(ids[..t], ids[t], received, false);
  }

  lemma ReceiptRead(sys: System, ok: bool)
    requires SenderOk(sys.s) && ValidSchema(sys.r.schema) && SenderReads(sys.s) && ReceiptInFlight(sys)
    requires ok == (sys.s.ready[Turn(sys.s)].serverId in sys.r.received)
    ensures Step(sys, SenderRead(true)) == System(Receipted(sys.s, ok), sys.r, sys.toReceiver, [])
    ensures SenderOk(Receipted(sys.s, ok)) && Receipted(sys.s, ok).ready == sys.s.ready && !Receipted(sys.s, ok).failed
  {
    assert sys.toSender[1..] == [];
  }

  lemma {:induction false} ReceiptSynced(sys: System, next: System, ok: bool)
    requires SenderOk(sys.s) && Synced(sys) && Agreed(sys) && ReceiptInFlight(sys) && !FinalInFlight(sys)
    requires ReceiptsOk(sys.r) && ok == (sys.s.ready[Turn(sys.s)].serverId in sys.r.received)
    requires next == System(Receipted(sys.s, ok), sys.r, sys.toReceiver, []) && SenderOk(next.s)
      && Turn(next.s) == sys.r.turn
    ensures Synced(next)
  {
    assert Ahead(next.s) == [];
    assert sys.r.phase.ReadReady? || sys.r.refs == RefsOf(sys.s.ready);
  }

  lemma {:induction false} SenderReceipt(sys: System)
    requires SystemInv(sys) && SenderReads(sys.s) && ReceiptInFlight(sys)
    ensures SystemInv(Step(sys, SenderRead(true))) && !Step(sys, SenderRead(true)).s.failed
  {
    var ok := sys.s.ready[Turn(sys.s)].serverId in sys.r.received;
    var next := System(Receipted(sys.s, ok), sys.r, sys.toReceiver, []);
    ReceiptRead(sys, ok);
    ReceiptAgreed(sys, next, ok);
    ReceiptSynced(sys, next, ok);
  }

  /** The two lists a sender that finished its transfers holds are the receiver's own. */
  lemma {:induction false} ListsAgree(sys: System)
    requires SystemInv(sys) && Turn(sys.s) == |sys.s.ready|
    ensures Exact(sys.s.receipted) && Set(sys.s.receipted) == sys.r.received.Keys
    ensures Exact(sys.s.rejected) && Set(sys.s.rejected) == sys.r.rejected
  {
    var ids, received := Ids(sys), sys.r.received.Keys;
    OrderOfRefs(sys.s.ready);
    assert ids[..Turn(sys.s)] == ids;
    ChooseExact(ids, received, true);
    ChooseExact(ids, received, false);
    ChooseSet(ids, received, true);
    ChooseSet(ids, received, false);
    assert ids[..sys.r.turn] == ids && ids[..Decided(sys.r)] == ids;
  }

  /** The final acknowledgment in flight is a final partition of what the sender announced. */
  lemma {:induction false} FinalValidates(sys: System)
    requires SystemInv(sys) && FinalInFlight(sys)
    ensures var m := sys.toSender[0];
            FinalPartition(Ids(sys), sys.s.receipted, m.accepted, m.aborted) && Set(m.accepted) == sys.r.accepted
  {
    var ids := Ids(sys);
    OrderOfRefs(sys.s.ready);
    ListsAgree(sys);
    ChooseExact(ids, sys.r.accepted, true);
    ChooseExact(ids, sys.r.accepted, false);
    ChooseSet(ids, sys.r.accepted, true);
    ChooseSet(ids, sys.r.accepted, false);
    assert sys.r.accepted <= Set(ids);
  }

  lemma FinalReadStep(sys: System)
    requires SenderOk(sys.s) && ValidSchema(sys.r.schema) && SenderReads(sys.s) && FinalInFlight(sys)
    requires FinalPartition(Ids(sys), sys.s.receipted, sys.toSender[0].accepted, sys.toSender[0].aborted)
    requires Set(sys.toSender[0].accepted) == sys.r.accepted
    ensures Step(sys, SenderRead(true)) ==
      System(sys.s.(phase := Committed, accepted := sys.r.accepted), sys.r, sys.toReceiver, [])
  {
  }

  lemma FinalReadSynced(sys: System)
    requires SenderOk(sys.s) && Agreed(sys) && FinalInFlight(sys) && sys.r.turn == Turn(sys.s)
    ensures var next := System(sys.s.(phase := Committed, accepted := sys.r.accepted), sys.r, sys.toReceiver, []);
            SenderOk(next.s) && InStep(next) && Agreed(next)
  {
    var next := System(sys.s.(phase := Committed, accepted := sys.r.accepted), sys.r, sys.toReceiver, []);
    assert Turn(next.s) == Turn(sys.s) && Ids(next) == Ids(sys);
  }

  lemma {:induction false} SenderFinal(sys: System)
    requires SystemInv(sys) && SenderReads(sys.s) && FinalInFlight(sys)
    ensures SystemInv(Step(sys, SenderRead(true)))
    ensures Step(sys, SenderRead(true)).s == sys.s.(phase := Committed, accepted := sys.r.accepted)
  {
    FinalValidates(sys);
    FinalReadStep(sys);
    FinalReadSynced(sys);
  }

  lemma {:induction false} SenderReadInv(sys: System, ok: bool)
    requires SystemInv(sys) && Enabled(sys, SenderRead(ok))
    ensures SystemInv(Step(sys, SenderRead(ok)))
  {
    if !ok {
      SenderFails(sys);
    } else if FinalInFlight(sys) {
      SenderFinal(sys);
    } else {
      SenderReceipt(sys);
    }
  }

  // ----- Receiver steps -----

  lemma {:induction false} ReceiverInvStep(sys: System, e: Event)
    requires SystemInv(sys) && Enabled(sys, e)
    ensures ReceiverInv(Step(sys, e).r)
  {
    match e
    case ReceiverRead(ok) =>
      ReceiverNextInv(sys.r, Read(if ok then Some(sys.toReceiver[0]) else None));
    case ReceiverRecv(fds, error) => ReceiverNextInv(sys.r, Recv(fds, error));
    case ReceiverLost =>
      ReceiverNextInv(sys.r, Recv([], true));
      ReceiverNextInv(ReceiverNext(sys.r, Recv([], true)), Sent(false));
    case ReceiverWrite(ok) => ReceiverNextInv(sys.r, Sent(ok));
    case ReceiverTake(id) => ReceiverNextInv(sys.r, Take(id));
    case ReceiverFinalize(accepted) => ReceiverNextInv(sys.r, Finalize(accepted));
    case ReceiverAbort => ReceiverNextInv(sys.r, Abort);
    case _ =>
  }

  /** The receiver always admits what the sender announces. */
  lemma ReadReadyInv(sys: System)
    requires SystemInv(sys) && Enabled(sys, ReceiverRead(true)) && sys.r.phase.ReadReady?
    ensures SystemInv(Step(sys, ReceiverRead(true))) && !Step(sys, ReceiverRead(true)).r.failed
  {
    ReceiverInvStep(sys, ReceiverRead(true));
    OrderOfRefs(sys.s.ready);
    var next := Step(sys, ReceiverRead(true));
    assert next.toReceiver == Ahead(sys.s);
    assert InStep(next);
  }

  lemma MetaInFlight(sys: System)
    requires SystemInv(sys) && !sys.r.failed && sys.r.phase.ReadMeta? && sys.toReceiver != []
    ensures InStep(sys)
  {
  }

  lemma MetaReadStep(sys: System)
    requires SenderOk(sys.s) && ValidSchema(sys.r.schema) && !sys.r.failed && sys.r.phase.ReadMeta?
      && sys.toReceiver != []
    ensures Step(sys, ReceiverRead(true)) ==
              sys.(r := sys.r.(phase := ReadHandles, meta := sys.toReceiver[0]), toReceiver := sys.toReceiver[1..])
  {
  }

  lemma MetaSynced(sys: System)
    requires SenderOk(sys.s) && Agreed(sys) && InStep(sys) && sys.r.phase.ReadMeta? && sys.toReceiver != []
    ensures var next :=
                  sys.(r := sys.r.(phase := ReadHandles, meta := sys.toReceiver[0]), toReceiver := sys.toReceiver[1..]);
            InStep(next) && Agreed(next)
  {
    assert sys.toReceiver == [sys.toReceiver[0]] + sys.toReceiver[1..];
  }

  lemma {:induction false} ReadMetaInv(sys: System)
    requires SystemInv(sys) && Enabled(sys, ReceiverRead(true)) && sys.r.phase.ReadMeta?
    ensures SystemInv(Step(sys, ReceiverRead(true))) && !Step(sys, ReceiverRead(true)).r.failed
  {
    MetaInFlight(sys);
    MetaReadStep(sys);
    MetaSynced(sys);
    ReceiverInvStep(sys, ReceiverRead(true));
  }

  /** Done always validates. */
  lemma {:induction false} DoneValidates(sys: System)
    requires SystemInv(sys) && !sys.r.failed && sys.r.phase.ReadDone? && sys.toReceiver != []
    ensures InStep(sys) && sys.s.phase.ReadFinal? && |sys.toReceiver| == 1 && ValidDone(sys.r, sys.toReceiver[0])
  {
    assert InStep(sys);
    ListsAgree(sys);
  }

  lemma DoneReadStep(sys: System)
    requires SenderOk(sys.s) && ValidSchema(sys.r.schema) && !sys.r.failed && sys.r.phase.ReadDone?
    requires |sys.toReceiver| == 1 && ValidDone(sys.r, sys.toReceiver[0])
    ensures Step(sys, ReceiverRead(true)) == sys.(r := sys.r.(phase := Prepared), toReceiver := [])
  {
  }

  lemma DoneSynced(sys: System)
    requires SenderOk(sys.s) && Agreed(sys) && InStep(sys) && sys.r.phase.ReadDone? && sys.s.phase.ReadFinal?
    ensures var next := sys.(r := sys.r.(phase := Prepared), toReceiver := []); InStep(next) && Agreed(next)
  {
  }

  lemma {:induction false} ReadDoneInv(sys: System)
    requires SystemInv(sys) && Enabled(sys, ReceiverRead(true)) && sys.r.phase.ReadDone?
    ensures SystemInv(Step(sys, ReceiverRead(true))) && Step(sys, ReceiverRead(true)).r == sys.r.(phase := Prepared)
  {
    DoneValidates(sys);
    DoneReadStep(sys);
    DoneSynced(sys);
    ReceiverInvStep(sys, ReceiverRead(true));
  }

  /** A failure, wherever it happens, moves no list and puts nothing on the wire. */
  lemma {:induction false} ReceiverFails(sys: System, r': Receiver)
    requires SystemInv(sys) && !sys.r.failed && ReceiverInv(r') && !FinalInFlight(sys) && !sys.s.phase.Committed?
    requires r'.failed && r'.refs == sys.r.refs && r'.turn == sys.r.turn && r'.received == sys.r.received
      && r'.rejected == sys.r.rejected
    requires r'.phase.ReadReady? == sys.r.phase.ReadReady? && Decided(r') == Decided(sys.r)
    ensures SystemInv(sys.(r := r'))
  {
    assert ReceiptInFlight(sys) ==> ReceiptInFlight(sys.(r := r'));
  }

  lemma {:induction false} LostInv(sys: System)
    requires SystemInv(sys) && Enabled(sys, ReceiverLost)
    ensures SystemInv(Step(sys, ReceiverLost))
  {
    ReceiverInvStep(sys, ReceiverLost);
    RefuseInv(sys.r, [], true);
    ReceiverFails(sys, Step(sys, ReceiverLost).r);
  }

  lemma NewIdentity(ids: seq<Id>, t: nat)
    requires NoDuplicates(ids) && t < |ids|
    ensures ids[t] !in Set(ids[..t]) && Set(ids[..t + 1]) == Set(ids[..t]) + {ids[t]}
  {
    assert ids[..t + 1] == ids[..t] + [ids[t]];
  }

  /** A stored transfer adds the identity of the turn, which no earlier list can hold. */
  lemma StoredAgreed(sys: System, r': Receiver)
    requires SenderOk(sys.s) && Agreed(sys) && Turn(sys.s) == sys.r.turn < |sys.s.ready| && NoDuplicates(Ids(sys))
    requires sys.r.phase.ReadHandles? && r'.phase.WriteReceipt? && Stored(r') && !sys.s.phase.Committed?
    requires r'.refs == sys.r.refs && r'.turn == sys.r.turn && r'.rejected == sys.r.rejected
    requires r'.received.Keys == sys.r.received.Keys + {Ids(sys)[sys.r.turn]}
    ensures Agreed(sys.(r := r', toReceiver := []))
  {
    var ids, t := Ids(sys), Turn(sys.s);
    NewIdentity(ids, t);
    ChooseAgrees(ids[..t], sys.r.received.Keys, r'.received.Keys, true);
    ChooseAgrees(ids[..t], sys.r.received.Keys, r'.received.Keys, false);
  }

  /** What a handle batch does to the receipt. */
  lemma BatchEffect(r: Receiver, fds: seq<Handle>, error: bool)
    requires ReceiverInv(r) && r.phase.ReadHandles? && !r.failed
    ensures var r' := TakeBatch(r, fds, error);
            && r'.phase.WriteReceipt? && r'.refs == r.refs && r'.turn == r.turn && r'.rejected == r.rejected
            && r'.meta == r.meta
            && (Stored(r') <==> ValidTransfer(r, fds, error))
            && r'.received.Keys == if Stored(r') then r.received.Keys + {NamedId(r.meta)} else r.received.Keys
  {
  }

  lemma RecvSynced(sys: System, r': Receiver)
    requires SenderOk(sys.s) && ValidReady(RefsOf(sys.s.ready)) && Agreed(sys) && InStep(sys) && sys.toReceiver != []
    requires sys.r.phase.ReadHandles? && r'.phase.WriteReceipt? && r'.refs == sys.r.refs && r'.turn == sys.r.turn
    requires r'.rejected == sys.r.rejected && r'.meta == sys.r.meta
    requires r'.received.Keys == if Stored(r') then sys.r.received.Keys + {NamedId(sys.r.meta)} else sys.r.received.Keys
    ensures var next := sys.(r := r', toReceiver := sys.toReceiver[1..]); Agreed(next) && InStep(next)
  {
    OrderOfRefs(sys.s.ready);
    assert |Ahead(sys.s)| == 1 + |sys.toReceiver|;
    assert sys.s.phase.ReadAck? && sys.toReceiver[1..] == [];
    assert sys.r.meta == Ahead(sys.s)[0];
    assert sys.r.meta == MetaOf(sys.s.schema, sys.s.ready[Turn(sys.s)]);
    if Stored(r') {
      StoredAgreed(sys, r');
    }
  }

  lemma {:induction false} RecvInv(sys: System, fds: seq<Handle>, error: bool)
    requires SystemInv(sys) && Enabled(sys, ReceiverRecv(fds, error))
    ensures SystemInv(Step(sys, ReceiverRecv(fds, error)))
  {
    ReceiverInvStep(sys, ReceiverRecv(fds, error));
    BatchEffect(sys.r, fds, error);
    RecvSynced(sys, TakeBatch(sys.r, fds, error));
  }

  /** The verdict on the turn's identity goes out: it is known and new, so the receiver does not stop. */
  lemma VerdictAgreed(sys: System)
    requires SenderOk(sys.s) && ValidReady(RefsOf(sys.s.ready)) && Agreed(sys) && InStep(sys)
    requires sys.r.phase.WriteReceipt? && !sys.r.failed
    ensures var next :=
                  sys.(r := SendReceipt(sys.r), toSender :=
                  [Ack(PROTOCOL_VERSION, NamedId(sys.r.meta), Stored(sys.r))]);
            !next.r.failed && Agreed(next) && ReceiptInFlight(next)
              && (next.r.phase.ReadMeta? || next.r.phase.ReadDone?)
  {
    OrderOfRefs(sys.s.ready);
    var ids, t := Ids(sys), Turn(sys.s);
    assert NamedId(sys.r.meta) == ids[t];
    NewIdentity(ids, t);
    assert ids[t] in Set(ids);
    var r' := SendReceipt(sys.r);
    assert r'.turn == t + 1 && Decided(r') == t + 1;
  }

  /** The receiver writes only in step with the sender. */
  lemma WriterInStep(sys: System)
    requires SenderOk(sys.s) && Synced(sys) && ReceiverWrites(sys.r)
    ensures InStep(sys)
  {
  }

  lemma ReceiptStep(sys: System)
    requires SenderOk(sys.s) && ValidSchema(sys.r.schema) && !sys.r.failed && sys.r.phase.WriteReceipt?
      && sys.toSender == []
    ensures Step(sys, ReceiverWrite(true)) ==
              sys.(r := SendReceipt(sys.r), toSender := [Ack(PROTOCOL_VERSION, NamedId(sys.r.meta), Stored(sys.r))])
  {
  }

  lemma {:induction false} ReceiptWriteInv(sys: System)
    requires SystemInv(sys) && !sys.r.failed && sys.r.phase.WriteReceipt?
    ensures SystemInv(Step(sys, ReceiverWrite(true)))
  {
    SendReceiptInv(sys.r);
    WriterInStep(sys);
    VerdictAgreed(sys);
    ReceiptStep(sys);
  }

  lemma FinalStep(sys: System)
    requires SenderOk(sys.s) && ValidSchema(sys.r.schema) && !sys.r.failed && sys.r.phase.WriteFinal?
      && sys.toSender == []
    ensures Step(sys, ReceiverWrite(true)) ==
      sys.(r := sys.r.(phase := Finalized), toSender := [ReceiverMessage(sys.r)])
  {
  }

  lemma FinalSynced(sys: System)
    requires SenderOk(sys.s) && Agreed(sys) && InStep(sys) && !sys.r.failed && sys.r.phase.WriteFinal?
      && sys.r.finalized
    ensures var next := sys.(r := sys.r.(phase := Finalized), toSender := [ReceiverMessage(sys.r)]);
            Agreed(next) && FinalInFlight(next)
  {
    OrderOfRefs(sys.s.ready);
  }

  lemma {:induction false} FinalWriteInv(sys: System)
    requires SystemInv(sys) && !sys.r.failed && sys.r.phase.WriteFinal?
    ensures SystemInv(Step(sys, ReceiverWrite(true)))
  {
    SentInv(sys.r, true);
    WriterInStep(sys);
    FinalSynced(sys);
    FinalStep(sys);
  }

  /** What a take, a finalization or an abort leaves alone. */
  ghost predicate Decides(r: Receiver, r': Receiver) {
    && r'.refs == r.refs && r'.turn == r.turn && r'.received == r.received && r'.rejected == r.rejected
    && (r'.phase.Prepared? || r'.phase.WriteFinal? || r'.phase.Finalized?)
    && (r.failed ==> r'.failed)
  }

  lemma DecisionEffect(r: Receiver, e: ReceiveEvent)
    requires ValidSchema(r.schema) && (r.finalized ==> r.owned == {}) && ReceiverEnabled(r, e)
      && (e.Take? || e.Finalize? || e.Abort?)
    ensures Decides(r, ReceiverNext(r, e))
    ensures r.finalized ==> ReceiverNext(r, e) == r
  {
  }

  lemma DecisionSynced(sys: System, r': Receiver)
    requires SenderOk(sys.s) && Synced(sys) && Agreed(sys) && sys.r.phase.Prepared? && !sys.r.finalized
      && Decides(sys.r, r')
    ensures var next := sys.(r := r'); Synced(next) && Agreed(next)
  {
    var next := sys.(r := r');
    assert InStep(sys) ==> InStep(next);
    assert ReceiptInFlight(sys) ==> ReceiptInFlight(next);
  }

  /** Taking, finalizing and aborting touch no receipt, and do nothing once a decision is out. */
  lemma {:induction false} DecisionInv(sys: System, e: ReceiveEvent)
    requires SystemInv(sys) && ReceiverEnabled(sys.r, e) && (e.Take? || e.Finalize? || e.Abort?)
    ensures SystemInv(sys.(r := ReceiverNext(sys.r, e)))
  {
    ReceiverNextInv(sys.r, e);
    DecisionEffect(sys.r, e);
    if !sys.r.finalized {
      DecisionSynced(sys, ReceiverNext(sys.r, e));
    }
  }

  lemma {:induction false} ReceiverWriteInv(sys: System, ok: bool)
    requires SystemInv(sys) && Enabled(sys, ReceiverWrite(ok))
    ensures SystemInv(Step(sys, ReceiverWrite(ok)))
  {
    if ok && sys.r.phase.WriteReceipt? {
      ReceiptWriteInv(sys);
    } else if ok {
      FinalWriteInv(sys);
    } else {
      WriteFailsInv(sys);
    }
  }

  lemma FailedWriteEffect(r: Receiver)
    requires ValidSchema(r.schema) && ReceiverWrites(r)
    ensures var r' := ReceiverNext(r, Sent(false));
            && r'.failed && r'.refs == r.refs && r'.turn == r.turn && r'.received == r.received
            && r'.rejected == r.rejected
            && !r'.phase.ReadReady? && Decided(r') == Decided(r)
  {
  }

  lemma FailedWriteStep(sys: System)
    requires SenderOk(sys.s) && ValidSchema(sys.r.schema) && Synced(sys) && ReceiverWrites(sys.r)
    requires sys.s.phase.Committed? ==> sys.r.phase.Finalized?
    ensures Step(sys, ReceiverWrite(false)) == sys.(r := ReceiverNext(sys.r, Sent(false)))
    ensures !FinalInFlight(sys) && !sys.s.phase.Committed?
  {
  }

  lemma {:induction false} WriteFailsInv(sys: System)
    requires SystemInv(sys) && ReceiverWrites(sys.r)
    ensures SystemInv(Step(sys, ReceiverWrite(false)))
  {
    ReceiverNextInv(sys.r, Sent(false));
    FailedWriteEffect(sys.r);
    FailedWriteStep(sys);
    ReceiverFails(sys, ReceiverNext(sys.r, Sent(false)));
  }

  lemma {:induction false} ReceiverReadInv(sys: System, ok: bool)
    requires SystemInv(sys) && Enabled(sys, ReceiverRead(ok))
    ensures SystemInv(Step(sys, ReceiverRead(ok)))
  {
    if !ok {
      ReceiverInvStep(sys, ReceiverRead(false));
      ReceiverFails(sys, Step(sys, ReceiverRead(false)).r);
    } else if sys.r.phase.ReadReady? {
      ReadReadyInv(sys);
    } else if sys.r.phase.ReadMeta? {
      ReadMetaInv(sys);
    } else {
      ReadDoneInv(sys);
    }
  }

  lemma {:induction false} DecisionEventInv(sys: System, e: Event)
    requires SystemInv(sys) && Enabled(sys, e) && (e.ReceiverTake? || e.ReceiverFinalize? || e.ReceiverAbort?)
    ensures SystemInv(Step(sys, e))
  {
    if e.ReceiverTake? {
      DecisionInv(sys, Take(e.id));
    } else if e.ReceiverFinalize? {
      DecisionInv(sys, Finalize(e.accepted));
    } else {
      DecisionInv(sys, Abort);
    }
  }

  lemma {:induction false} StepInv(sys: System, e: Event)
    requires SystemInv(sys) && Enabled(sys, e)
    ensures SystemInv(Step(sys, e))
  {
    match e
    case SenderWrite(ok) => SenderWriteInv(sys, ok);
    case SenderRead(ok) => SenderReadInv(sys, ok);
    case ReceiverRead(ok) => ReceiverReadInv(sys, ok);
    case ReceiverRecv(fds, error) => RecvInv(sys, fds, error);
    case ReceiverLost => LostInv(sys);
    case ReceiverWrite(ok) => ReceiverWriteInv(sys, ok);
    case _ => DecisionEventInv(sys, e);
  }

  // ----- Whole runs -----

  /** A fresh pair of endpoints; the sender announces a valid list. */
  ghost predicate Fresh(sys: System) {
    && SenderOk(sys.s) && sys.s == InitSender(sys.s.schema, sys.s.ready) && ValidReady(RefsOf(sys.s.ready))
    && ValidSchema(sys.r.schema) && sys.r == InitReceiver(sys.r.schema)
    && sys.toReceiver == [] && sys.toSender == []
  }

  lemma FreshInv(sys: System)
    requires Fresh(sys)
    ensures SystemInv(sys)
  {
    InitReceiverInv(sys.r.schema);
    assert Ids(sys)[..0] == [];
    assert InStep(sys);
  }

  /** The state a run reaches, if each of its events was possible. */
  ghost function Run(sys: System, run: seq<Event>): (now: Option<System>)
    requires SenderOk(sys.s) && ValidSchema(sys.r.schema)
    ensures now.Some? ==>
      && SenderOk(now.value.s) && now.value.s.ready == sys.s.ready
      && now.value.s.schema == sys.s.schema && now.value.r.schema == sys.r.schema
  {
    if run == [] then
      Some(sys)
    else
      var mid, last := Run(sys, run[..|run| - 1]), run[|run| - 1];
      if mid.Some? && Enabled(mid.value, last) then Some(Step(mid.value, last)) else None
  }

  lemma {:induction false} RunInv(sys: System, run: seq<Event>)
    requires SystemInv(sys) && Run(sys, run).Some?
    ensures SystemInv(Run(sys, run).value)
    decreases |run|
  {
    if run != [] {
      RunInv(sys, run[..|run| - 1]);
      StepInv(Run(sys, run[..|run| - 1]).value, run[|run| - 1]);
    }
  }

  /**
   The endpoints agree after every run: the sender's lists are the receiver's verdicts on the
   announced identities in order, and once every transfer is acknowledged they are the receiver's
   received and rejected identities exactly.
   */
  lemma HandoffAgrees(sys: System, run: seq<Event>)
    requires Fresh(sys)
    ensures var now := Run(sys, run);
            now.Some? ==>
              var ids, s, r := ReadyIds(sys.s.ready), now.value.s, now.value.r;
              && s.ready == sys.s.ready && Turn(s) <= |ids|
              && s.receipted == Choose(ids[..Turn(s)], r.received.Keys, true)
              && s.rejected == Choose(ids[..Turn(s)], r.received.Keys, false)
              && (Turn(s) == |ids| ==> Set(s.receipted) == r.received.Keys && Set(s.rejected) == r.rejected)
  {
    FreshInv(sys);
    var now := Run(sys, run);
    if now.Some? {
      RunInv(sys, run);
      if Turn(now.value.s) == |now.value.s.ready| {
        ListsAgree(now.value);
      }
    }
  }

  /**
   No message that arrives is ever refused: announcements, transfers, receipts, Done and the final
   acknowledgment all validate.
   */
  lemma {:induction false} MessagesValidate(sys: System, run: seq<Event>)
    requires Fresh(sys)
    ensures var now := Run(sys, run);
            now.Some? ==>
              && (Enabled(now.value, SenderRead(true)) ==> !Step(now.value, SenderRead(true)).s.failed)
              && (Enabled(now.value, ReceiverRead(true)) ==> !Step(now.value, ReceiverRead(true)).r.failed)
              && (Enabled(now.value, ReceiverWrite(true)) ==> !Step(now.value, ReceiverWrite(true)).r.failed)
  {
    FreshInv(sys);
    var now := Run(sys, run);
    if now.Some? {
      RunInv(sys, run);
      SenderNeverRefuses(now.value);
      ReceiverNeverRefuses(now.value);
      ReceiptNeverFails(now.value);
    }
  }

  lemma {:induction false} SenderNeverRefuses(sys: System)
    requires SystemInv(sys)
    ensures Enabled(sys, SenderRead(true)) ==> !Step(sys, SenderRead(true)).s.failed
  {
    if Enabled(sys, SenderRead(true)) {
      if FinalInFlight(sys) {
        SenderFinal(sys);
      } else {
        SenderReceipt(sys);
      }
    }
  }

  lemma {:induction false} ReceiverNeverRefuses(sys: System)
    requires SystemInv(sys)
    ensures Enabled(sys, ReceiverRead(true)) ==> !Step(sys, ReceiverRead(true)).r.failed
  {
    if Enabled(sys, ReceiverRead(true)) {
      if sys.r.phase.ReadReady? {
        ReadReadyInv(sys);
      } else if sys.r.phase.ReadMeta? {
        ReadMetaInv(sys);
      } else {
        ReadDoneInv(sys);
      }
    }
  }

  lemma ReceiptNeverFails(sys: System)
    requires SystemInv(sys)
    ensures Enabled(sys, ReceiverWrite(true)) ==> !Step(sys, ReceiverWrite(true)).r.failed
  {
    if Enabled(sys, ReceiverWrite(true)) {
      WriterInStep(sys);
      if sys.r.phase.WriteReceipt? {
        VerdictAgreed(sys);
        ReceiptStep(sys);
      } else {
        FinalStep(sys);
      }
    }
  }

  /**
   The commit is safe after every run: the predecessor commits an upstream only if the successor
   took it, named it accepted and finalized without error, and its handles were handed out once and
   never closed by the receipt. A taker gives handles back only when its finalization fails, so the
   successor still holds them.
   */
  lemma CommitMeansTaken(sys: System, run: seq<Event>, id: Id)
    requires Fresh(sys)
    ensures var now := Run(sys, run);
            now.Some? && now.value.s.phase.Committed? && id in now.value.s.accepted ==>
              && !now.value.r.failed && now.value.r.finalized
              && id in now.value.r.accepted && id in now.value.r.taken && id in now.value.r.received
              && now.value.r.received[id].batch < |now.value.r.fates|
              && now.value.r.fates[now.value.r.received[id].batch] == Fate(0, 1)
  {
    FreshInv(sys);
    var now := Run(sys, run);
    if now.Some? && now.value.s.phase.Committed? && id in now.value.s.accepted {
      RunInv(sys, run);
      TakenIsHanded(now.value.r, id);
    }
  }

  lemma TakenIsHanded(r: Receiver, id: Id)
    requires BatchesOk(r) && id in r.taken
    ensures r.received[id].batch < |r.fates| && r.fates[r.received[id].batch] == Fate(0, 1)
  {
    assert r.fates[r.received[id].batch].handed == 1;
  }

  // ----- Which handles arrive -----

  /**
   A batch that arrives as it was sent, after the metadata of its turn, is admitted and becomes the
   sender's own upstream: every stream in its place, with its command and its process.
   */
  lemma BatchIsUpstream(s: Sender, r: Receiver, u: Upstream)
    requires SenderOk(s) && !s.failed && s.phase.WriteHandles? && u == s.ready[Turn(s)] && Sendable(s.schema, u)
    requires ValidSchema(r.schema) && r.schema == s.schema && r.refs == RefsOf(s.ready) && ValidReady(r.refs)
    requires r.meta == SenderMessage(s.(phase := WriteMeta))
    requires u.serverId !in r.received && u.serverId !in r.rejected
    ensures SenderMessage(s).Handles?
    ensures ValidTransfer(r, SenderMessage(s).fds, false) && UpstreamOf(r, SenderMessage(s).fds) == u
  {
    assert Turn(s.(phase := WriteMeta)) == Turn(s);
    assert Order(r.refs)[Turn(s)] == u.serverId;
    BuiltAsAnnounced(r, SenderMessage(s).fds, r.refs[Turn(s)], u);
  }

  /** Every received upstream is the one that was announced under its identity. */
  ghost predicate Delivered(sys: System) {
    forall i :: 0 <= i < |sys.s.ready| && sys.s.ready[i].serverId in sys.r.received ==>
      sys.r.received[sys.s.ready[i].serverId].upstream == sys.s.ready[i]
  }

  ghost predicate AllSendable(s: Sender) {
    forall u :: u in s.ready ==> Sendable(s.schema, u)
  }

  /** A handle batch arrives as it was sent, or with an error. */
  predicate Honest(sys: System, e: Event) {
    e.ReceiverRecv? && sys.toReceiver != [] && !e.error ==> sys.toReceiver[0] == Handles(e.fds)
  }

  ghost predicate HonestRun(sys: System, run: seq<Event>)
    requires SenderOk(sys.s) && ValidSchema(sys.r.schema)
  {
    run != [] ==>
      && HonestRun(sys, run[..|run| - 1])
      && (Run(sys, run[..|run| - 1]).Some? ==> Honest(Run(sys, run[..|run| - 1]).value, run[|run| - 1]))
  }

  lemma WaitsInStep(sys: System)
    requires SenderOk(sys.s) && Synced(sys) && !sys.r.failed && sys.r.phase.ReadHandles?
    ensures InStep(sys)
  {
  }

  /** The batch in flight to a receiver that waits for one is that of the sender's turn. */
  lemma BatchInFlight(sys: System)
    requires SenderOk(sys.s) && InStep(sys) && sys.r.phase.ReadHandles? && sys.toReceiver != []
    ensures sys.s.phase.ReadAck? && sys.r.turn == Turn(sys.s)
    ensures var sending := sys.s.(phase := WriteHandles, failed := false);
            && Turn(sending) == Turn(sys.s) && SenderOk(sending) && sys.toReceiver == [SenderMessage(sending)]
            && sys.r.meta == SenderMessage(sending.(phase := WriteMeta))
  {
    var sending := sys.s.(phase := WriteHandles, failed := false);
    assert Turn(sending) == Turn(sys.s) && Turn(sending.(phase := WriteMeta)) == Turn(sys.s);
    assert |Ahead(sys.s)| == 1 + |sys.toReceiver|;
    assert Ahead(sys.s) == [SenderMessage(sending.(phase := WriteMeta)), SenderMessage(sending)];
    assert sys.toReceiver == Ahead(sys.s)[1..] && sys.r.meta == Ahead(sys.s)[0];
  }

  /** A turn's identity is new as long as the turn has no verdict. */
  lemma TurnIsNew(sys: System)
    requires SenderOk(sys.s) && Agreed(sys) && ValidReady(RefsOf(sys.s.ready)) && !sys.r.phase.WriteReceipt?
    requires sys.r.turn == Turn(sys.s) < |sys.s.ready|
    ensures sys.s.ready[Turn(sys.s)].serverId !in sys.r.received && sys.s.ready[Turn(sys.s)].serverId !in sys.r.rejected
  {
    var ids, t := Ids(sys), Turn(sys.s);
    OrderOfRefs(sys.s.ready);
    NewIdentity(ids, t);
    assert Decided(sys.r) == t && ids[t] == sys.s.ready[t].serverId;
  }

  lemma {:induction false} RecvDelivered(sys: System, fds: seq<Handle>)
    requires SystemInv(sys) && Delivered(sys) && AllSendable(sys.s) && sys.r.schema == sys.s.schema
    requires !sys.r.failed && sys.r.phase.ReadHandles? && sys.toReceiver != [] && sys.toReceiver[0] == Handles(fds)
    requires ValidTransfer(sys.r, fds, false)
    ensures Delivered(sys.(r := TakeBatch(sys.r, fds, false)))
  {
    WaitsInStep(sys);
    BatchInFlight(sys);
    TurnIsNew(sys);
    BatchIsUpstream(sys.s.(phase := WriteHandles, failed := false), sys.r, sys.s.ready[Turn(sys.s)]);
    OnceAnnounced(sys.s.ready, Turn(sys.s));
  }

  lemma OnceAnnounced(ready: seq<Upstream>, t: nat)
    requires ValidReady(RefsOf(ready)) && t < |ready|
    ensures forall i :: 0 <= i < |ready| && ready[i].serverId == ready[t].serverId ==> i == t
  {
    OrderOfRefs(ready);
    assert forall i :: 0 <= i < |ready| ==> ReadyIds(ready)[i] == ready[i].serverId;
  }

  /** No other event touches what was received. */
  lemma {:induction false} OthersKeepReceived(sys: System, e: Event)
    requires SenderOk(sys.s) && ValidSchema(sys.r.schema) && Enabled(sys, e)
    requires e.ReceiverRecv? ==> !ValidTransfer(sys.r, e.fds, e.error)
    ensures Step(sys, e).r.received == sys.r.received
  {
    match e
    case ReceiverRead(ok) => KeepsReceived(sys.r, Read(if ok then Some(sys.toReceiver[0]) else None));
    case ReceiverLost => KeepsReceived(ReceiverNext(sys.r, Recv([], true)), Sent(false));
    case ReceiverWrite(ok) => KeepsReceived(sys.r, Sent(ok));
    case ReceiverTake(id) => KeepsReceived(sys.r, Take(id));
    case ReceiverFinalize(accepted) => KeepsReceived(sys.r, Finalize(accepted));
    case ReceiverAbort => KeepsReceived(sys.r, Abort);
    case _ =>
  }

  lemma {:induction false} StepDelivered(sys: System, e: Event)
    requires SystemInv(sys) && Delivered(sys) && AllSendable(sys.s) && sys.r.schema == sys.s.schema
    requires Enabled(sys, e) && Honest(sys, e)
    ensures Delivered(Step(sys, e))
  {
    if e.ReceiverRecv? && ValidTransfer(sys.r, e.fds, e.error) {
      RecvDelivered(sys, e.fds);
    } else {
      OthersKeepReceived(sys, e);
    }
  }

  lemma {:induction false} RunDelivered(sys: System, run: seq<Event>)
    requires Fresh(sys) && sys.r.schema == sys.s.schema && AllSendable(sys.s)
    requires Run(sys, run).Some? && HonestRun(sys, run)
    ensures Delivered(Run(sys, run).value)
    decreases |run|
  {
    if run != [] {
      FreshInv(sys);
      RunInv(sys, run[..|run| - 1]);
      RunDelivered(sys, run[..|run| - 1]);
      StepDelivered(Run(sys, run[..|run| - 1]).value, run[|run| - 1]);
    }
  }

  /**
   The streams stay apart: on every run whose batches arrive as sent, however it fails otherwise,
   what the successor received under an identity is the predecessor's upstream of that identity.
   What the predecessor commits, the successor therefore holds unchanged.
   */
  lemma ReceivedAsAnnounced(sys: System, run: seq<Event>, u: Upstream)
    requires Fresh(sys) && sys.r.schema == sys.s.schema && AllSendable(sys.s) && HonestRun(sys, run) && u in sys.s.ready
    ensures var now := Run(sys, run);
            now.Some? ==>
              && (u.serverId in now.value.r.received ==> now.value.r.received[u.serverId].upstream == u)
              && (now.value.s.phase.Committed? && u.serverId in now.value.s.accepted ==>
                u.serverId in now.value.r.taken && u.serverId in now.value.r.received)
  {
    if Run(sys, run).Some? {
      RunDelivered(sys, run);
      CommitMeansTaken(sys, run, u.serverId);
    }
  }
}
