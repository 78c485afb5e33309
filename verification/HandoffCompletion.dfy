/** The handoff can complete: when nothing is lost, everything announced is committed. */
module HandoffCompletion {
  import opened Options
  import opened HandoffProto
  import opened HandoffEndpoints
  import opened HandoffAgreement

  /** The run that leads to a state, with one more event. */
  lemma {:induction false} Extend(sys: System, run: seq<Event>, now: System, e: Event, next: System)
    returns (longer: seq<Event>)
    requires SenderOk(sys.s) && ValidSchema(sys.r.schema) && Run(sys, run) == Some(now)
    requires Enabled(now, e) && Step(now, e) == next
    ensures Run(sys, longer) == Some(next)
  {
    longer := run + [e];
    assert longer[..|run|] == run;
  }

  /** Both endpoints between two turns, with nothing in flight and nothing rejected so far. */
  ghost predicate Between(now: System) {
    && SenderOk(now.s) && ValidSchema(now.r.schema) && now.r.schema == now.s.schema
    && !now.s.failed && !now.r.failed && now.toReceiver == [] && now.toSender == []
    && now.r.refs == RefsOf(now.s.ready) && now.r.turn == Turn(now.s)
    && now.s.phase == NextTurn(now.s) && now.r.phase == NextTransfer(now.r)
    && now.r.rejected == {} && now.r.received.Keys == Set(Ids(now)[..Turn(now.s)])
    && now.r.taken == {} && !now.r.finalized
    && ValidReady(RefsOf(now.s.ready)) && AllSendable(now.s) && Delivered(now)
  }

  /** The batch of the current turn, as the sender sends it. */
  ghost function SentHandles(now: System): seq<Handle>
    requires Between(now) && Turn(now.s) < |now.s.ready|
  {
    HandlesOf(now.s.schema, now.s.ready[Turn(now.s)]).fds
  }

  /** The state in which the batch of the current turn is about to arrive. */
  ghost function Awaiting(now: System): System
    requires Between(now) && Turn(now.s) < |now.s.ready|
  {
    var u := now.s.ready[Turn(now.s)];
    System(now.s.(phase := ReadAck), now.r.(phase := ReadHandles, meta := MetaOf(now.s.schema, u)),
        [HandlesOf(now.s.schema, u)], [])
  }

  ghost function MetaSent(now: System): System
    requires Between(now) && Turn(now.s) < |now.s.ready|
  {
    now.(s := now.s.(phase := WriteHandles), toReceiver := [MetaOf(now.s.schema, now.s.ready[Turn(now.s)])])
  }

  ghost function MetaRead(now: System): System
    requires Between(now) && Turn(now.s) < |now.s.ready|
  {
    var meta := MetaOf(now.s.schema, now.s.ready[Turn(now.s)]);
    System(now.s.(phase := WriteHandles), now.r.(phase := ReadHandles, meta := meta), [], [])
  }

  lemma MetaSentStep(now: System)
    requires Between(now) && Turn(now.s) < |now.s.ready|
    ensures Enabled(now, SenderWrite(true)) && Step(now, SenderWrite(true)) == MetaSent(now)
  {
  }

  lemma MetaReadStep(now: System)
    requires Between(now) && Turn(now.s) < |now.s.ready|
    ensures SenderOk(MetaSent(now).s) && Enabled(MetaSent(now), ReceiverRead(true))
      && Step(MetaSent(now), ReceiverRead(true)) == MetaRead(now)
  {
    assert MetaSent(now).toReceiver[1..] == [];
  }

  lemma HandlesSentStep(now: System)
    requires Between(now) && Turn(now.s) < |now.s.ready|
    ensures SenderOk(MetaRead(now).s) && Enabled(MetaRead(now), SenderWrite(true))
      && Step(MetaRead(now), SenderWrite(true)) == Awaiting(now)
  {
    assert Turn(MetaRead(now).s) == Turn(now.s);
  }

  lemma {:induction false} Announce(sys: System, run: seq<Event>, now: System) returns (longer: seq<Event>)
    requires SenderOk(sys.s) && ValidSchema(sys.r.schema) && Run(sys, run) == Some(now) && Between(now)
      && Turn(now.s) < |now.s.ready|
    ensures Run(sys, longer) == Some(Awaiting(now))
  {
    MetaSentStep(now);
    longer := Extend(sys, run, now, SenderWrite(true), MetaSent(now));
    MetaReadStep(now);
    longer := Extend(sys, longer, MetaSent(now), ReceiverRead(true), MetaRead(now));
    HandlesSentStep(now);
    longer := Extend(sys, longer, MetaRead(now), SenderWrite(true), Awaiting(now));
  }

  /** The batch arrives whole. */
  lemma BatchIsValid(now: System)
    requires Between(now) && Turn(now.s) < |now.s.ready|
    ensures ValidTransfer(Awaiting(now).r, SentHandles(now), false)
    ensures UpstreamOf(Awaiting(now).r, SentHandles(now)) == now.s.ready[Turn(now.s)]
  {
    var sending, ids := now.s.(phase := WriteHandles), Ids(now);
    OrderOfRefs(now.s.ready);
    NewIdentity(ids, Turn(now.s));
    assert Turn(sending) == Turn(now.s) && SenderMessage(sending) == Handles(SentHandles(now));
    BatchIsUpstream(sending, Awaiting(now).r, now.s.ready[Turn(now.s)]);
  }

  ghost function Kept(now: System): Receiver
    requires Between(now) && Turn(now.s) < |now.s.ready|
  {
    TakeBatch(Awaiting(now).r, SentHandles(now), false)
  }

  lemma KeptEffect(now: System)
    requires Between(now) && Turn(now.s) < |now.s.ready|
    ensures Stored(Kept(now)) && NamedId(Kept(now).meta) == now.s.ready[Turn(now.s)].serverId
    ensures Kept(now).received.Keys == now.r.received.Keys + {now.s.ready[Turn(now.s)].serverId}
    ensures Kept(now) == now.r.(phase := WriteReceipt, meta := Kept(now).meta, received := Kept(now).received,
                                owned := Kept(now).owned, fates := Kept(now).fates)
  {
    BatchIsValid(now);
  }

  lemma {:induction false} Deliver(sys: System, run: seq<Event>, now: System) returns (longer: seq<Event>)
    requires SenderOk(sys.s) && ValidSchema(sys.r.schema) && Run(sys, run) == Some(now)
    requires Between(now) && Turn(now.s) < |now.s.ready|
    ensures Run(sys, longer) == Some(System(now.s.(phase := ReadAck), Kept(now), [], []))
  {
    longer := Announce(sys, run, now);
    var e := ReceiverRecv(SentHandles(now), false);
    longer := Extend(sys, longer, Awaiting(now), e, System(now.s.(phase := ReadAck), Kept(now), [], []));
  }

  /** Both endpoints after the turn's receipt was read. */
  ghost function TurnDone(now: System): System
    requires Between(now) && Turn(now.s) < |now.s.ready|
  {
    System(Receipted(now.s.(phase := ReadAck), true), SendReceipt(Kept(now)), [], [])
  }

  lemma {:induction false} TurnDoneIsBetween(now: System)
    requires Between(now) && Turn(now.s) < |now.s.ready|
    ensures Between(TurnDone(now)) && Turn(TurnDone(now).s) == Turn(now.s) + 1 && TurnDone(now).s.ready == now.s.ready
  {
    KeptEffect(now);
    OrderOfRefs(now.s.ready);
    NewIdentity(Ids(now), Turn(now.s));
    OnceAnnounced(now.s.ready, Turn(now.s));
    TurnIsDelivered(now);
  }

  lemma TurnIsDelivered(now: System)
    requires Between(now) && Turn(now.s) < |now.s.ready|
    ensures Delivered(TurnDone(now))
  {
    BatchIsValid(now);
    KeptEffect(now);
    OnceAnnounced(now.s.ready, Turn(now.s));
    assert TurnDone(now).r.received == Kept(now).received;
  }

  ghost function ReceiptSent(now: System): System
    requires Between(now) && Turn(now.s) < |now.s.ready|
  {
    System(now.s.(phase := ReadAck), SendReceipt(Kept(now)), [],
        [Ack(PROTOCOL_VERSION, now.s.ready[Turn(now.s)].serverId, true)])
  }

  lemma {:induction false} ReceiptSentStep(now: System)
    requires Between(now) && Turn(now.s) < |now.s.ready|
    ensures var kept := System(now.s.(phase := ReadAck), Kept(now), [], []);
            SenderOk(kept.s) && Enabled(kept, ReceiverWrite(true))
              && Step(kept, ReceiverWrite(true)) == ReceiptSent(now)
  {
    KeptEffect(now);
    ReceiptStep(System(now.s.(phase := ReadAck), Kept(now), [], []));
  }

  lemma ReceiptReadStep(now: System)
    requires Between(now) && Turn(now.s) < |now.s.ready|
    ensures var sent := ReceiptSent(now);
            SenderOk(sent.s) && Enabled(sent, SenderRead(true)) && Step(sent, SenderRead(true)) == TurnDone(now)
  {
    KeptEffect(now);
    assert Turn(ReceiptSent(now).s) == Turn(now.s);
    assert ReceiptInFlight(ReceiptSent(now));
    ReceiptRead(ReceiptSent(now), true);
  }

  lemma {:induction false} CompleteTurn(sys: System, run: seq<Event>, now: System) returns (longer: seq<Event>)
    requires SenderOk(sys.s) && ValidSchema(sys.r.schema) && Run(sys, run) == Some(now)
    requires Between(now) && Turn(now.s) < |now.s.ready|
    ensures Run(sys, longer) == Some(TurnDone(now))
  {
    longer := Deliver(sys, run, now);
    ReceiptSentStep(now);
    longer := Extend(sys, longer, System(now.s.(phase := ReadAck), Kept(now), [], []), ReceiverWrite(true),
        ReceiptSent(now));
    ReceiptReadStep(now);
    longer := Extend(sys, longer, ReceiptSent(now), SenderRead(true), TurnDone(now));
  }

  /** All turns, one after another. */
  lemma {:induction false} CompleteTurns(sys: System, run: seq<Event>, now: System)
    returns (longer: seq<Event>, end: System)
    requires SenderOk(sys.s) && ValidSchema(sys.r.schema) && Run(sys, run) == Some(now)
    requires Between(now)
    ensures Run(sys, longer) == Some(end) && Between(end) && Turn(end.s) == |end.s.ready| && end.s.ready == now.s.ready
    decreases |now.s.ready| - Turn(now.s)
  {
    if Turn(now.s) == |now.s.ready| {
      return run, now;
    }
    longer := CompleteTurn(sys, run, now);
    TurnDoneIsBetween(now);
    longer, end := CompleteTurns(sys, longer, TurnDone(now));
  }

  // ----- The announcement -----

  ghost function ReadySent(sys: System): System
    requires Fresh(sys)
  {
    sys.(s := sys.s.(phase := NextTurn(sys.s)), toReceiver := [Ready(PROTOCOL_VERSION, RefsOf(sys.s.ready))])
  }

  ghost function ReadyRead(sys: System): System
    requires Fresh(sys)
  {
    var r' := sys.r.(refs := RefsOf(sys.s.ready));
    System(ReadySent(sys).s, r'.(phase := NextTransfer(r')), [], [])
  }

  lemma ReadySentStep(sys: System)
    requires Fresh(sys)
    ensures Enabled(sys, SenderWrite(true)) && Step(sys, SenderWrite(true)) == ReadySent(sys)
  {
    assert sys.toReceiver + [SenderMessage(sys.s)] == [SenderMessage(sys.s)];
  }

  lemma ReadyReadStep(sys: System)
    requires Fresh(sys)
    ensures SenderOk(ReadySent(sys).s) && Enabled(ReadySent(sys), ReceiverRead(true))
      && Step(ReadySent(sys), ReceiverRead(true)) == ReadyRead(sys)
  {
    assert ReadySent(sys).toReceiver[1..] == [];
  }

  lemma ReadyReadIsBetween(sys: System)
    requires Fresh(sys) && sys.r.schema == sys.s.schema && AllSendable(sys.s)
    ensures Between(ReadyRead(sys))
  {
    assert Ids(ReadyRead(sys))[..0] == [];
  }

  lemma {:induction false} Begin(sys: System) returns (run: seq<Event>, now: System)
    requires Fresh(sys) && sys.r.schema == sys.s.schema && AllSendable(sys.s)
    ensures Run(sys, run) == Some(now) && Between(now) && now.s.ready == sys.s.ready
  {
    ReadySentStep(sys);
    run := Extend(sys, [], sys, SenderWrite(true), ReadySent(sys));
    ReadyReadStep(sys);
    now := ReadyRead(sys);
    run := Extend(sys, run, ReadySent(sys), ReceiverRead(true), now);
    ReadyReadIsBetween(sys);
  }

  // ----- Done, adoption, commit -----

  /** Both endpoints once Done has been read. */
  ghost function DoneRead(now: System): System {
    System(now.s.(phase := ReadFinal), now.r.(phase := Prepared), [], [])
  }

  ghost function DoneSent(now: System): System {
    now.(s := now.s.(phase := ReadFinal), toReceiver := [Done(PROTOCOL_VERSION, now.s.receipted, now.s.rejected)])
  }

  lemma DoneSentStep(now: System)
    requires Between(now) && Turn(now.s) == |now.s.ready|
    ensures Enabled(now, SenderWrite(true)) && Step(now, SenderWrite(true)) == DoneSent(now)
  {
  }

  lemma {:induction false} DoneIsRead(sent: System)
    requires SystemInv(sent) && !sent.r.failed && sent.r.phase.ReadDone? && sent.toReceiver != []
    ensures Enabled(sent, ReceiverRead(true))
      && Step(sent, ReceiverRead(true)) == sent.(r := sent.r.(phase := Prepared), toReceiver := [])
  {
    DoneValidates(sent);
    DoneReadStep(sent);
  }

  lemma {:induction false} SendDone(sys: System, run: seq<Event>, now: System) returns (longer: seq<Event>)
    requires SystemInv(sys) && Run(sys, run) == Some(now) && Between(now) && Turn(now.s) == |now.s.ready|
    ensures Run(sys, longer) == Some(DoneRead(now))
  {
    DoneSentStep(now);
    longer := Extend(sys, run, now, SenderWrite(true), DoneSent(now));
    RunInv(sys, longer);
    DoneIsRead(DoneSent(now));
    longer := Extend(sys, longer, DoneSent(now), ReceiverRead(true), DoneRead(now));
  }

  /** A receiver that has taken the first k announced upstreams. */
  ghost predicate TookFirst(now: System, k: nat) {
    && k <= |now.s.ready| && now.r.phase.Prepared? && !now.r.finalized && !now.r.failed
    && now.r.taken == Set(Ids(now)[..k])
    && now.r.received.Keys == Set(Ids(now)) && (forall i :: k <= i < |now.s.ready| ==> Ids(now)[i] in now.r.owned)
  }

  lemma TakeNext(now: System, k: nat)
    requires SenderOk(now.s) && ValidSchema(now.r.schema) && TookFirst(now, k) && k < |now.s.ready|
      && NoDuplicates(Ids(now))
    ensures var id := now.s.ready[k].serverId;
            && Enabled(now, ReceiverTake(id)) && Step(now, ReceiverTake(id)) == now.(r := TakeOut(now.r, id))
            && TookFirst(now.(r := TakeOut(now.r, id)), k + 1)
  {
    var ids := Ids(now);
    assert ids[k] in Set(ids) && ids[k] in now.r.owned;
    NewIdentity(ids, k);
    var next := now.(r := TakeOut(now.r, ids[k]));
    assert next.r.taken == Set(ids[..k]) + {ids[k]};
    assert forall i :: k < i < |ids| ==> ids[i] != ids[k];
    assert Ids(next) == ids;
  }

  lemma {:induction false} TakeEach(sys: System, run: seq<Event>, now: System, k: nat)
    returns (longer: seq<Event>, end: System)
    requires SenderOk(sys.s) && ValidSchema(sys.r.schema) && Run(sys, run) == Some(now) && TookFirst(now, k)
      && NoDuplicates(Ids(now))
    ensures Run(sys, longer) == Some(end) && end == now.(r := end.r) && TookFirst(end, |now.s.ready|)
    ensures end.r.received == now.r.received
    decreases |now.s.ready| - k
  {
    if k == |now.s.ready| {
      return run, now;
    }
    var id := now.s.ready[k].serverId;
    TakeNext(now, k);
    longer := Extend(sys, run, now, ReceiverTake(id), now.(r := TakeOut(now.r, id)));
    longer, end := TakeEach(sys, longer, now.(r := TakeOut(now.r, id)), k + 1);
  }

  ghost function Decided(now: System): System {
    now.(r := CloseOwned(now.r).(finalized := true, accepted := Set(Ids(now)), phase := WriteFinal))
  }

  lemma DecideStep(now: System)
    requires SenderOk(now.s) && ValidSchema(now.r.schema) && TookFirst(now, |now.s.ready|) && Exact(Ids(now))
    ensures Enabled(now, ReceiverFinalize(Ids(now))) && Step(now, ReceiverFinalize(Ids(now))) == Decided(now)
  {
    assert Ids(now)[..|now.s.ready|] == Ids(now);
  }

  /** Everything taken is accepted and committed. */
  lemma {:induction false} Commit(sys: System, run: seq<Event>, now: System) returns (longer: seq<Event>, end: System)
    requires SystemInv(sys) && Run(sys, run) == Some(now) && TookFirst(now, |now.s.ready|)
    requires now.s.phase.ReadFinal? && !now.s.failed && now.toSender == [] && Exact(Ids(now))
    ensures Run(sys, longer) == Some(end) && end.s.phase.Committed? && !end.s.failed && end.s.accepted == Set(Ids(now))
    ensures end.r.received == now.r.received && end.r.taken == now.r.taken
  {
    var decided := Decided(now);
    DecideStep(now);
    longer := Extend(sys, run, now, ReceiverFinalize(Ids(now)), decided);
    var acked := decided.(r := decided.r.(phase := Finalized), toSender := [ReceiverMessage(decided.r)]);
    FinalStep(decided);
    longer := Extend(sys, longer, decided, ReceiverWrite(true), acked);
    longer, end := CommitFinal(sys, longer, acked);
  }

  lemma {:induction false} CommitFinal(sys: System, run: seq<Event>, acked: System)
    returns (longer: seq<Event>, end: System)
    requires SystemInv(sys) && Run(sys, run) == Some(acked) && acked.s.phase.ReadFinal? && !acked.s.failed
      && acked.r.phase.Finalized?
    requires |acked.toSender| == 1 && acked.toSender[0].FinalAck?
    ensures Run(sys, longer) == Some(end) && end.s == acked.s.(phase := Committed, accepted := acked.r.accepted)
    ensures end.r == acked.r
  {
    RunInv(sys, run);
    CommitAcked(acked);
    end := Step(acked, SenderRead(true));
    longer := Extend(sys, run, acked, SenderRead(true), end);
  }

  lemma {:induction false} CommitAcked(acked: System)
    requires SystemInv(acked) && acked.s.phase.ReadFinal? && !acked.s.failed && acked.r.phase.Finalized?
    requires |acked.toSender| == 1 && acked.toSender[0].FinalAck?
    ensures Enabled(acked, SenderRead(true))
    ensures Step(acked, SenderRead(true)).s == acked.s.(phase := Committed, accepted := acked.r.accepted)
  {
    SenderFinal(acked);
  }

  /**
   When nothing is lost, the handoff commits exactly what was announced, and the successor has taken
   every upstream as the predecessor had it: each handle in its place, with its command and process.
   */
  lemma {:induction false} HandoffCompletes(sys: System) returns (run: seq<Event>, end: System)
    requires Fresh(sys) && sys.r.schema == sys.s.schema && AllSendable(sys.s)
    ensures Run(sys, run) == Some(end)
    ensures end.s.phase.Committed? && !end.s.failed && end.s.accepted == Set(ReadyIds(sys.s.ready))
    ensures end.r.received.Keys == end.r.taken == end.s.accepted
    ensures forall u :: u in sys.s.ready ==>
      u.serverId in end.r.received && end.r.received[u.serverId].upstream == u
  {
    FreshInv(sys);
    OrderOfRefs(sys.s.ready);
    var now;
    run, now := CompleteTransfers(sys);
    run, end := TakeEach(sys, run, now, 0);
    assert Ids(end)[..|end.s.ready|] == Ids(end);
    run, end := Commit(sys, run, end);
  }

  lemma {:induction false} CompleteTransfers(sys: System) returns (run: seq<Event>, now: System)
    requires Fresh(sys) && sys.r.schema == sys.s.schema && AllSendable(sys.s) && SystemInv(sys)
    ensures Run(sys, run) == Some(now) && TookFirst(now, 0) && now.s.ready == sys.s.ready
    ensures now.s.phase.ReadFinal? && !now.s.failed && now.toSender == []
    ensures forall u :: u in sys.s.ready ==>
      u.serverId in now.r.received && now.r.received[u.serverId].upstream == u
  {
    run, now := Begin(sys);
    run, now := CompleteTurns(sys, run, now);
    RunInv(sys, run);
    AllOwned(now);
    EachDelivered(now);
    run := SendDone(sys, run, now);
    now := DoneRead(now);
  }

  lemma EachDelivered(now: System)
    requires Between(now) && Turn(now.s) == |now.s.ready|
    ensures forall u :: u in now.s.ready ==> u.serverId in now.r.received && now.r.received[u.serverId].upstream == u
  {
    var ids := Ids(now);
    assert ids[..Turn(now.s)] == ids;
    forall u | u in now.s.ready
      ensures u.serverId in now.r.received && now.r.received[u.serverId].upstream == u
    {
      var i :| 0 <= i < |now.s.ready| && now.s.ready[i] == u;
      assert ids[i] in Set(ids);
    }
  }

  lemma AllOwned(now: System)
    requires SystemInv(now) && Between(now) && Turn(now.s) == |now.s.ready|
    ensures TookFirst(DoneRead(now), 0)
  {
    var ids := Ids(now);
    assert ids[..Turn(now.s)] == ids && ids[..0] == [];
    forall i | 0 <= i < |now.s.ready|
      ensures ids[i] in now.r.owned
    {
      assert ids[i] in Set(ids);
    }
  }
}
