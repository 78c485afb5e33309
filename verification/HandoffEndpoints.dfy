/**
 The two handoff endpoints as machines over their own input and output.

 Each endpoint is sequential: its phase says which one operation it performs next, and an event
 gives that operation's outcome. A failed endpoint keeps its phase and does nothing more on the
 wire. What the other side does is not visible here, so everything proved of one machine holds
 against any peer.
 */
module HandoffEndpoints {
  import opened Options
  import opened HandoffProto
  import opened HandoffPartition

  // ----- The predecessor -----

  datatype SendPhase = WriteReady | WriteMeta | WriteHandles | ReadAck | WriteDone | ReadFinal | Committed

  datatype Sender = Sender(schema: Schema, ready: seq<Upstream>, phase: SendPhase, failed: bool,
                           receipted: seq<Id>, rejected: seq<Id>, accepted: set<Id>)

  /** The outcome of one operation on the wire. */
  datatype SendEvent = Wrote(ok: bool) | Got(message: Option<Msg>)

  function ReadyIds(ready: seq<Upstream>): seq<Id> {
    seq(|ready|, i requires 0 <= i < |ready| => ready[i].serverId)
  }

  function RefsOf(ready: seq<Upstream>): seq<UpstreamRef> {
    seq(|ready|, i requires 0 <= i < |ready| => UpstreamRef(ready[i].serverId, ready[i].command, ready[i].pid))
  }

  /** How many transfers have been acknowledged: also the index of the current one. */
  function Turn(s: Sender): nat {
    |s.receipted| + |s.rejected|
  }

  function MetaOf(schema: Schema, u: Upstream): Msg {
    Transfer(PROTOCOL_VERSION, u.serverId, "stdin", "stdout", "stderr",
             if schema.requiresAuthority then Some("tree_authority") else None)
  }

  function HandlesOf(schema: Schema, u: Upstream): Msg {
    Handles([u.stdin, u.stdout, u.stderr] + if schema.requiresAuthority then [u.authority] else [])
  }

  predicate SenderWrites(s: Sender) {
    !s.failed && (s.phase.WriteReady? || s.phase.WriteMeta? || s.phase.WriteHandles? || s.phase.WriteDone?)
  }

  predicate SenderReads(s: Sender) {
    !s.failed && (s.phase.ReadAck? || s.phase.ReadFinal?)
  }

  predicate SenderEnabled(s: Sender, e: SendEvent) {
    if e.Wrote? then SenderWrites(s) else SenderReads(s)
  }

  /** The turn a sender in a transfer phase is at exists. */
  predicate SenderOk(s: Sender) {
    && Turn(s) <= |s.ready|
    && (s.phase.WriteMeta? || s.phase.WriteHandles? || s.phase.ReadAck? ==> Turn(s) < |s.ready|)
    && (s.phase.WriteReady? ==> Turn(s) == 0)
    && (s.phase.WriteDone? || s.phase.ReadFinal? || s.phase.Committed? ==> Turn(s) == |s.ready|)
  }

  function SenderMessage(s: Sender): Msg
    requires SenderOk(s) && SenderWrites(s)
  {
    match s.phase
    case WriteReady => Ready(PROTOCOL_VERSION, RefsOf(s.ready))
    case WriteMeta => MetaOf(s.schema, s.ready[Turn(s)])
    case WriteHandles => HandlesOf(s.schema, s.ready[Turn(s)])
    case _ => Done(PROTOCOL_VERSION, s.receipted, s.rejected)
  }

  function NextTurn(s: Sender): SendPhase {
    if Turn(s) < |s.ready| then WriteMeta else WriteDone
  }

  function SenderNext(s: Sender, e: SendEvent): (s': Sender)
    requires SenderOk(s) && SenderEnabled(s, e)
    ensures SenderOk(s') && s'.ready == s.ready && s'.schema == s.schema
  {
    match e
    case Wrote(ok) =>
      if !ok then s.(failed := true)
      else
        (match s.phase
         case WriteReady => s.(phase := NextTurn(s))
         case WriteMeta => s.(phase := WriteHandles)
         case WriteHandles => s.(phase := ReadAck)
         case _ => s.(phase := ReadFinal))
    case Got(message) =>
      if message.None? then s.(failed := true)
      else
        var m := message.value;
        if s.phase.ReadAck? then
          var id := s.ready[Turn(s)].serverId;
          if m.Ack? && m.version == PROTOCOL_VERSION && m.serverId == id then
            var next := if m.ok then s.(receipted := s.receipted + [id]) else s.(rejected := s.rejected + [id]);
            next.(phase := NextTurn(next))
          else s.(failed := true)
        else if m.FinalAck? && m.version == PROTOCOL_VERSION
          && FinalPartition(ReadyIds(s.ready), s.receipted, m.accepted, m.aborted) then
          s.(phase := Committed, accepted := Set(m.accepted))
        else s.(failed := true)
  }

  function InitSender(schema: Schema, ready: seq<Upstream>): Sender {
    Sender(schema, ready, WriteReady, false, [], [], {})
  }

  // ----- The successor -----

  datatype ReceivePhase =
    | ReadReady | ReadMeta | ReadHandles | WriteReceipt | ReadDone | Prepared | WriteFinal | Finalized

  /** A received upstream and the number of the handle batch it came in. */
  datatype Parcel = Parcel(upstream: Upstream, batch: nat)

  /** How often one handle batch was closed and how often it was handed out. */
  datatype Fate = Fate(closed: nat, handed: nat)

  /** `fates` has one entry for each handle batch that arrived. */
  datatype Receiver = Receiver(schema: Schema, phase: ReceivePhase, failed: bool, refs: seq<UpstreamRef>, turn: nat,
      meta: Msg,
                               received: map<Id, Parcel>, rejected: set<Id>, owned: set<Id>, taken: set<Id>,
                               finalized: bool, accepted: set<Id>,
                               fates: seq<Fate>)

  datatype ReceiveEvent =
    | Read(message: Option<Msg>)
    | Recv(fds: seq<Handle>, error: bool)
    | Sent(ok: bool)
    | Take(id: Id)
    | Finalize(accepted: seq<Id>)
    | Abort

  function Order(refs: seq<UpstreamRef>): seq<Id> {
    seq(|refs|, i requires 0 <= i < |refs| => refs[i].serverId)
  }

  /** The announcements a receiver admits. */
  predicate ValidReady(refs: seq<UpstreamRef>) {
    Exact(Order(refs)) && forall i :: 0 <= i < |refs| ==> !IsModern(refs[i].serverId) && 0 < refs[i].pid
  }

  predicate ValidMeta(schema: Schema, m: Msg) {
    && m.Transfer? && m.version == PROTOCOL_VERSION
    && m.stdin == "stdin" && m.stdout == "stdout" && m.stderr == "stderr"
    && m.authority == if schema.requiresAuthority then Some("tree_authority") else None
  }

  /** The test of one transfer: a known, new identity with exactly the schema's handles. */
  predicate ValidTransfer(r: Receiver, fds: seq<Handle>, error: bool) {
    && ValidMeta(r.schema, r.meta)
    && r.meta.serverId in Order(r.refs) && r.meta.serverId !in r.received && r.meta.serverId !in r.rejected
    && !error && |fds| == r.schema.count && 0 !in fds
  }

  ghost function UpstreamOf(r: Receiver, fds: seq<Handle>): (u: Upstream)
    requires ValidTransfer(r, fds, false) && ValidSchema(r.schema)
    ensures u.serverId == r.meta.serverId && Payload(u) == fds
  {
    var i :| 0 <= i < |r.refs| && r.refs[i].serverId == r.meta.serverId;
    Upstream(r.meta.serverId, r.refs[i].command, r.refs[i].pid, fds[0], fds[1], fds[2],
             if r.schema.requiresAuthority then fds[3] else 0)
  }

  /** The handles a close releases. */
  function Payload(u: Upstream): seq<Handle> {
    [u.stdin, u.stdout, u.stderr] + if u.authority != 0 then [u.authority] else []
  }

  function BatchesOf(ids: set<Id>, received: map<Id, Parcel>): set<nat> {
    set id | id in ids && id in received :: received[id].batch
  }

  function OwnedBatches(r: Receiver): set<nat> {
    BatchesOf(r.owned, r.received)
  }

  function Closing(fates: seq<Fate>, batches: set<nat>): seq<Fate> {
    seq(|fates|, b requires 0 <= b < |fates| => if b in batches then fates[b].(closed := fates[b].closed + 1)
      else fates[b])
  }

  function Handing(fates: seq<Fate>, batch: nat): seq<Fate> {
    seq(|fates|, b requires 0 <= b < |fates| => if b == batch then fates[b].(handed := fates[b].handed + 1)
      else fates[b])
  }

  function CloseOwned(r: Receiver): Receiver {
    r.(fates := Closing(r.fates, OwnedBatches(r)), owned := {})
  }

  /** A failed receive closes whatever the receipt still owns. */
  function Fail(r: Receiver): Receiver {
    CloseOwned(r).(failed := true)
  }

  predicate ReceiverReads(r: Receiver) {
    !r.failed && (r.phase.ReadReady? || r.phase.ReadMeta? || r.phase.ReadDone?)
  }

  predicate ReceiverWrites(r: Receiver) {
    !r.failed && (r.phase.WriteReceipt? || r.phase.WriteFinal?)
  }

  predicate ReceiverEnabled(r: Receiver, e: ReceiveEvent) {
    match e
    case Read(_) => ReceiverReads(r)
    case Recv(_, _) => !r.failed && r.phase.ReadHandles?
    case Sent(_) => ReceiverWrites(r)
    case _ => r.phase.Prepared? || r.phase.Finalized?
  }

  /** Whether the transfer at hand was stored. */
  predicate Stored(r: Receiver) {
    NamedId(r.meta) in r.received && r.received[NamedId(r.meta)].batch + 1 == |r.fates|
  }

  function ReceiverMessage(r: Receiver): Msg
    requires ReceiverWrites(r)
  {
    if r.phase.WriteReceipt? then Ack(PROTOCOL_VERSION, NamedId(r.meta), Stored(r))
    else FinalAck(PROTOCOL_VERSION, Choose(Order(r.refs), r.accepted, true), Choose(Order(r.refs), r.accepted, false))
  }

  function NextTransfer(r: Receiver): ReceivePhase {
    if r.turn < |r.refs| then ReadMeta else ReadDone
  }

  function TakeReady(r: Receiver, message: Option<Msg>): Receiver {
    if message.Some? && message.value.Ready? && message.value.version == PROTOCOL_VERSION
      && ValidReady(message.value.upstreams) then
      var next := r.(refs := message.value.upstreams);
      next.(phase := NextTransfer(next))
    else Fail(r)
  }

  ghost function TakeBatch(r: Receiver, fds: seq<Handle>, error: bool): Receiver
    requires ValidSchema(r.schema)
  {
    if ValidTransfer(r, fds, error) then
      var id := r.meta.serverId;
      r.(phase := WriteReceipt, fates := r.fates + [Fate(0, 0)],
         received := r.received[id := Parcel(UpstreamOf(r, fds), |r.fates|)], owned := r.owned + {id})
    else
      r.(phase := WriteReceipt, fates := r.fates + [Fate(1, 0)])
  }

  function SendReceipt(r: Receiver): Receiver {
    var id := NamedId(r.meta);
    if Stored(r) then
      var next := r.(turn := r.turn + 1);
      next.(phase := NextTransfer(next))
    else if id !in Order(r.refs) || id in r.received || id in r.rejected then Fail(r)
    else
      var next := r.(turn := r.turn + 1, rejected := r.rejected + {id});
      next.(phase := NextTransfer(next))
  }

  /** What Done must list: exactly what was received and what was rejected. */
  predicate ValidDone(r: Receiver, m: Msg) {
    && m.Done? && m.version == PROTOCOL_VERSION && Exact(m.transferred) && Exact(m.aborted)
    && Set(m.transferred) == r.received.Keys && Set(m.aborted) == r.rejected
  }

  function TakeOut(r: Receiver, id: Id): Receiver {
    if id in r.received && id in r.owned then
      r.(owned := r.owned - {id}, taken := r.taken + {id}, fates := Handing(r.fates, r.received[id].batch))
    else r
  }

  function BeginFinal(r: Receiver, accepted: seq<Id>): Receiver {
    if r.finalized then r
    else if Exact(accepted) && Set(accepted) <= r.taken then
      CloseOwned(r).(finalized := true, accepted := Set(accepted), phase := WriteFinal)
    else Fail(r).(finalized := true, phase := Finalized)
  }

  ghost function ReceiverNext(r: Receiver, e: ReceiveEvent): (r': Receiver)
    requires ReceiverEnabled(r, e) && ValidSchema(r.schema)
    ensures r'.schema == r.schema
  {
    match e
    case Read(message) =>
      if r.phase.ReadReady? then TakeReady(r, message)
      else if message.None? then Fail(r)
      else if r.phase.ReadMeta? then r.(phase := ReadHandles, meta := message.value)
      else if ValidDone(r, message.value) then r.(phase := Prepared)
      else Fail(r)
    case Recv(fds, error) => TakeBatch(r, fds, error)
    case Sent(ok) =>
      if r.phase.WriteFinal? then r.(phase := Finalized, failed := !ok)
      else if ok then SendReceipt(r)
      else Fail(r)
    case Take(id) => TakeOut(r, id)
    case Finalize(accepted) => BeginFinal(r, accepted)
    case Abort => if r.finalized then r else Fail(r).(finalized := true, phase := Finalized)
  }

  function InitReceiver(schema: Schema): Receiver {
    Receiver(schema, ReadReady, false, [], 0, Handles([]), map[], {}, {}, {}, false, {}, [])
  }
}
