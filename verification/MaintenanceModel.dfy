/**
 The maintenance-lease machine of the mux daemon.

 A state holds what the admission gate and the registry lock protect. An event is one atomic
 step under those locks, no coarser than one ledger commit: a gate-held section that commits
 several leases is a run of several events, so every invariant proved here also holds between
 the commits of one section. A grant alone takes two commits, the seed and its clocked form.

 Owner entries are named by references, which stand for the source's entry pointers: an entry
 that left the registry keeps its reference, and pins keep pointing at it.
 */
module MaintenanceModel {
  import opened Options

  type Key = string
  type HoldId = string
  type ServerId = string
  type Ref = nat

  // ----- Public lease results -----

  datatype LeaseState = Holding | RetirementBlocked | Held | Released

  datatype Result = Result(holdId: HoldId, serverId: ServerId, state: LeaseState,
                           expiresAt: int, drainDeadline: int, treesRetired: bool)

  predicate IsSpace(c: char) {
    c in "\t\n\r " || c == '\U{000B}' || c == '\U{000C}' || c == '\U{0085}' || c == '\U{00A0}'
  }

  /** A nonempty identifier with no blank at either end. */
  predicate ExactId(id: string) {
    id != "" && !IsSpace(id[0]) && !IsSpace(id[|id| - 1])
  }

  /** The control plane's own validity test; time 0 is the zero time. */
  predicate ValidResult(r: Result) {
    && ExactId(r.holdId)
    && r.expiresAt != 0
    && r.drainDeadline != 0
    && (r.serverId != "" ==> ExactId(r.serverId))
    && match r.state
       case Held => r.treesRetired
       case Released => r.treesRetired
       case Holding => true
       case RetirementBlocked => !r.treesRetired
  }

  // ----- State -----

  datatype Identity = Identity(serverId: ServerId, generation: string)

  /**
   One registry entry. `creating` is an open creation channel, `hasOwner` a promoted owner,
   `tree` a live process tree of this daemon's, `retired` the owner's proof that its trees are dead.
   A tree can also exit, or be handed to a successor, without that proof.
   */
  datatype Entry = Entry(identity: Identity, command: string, contexts: set<Key>, incomplete: bool,
                         hasOwner: bool, creating: bool, retired: bool, tree: bool)

  /** A captured entry; `waits` says that its creation channel was open at capture. */
  datatype Pin = Pin(entry: Ref, identity: Identity, waits: bool)

  datatype TimerId = TimerId(hold: HoldId, serial: nat)
  datatype Timer = Timer(due: int, retirement: bool)

  datatype Lease = Lease(keys: set<Key>, result: Result, pins: set<Pin>, recovered: bool,
                         timer: Option<TimerId>, serial: nat, retirementRetry: bool)

  /** A read-side gate section between its fence check and its context write. */
  datatype Admission = Admission(entry: Ref, key: Key)

  /**
   The body of the one shutdown that runs: it raises the flag, finalizes owners until the registry
   is empty, closes the control server, and then closes the daemon's done channel.
   */
  datatype Stop = Serving | Finalizing | Drained | Closed

  datatype State = State(leases: map<HoldId, Lease>, failed: bool, shuttingDown: bool,
                         owners: map<ServerId, Ref>, entries: map<Ref, Entry>,
                         admitting: set<Admission>, timers: map<TimerId, Timer>,
                         usedIds: set<HoldId>, clock: int, grants: nat, restarts: nat, stop: Stop)

  const RETRY_DELAY := 100

  // ----- Fences -----

  /** The lease fence alone. */
  predicate Fenced(s: State, key: Key) {
    exists id :: id in s.leases && key in s.leases[id].keys
  }

  /** What every admission tests: the failure latch, then the lease fence. */
  predicate Open(s: State, key: Key) {
    !s.failed && !Fenced(s, key)
  }

  predicate OpenAll(s: State, keys: set<Key>) {
    forall key :: key in keys ==> Open(s, key)
  }

  predicate Registered(s: State, ref: Ref) {
    && ref in s.entries
    && s.entries[ref].identity.serverId in s.owners
    && s.owners[s.entries[ref].identity.serverId] == ref
  }

  predicate Overlaps(lease: Lease, entry: Entry) {
    lease.keys * entry.contexts != {}
  }

  // ----- Retirement proof -----

  predicate Settled(entries: map<Ref, Entry>, pin: Pin) {
    && pin.entry in entries
    && entries[pin.entry].identity == pin.identity
    && (pin.waits ==> !entries[pin.entry].creating)
    && (entries[pin.entry].hasOwner ==> entries[pin.entry].retired)
  }

  predicate TreesRetired(entries: map<Ref, Entry>, lease: Lease) {
    if lease.recovered then lease.result.state == Held else forall pin :: pin in lease.pins ==> Settled(entries, pin)
  }

  predicate Expired(s: State, lease: Lease) {
    lease.result.state == Held && lease.result.expiresAt <= s.clock
  }

  predicate Unexpired(s: State) {
    forall id :: id in s.leases ==> !Expired(s, s.leases[id])
  }

  // ----- Timers -----

  function Later(a: int, b: int): int {
    if a < b then b else a
  }

  function Stopped(timers: map<TimerId, Timer>, timer: Option<TimerId>): map<TimerId, Timer> {
    match timer
    case None => timers
    case Some(t) => timers - {t}
  }

  /** Arms the lease's one timer, stopping the previous one. */
  function Schedule(s: State, id: HoldId, due: int, retirement: bool): State
    requires id in s.leases
  {
    var lease := s.leases[id];
    var t := TimerId(id, lease.serial);
    s.(timers := Stopped(s.timers, lease.timer)[t := Timer(due, retirement)],
       leases := s.leases[id := lease.(timer := Some(t), serial := lease.serial + 1, retirementRetry := retirement)])
  }

  function ScheduleExpiry(s: State, id: HoldId): State
    requires id in s.leases
  {
    Schedule(s, id, Later(s.clock, s.leases[id].result.expiresAt), false)
  }

  /** What stops timers and publication retries: the flag, or the closed done channel. */
  predicate TimersStopped(s: State) {
    s.shuttingDown || s.stop.Closed?
  }

  /** The timer's callback acts only for the lease that still carries it. */
  predicate Current(s: State, t: TimerId) {
    && t.hold in s.leases
    && s.leases[t.hold].timer == Some(t)
    && !s.failed
    && !TimersStopped(s)
  }

  // ----- One acknowledged ledger commit -----

  function Commit(s: State, id: HoldId, result: Result): State
    requires id in s.leases
  {
    var current := s.leases[id];
    var retry := current.retirementRetry && result.state == RetirementBlocked;
    var stopped := s.(timers := Stopped(s.timers, current.timer));
    if result.state == Released then
      stopped.(leases := s.leases - {id})
    else
      var updated := current.(result := result, timer := None, retirementRetry := false);
      var next := stopped.(leases := s.leases[id := updated]);
      if retry then Schedule(next, id, s.clock + RETRY_DELAY, true) else ScheduleExpiry(next, id)
  }

  /** The state a proven retirement publishes: held, or released when the lease already expired. */
  function RetiredResult(s: State, lease: Lease): Result {
    lease.result.(treesRetired := true, state := if lease.result.expiresAt <= s.clock then Released else Held)
  }

  // ----- Acquisition -----

  predicate Ambiguous(entry: Entry) {
    entry.contexts == {} || entry.incomplete
  }

  /** Which registered entries a hold on `ref` must capture, and whether it may be taken at all. */
  predicate Selectable(s: State, ref: Ref) {
    && Registered(s, ref)
    && !Ambiguous(s.entries[ref])
    && (forall other :: other in s.entries && Registered(s, other) ==>
          && !(s.entries[other].command == s.entries[ref].command && Ambiguous(s.entries[other]))
          && (s.entries[other].contexts * s.entries[ref].contexts != {} ==>
                s.entries[other].contexts <= s.entries[ref].contexts))
  }

  function PinOf(s: State, ref: Ref): Pin
    requires ref in s.entries
  {
    Pin(ref, s.entries[ref].identity, s.entries[ref].creating)
  }

  function CapturedPins(s: State, keys: set<Key>): set<Pin> {
    set ref | ref in s.entries && Registered(s, ref) && s.entries[ref].contexts * keys != {} :: PinOf(s, ref)
  }

  /** The checks of one hold request, after the expiry sweep. */
  predicate Grantable(s: State, server: ServerId, id: HoldId, ttl: int, drain: int) {
    && s.admitting == {}
    && !s.failed
    && !s.shuttingDown
    && ExactId(server) && ExactId(id) && id !in s.usedIds
    && 0 < ttl && 0 <= drain
    && (forall other :: other in s.leases ==> s.leases[other].result.serverId != server)
    && server in s.owners
    && Selectable(s, s.owners[server])
    && (forall key :: key in s.entries[s.owners[server]].contexts ==> !Fenced(s, key))
  }

  function NewLease(s: State, server: ServerId, id: HoldId, ttl: int, drain: int): Lease
    requires server in s.owners && s.owners[server] in s.entries
  {
    var keys := s.entries[s.owners[server]].contexts;
    Lease(keys, Result(id, server, Holding, s.clock + ttl, s.clock + drain, false),
          CapturedPins(s, keys), false, None, 0, false)
  }

  function Seeded(s: State, server: ServerId, id: HoldId, ttl: int, drain: int): State
    requires server in s.owners && s.owners[server] in s.entries
  {
    s.(leases := s.leases[id := NewLease(s, server, id, ttl, drain)], usedIds := s.usedIds + {id})
  }

  // ----- Events -----

  datatype Event =
    | Tick(now: int)
    // registry
    | Reserve(ref: Ref, identity: Identity, command: string, key: Key)
    | Discard(ref: Ref)
    | Promote(ref: Ref, key: Key)
    | AdmitBegin(ref: Ref, key: Key)
    | AdmitEnd(ref: Ref, key: Key, admitted: bool)
    | Materialize(ref: Ref, key: Key)
    | Retire(ref: Ref)
    | TreeExits(ref: Ref)
    | Remove(ref: Ref)
    | Restore(ref: Ref, identity: Identity, command: string, contexts: set<Key>, tree: bool)
    // leases
    | Grant(server: ServerId, id: HoldId, ttl: int, drain: int)
    | GrantTorn(server: ServerId, id: HoldId, ttl: int, drain: int)
    | Latch
    | Block(id: HoldId)
    | Finish(id: HoldId)
    | Expire(id: HoldId)
    | Resume(id: HoldId)
    | Renew(id: HoldId, ttl: int)
    // timers
    | RetryLater(id: HoldId)
    | TimerLapse(t: TimerId)
    | TimerRetry(t: TimerId)
    | TimerRearm(t: TimerId)
    // lifecycle
    | BeginShutdown
    | RunShutdown
    | ShutdownForgets(ref: Ref)
    | ShutdownDrains
    | ShutdownCloses
    | BeginRestart
    | AbortRestart
    | SettleRestart

  predicate LifecycleOpen(s: State) {
    s.admitting == {} && !s.failed && s.leases == map[]
  }

  /** The guards the code tests before each step takes effect. */
  predicate Enabled(s: State, e: Event) {
    match e
    case Tick(now) => s.clock <= now
    case Reserve(ref, _, _, key) => ref !in s.entries && Open(s, key)
    case Discard(ref) => ref in s.entries && s.entries[ref].creating
    case Promote(ref, key) =>
      Registered(s, ref) && s.entries[ref].creating && s.entries[ref].contexts == {key} && Open(s, key)
    case AdmitBegin(ref, key) =>
      Registered(s, ref) && s.entries[ref].hasOwner && Open(s, key) && OpenAll(s, s.entries[ref].contexts)
    case AdmitEnd(ref, key, _) => Admission(ref, key) in s.admitting
    case Materialize(ref, key) =>
      && Registered(s, ref) && s.entries[ref].hasOwner && !s.entries[ref].retired
      && !s.shuttingDown && Open(s, key) && OpenAll(s, s.entries[ref].contexts)
    case Retire(ref) => ref in s.entries && s.entries[ref].hasOwner
    case TreeExits(ref) => ref in s.entries && s.entries[ref].tree
    case Remove(ref) => Registered(s, ref) && s.entries[ref].hasOwner && !s.entries[ref].tree
    case Restore(ref, identity, _, contexts, _) =>
      && ref !in s.entries && identity.serverId !in s.owners
      && contexts != {} && OpenAll(s, contexts) && s.leases == map[]
    case Grant(server, id, ttl, drain) => Grantable(s, server, id, ttl, drain)
    case GrantTorn(server, id, ttl, drain) => Grantable(s, server, id, ttl, drain)
    case Latch => s.admitting == {}
    case Block(id) => s.admitting == {} && id in s.leases && !TreesRetired(s.entries, s.leases[id])
    case Finish(id) => s.admitting == {} && id in s.leases && TreesRetired(s.entries, s.leases[id])
    case Expire(id) => s.admitting == {} && !s.failed && id in s.leases && Expired(s, s.leases[id])
    case Resume(id) =>
      && s.admitting == {} && !s.failed && id in s.leases
      && s.leases[id].result.state == Held && TreesRetired(s.entries, s.leases[id])
    case Renew(id, ttl) =>
      && s.admitting == {} && !s.failed && id in s.leases
      && s.clock < s.leases[id].result.expiresAt && 0 < ttl
    case RetryLater(id) =>
      && s.admitting == {} && !s.failed && !TimersStopped(s) && id in s.leases
      && s.leases[id].result.state == RetirementBlocked && !s.leases[id].retirementRetry
    case TimerLapse(t) =>
      && t in s.timers && s.timers[t].due <= s.clock
      && (Current(s, t) ==> s.admitting == {} && !s.timers[t].retirement && Unexpired(s))
    case TimerRetry(t) =>
      && s.admitting == {} && t in s.timers && s.timers[t].due <= s.clock && Current(s, t)
      && (s.timers[t].retirement ==>
            s.leases[t.hold].result.state == RetirementBlocked && TreesRetired(s.entries, s.leases[t.hold]))
    case TimerRearm(t) =>
      s.admitting == {} && t in s.timers && s.timers[t].due <= s.clock && Current(s, t) && s.timers[t].retirement
    case BeginShutdown => LifecycleOpen(s)
    case RunShutdown => 0 < s.grants
    case ShutdownForgets(ref) => s.stop.Finalizing? && Registered(s, ref) && !s.entries[ref].hasOwner
    case ShutdownDrains => s.stop.Finalizing? && s.owners == map[]
    case ShutdownCloses => s.stop.Drained?
    case BeginRestart => LifecycleOpen(s)
    case AbortRestart => 0 < s.restarts
    case SettleRestart => 0 < s.restarts
  }

  function SetEntry(s: State, ref: Ref, entry: Entry): State {
    s.(entries := s.entries[ref := entry])
  }

  function Unregister(s: State, ref: Ref): State {
    if Registered(s, ref) then s.(owners := s.owners - {s.entries[ref].identity.serverId}) else s
  }

  function Step(s: State, e: Event): State
    requires Enabled(s, e)
  {
    match e
    case Tick(now) => s.(clock := now)
    case Reserve(ref, identity, command, key) =>
      SetEntry(s, ref, Entry(identity, command, {key}, false, false, true, false, false))
      .(owners := s.owners[identity.serverId := ref])
    case Discard(ref) => SetEntry(Unregister(s, ref), ref, s.entries[ref].(creating := false))
    case Promote(ref, _) => SetEntry(s, ref, s.entries[ref].(hasOwner := true, creating := false))
    case AdmitBegin(ref, key) => s.(admitting := s.admitting + {Admission(ref, key)})
    case AdmitEnd(ref, key, admitted) =>
      var done := s.(admitting := s.admitting - {Admission(ref, key)});
      if admitted && ref in s.entries then
        SetEntry(done, ref, s.entries[ref].(contexts := s.entries[ref].contexts + {key}))
      else done
    case Materialize(ref, key) =>
      SetEntry(s, ref, s.entries[ref].(contexts := s.entries[ref].contexts + {key}, tree := true))
    case Retire(ref) => SetEntry(s, ref, s.entries[ref].(retired := true, tree := false))
    case TreeExits(ref) => SetEntry(s, ref, s.entries[ref].(tree := false))
    case Remove(ref) => Unregister(s, ref)
    case Restore(ref, identity, command, contexts, tree) =>
      SetEntry(s, ref, Entry(identity, command, contexts, true, true, false, false, tree))
      .(owners := s.owners[identity.serverId := ref])
    case Grant(server, id, ttl, drain) => ScheduleExpiry(Seeded(s, server, id, ttl, drain), id)
    case GrantTorn(server, id, ttl, drain) => Seeded(s, server, id, ttl, drain).(failed := true)
    case Latch => s.(failed := true)
    case Block(id) => Commit(s, id, s.leases[id].result.(state := RetirementBlocked, treesRetired := false))
    case Finish(id) => Commit(s, id, RetiredResult(s, s.leases[id]))
    case Expire(id) => Commit(s, id, s.leases[id].result.(state := Released))
    case Resume(id) => Commit(s, id, s.leases[id].result.(state := Released))
    case Renew(id, ttl) => Commit(s, id, s.leases[id].result.(expiresAt := s.clock + ttl))
    case RetryLater(id) => Schedule(s, id, s.clock + RETRY_DELAY, true)
    case TimerLapse(t) => s.(timers := s.timers - {t})
    case TimerRetry(t) => Schedule(s, t.hold, s.clock + RETRY_DELAY, s.timers[t].retirement)
    case TimerRearm(t) => ScheduleExpiry(s, t.hold)
    case BeginShutdown => s.(shuttingDown := true, grants := s.grants + 1)
    case RunShutdown =>
      if s.stop.Serving? then s.(shuttingDown := true, stop := Finalizing, grants := s.grants - 1)
      else s.(grants := s.grants - 1)
    case ShutdownForgets(ref) => Unregister(s, ref)
    case ShutdownDrains => s.(stop := Drained)
    case ShutdownCloses => s.(stop := Closed)
    case BeginRestart => s.(shuttingDown := true, restarts := s.restarts + 1)
    case AbortRestart => s.(shuttingDown := false, restarts := s.restarts - 1)
    case SettleRestart => s.(restarts := s.restarts - 1)
  }

  // ----- Runs -----

  function Run(s: State, run: seq<Event>): State
    requires Valid(s, run)
    decreases |run|, 1
  {
    if run == [] then s else Step(Run(s, run[..|run| - 1]), run[|run| - 1])
  }

  predicate Valid(s: State, run: seq<Event>)
    decreases |run|, 0
  {
    run != [] ==> Valid(s, run[..|run| - 1]) && Enabled(Run(s, run[..|run| - 1]), run[|run| - 1])
  }

  lemma RunSnoc(s: State, run: seq<Event>, e: Event)
    requires Valid(s, run) && Enabled(Run(s, run), e)
    ensures Valid(s, run + [e]) && Run(s, run + [e]) == Step(Run(s, run), e)
  {
    assert (run + [e])[..|run|] == run;
  }

  lemma RunOfOne(s: State, e: Event)
    requires Enabled(s, e)
    ensures Valid(s, [e]) && Run(s, [e]) == Step(s, e)
  {
    RunSnoc(s, [], e);
    assert [] + [e] == [e];
  }

  lemma {:induction false} RunConcat(s: State, mid: State, a: seq<Event>, b: seq<Event>)
    requires Valid(s, a) && mid == Run(s, a) && Valid(mid, b)
    ensures Valid(s, a + b) && Run(s, a + b) == Run(mid, b)
    decreases |b|
  {
    assert b == [] ==> a + b == a;
    if b != [] {
      var front, last := b[..|b| - 1], b[|b| - 1];
      RunConcat(s, mid, a, front);
      assert a + b == (a + front) + [last];
      RunSnoc(s, a + front, last);
    }
  }

  /** What a valid ledger restores: recovered leases with armed expiry timers and an empty registry. */
  predicate Init(s: State) {
    && !s.failed && !s.shuttingDown && s.owners == map[] && s.entries == map[] && s.admitting == {}
    && 0 < s.clock && s.grants == 0 && s.restarts == 0 && s.stop.Serving?
    && s.leases.Keys <= s.usedIds
    && (forall id :: id in s.leases ==> RecoveredLease(s, id))
    && (forall a, b :: a in s.leases && b in s.leases && a != b ==> s.leases[a].keys !! s.leases[b].keys)
    && (forall t :: t in s.timers ==> t.hold in s.leases && s.leases[t.hold].timer == Some(t))
  }

  predicate RecoveredLease(s: State, id: HoldId)
    requires id in s.leases
  {
    var lease := s.leases[id];
    && lease.recovered && lease.pins == {} && lease.keys != {} && !lease.retirementRetry
    && lease.result.holdId == id && lease.result.serverId == ""
    && ValidResult(lease.result)
    && (lease.result.state == Held || lease.result.state == RetirementBlocked)
    && lease.serial == 1 && lease.timer == Some(TimerId(id, 0))
    && TimerId(id, 0) in s.timers
    && s.timers[TimerId(id, 0)] == Timer(Later(s.clock, lease.result.expiresAt), false)
  }
}
