/**
 The daemon's maintenance operations in the source's own form: methods that update the lease map,
 the registry, the latch and the timers in place. Every method is proved to be a run of the
 maintenance machine, which it returns as `run`; persistence and the namespace file lock are
 nondeterministic. A method that takes the admission gate exclusively requires that no read-side
 section is in flight: that is what holding the gate means.
 */
module MaintenanceDaemon {
  import opened Options
  import opened MaintenanceModel
  import opened MaintenanceInvariant
  import opened MaintenanceTheorems
  import opened MaintenanceStore

  /** How an attempt on the namespace file lock ended. */
  datatype LockOutcome = Locked | Contended | LockFailed

  datatype CommitOutcome = Committed | Conflict | PersistFailed

  datatype Error = NotFound | Invalid | HeldError | ConflictError | BlockedError | PersistenceError

  /** Recovery trusts only a durable HELD; anything else comes back blocked. */
  function RecoverLease(id: HoldId, record: Record): Lease {
    var held := record.state == Held;
    Lease(record.keys,
          Result(id, "", if held then Held else RetirementBlocked, record.expiresAt, record.drainDeadline, held),
          {}, true, None, 0, false)
  }

  function Loaded(ledger: Records, now: int): State {
    State(map id | id in ledger :: RecoverLease(id, ledger[id]), false, false, map[], map[], {}, map[], ledger.Keys,
        now, 0, 0, Serving)
  }

  /** The records a start would recover are, as far as recovery looks at them, those of the lease map. */
  ghost predicate RecoversAs(records: Records, leases: map<HoldId, Lease>) {
    && records.Keys == leases.Keys
    && forall id :: id in leases ==>
         && RecoverLease(id, records[id]) == RecoverLease(id, RecordOf(leases[id]))
         && (leases[id].result.state != Released ==> records[id].state != Released)
  }

  ghost predicate Backs(store: Store, leases: map<HoldId, Lease>) {
    Recover(store).Some? && RecoversAs(Recover(store).value, leases)
  }

  /**
   A crash at any moment at which the disk backs the lease map: the next start accepts the ledger,
   fences exactly the same keys under the same holds, and finds exactly the HELD leases HELD.
   */
  lemma CrashRecovers(s: State, store: Store, now: int)
    requires Inv(s) && Backs(store, s.leases) && 0 < now
    ensures ValidLedger(Recover(store).value)
    ensures var restarted := Loaded(Recover(store).value, now);
            && restarted.leases.Keys == s.leases.Keys
            && (forall id :: id in s.leases ==>
                  && restarted.leases[id].keys == s.leases[id].keys
                  && (restarted.leases[id].result.state == Held <==> s.leases[id].result.state == Held)
                  && restarted.leases[id].result.expiresAt == s.leases[id].result.expiresAt
                  && restarted.leases[id].result.drainDeadline == s.leases[id].result.drainDeadline)
            && (forall key :: Fenced(restarted, key) <==> Fenced(s, key))
  {
    var records := Recover(store).value;
    var restarted := Loaded(records, now);
    forall id | id in s.leases
      ensures records[id].keys == s.leases[id].keys && restarted.leases[id].keys == s.leases[id].keys
      ensures records[id].expiresAt == s.leases[id].result.expiresAt
      ensures records[id].drainDeadline == s.leases[id].result.drainDeadline
    {
      assert RecoverLease(id, records[id]) == RecoverLease(id, RecordOf(s.leases[id]));
    }
    forall key
      ensures Fenced(restarted, key) <==> Fenced(s, key)
    {
      if Fenced(s, key) {
        var id :| id in s.leases && key in s.leases[id].keys;
        assert key in restarted.leases[id].keys;
      }
      if Fenced(restarted, key) {
        var id :| id in restarted.leases && key in restarted.leases[id].keys;
        assert key in s.leases[id].keys;
      }
    }
  }

  lemma ExactRecordsBack(leases: map<HoldId, Lease>)
    ensures RecoversAs(RecordsOf(leases), leases)
  {
  }

  /** Lease maps with the same records are backed alike. */
  lemma SameRecordsBack(records: Records, a: map<HoldId, Lease>, b: map<HoldId, Lease>)
    requires RecordsOf(a) == RecordsOf(b) && RecoversAs(records, a)
    ensures RecoversAs(records, b)
  {
    assert RecordsOf(a).Keys == a.Keys && RecordsOf(b).Keys == b.Keys;
    forall id | id in b
      ensures RecordOf(a[id]) == RecordOf(b[id])
    {
      assert RecordsOf(a)[id] == RecordsOf(b)[id];
    }
  }

  /** Timer fields are not recorded. */
  lemma TimerIsUnrecorded(store: Store, leases: map<HoldId, Lease>, id: HoldId, updated: Lease)
    requires id in leases && RecordOf(updated) == RecordOf(leases[id])
    ensures RecordsOf(leases[id := updated]) == RecordsOf(leases)
    ensures Backs(store, leases) ==> Backs(store, leases[id := updated])
  {
    if Backs(store, leases) {
      SameRecordsBack(Recover(store).value, leases, leases[id := updated]);
    }
  }

  lemma SameRecords(leases: map<HoldId, Lease>, id: HoldId, a: Lease, b: Lease)
    requires RecordOf(a) == RecordOf(b)
    ensures RecordsOf(leases[id := a]) == RecordsOf(leases[id := b])
  {
  }

  lemma LoadedIsBacked(records: Records, now: int)
    ensures ValidLedger(records) ==> RecoversAs(records, Loaded(records, now).leases)
  {
  }

  ghost predicate ArmedOutside(s: State, ledger: Records, todo: set<HoldId>) {
    && s.leases.Keys == ledger.Keys
    && (forall id :: id in ledger && id in todo ==> s.leases[id] == RecoverLease(id, ledger[id]))
    && (forall id :: id in ledger && id !in todo ==>
          && s.leases[id] == RecoverLease(id, ledger[id]).(timer := Some(TimerId(id, 0)), serial := 1)
          && TimerId(id, 0) in s.timers
          && s.timers[TimerId(id, 0)] == Timer(Later(s.clock, ledger[id].expiresAt), false))
    && (forall t :: t in s.timers ==> t.serial == 0 && t.hold in ledger && t.hold !in todo)
  }

  lemma ArmStep(s: State, ledger: Records, todo: set<HoldId>, id: HoldId)
    requires ArmedOutside(s, ledger, todo) && id in todo && todo <= ledger.Keys
    ensures ArmedOutside(ScheduleExpiry(s, id), ledger, todo - {id})
  {
  }

  lemma ArmedIsInit(s: State, ledger: Records)
    requires ValidLedger(ledger) && ArmedOutside(s, ledger, {})
    requires s == State(s.leases, false, false, map[], map[], {}, s.timers, ledger.Keys, s.clock, 0, 0, Serving)
      && 0 < s.clock
    ensures Init(s)
  {
    forall id | id in s.leases
      ensures RecoveredLease(s, id)
    {
      assert ValidResult(s.leases[id].result);
    }
  }

  /** Publishing a clocked seed is one commit of the seed's own result. */
  lemma ClockingIsCommit(s: State, server: ServerId, id: HoldId, ttl: int, drain: int)
    requires server in s.owners && s.owners[server] in s.entries
    ensures var seeded := Seeded(s, server, id, ttl, drain);
            Commit(seeded, id, seeded.leases[id].result) == ScheduleExpiry(seeded, id)
  {
    var seeded := Seeded(s, server, id, ttl, drain);
    assert seeded.leases[id := seeded.leases[id]] == seeded.leases;
  }

  /** A state after releasing a set of leases. */
  ghost function Without(s: State, ids: set<HoldId>): State
    requires ids <= s.leases.Keys
  {
    s.(leases := s.leases - ids,
       timers := s.timers - (set id | id in ids && s.leases[id].timer.Some? :: s.leases[id].timer.value))
  }

  lemma WithoutOneMore(s: State, ids: set<HoldId>, id: HoldId)
    requires ids <= s.leases.Keys && id in s.leases && id !in ids
    ensures Commit(Without(s, ids), id, s.leases[id].result.(state := Released)) == Without(s, ids + {id})
  {
  }

  ghost predicate AllExpired(s: State, ids: set<HoldId>) {
    forall id :: id in ids ==> id in s.leases && Expired(s, s.leases[id])
  }

  /** Releasing expired leases is a run of expiry events. */
  lemma {:induction false} ExpiryRun(s: State, ids: set<HoldId>) returns (run: seq<Event>)
    requires AllExpired(s, ids) && s.admitting == {} && !s.failed
    ensures Valid(s, run) && Run(s, run) == Without(s, ids)
    ensures forall e :: e in run ==> e.Expire?
  {
    run := [];
    if ids != {} {
      var id :| id in ids;
      run := ExpiryRun(s, ids - {id});
      WithoutOneMore(s, ids - {id}, id);
      CommitEventStep(Without(s, ids - {id}), Expire(id));
      RunSnoc(s, run, Expire(id));
      run := run + [Expire(id)];
      assert ids - {id} + {id} == ids;
    }
  }

  /** The lease pins exactly this entry, under the identity it captured. */
  ghost predicate Pins(entries: map<Ref, Entry>, lease: Lease, ref: Ref) {
    exists pin :: pin in lease.pins && pin.entry == ref && ref in entries && entries[ref].identity == pin.identity
  }

  /** A lease that pins the entry and is blocked has its retry; one that does not pin it is as it was. */
  ghost predicate Retried(entries: map<Ref, Entry>, was: Lease, now: Lease, ref: Ref) {
    && (now.result.state == RetirementBlocked && Pins(entries, now, ref) ==> now.retirementRetry)
    && (!Pins(entries, was, ref) ==> now == was)
  }

  ghost predicate Selected(entries: map<Ref, Entry>, lease: Lease, only: Option<Ref>) {
    only.Some? ==> Pins(entries, lease, only.value)
  }

  /** Distinct leases whose proven retirement is still to be published. */
  ghost predicate Pending(s: State, ids: seq<HoldId>) {
    && (forall id :: id in ids ==>
      id in s.leases && s.leases[id].result.state != Held && TreesRetired(s.entries, s.leases[id]))
    && (forall i, j :: 0 <= i < j < |ids| ==> ids[i] != ids[j])
  }

  /** The state after publishing those retirements in order. */
  ghost function Finished(s: State, ids: seq<HoldId>): (s': State)
    requires Pending(s, ids)
    ensures s' == s.(leases := s'.leases, timers := s'.timers) && s'.leases.Keys <= s.leases.Keys
    ensures forall id :: id in s.leases && id !in ids ==> id in s'.leases && s'.leases[id] == s.leases[id]
    ensures forall id :: id in s'.leases && id in ids ==> s'.leases[id].result.state == Held
  {
    if ids == [] then
      s
    else
      var mid := Finished(s, ids[..|ids| - 1]);
      var id := ids[|ids| - 1];
      CommitEffect(mid, id, RetiredResult(mid, mid.leases[id]));
      Commit(mid, id, RetiredResult(mid, mid.leases[id]))
  }

  lemma FinishedSnoc(s: State, ids: seq<HoldId>, id: HoldId)
    requires Pending(s, ids) && Pending(s, [id]) && id !in ids
    ensures Pending(s, ids + [id])
    ensures var mid := Finished(s, ids); Finished(s, ids + [id]) == Commit(mid, id, RetiredResult(mid, mid.leases[id]))
  {
    assert (ids + [id])[..|ids|] == ids;
    assert id in [id];
  }

  /** Publishing every selected pending retirement leaves no selected lease proven but not HELD. */
  lemma FinishedLeft(s: State, now: State, ids: seq<HoldId>, only: Option<Ref>)
    requires now.leases.Keys <= s.leases.Keys
    requires forall id :: id in s.leases && id !in ids ==> id in now.leases && now.leases[id] == s.leases[id]
    requires forall id :: id in now.leases && id in ids ==> now.leases[id].result.state == Held
    requires forall id :: id in s.leases && Pending(s, [id]) && Selected(s.entries, s.leases[id], only) ==> id in ids
    ensures forall id :: id in now.leases && now.leases[id].result.state != Held ==>
              && id in s.leases && now.leases[id] == s.leases[id]
              && (Selected(s.entries, s.leases[id], only) ==> !TreesRetired(s.entries, s.leases[id]))
  {
    forall id | id in now.leases && now.leases[id].result.state != Held && Selected(s.entries, s.leases[id], only)
      ensures !TreesRetired(s.entries, s.leases[id])
    {
      if TreesRetired(s.entries, s.leases[id]) {
        assert Pending(s, [id]);
      }
    }
  }

  /** Publishing them is a run of finish events. */
  lemma {:induction false} FinishRun(s: State, ids: seq<HoldId>) returns (run: seq<Event>)
    requires Pending(s, ids) && s.admitting == {}
    ensures Valid(s, run) && Run(s, run) == Finished(s, ids)
    ensures forall e :: e in run ==> e.Finish?
    decreases |ids|
  {
    run := [];
    if ids != [] {
      var id := ids[|ids| - 1];
      var mid := Finished(s, ids[..|ids| - 1]);
      run := FinishRun(s, ids[..|ids| - 1]);
      CommitEventStep(mid, Finish(id));
      RunSnoc(s, run, Finish(id));
      run := run + [Finish(id)];
    }
  }

  lemma RetryStep(now: State, id: HoldId)
    requires Enabled(now, RetryLater(id))
    ensures Step(now, RetryLater(id)) == Schedule(now, id, now.clock + RETRY_DELAY, true)
  {
  }

  lemma RetrySnoc(s: State, run: seq<Event>, now: State, id: HoldId)
    requires Valid(s, run) && now == Run(s, run) && Enabled(now, RetryLater(id))
    ensures Valid(s, run + [RetryLater(id)])
      && Run(s, run + [RetryLater(id)]) == Schedule(now, id, now.clock + RETRY_DELAY, true)
  {
    RetryStep(now, id);
    RunSnoc(s, run, RetryLater(id));
  }

  /** The registry without the placeholders among the owners already visited. */
  ghost function DroppedOwners(s: State, todo: set<ServerId>): map<ServerId, Ref>
    requires EntriesOk(s)
  {
    map sid | sid in s.owners && (sid in todo || s.entries[s.owners[sid]].hasOwner) :: s.owners[sid]
  }

  function OwnersOf(s: State, kept: set<ServerId>): map<ServerId, Ref> {
    map sid | sid in s.owners && sid in kept :: s.owners[sid]
  }

  /** Dropping any set of placeholders is a run of forget events. */
  lemma {:induction false} ForgetRun(s: State, kept: set<ServerId>) returns (run: seq<Event>)
    requires EntriesOk(s) && s.stop.Finalizing? && kept <= s.owners.Keys
    requires forall sid :: sid in s.owners && sid !in kept ==> !s.entries[s.owners[sid]].hasOwner
    ensures Valid(s, run) && Run(s, run) == s.(owners := OwnersOf(s, kept))
    decreases s.owners.Keys - kept
  {
    run := [];
    if kept == s.owners.Keys {
      assert s.owners == OwnersOf(s, kept);
    } else {
      var sid :| sid in s.owners && sid !in kept;
      run := ForgetRun(s, kept + {sid});
      ForgetSnoc(s, run, kept, sid);
      run := run + [ShutdownForgets(s.owners[sid])];
    }
  }

  lemma ForgetStep(s: State, now: State, kept: set<ServerId>, sid: ServerId)
    requires EntriesOk(s) && s.stop.Finalizing? && sid in s.owners && sid !in kept && !s.entries[s.owners[sid]].hasOwner
    requires now == s.(owners := OwnersOf(s, kept + {sid}))
    ensures Enabled(now, ShutdownForgets(s.owners[sid]))
    ensures Step(now, ShutdownForgets(s.owners[sid])) == s.(owners := OwnersOf(s, kept))
  {
    assert now.owners - {sid} == OwnersOf(s, kept);
  }

  lemma ForgetSnoc(s: State, run: seq<Event>, kept: set<ServerId>, sid: ServerId)
    requires EntriesOk(s) && s.stop.Finalizing? && sid in s.owners && sid !in kept && !s.entries[s.owners[sid]].hasOwner
    requires Valid(s, run) && Run(s, run) == s.(owners := OwnersOf(s, kept + {sid}))
    ensures var e := ShutdownForgets(s.owners[sid]);
            && Valid(s, run + [e])
            && Run(s, run + [e]) == s.(owners := OwnersOf(s, kept))
  {
    ForgetStep(s, s.(owners := OwnersOf(s, kept + {sid})), kept, sid);
    RunSnoc(s, run, ShutdownForgets(s.owners[sid]));
  }

  lemma DrainSnoc(s: State, run: seq<Event>, now: State)
    requires Valid(s, run) && now == Run(s, run) && now.stop.Finalizing? && now.owners == map[]
    ensures Valid(s, run + [ShutdownDrains]) && Run(s, run + [ShutdownDrains]) == now.(stop := Drained)
  {
    RunSnoc(s, run, ShutdownDrains);
  }

  class Daemon {
    var leases: map<HoldId, Lease>
    var failed: bool
    var shuttingDown: bool
    var owners: map<ServerId, Ref>
    var entries: map<Ref, Entry>
    var admitting: set<Admission>
    var timers: map<TimerId, Timer>
    var usedIds: set<HoldId>
    var clock: int
    var grants: nat
    var restarts: nat
    var stop: Stop
    var store: Store
    /** Whether the last ledger write was acknowledged, and how many were not. */
    ghost var acknowledged: bool
    ghost var refusals: nat

    ghost function St(): State
      reads this
    {
      State(leases, failed, shuttingDown, owners, entries, admitting, timers, usedIds, clock, grants, restarts, stop)
    }

    /** Unless the last ledger write was refused, the disk backs the lease map. */
    ghost predicate InLedger()
      reads this
    {
      acknowledged ==> Backs(store, leases)
    }

    /** What every operation keeps of the ledger. */
    twostate predicate KeepsLedger()
      reads this
    {
      old(refusals) <= refusals && (old(InLedger()) ==> InLedger())
    }

    /** Loads a valid ledger; no timer runs yet. */
    constructor (store: Store, now: int)
      requires Recover(store).Some? && ValidLedger(Recover(store).value) && 0 < now
      ensures St() == Loaded(Recover(store).value, now) && InLedger() && acknowledged && refusals == 0
    {
      var ledger := Recover(store).value;
      this.store, acknowledged, refusals := store, true, 0;
      failed, shuttingDown, owners, entries, admitting := false, false, map[], map[], {};
      usedIds, clock, grants, restarts, stop := ledger.Keys, now, 0, 0, Serving;
      timers := map[];
      leases := map id | id in ledger :: RecoverLease(id, ledger[id]);
      new;
      LoadedIsBacked(ledger, now);
    }

    /** Arms every recovered lease's expiry timer before the control server starts. */
    method ArmRecovered(ghost ledger: Records)
      requires ValidLedger(ledger) && 0 < clock && St() == Loaded(ledger, clock)
      modifies this`leases, this`timers
      ensures Init(St()) && leases.Keys == ledger.Keys && KeepsLedger()
      ensures forall id :: id in ledger ==>
                && leases[id].keys == ledger[id].keys
                && leases[id].result.expiresAt == ledger[id].expiresAt
                && leases[id].result.drainDeadline == ledger[id].drainDeadline
                && leases[id].result.state == (if ledger[id].state == Held then Held else RetirementBlocked)
    {
      var todo := leases.Keys;
      while todo != {}
        invariant todo <= ledger.Keys && ArmedOutside(St(), ledger, todo)
        invariant St() == Loaded(ledger, clock).(leases := leases, timers := timers) && KeepsLedger()
      {
        var id :| id in todo;
        ArmStep(St(), ledger, todo, id);
        ScheduleLeaseExpiry(id);
        todo := todo - {id};
      }
      ArmedIsInit(St(), ledger);
    }

    /** The durable ledger write, under a fresh transaction: acknowledged or not, for reasons outside the model. */
    method Persist(next: map<HoldId, Lease>) returns (ok: bool)
      modifies this`store, this`acknowledged, this`refusals
      ensures acknowledged == ok && refusals == old(refusals) + (if ok then 0 else 1)
      ensures ok ==> Recover(store) == Some(RecordsOf(next))
      ensures !ok ==>
                || Recover(store) == None
                || Recover(store) == Recover(old(store))
                || Recover(store) == Some(RecordsOf(next))
    {
      var token: nat := *;
      ghost var trail;
      ok, store, trail := CommitStore(store, token, RecordsOf(next));
      acknowledged := ok;
      if !ok {
        refusals := refusals + 1;
      }
    }

    // ----- Fence checks -----

    method LeaseForKey(key: Key) returns (found: Option<HoldId>)
      ensures found.Some? ==> found.value in leases && key in leases[found.value].keys
      ensures found.None? <==> !Fenced(St(), key)
    {
      var todo := leases.Keys;
      while todo != {}
        invariant todo <= leases.Keys
        invariant forall id :: id in leases.Keys - todo ==> key !in leases[id].keys
      {
        var id :| id in todo;
        if key in leases[id].keys {
          return Some(id);
        }
        todo := todo - {id};
      }
      return None;
    }

    method CheckKey(key: Key) returns (open: bool)
      ensures open <==> Open(St(), key)
    {
      if failed {
        return false;
      }
      var found := LeaseForKey(key);
      return found.None?;
    }

    method CheckKeys(keys: set<Key>) returns (open: bool)
      ensures open <==> OpenAll(St(), keys)
    {
      var todo := keys;
      while todo != {}
        invariant todo <= keys
        invariant forall key :: key in keys - todo ==> Open(St(), key)
      {
        var key :| key in todo;
        var ok := CheckKey(key);
        if !ok {
          return false;
        }
        todo := todo - {key};
      }
      return true;
    }

    predicate IsRegistered(ref: Ref)
      reads this
      ensures IsRegistered(ref) <==> Registered(St(), ref)
    {
      ref in entries && entries[ref].identity.serverId in owners && owners[entries[ref].identity.serverId] == ref
    }

    // ----- Admission -----

    /** The checked half of an owner admission; the gate stays read-locked until AdmitOwnerEnd. */
    method AdmitOwnerBegin(ref: Ref, key: Key) returns (ok: bool)
      modifies this`admitting
      ensures ok <==> old(Enabled(St(), AdmitBegin(ref, key)))
      ensures St() == if ok then Step(old(St()), AdmitBegin(ref, key)) else old(St())
    {
      ok := CheckKey(key);
      if !ok || !IsRegistered(ref) || !entries[ref].hasOwner {
        return false;
      }
      ok := CheckKeys(entries[ref].contexts);
      if ok {
        admitting := admitting + {Admission(ref, key)};
      }
    }

    /** The writing half: the owner took the reservation or refused it, and the gate is left. */
    method AdmitOwnerEnd(ref: Ref, key: Key, admitted: bool)
      requires Admission(ref, key) in admitting
      modifies this`admitting, this`entries
      ensures St() == Step(old(St()), AdmitEnd(ref, key, admitted))
      ensures admitted && ref in entries ==> entries[ref].contexts == old(entries)[ref].contexts + {key}
      ensures Admission(ref, key) !in admitting
    {
      admitting := admitting - {Admission(ref, key)};
      if admitted && ref in entries {
        entries := entries[ref := entries[ref].(contexts := entries[ref].contexts + {key})];
      }
    }

    /** Admits one upstream start. The owner itself launches nothing after its retirement proof. */
    method AdmitMaterialization(ref: Ref, key: Key) returns (ok: bool)
      modifies this`entries
      ensures ok <==> old(Enabled(St(), Materialize(ref, key)))
      ensures ok ==>
                && ref in entries && ref in old(entries) && entries[ref].tree
                && entries[ref].contexts == old(entries)[ref].contexts + {key}
      ensures St() == if ok then Step(old(St()), Materialize(ref, key)) else old(St())
    {
      if !IsRegistered(ref) || !entries[ref].hasOwner || entries[ref].retired || shuttingDown {
        return false;
      }
      ok := CheckKey(key);
      if ok {
        ok := CheckKeys(entries[ref].contexts);
      }
      if ok {
        entries := entries[ref := entries[ref].(contexts := entries[ref].contexts + {key}, tree := true)];
      }
    }

    // ----- Commits and timers -----

    method ScheduleTimer(id: HoldId, due: int, retirement: bool)
      requires id in leases
      modifies this`leases, this`timers
      ensures St() == Schedule(old(St()), id, due, retirement)
      ensures RecordsOf(leases) == RecordsOf(old(leases)) && KeepsLedger()
      ensures var was, t := old(leases)[id], TimerId(id, old(leases)[id].serial);
              && leases ==
                old(leases)[id := was.(timer := Some(t), serial := was.serial + 1, retirementRetry := retirement)]
              && t in timers && timers[t] == Timer(due, retirement)
              && (was.timer.Some? && was.timer.value != t ==> was.timer.value !in timers)
    {
      var lease := leases[id];
      if lease.timer.Some? {
        timers := timers - {lease.timer.value};
      }
      var t := TimerId(id, lease.serial);
      timers := timers[t := Timer(due, retirement)];
      var updated := lease.(timer := Some(t), serial := lease.serial + 1, retirementRetry := retirement);
      TimerIsUnrecorded(store, leases, id, updated);
      leases := leases[id := updated];
    }

    method ScheduleLeaseExpiry(id: HoldId)
      requires id in leases
      modifies this`leases, this`timers
      ensures St() == ScheduleExpiry(old(St()), id)
      ensures RecordsOf(leases) == RecordsOf(old(leases)) && KeepsLedger()
      ensures id in leases && leases[id].result == old(leases)[id].result
    {
      ScheduleTimer(id, Later(clock, leases[id].result.expiresAt), false);
    }

    /** The in-memory publication of an acknowledged commit that keeps the lease: one timer stops and one starts. */
    method RearmLease(id: HoldId, current: Lease, result: Result)
      requires id in leases && leases[id] == current && result.state != Released
      modifies this`leases, this`timers
      ensures St() == Commit(old(St()), id, result)
      ensures RecordsOf(leases) == RecordsOf(old(leases)[id := current.(result := result)])
      ensures result.state == RetirementBlocked && current.retirementRetry ==>
                && id in leases && leases[id].retirementRetry && leases[id].timer.Some?
                && leases[id].timer.value in timers
                && timers[leases[id].timer.value] == Timer(clock + RETRY_DELAY, true)
    {
      CommitIsSchedule(St(), id, result);
      SameRecords(leases, id, current.(result := result), current.(result := result, timer := None,
          retirementRetry := false));
      var retry := current.retirementRetry && result.state == RetirementBlocked;
      if current.timer.Some? {
        timers := timers - {current.timer.value};
      }
      leases := leases[id := current.(result := result, timer := None, retirementRetry := false)];
      assert St() == Unarmed(old(St()), id, result);
      if retry {
        ScheduleTimer(id, clock + RETRY_DELAY, true);
      } else {
        ScheduleLeaseExpiry(id);
      }
    }

    /** The publication of an acknowledged release. */
    method DropLease(id: HoldId, current: Lease, ghost result: Result)
      requires id in leases && leases[id] == current && result.state == Released
      modifies this`leases, this`timers
      ensures St() == Commit(old(St()), id, result) && leases == old(leases) - {id}
    {
      if current.timer.Some? {
        timers := timers - {current.timer.value};
      }
      leases := leases - {id};
    }

    /** Compare-and-swap on the exact lease, then the durable write, then the in-memory publication. */
    method CommitLease(id: HoldId, current: Lease, result: Result) returns (outcome: CommitOutcome)
      modifies this`leases, this`timers, this`store, this`acknowledged, this`refusals
      ensures outcome.Conflict? <==> !(id in old(leases) && old(leases)[id] == current)
      ensures St() == if outcome.Committed? then Commit(old(St()), id, result) else old(St())
      ensures KeepsLedger()
      ensures outcome.PersistFailed? <==> refusals == old(refusals) + 1
      ensures !outcome.PersistFailed? ==> refusals == old(refusals)
      ensures outcome.Committed? ==> acknowledged && Recover(store) == Some(RecordsOf(leases))
      ensures outcome.Committed? && result.state == RetirementBlocked && current.retirementRetry ==>
                && id in leases && leases[id].retirementRetry && leases[id].timer.Some?
                && leases[id].timer.value in timers
                && timers[leases[id].timer.value] == Timer(clock + RETRY_DELAY, true)
    {
      if id !in leases || leases[id] != current {
        return Conflict;
      }
      var next := if result.state == Released then leases - {id} else leases[id := current.(result := result)];
      var ok := Persist(next);
      if !ok {
        return PersistFailed;
      }
      if result.state == Released {
        DropLease(id, current, result);
      } else {
        RearmLease(id, current, result);
      }
      ExactRecordsBack(leases);
      return Committed;
    }

    // ----- Retirement and expiry -----

    method TreesAreRetired(lease: Lease) returns (retired: bool)
      ensures retired <==> TreesRetired(entries, lease)
    {
      if lease.recovered {
        return lease.result.state == Held;
      }
      var todo := lease.pins;
      while todo != {}
        invariant todo <= lease.pins
        invariant forall pin :: pin in lease.pins - todo ==> Settled(entries, pin)
      {
        var pin :| pin in todo;
        if pin.entry !in entries || entries[pin.entry].identity != pin.identity {
          return false;
        }
        if pin.waits && entries[pin.entry].creating {
          return false;
        }
        if entries[pin.entry].hasOwner && !entries[pin.entry].retired {
          return false;
        }
        todo := todo - {pin};
      }
      return true;
    }

    /** Publishes a proven retirement: HELD, or released when the lease has already expired. */
    method FinishRetirement(id: HoldId) returns (error: Option<Error>, ghost run: seq<Event>)
      requires admitting == {} && id in leases
      modifies this`leases, this`timers, this`store, this`acknowledged, this`refusals
      ensures Valid(old(St()), run) && St() == Run(old(St()), run)
      ensures error.None? <==> run == [Finish(id)]
      ensures error.Some? ==> run == []
      ensures error.Some? ==> error.value == BlockedError || error.value == PersistenceError
      ensures error == Some(BlockedError) <==> !TreesRetired(old(entries), old(leases)[id])
      ensures KeepsLedger()
      ensures error == Some(PersistenceError) <==> refusals == old(refusals) + 1
      ensures error != Some(PersistenceError) ==> refusals == old(refusals)
      ensures error.None? ==>
                var was := old(leases)[id].result;
                if clock < was.expiresAt then
                  id in leases && leases[id].result == was.(state := Held, treesRetired := true)
                else
                  id !in leases
    {
      run := [];
      var lease := leases[id];
      var retired := TreesAreRetired(lease);
      if !retired {
        return Some(BlockedError), run;
      }
      var state := if clock < lease.result.expiresAt then Held else Released;
      var outcome := CommitLease(id, lease, lease.result.(treesRetired := true, state := state));
      if !outcome.Committed? {
        return Some(PersistenceError), run;
      }
      CommitEventStep(old(St()), Finish(id));
      RunOfOne(old(St()), Finish(id));
      return None, [Finish(id)];
    }

    /**
     The expiry sweep. It ranges over the lease map it found while every commit replaces that map;
     without an error it removed exactly the HELD leases that had expired and left every other
     lease as it was.
     */
    method ExpireMaintenance() returns (error: Option<Error>, ghost run: seq<Event>)
      requires admitting == {}
      modifies this`leases, this`timers, this`store, this`acknowledged, this`refusals
      ensures Valid(old(St()), run) && St() == Run(old(St()), run)
      ensures forall e :: e in run ==> e.Expire?
      ensures forall id :: id in leases ==> id in old(leases) && leases[id] == old(leases)[id]
      ensures forall id :: id in old(leases) && id !in leases ==> Expired(old(St()), old(leases)[id])
      ensures forall t :: t in timers ==> t in old(timers) && timers[t] == old(timers)[t]
      ensures error.None? ==> Unexpired(St())
      ensures old(failed) ==> error.Some? && run == []
      ensures KeepsLedger() && (error.Some? <==> old(failed) || old(refusals) < refusals)
    {
      if failed {
        return Some(PersistenceError), [];
      }
      ghost var removed;
      error, removed := SweepExpired();
      run := ExpiryRun(old(St()), removed);
    }

    /** The sweep's loop; `removed` names the leases it released. */
    method SweepExpired() returns (error: Option<Error>, ghost removed: set<HoldId>)
      requires admitting == {} && !failed
      modifies this`leases, this`timers, this`store, this`acknowledged, this`refusals
      ensures AllExpired(old(St()), removed) && St() == Without(old(St()), removed)
      ensures error.None? ==> forall id :: id in old(leases) && Expired(old(St()), old(leases)[id]) ==> id in removed
      ensures KeepsLedger() && (error.Some? <==> old(refusals) < refusals)
    {
      removed := {};
      var snapshot := leases;
      var todo := snapshot.Keys;
      while todo != {}
        invariant todo <= snapshot.Keys && removed !! todo && KeepsLedger() && refusals == old(refusals)
        invariant AllExpired(old(St()), removed) && St() == Without(old(St()), removed)
        invariant forall id :: id in snapshot && id !in todo && Expired(old(St()), snapshot[id]) ==> id in removed
      {
        var id :| id in todo;
        var lease := snapshot[id];
        todo := todo - {id};
        if lease.result.state == Held && lease.result.expiresAt <= clock {
          WithoutOneMore(old(St()), removed, id);
          var outcome := CommitLease(id, lease, lease.result.(state := Released));
          if !outcome.Committed? {
            return Some(PersistenceError), removed;
          }
          removed := removed + {id};
        }
      }
      return None, removed;
    }

    // ----- Holding -----

    method Scan(ref: Ref) returns (ok: bool, pins: set<Pin>)
      requires EntriesOk(St()) && IsRegistered(ref) && !Ambiguous(entries[ref])
      ensures ok <==> Selectable(St(), ref)
      ensures ok ==> pins == CapturedPins(St(), entries[ref].contexts)
    {
      var selected := entries[ref];
      pins := {};
      var todo := owners.Keys;
      while todo != {}
        invariant todo <= owners.Keys
        invariant forall other ::
                  other in entries && Registered(St(), other) && entries[other].identity.serverId !in todo ==>
                    && !(entries[other].command == selected.command && Ambiguous(entries[other]))
                    && (entries[other].contexts * selected.contexts != {} ==>
                      entries[other].contexts <= selected.contexts)
        invariant pins == set other | other in entries && Registered(St(), other)
          && entries[other].identity.serverId !in todo
                                      && entries[other].contexts * selected.contexts != {} :: PinOf(St(), other)
      {
        var sid :| sid in todo;
        var other := owners[sid];
        var entry := entries[other];
        assert Registered(St(), other) && entry.identity.serverId == sid;
        if entry.command == selected.command && Ambiguous(entry) {
          return false, {};
        }
        if entry.contexts * selected.contexts != {} {
          if !(entry.contexts <= selected.contexts) {
            return false, {};
          }
          pins := pins + {Pin(other, entry.identity, entry.creating)};
        }
        todo := todo - {sid};
      }
      return true, pins;
    }

    method AnyFenced(keys: set<Key>) returns (fenced: bool)
      ensures fenced <==> exists key :: key in keys && Fenced(St(), key)
    {
      var todo := keys;
      while todo != {}
        invariant todo <= keys
        invariant forall key :: key in keys - todo ==> !Fenced(St(), key)
      {
        var key :| key in todo;
        var found := LeaseForKey(key);
        if found.Some? {
          return true;
        }
        todo := todo - {key};
      }
      return false;
    }

    method ServerHeld(server: ServerId) returns (held: bool)
      ensures held <==> exists id :: id in leases && leases[id].result.serverId == server
    {
      var todo := leases.Keys;
      while todo != {}
        invariant todo <= leases.Keys
        invariant forall id :: id in leases.Keys - todo ==> leases[id].result.serverId != server
      {
        var id :| id in todo;
        if leases[id].result.serverId == server {
          return true;
        }
        todo := todo - {id};
      }
      return false;
    }

    /** The checks of a hold, in the source's order; the pins are those of the moment of the check. */
    method CheckHold(server: ServerId, id: HoldId, ttl: int, drain: int) returns (error: Option<Error>, pins: set<Pin>)
      requires EntriesOk(St()) && admitting == {} && ExactId(server) && ExactId(id) && id !in usedIds && 0 < ttl
        && 0 <= drain
      ensures error.None? <==> Grantable(St(), server, id, ttl, drain)
      ensures error.None? ==> pins == CapturedPins(St(), entries[owners[server]].contexts)
      ensures error == Some(PersistenceError) <==> failed
    {
      pins := {};
      if failed {
        return Some(PersistenceError), pins;
      }
      if shuttingDown {
        return Some(HeldError), pins;
      }
      var held := ServerHeld(server);
      if held {
        return Some(ConflictError), pins;
      }
      if server !in owners {
        return Some(NotFound), pins;
      }
      var ref := owners[server];
      assert Registered(St(), ref);
      if Ambiguous(entries[ref]) {
        return Some(Invalid), pins;
      }
      var ok;
      ok, pins := Scan(ref);
      if !ok {
        return Some(Invalid), pins;
      }
      var fenced := AnyFenced(entries[ref].contexts);
      if fenced {
        return Some(ConflictError), pins;
      }
      return None, pins;
    }

    /** Persists the seed of a hold; acknowledged, the seed is in the map. */
    method SeedHold(server: ServerId, id: HoldId, ttl: int, drain: int, pins: set<Pin>)
      returns (written: bool, lease: Lease)
      requires Grantable(St(), server, id, ttl, drain) && pins == CapturedPins(St(), entries[owners[server]].contexts)
      modifies this`leases, this`usedIds, this`store, this`acknowledged, this`refusals
      ensures lease == NewLease(old(St()), server, id, ttl, drain)
      ensures St() == if written then Seeded(old(St()), server, id, ttl, drain) else old(St())
      ensures KeepsLedger() && refusals == old(refusals) + (if written then 0 else 1)
    {
      var keys := entries[owners[server]].contexts;
      lease := Lease(keys, Result(id, server, Holding, clock + ttl, clock + drain, false), pins, false, None, 0, false);
      written := Persist(leases[id := lease]);
      if written {
        leases := leases[id := lease];
        usedIds := usedIds + {id};
        ExactRecordsBack(leases);
      }
    }

    /** Persists the seed, then commits the clocked lease; a write that is not acknowledged latches. */
    method PublishHold(server: ServerId, id: HoldId, ttl: int, drain: int, pins: set<Pin>)
      returns (ok: bool, ghost e: Event)
      requires Grantable(St(), server, id, ttl, drain) && pins == CapturedPins(St(), entries[owners[server]].contexts)
      modifies this
      ensures Enabled(old(St()), e) && St() == Step(old(St()), e)
      ensures ok ==> e == Grant(server, id, ttl, drain)
      ensures !ok ==> e == Latch || e == GrantTorn(server, id, ttl, drain)
      ensures KeepsLedger() && (ok <==> refusals == old(refusals))
    {
      var written, lease := SeedHold(server, id, ttl, drain, pins);
      if !written {
        failed := true;
        return false, Latch;
      }
      ClockingIsCommit(old(St()), server, id, ttl, drain);
      var outcome := CommitLease(id, lease, lease.result);
      if !outcome.Committed? {
        failed := true;
        return false, GrantTorn(server, id, ttl, drain);
      }
      return true, Grant(server, id, ttl, drain);
    }

    /** What a granted hold is at first: holding, unretired, and clocked from now. */
    ghost predicate NewHold(server: ServerId, id: HoldId, ttl: int, drain: int)
      reads this
    {
      && id in leases && leases[id].result == Result(id, server, Holding, clock + ttl, clock + drain, false)
      && server in owners && owners[server] in entries && leases[id].keys == entries[owners[server]].contexts
      && !leases[id].recovered
    }

    /** The swept half of a hold: checks the request, then publishes the lease. */
    method AcquireSwept(server: ServerId, id: HoldId, ttl: int, drain: int)
      returns (error: Option<Error>, ghost step: Option<Event>)
      requires EntriesOk(St()) && admitting == {} && ExactId(server) && ExactId(id) && id !in usedIds && 0 < ttl
        && 0 <= drain
      modifies this
      ensures step.None? ==> error.Some? && St() == old(St())
      ensures step.Some? ==> Enabled(old(St()), step.value) && St() == Step(old(St()), step.value)
      ensures step.Some? <==> Grantable(old(St()), server, id, ttl, drain)
      ensures step.Some? && error.None? ==> step.value == Grant(server, id, ttl, drain)
      ensures step.Some? && error.Some? ==> error.value == PersistenceError && failed
      ensures KeepsLedger() && (error.Some? && step.Some? <==> old(refusals) < refusals)
      ensures error.None? ==> NewHold(server, id, ttl, drain)
      ensures error == Some(PersistenceError) <==> old(failed) || old(refusals) < refusals
    {
      var pins, ok;
      error, pins := CheckHold(server, id, ttl, drain);
      if error.Some? {
        return error, None;
      }
      ghost var e;
      ok, e := PublishHold(server, id, ttl, drain, pins);
      return if ok then None else Some(PersistenceError), Some(e);
    }

    /** Acquires a hold: sweeps expired leases, checks the request, then publishes the lease. */
    method Acquire(server: ServerId, id: HoldId, ttl: int, drain: int, lock: LockOutcome)
      returns (error: Option<Error>, ghost swept: State, ghost run: seq<Event>)
      requires EntriesOk(St()) && admitting == {} && ExactId(server) && ExactId(id) && id !in usedIds && 0 < ttl
        && 0 <= drain
      modifies this
      ensures Valid(old(St()), run) && St() == Run(old(St()), run)
      ensures error.None? ==>
                Unexpired(swept) && Enabled(swept, Grant(server, id, ttl, drain))
                  && St() == Step(swept, Grant(server, id, ttl, drain))
      ensures error.Some? ==> St() == swept || (failed && Grantable(swept, server, id, ttl, drain))
      ensures error.Some? && error.value != PersistenceError ==>
        Unexpired(swept) && !Grantable(swept, server, id, ttl, drain)
      ensures !lock.Locked? ==> error == Some(PersistenceError) && St() == old(St())
      ensures KeepsLedger() && (old(refusals) < refusals ==> error == Some(PersistenceError))
      ensures error == Some(PersistenceError) ==> !lock.Locked? || old(failed) || old(refusals) < refusals
      ensures error.None? ==> NewHold(server, id, ttl, drain)
    {
      run, swept := [], St();
      if !lock.Locked? {
        return Some(PersistenceError), swept, run;
      }
      error, run := ExpireMaintenance();
      swept := St();
      if error.Some? {
        return Some(PersistenceError), swept, run;
      }
      ghost var step;
      error, step := AcquireSwept(server, id, ttl, drain);
      if step.Some? {
        RunSnoc(old(St()), run, step.value);
        run := run + [step.value];
      }
    }

    /** The end of a hold request after its drain: publish the retirement, or record that it is blocked. */
    method SettleHold(id: HoldId, blocked: bool) returns (error: Option<Error>, ghost run: seq<Event>)
      requires admitting == {}
      modifies this`leases, this`timers, this`store, this`acknowledged, this`refusals
      ensures Valid(old(St()), run) && St() == Run(old(St()), run)
      ensures id !in old(leases) ==> error == Some(ConflictError) && run == []
      ensures id in old(leases) && TreesRetired(old(entries), old(leases)[id]) && error != Some(PersistenceError) ==>
        run == [Finish(id)]
      ensures id in old(leases) && !TreesRetired(old(entries), old(leases)[id]) ==>
                error.Some? && (run == [] || (blocked && run == [Block(id)]))
      ensures error.None? ==> id in leases
      ensures KeepsLedger() && (error == Some(PersistenceError) <==> old(refusals) < refusals)
      ensures id in old(leases) && !TreesRetired(old(entries), old(leases)[id]) && blocked ==>
                error == Some(PersistenceError) ||
                  (run == [Block(id)] && id in leases && leases[id].result.state == RetirementBlocked)
    {
      run := [];
      if id !in leases {
        return Some(ConflictError), run;
      }
      var current := leases[id];
      var retired := TreesAreRetired(current);
      if retired {
        error, run := FinishRetirement(id);
        if error.None? && id !in leases {
          error := Some(ConflictError);
        }
        return error, run;
      }
      if !blocked {
        return Some(BlockedError), run;
      }
      var outcome := CommitLease(id, current, current.result.(state := RetirementBlocked, treesRetired := false));
      if !outcome.Committed? {
        return Some(PersistenceError), run;
      }
      CommitEventStep(old(St()), Block(id));
      RunOfOne(old(St()), Block(id));
      return Some(BlockedError), [Block(id)];
    }

    /** Resume or renew the exact current hold. */
    method MutateCurrent(id: HoldId, resume: bool, ttl: int) returns (error: Option<Error>)
      requires admitting == {} && !failed && 0 < ttl
      modifies this`leases, this`timers, this`store, this`acknowledged, this`refusals
      ensures var e := if resume then Resume(id) else Renew(id, ttl);
              && (error.None? ==> Enabled(old(St()), e) && St() == Step(old(St()), e))
              && (error.Some? ==> St() == old(St()))
              && (error.Some? && error.value != PersistenceError ==> !Enabled(old(St()), e))
      ensures KeepsLedger() && (error == Some(PersistenceError) <==> old(refusals) < refusals)
      ensures error.None? && resume ==> id !in leases
      ensures error.None? && !resume ==>
                && id in old(leases)
                && (old(leases)[id].result.state != Released ==>
                      id in leases && leases[id].result == old(leases)[id].result.(expiresAt := clock + ttl))
    {
      if id !in leases {
        return if leases != map[] then Some(ConflictError) else Some(NotFound);
      }
      var current := leases[id];
      var result;
      ghost var e := if resume then Resume(id) else Renew(id, ttl);
      if resume {
        var retired := TreesAreRetired(current);
        if current.result.state != Held || !retired {
          return Some(BlockedError);
        }
        result := current.result.(state := Released);
      } else {
        if current.result.expiresAt <= clock {
          return Some(ConflictError);
        }
        result := current.result.(expiresAt := clock + ttl);
      }
      CommitEventStep(St(), e);
      var outcome := CommitLease(id, current, result);
      return if outcome.Committed? then None else Some(PersistenceError);
    }

    /** Resume or renew one exact hold, after the expiry sweep. */
    method Mutate(id: HoldId, resume: bool, ttl: int, lock: LockOutcome)
      returns (error: Option<Error>, ghost swept: State, ghost run: seq<Event>)
      requires admitting == {} && 0 < ttl
      modifies this`leases, this`timers, this`store, this`acknowledged, this`refusals
      ensures Valid(old(St()), run) && St() == Run(old(St()), run)
      ensures var e := if resume then Resume(id) else Renew(id, ttl);
              && (error.None? ==> Unexpired(swept) && Enabled(swept, e) && St() == Step(swept, e))
              && (error.Some? ==> St() == swept)
              && (error.Some? && error.value != PersistenceError ==> !Enabled(swept, e))
      ensures KeepsLedger() && (old(refusals) < refusals ==> error == Some(PersistenceError))
      ensures error == Some(PersistenceError) ==> !lock.Locked? || old(failed) || old(refusals) < refusals
    {
      run, swept := [], St();
      if !lock.Locked? {
        return Some(PersistenceError), swept, run;
      }
      error, run := ExpireMaintenance();
      swept := St();
      if error.Some? {
        return Some(PersistenceError), swept, run;
      }
      ghost var e := if resume then Resume(id) else Renew(id, ttl);
      error := MutateCurrent(id, resume, ttl);
      if error.None? {
        RunSnoc(old(St()), run, e);
        run := run + [e];
      }
    }

    // ----- Publication retries, timers, the reaper -----

    method PinnedBy(lease: Lease, ref: Ref) returns (pinned: bool)
      ensures pinned <==> Pins(entries, lease, ref)
    {
      var todo := lease.pins;
      while todo != {}
        invariant todo <= lease.pins
        invariant forall pin :: pin in lease.pins - todo ==>
          !(pin.entry == ref && ref in entries && entries[ref].identity == pin.identity)
      {
        var pin :| pin in todo;
        if pin.entry == ref && ref in entries && entries[ref].identity == pin.identity {
          return true;
        }
        todo := todo - {pin};
      }
      return false;
    }

    /** Publishes one lease's retirement when it is pending, selected and proven. */
    method FinishPending(id: HoldId, only: Option<Ref>) returns (error: bool, finished: bool)
      requires admitting == {} && id in leases
      modifies this`leases, this`timers, this`store, this`acknowledged, this`refusals
      ensures finished ==> !error && old(leases)[id].result.state != Held && TreesRetired(old(entries), old(leases)[id])
      ensures finished ==> Selected(old(entries), old(leases)[id], only)
      ensures St() == if finished then Commit(old(St()), id, RetiredResult(old(St()), old(leases)[id])) else old(St())
      ensures !error && !finished && Selected(entries, leases[id], only) ==>
                leases[id].result.state == Held || !TreesRetired(entries, leases[id])
      ensures KeepsLedger() && (error <==> old(refusals) < refusals)
    {
      var lease := leases[id];
      var matched := true;
      if only.Some? {
        matched := PinnedBy(lease, only.value);
      }
      var retired := TreesAreRetired(lease);
      if !matched || lease.result.state == Held || !retired {
        return false, false;
      }
      var failure;
      ghost var run;
      failure, run := FinishRetirement(id);
      if failure.None? {
        RunOfOne(old(St()), Finish(id));
        CommitEventStep(old(St()), Finish(id));
      }
      return failure.Some?, failure.None?;
    }

    /** Publishes every pending retirement, or those that pin one entry; it ranges over the map it found. */
    method FinishAll(only: Option<Ref>) returns (error: bool, ghost run: seq<Event>)
      requires admitting == {}
      modifies this`leases, this`timers, this`store, this`acknowledged, this`refusals
      ensures Valid(old(St()), run) && St() == Run(old(St()), run)
      ensures forall e :: e in run ==> e.Finish?
      ensures forall id :: id in old(leases) && !Selected(old(entries), old(leases)[id], only) ==>
        id in leases && leases[id] == old(leases)[id]
      ensures !error ==>
                forall id :: id in leases && leases[id].result.state != Held ==>
                  && id in old(leases) && leases[id] == old(leases)[id]
                  && (Selected(old(entries), old(leases)[id], only) ==> !TreesRetired(old(entries), old(leases)[id]))
      ensures KeepsLedger() && (error <==> old(refusals) < refusals)
    {
      ghost var finished;
      error, finished := FinishLoop(only);
      if !error {
        FinishedLeft(old(St()), St(), finished, only);
      }
      run := FinishRun(old(St()), finished);
    }

    method FinishLoop(only: Option<Ref>) returns (error: bool, ghost finished: seq<HoldId>)
      requires admitting == {}
      modifies this`leases, this`timers, this`store, this`acknowledged, this`refusals
      ensures Pending(old(St()), finished) && St() == Finished(old(St()), finished)
      ensures forall id :: id in finished ==> Selected(old(entries), old(leases)[id], only)
      ensures !error ==>
                forall id :: id in old(leases) && Pending(old(St()), [id]) ==>
                  Selected(old(entries), old(leases)[id], only) ==> id in finished
      ensures KeepsLedger() && (error <==> old(refusals) < refusals)
    {
      finished := [];
      var snapshot := leases;
      var todo := snapshot.Keys;
      while todo != {}
        invariant todo <= snapshot.Keys && (forall id :: id in finished ==> id !in todo)
        invariant KeepsLedger() && refusals == old(refusals)
        invariant Pending(old(St()), finished) && St() == Finished(old(St()), finished)
        invariant forall id :: id in finished ==> Selected(old(entries), old(leases)[id], only)
        invariant forall id ::
                  id in snapshot && id !in todo && Pending(old(St()), [id])
                    && Selected(old(entries), snapshot[id], only) ==>
                    id in finished
      {
        var id :| id in todo;
        todo := todo - {id};
        var published;
        assert leases[id] == snapshot[id];
        error, published := FinishPending(id, only);
        if error {
          return true, finished;
        }
        if published {
          FinishedSnoc(old(St()), finished, id);
          finished := finished + [id];
        } else {
          assert id in [id];
        }
      }
      return false, finished;
    }

    /** Arms a publication retry for one lease if it is blocked, pins the entry and has none. */
    method RetryOne(id: HoldId, ref: Ref) returns (retried: bool)
      requires id in leases
      modifies this`leases, this`timers
      ensures retried ==> old(leases)[id].result.state == RetirementBlocked && !old(leases)[id].retirementRetry
      ensures retried ==> Pins(old(entries), old(leases)[id], ref)
      ensures St() == if retried then Schedule(old(St()), id, old(St()).clock + RETRY_DELAY, true) else old(St())
      ensures leases.Keys == old(leases).Keys && forall other :: other in leases && other != id ==>
        leases[other] == old(leases)[other]
      ensures leases[id].result.state == RetirementBlocked && Pins(entries, leases[id], ref) ==>
        leases[id].retirementRetry
      ensures KeepsLedger()
    {
      var pinned := PinnedBy(leases[id], ref);
      retried := pinned && leases[id].result.state == RetirementBlocked && !leases[id].retirementRetry;
      if retried {
        ScheduleTimer(id, clock + RETRY_DELAY, true);
      }
    }

    /** The same at the end of a run. */
    method RetryNext(id: HoldId, ref: Ref, ghost start: State, ghost front: seq<Event>) returns (ghost run: seq<Event>)
      requires admitting == {} && !failed && !TimersStopped(St()) && id in leases && Valid(start, front)
        && St() == Run(start, front)
      modifies this`leases, this`timers
      ensures Valid(start, run) && St() == Run(start, run)
      ensures leases.Keys == old(leases).Keys && forall other :: other in leases && other != id ==>
        leases[other] == old(leases)[other]
      ensures Retried(entries, old(leases)[id], leases[id], ref)
      ensures KeepsLedger()
    {
      run := front;
      var retried := RetryOne(id, ref);
      if retried {
        RetrySnoc(start, front, old(St()), id);
        return front + [RetryLater(id)];
      }
    }

    /** Under namespace contention: arms a publication retry for each blocked lease that pins the entry. */
    method RetryBlocked(ref: Ref) returns (ghost run: seq<Event>)
      requires admitting == {} && !failed && !TimersStopped(St())
      modifies this`leases, this`timers
      ensures Valid(old(St()), run) && St() == Run(old(St()), run)
      ensures leases.Keys == old(leases).Keys
      ensures forall id :: id in leases ==> Retried(entries, old(leases)[id], leases[id], ref)
      ensures KeepsLedger()
    {
      run := [];
      var todo := leases.Keys;
      while todo != {}
        invariant todo <= leases.Keys && leases.Keys == old(leases).Keys && KeepsLedger()
        invariant Valid(old(St()), run) && St() == Run(old(St()), run)
        invariant forall id :: id in leases ==>
          if id in todo then leases[id] == old(leases)[id] else Retried(entries, old(leases)[id], leases[id], ref)
      {
        var id :| id in todo;
        todo := todo - {id};
        run := RetryNext(id, ref, old(St()), run);
      }
    }

    /** Whether a lock failure concerns a lease that waits for this entry's retirement. */
    method AwaitedBy(ref: Ref) returns (awaited: bool)
      ensures awaited <==>
        exists id :: id in leases && leases[id].result.state != Held && Pins(entries, leases[id], ref)
    {
      var todo := leases.Keys;
      while todo != {}
        invariant todo <= leases.Keys
        invariant forall id :: id in leases.Keys - todo ==>
          leases[id].result.state == Held || !Pins(entries, leases[id], ref)
      {
        var id :| id in todo;
        var pinned := PinnedBy(leases[id], ref);
        if leases[id].result.state != Held && pinned {
          return true;
        }
        todo := todo - {id};
      }
      return false;
    }

    method LatchFailure(ghost front: seq<Event>, ghost start: State) returns (ghost run: seq<Event>)
      requires admitting == {} && Valid(start, front) && St() == Run(start, front)
      modifies this`failed
      ensures failed && run == front + [Latch]
      ensures Valid(start, run) && St() == Run(start, run)
    {
      RunSnoc(start, front, Latch);
      failed := true;
      run := front + [Latch];
    }

    /** An owner's retirement proof changed: publish what it completes, or arm a retry, or latch. */
    method RetirementChanged(ref: Ref, lock: LockOutcome) returns (ghost run: seq<Event>)
      requires admitting == {}
      modifies this`leases, this`timers, this`failed, this`store, this`acknowledged, this`refusals
      ensures Valid(old(St()), run) && St() == Run(old(St()), run)
      ensures old(failed || TimersStopped(St())) ==> St() == old(St())
      ensures !failed && !TimersStopped(St()) && lock.Locked? ==>
                forall id :: id in leases && leases[id].result.state != Held && Pins(entries, leases[id], ref) ==>
                  !TreesRetired(entries, leases[id])
      ensures !failed && !TimersStopped(St()) && lock.Contended? ==>
                forall id ::
                          id in leases && leases[id].result.state == RetirementBlocked
                            && Pins(entries, leases[id], ref) ==>
                  leases[id].retirementRetry
      ensures !failed && !TimersStopped(St()) && lock.LockFailed? ==>
                forall id :: id in leases && Pins(entries, leases[id], ref) ==> leases[id].result.state == Held
      ensures KeepsLedger()
      ensures failed <==>
                || old(failed)
                || (!old(TimersStopped(St())) && lock.Locked? && old(refusals) < refusals)
                || (!old(TimersStopped(St())) && lock.LockFailed? && exists id ::
                      id in leases && leases[id].result.state != Held && Pins(entries, leases[id], ref))
      ensures !lock.Locked? ==> refusals == old(refusals)
    {
      run := [];
      if failed || shuttingDown || stop.Closed? {
        return;
      }
      match lock
      case Locked =>
        var error;
        error, run := FinishAll(Some(ref));
        if error {
          run := LatchFailure(run, old(St()));
        }
      case Contended =>
        run := RetryBlocked(ref);
      case LockFailed =>
        var awaited := AwaitedBy(ref);
        if awaited {
          run := LatchFailure(run, old(St()));
        }
    }

    /** The reaper's pass: publish what is proven, then sweep what has expired. */
    method Reconcile(lock: LockOutcome) returns (ghost done: bool, ghost run: seq<Event>)
      requires admitting == {}
      modifies this`leases, this`timers, this`failed, this`store, this`acknowledged, this`refusals
      ensures Valid(old(St()), run) && St() == Run(old(St()), run)
      ensures old(failed || TimersStopped(St()) || leases == map[]) ==> St() == old(St())
      ensures lock.LockFailed? && old(!failed && !TimersStopped(St()) && leases != map[]) ==> failed
      ensures lock.Contended? ==> St() == old(St())
      ensures done ==> Unexpired(St()) && forall id :: id in leases && leases[id].result.state != Held ==>
        !TreesRetired(entries, leases[id])
      ensures KeepsLedger()
      ensures failed <==> old(failed) || (lock.LockFailed? && !old(TimersStopped(St())) && old(leases) != map[])
      ensures done <==>
                && lock.Locked? && !old(failed) && !old(TimersStopped(St())) && old(leases) != map[]
                && refusals == old(refusals)
    {
      done, run := false, [];
      if leases == map[] || failed || shuttingDown || stop.Closed? || lock.Contended? {
        return;
      }
      if lock.LockFailed? {
        run := LatchFailure(run, old(St()));
        return;
      }
      var error;
      error, run := FinishAll(None);
      if error {
        return;
      }
      ghost var mid := St();
      ghost var swept;
      var ignored;
      ignored, swept := ExpireMaintenance();
      RunConcat(old(St()), mid, run, swept);
      run := run + swept;
      done := ignored.None?;
    }

    // ----- Timer callbacks -----

    /** A fired timer leaves the runtime at the end of its callback. */
    method DropTimer(t: TimerId, ghost front: seq<Event>, ghost start: State) returns (ghost run: seq<Event>)
      requires Valid(start, front) && St() == Run(start, front)
      requires t in timers ==> timers[t].due <= clock
      requires t in timers && Current(St(), t) ==> admitting == {} && !timers[t].retirement && Unexpired(St())
      modifies this`timers
      ensures Valid(start, run) && St() == Run(start, run) && timers == old(timers) - {t}
    {
      run := front;
      if t in timers {
        RunSnoc(start, front, TimerLapse(t));
        run := front + [TimerLapse(t)];
      }
      timers := timers - {t};
    }

    /** Contention: retry soon, unless a publication retry has nothing left to publish. */
    method TimerContended(t: TimerId) returns (ghost e: Event)
      requires admitting == {} && t in timers && timers[t].due <= clock && Current(St(), t)
      modifies this`leases, this`timers
      ensures e == TimerRetry(t) || e == TimerRearm(t)
      ensures Enabled(old(St()), e) && St() == Step(old(St()), e)
      ensures t.hold in leases && leases[t.hold].timer.Some? && leases[t.hold].timer.value in timers
      ensures KeepsLedger()
      ensures e == TimerRetry(t) <==>
                || !old(timers)[t].retirement
                || (old(leases)[t.hold].result.state == RetirementBlocked
                    && TreesRetired(entries, old(leases)[t.hold]))
      ensures leases[t.hold].result == old(leases)[t.hold].result && failed == old(failed)
    {
      var lease := leases[t.hold];
      var retirement := timers[t].retirement;
      var retired := TreesAreRetired(lease);
      if !retirement || (lease.result.state == RetirementBlocked && retired) {
        ScheduleTimer(t.hold, clock + RETRY_DELAY, retirement);
        return TimerRetry(t);
      }
      ScheduleLeaseExpiry(t.hold);
      return TimerRearm(t);
    }

    /** Publishes one proven retirement at the end of a run; a refused write latches. */
    method PublishOrLatch(id: HoldId, ghost start: State, ghost front: seq<Event>) returns (ghost run: seq<Event>)
      requires admitting == {} && !failed && id in leases && TreesRetired(entries, leases[id])
      requires Valid(start, front) && St() == Run(start, front)
      modifies this`leases, this`timers, this`failed, this`store, this`acknowledged, this`refusals
      ensures Valid(start, run) && St() == Run(start, run)
      ensures KeepsLedger() && (failed <==> old(refusals) < refusals)
      ensures !failed ==> run == front + [Finish(id)]
    {
      ghost var mid := St();
      ghost var published;
      var error;
      error, published := FinishRetirement(id);
      RunConcat(start, mid, front, published);
      run := front + published;
      if error.Some? {
        run := LatchFailure(run, start);
      }
    }

    /** A publication retry: restores the expiry timer first, then publishes; a failed commit latches. */
    method TimerPublishes(t: TimerId) returns (ghost run: seq<Event>)
      requires admitting == {} && t in timers && timers[t].due <= clock && Current(St(), t) && timers[t].retirement
      modifies this`leases, this`timers, this`failed, this`store, this`acknowledged, this`refusals
      ensures Valid(old(St()), run) && St() == Run(old(St()), run)
      ensures !failed ==> (run == [TimerRearm(t)] || run == [TimerRearm(t), Finish(t.hold)])
      ensures KeepsLedger() && (failed <==> old(refusals) < refusals)
      ensures !failed ==>
                (run == [TimerRearm(t), Finish(t.hold)] <==>
                  && old(leases)[t.hold].result.state == RetirementBlocked
                  && TreesRetired(entries, old(leases)[t.hold]))
    {
      ghost var start := St();
      var retired := TreesAreRetired(leases[t.hold]);
      var pending := leases[t.hold].result.state == RetirementBlocked && retired;
      ScheduleLeaseExpiry(t.hold);
      RunOfOne(start, TimerRearm(t));
      run := [TimerRearm(t)];
      if pending {
        run := PublishOrLatch(t.hold, start, run);
      }
    }

    /** An expiry timer: sweeps every expired lease; a failed commit latches. */
    method TimerSweeps(t: TimerId) returns (ghost run: seq<Event>)
      requires admitting == {} && t in timers && timers[t].due <= clock && Current(St(), t) && !timers[t].retirement
      modifies this`leases, this`timers, this`failed, this`store, this`acknowledged, this`refusals
      ensures Valid(old(St()), run) && St() == Run(old(St()), run)
      ensures t in timers ==> timers[t] == old(timers)[t]
      ensures !failed ==> Unexpired(St())
      ensures KeepsLedger() && (failed <==> old(refusals) < refusals)
    {
      ghost var start := St();
      var error;
      error, run := ExpireMaintenance();
      if error.Some? {
        run := LatchFailure(run, start);
      }
    }

    /** The callback without the lock: a broken lock latches, a contended one is retried. */
    method TimerUnlocked(t: TimerId, lock: LockOutcome) returns (ghost run: seq<Event>)
      requires admitting == {} && t in timers && timers[t].due <= clock && Current(St(), t) && !lock.Locked?
      modifies this`leases, this`timers, this`failed
      ensures Valid(old(St()), run) && St() == Run(old(St()), run)
      ensures KeepsLedger() && (failed <==> lock.LockFailed?)
    {
      ghost var start := St();
      if lock.LockFailed? {
        run := LatchFailure([], start);
        run := DropTimer(t, run, start);
      } else {
        ghost var e := TimerContended(t);
        RunOfOne(start, e);
        run := [e];
      }
    }

    /** The callback of a timer that its lease still carries. */
    method TimerActs(t: TimerId, lock: LockOutcome) returns (ghost run: seq<Event>)
      requires admitting == {} && t in timers && timers[t].due <= clock && Current(St(), t)
      modifies this`leases, this`timers, this`failed, this`store, this`acknowledged, this`refusals
      ensures Valid(old(St()), run) && St() == Run(old(St()), run)
      ensures KeepsLedger() && (failed <==> lock.LockFailed? || old(refusals) < refusals)
      ensures !old(timers)[t].retirement && lock.Locked? && !failed ==> Unexpired(St())
    {
      ghost var start := St();
      run := [];
      if !lock.Locked? {
        run := TimerUnlocked(t, lock);
      } else if timers[t].retirement {
        run := TimerPublishes(t);
      } else {
        run := TimerSweeps(t);
        run := DropTimer(t, run, start);
      }
    }

    /** The callback of a timer that has come due, for whatever lease it was armed. */
    method TimerFired(t: TimerId, lock: LockOutcome) returns (ghost run: seq<Event>)
      requires admitting == {} && t in timers && timers[t].due <= clock
      modifies this`leases, this`timers, this`failed, this`store, this`acknowledged, this`refusals
      ensures Valid(old(St()), run) && St() == Run(old(St()), run)
      ensures !old(Current(St(), t)) ==> St() == old(St()).(timers := old(timers) - {t})
      ensures old(Current(St(), t)) && lock.LockFailed? ==> failed
      ensures old(Current(St(), t) && !timers[t].retirement) && lock.Locked? && !failed ==> Unexpired(St())
      ensures KeepsLedger()
      ensures failed <==>
                || old(failed)
                || (old(Current(St(), t)) && (lock.LockFailed? || old(refusals) < refusals))
    {
      ghost var start := St();
      run := [];
      if !(t.hold in leases && leases[t.hold].timer == Some(t) && !failed && !shuttingDown && !stop.Closed?) {
        run := DropTimer(t, run, start);
        return;
      }
      run := TimerActs(t, lock);
    }

    // ----- Lifecycle -----

    /** Grants a shutdown or a restart only with the latch clear and no lease in the map. */
    method BeginLifecycle(shutdown: bool) returns (error: Option<Error>)
      requires admitting == {}
      modifies this`shuttingDown, this`grants, this`restarts
      ensures error.None? <==> old(LifecycleOpen(St()))
      ensures var e := if shutdown then BeginShutdown else BeginRestart;
              St() == if error.None? then Step(old(St()), e) else old(St())
      ensures error.Some? ==> error.value == if old(failed) then PersistenceError else HeldError
    {
      if failed {
        return Some(PersistenceError);
      }
      if leases != map[] {
        return Some(HeldError);
      }
      shuttingDown := true;
      if shutdown {
        grants := grants + 1;
      } else {
        restarts := restarts + 1;
      }
      return None;
    }

    /** The granted shutdown's goroutine: the first one raises the flag again, without the gate, and starts the body. */
    method RunGrantedShutdown()
      requires 0 < grants
      modifies this`shuttingDown, this`grants, this`stop
      ensures St() == Step(old(St()), RunShutdown)
    {
      grants := grants - 1;
      if stop.Serving? {
        shuttingDown, stop := true, Finalizing;
      }
    }

    /** Drops every placeholder from the registry; it takes neither the gate nor the flag. */
    method DropPlaceholders() returns (ghost run: seq<Event>)
      requires EntriesOk(St()) && stop.Finalizing?
      modifies this`owners
      ensures Valid(old(St()), run) && St() == Run(old(St()), run)
      ensures forall sid :: sid in owners <==> sid in old(owners) && entries[old(owners)[sid]].hasOwner
    {
      var todo := owners.Keys;
      while todo != {}
        invariant todo <= old(owners).Keys && owners == DroppedOwners(old(St()), todo)
      {
        var sid :| sid in todo;
        todo := todo - {sid};
        if !entries[owners[sid]].hasOwner {
          owners := owners - {sid};
        }
      }
      run := ForgetRun(old(St()), owners.Keys);
      assert owners == OwnersOf(old(St()), owners.Keys);
    }

    /** One pass of the shutdown's body: when no owner is left it goes on to close the control server. */
    method FinalizePass() returns (ghost run: seq<Event>)
      requires EntriesOk(St()) && stop.Finalizing?
      modifies this`owners, this`stop
      ensures Valid(old(St()), run) && St() == Run(old(St()), run)
      ensures forall sid :: sid in owners <==> sid in old(owners) && entries[old(owners)[sid]].hasOwner
      ensures stop == if owners == map[] then Drained else Finalizing
    {
      run := DropPlaceholders();
      if owners == map[] {
        DrainSnoc(old(St()), run, St());
        run := run + [ShutdownDrains];
        stop := Drained;
      }
    }

    /** The end of the shutdown's body closes the done channel. */
    method CloseDone()
      requires stop.Drained?
      modifies this`stop
      ensures St() == Step(old(St()), ShutdownCloses)
    {
      stop := Closed;
    }

    /** A restart that fails before it detaches an owner serves again. */
    method AbortGrantedRestart()
      requires 0 < restarts
      modifies this`shuttingDown, this`restarts
      ensures St() == Step(old(St()), AbortRestart)
    {
      shuttingDown, restarts := false, restarts - 1;
    }

    /** Whether an owner restart may start: the latch, the held server, the registry, then every context's fence. */
    method CheckRestartOwner(server: ServerId) returns (error: Option<Error>)
      requires EntriesOk(St())
      ensures failed ==> error == Some(PersistenceError)
      ensures error.None? <==>
                && !failed && server in owners && entries[owners[server]].hasOwner
                && OpenAll(St(), entries[owners[server]].contexts)
                && forall id :: id in leases ==> leases[id].result.serverId != server
    {
      if failed {
        return Some(PersistenceError);
      }
      var held := ServerHeld(server);
      if held {
        return Some(HeldError);
      }
      if server !in owners || !entries[owners[server]].hasOwner {
        return Some(NotFound);
      }
      var open := CheckKeys(entries[owners[server]].contexts);
      return if open then None else Some(HeldError);
    }

    // ----- Registry -----

    /** Reserves a placeholder under the fence; the creation channel is open until promotion or discard. */
    method ReserveOwner(ref: Ref, identity: Identity, command: string, key: Key) returns (ok: bool)
      requires ref !in entries
      modifies this`entries, this`owners
      ensures ok <==> old(Open(St(), key))
      ensures ok ==>
                && identity.serverId in owners && owners[identity.serverId] == ref && ref in entries
                && entries[ref].identity == identity && entries[ref].command == command
                && entries[ref].contexts == {key} && entries[ref].creating && !entries[ref].hasOwner
      ensures St() == if ok then Step(old(St()), Reserve(ref, identity, command, key)) else old(St())
    {
      ok := CheckKey(key);
      if ok {
        entries := entries[ref := Entry(identity, command, {key}, false, false, true, false, false)];
        owners := owners[identity.serverId := ref];
      }
    }

    /** Publishes the created owner only while its placeholder is current and its context is open. */
    method PromoteOwner(ref: Ref, key: Key) returns (ok: bool)
      requires ref in entries && entries[ref].creating && entries[ref].contexts == {key}
      modifies this`entries
      ensures ok <==> old(Open(St(), key) && Registered(St(), ref))
      ensures ok ==> ref in entries && entries[ref].hasOwner && !entries[ref].creating && entries[ref].contexts == {key}
      ensures St() == if ok then Step(old(St()), Promote(ref, key)) else old(St())
    {
      ok := CheckKey(key);
      ok := ok && IsRegistered(ref);
      if ok {
        entries := entries[ref := entries[ref].(hasOwner := true, creating := false)];
      }
    }

    /**
     The end of an owner removal. The owner's finalization reports whether no tree of its own is
     left; only then does the entry leave, and only if it is still the registered one.
     */
    method RemoveFinalized(ref: Ref, finalized: bool) returns (removed: bool)
      requires ref in entries && entries[ref].hasOwner && (finalized ==> !entries[ref].tree)
      modifies this`owners
      ensures removed <==> finalized && old(Registered(St(), ref))
      ensures removed ==> owners == old(owners) - {entries[ref].identity.serverId}
      ensures St() == if removed then Step(old(St()), Remove(ref)) else old(St())
    {
      removed := finalized && IsRegistered(ref);
      if removed {
        owners := owners - {entries[ref].identity.serverId};
      }
    }

    /**
     Restores one snapshot owner. The contexts a snapshot retains are never known to be complete,
     so any live lease refuses the restore, whatever its keys.
     */
    method RestoreOwner(ref: Ref, identity: Identity, command: string, contexts: set<Key>, tree: bool)
      returns (ok: bool)
      requires ref !in entries && contexts != {}
      modifies this`entries, this`owners
      ensures ok ==>
                && identity.serverId in owners && owners[identity.serverId] == ref && ref in entries
                && entries[ref].contexts == contexts && entries[ref].incomplete && entries[ref].hasOwner
      ensures ok <==> !old(failed) && old(leases) == map[] && identity.serverId !in old(owners)
      ensures St() == if ok then Step(old(St()), Restore(ref, identity, command, contexts, tree)) else old(St())
    {
      ok := CheckKeys(contexts);
      if leases != map[] || identity.serverId in owners {
        ok := false;
      }
      if ok {
        entries := entries[ref := Entry(identity, command, contexts, true, true, false, false, tree)];
        owners := owners[identity.serverId := ref];
      }
    }
  }
}
