/** The inductive invariant of the maintenance machine, and that every event keeps it. */
module MaintenanceInvariant {
  import opened Options
  import opened MaintenanceModel

  function PinnedRefs(lease: Lease): set<Ref> {
    set pin | pin in lease.pins :: pin.entry
  }

  /** Registry bookkeeping: what a placeholder, a promoted owner and a retired owner look like. */
  ghost predicate EntriesOk(s: State) {
    && (forall ref :: ref in s.entries ==>
          && (s.entries[ref].creating ==> !s.entries[ref].hasOwner)
          && (s.entries[ref].retired ==> !s.entries[ref].tree)
          && (s.entries[ref].tree ==> s.entries[ref].hasOwner))
    && (forall sid :: sid in s.owners ==>
          && s.owners[sid] in s.entries
          && s.entries[s.owners[sid]].identity.serverId == sid
          && (s.entries[s.owners[sid]].hasOwner || s.entries[s.owners[sid]].creating))
  }

  /** Every published result is valid, live and filed under its own fresh identity. */
  ghost predicate ResultsOk(s: State) {
    && 0 < s.clock
    && (forall id :: id in s.leases ==>
          && id in s.usedIds
          && s.leases[id].result.holdId == id
          && s.leases[id].result.state != Released
          && s.leases[id].keys != {}
          && ValidResult(s.leases[id].result))
  }

  ghost predicate KeysDisjoint(s: State) {
    forall a, b :: a in s.leases && b in s.leases && a != b ==> s.leases[a].keys !! s.leases[b].keys
  }

  /** A registered owner that meets a lease lies inside it and is pinned by it. */
  ghost predicate ScopeOk(s: State) {
    forall id, ref :: id in s.leases && Registered(s, ref) && Overlaps(s.leases[id], s.entries[ref]) ==>
      s.entries[ref].contexts <= s.leases[id].keys && ref in PinnedRefs(s.leases[id]) && !s.leases[id].recovered
  }

  ghost predicate PinsOk(s: State) {
    forall id, pin :: id in s.leases && pin in s.leases[id].pins ==>
      && pin.entry in s.entries
      && s.entries[pin.entry].identity == pin.identity
      && (!pin.waits ==> !s.entries[pin.entry].creating)
  }

  ghost predicate HeldOk(s: State) {
    forall id :: id in s.leases && s.leases[id].result.state == Held ==> TreesRetired(s.entries, s.leases[id])
  }

  /** A read-side section in flight still sees the fence it checked. */
  ghost predicate AdmittingOk(s: State) {
    forall a :: a in s.admitting ==> a.entry in s.entries && Open(s, a.key) && OpenAll(s, s.entries[a.entry].contexts)
  }

  ghost predicate Inv(s: State) {
    EntriesOk(s) && ResultsOk(s) && KeysDisjoint(s) && ScopeOk(s) && PinsOk(s) && HeldOk(s) && AdmittingOk(s)
  }

  lemma InitInv(s: State)
    requires Init(s)
    ensures Inv(s)
  {
  }

  // ----- Registry steps -----

  /** An entry step that opens no channel and cannot unprove a retirement. */
  ghost predicate EntryGrows(was: Entry, now: Entry) {
    && now.identity == was.identity
    && (now.creating ==> was.creating)
    && (was.retired ==> now.retired)
    && (now.hasOwner ==> was.hasOwner || was.creating)
  }

  /**
   What a registry step may do: leave the leases, the latch and the used identities alone, grow
   entries, and give a registered entry new contexts only outside every fence.
   */
  ghost predicate RegistryStep(s: State, s': State) {
    && s'.leases == s.leases && s'.failed == s.failed && s'.clock == s.clock && s'.usedIds == s.usedIds
    && (forall ref :: ref in s.entries ==> ref in s'.entries && EntryGrows(s.entries[ref], s'.entries[ref]))
    && (forall ref :: Registered(s', ref) ==>
          || OpenAll(s, s'.entries[ref].contexts)
          || (Registered(s, ref) && s'.entries[ref].contexts == s.entries[ref].contexts))
  }

  lemma OpenMeetsNoLease(s: State, contexts: set<Key>, id: HoldId)
    requires OpenAll(s, contexts) && id in s.leases
    ensures s.leases[id].keys * contexts == {}
  {
    forall key | key in s.leases[id].keys && key in contexts
      ensures false
    {
      assert Open(s, key) && Fenced(s, key);
    }
  }

  lemma RegistryScope(s: State, s': State)
    requires ScopeOk(s) && RegistryStep(s, s')
    ensures ScopeOk(s')
  {
    forall id, ref | id in s'.leases && Registered(s', ref) && Overlaps(s'.leases[id], s'.entries[ref])
      ensures s'.entries[ref].contexts <= s'.leases[id].keys && ref in PinnedRefs(s'.leases[id])
        && !s'.leases[id].recovered
    {
      if OpenAll(s, s'.entries[ref].contexts) {
        OpenMeetsNoLease(s, s'.entries[ref].contexts, id);
      }
    }
  }

  lemma RegistryPins(s: State, s': State)
    requires PinsOk(s) && RegistryStep(s, s')
    ensures PinsOk(s')
  {
    forall id, pin | id in s'.leases && pin in s'.leases[id].pins
      ensures pin.entry in s'.entries && s'.entries[pin.entry].identity == pin.identity
      ensures !pin.waits ==> !s'.entries[pin.entry].creating
    {
      assert EntryGrows(s.entries[pin.entry], s'.entries[pin.entry]);
    }
  }

  lemma RegistryHeld(s: State, s': State)
    requires PinsOk(s) && HeldOk(s) && RegistryStep(s, s')
    ensures HeldOk(s')
  {
    forall id | id in s'.leases && s'.leases[id].result.state == Held
      ensures TreesRetired(s'.entries, s'.leases[id])
    {
      assert TreesRetired(s.entries, s.leases[id]);
      forall pin | pin in s.leases[id].pins && !s.leases[id].recovered
        ensures Settled(s'.entries, pin)
      {
        assert Settled(s.entries, pin) && EntryGrows(s.entries[pin.entry], s'.entries[pin.entry]);
      }
    }
  }

  lemma RegistryInv(s: State, s': State)
    requires Inv(s) && RegistryStep(s, s') && EntriesOk(s') && AdmittingOk(s')
    ensures Inv(s')
  {
    RegistryScope(s, s');
    RegistryPins(s, s');
    RegistryHeld(s, s');
  }

  lemma FenceKept(s: State, s': State)
    requires s'.leases == s.leases && s'.failed == s.failed
    ensures forall key :: Open(s', key) == Open(s, key)
  {
    assert forall key :: Fenced(s', key) == Fenced(s, key);
  }

  /** A fresh entry: a reserved placeholder or a restored owner. */
  lemma {:induction false} FreshEntryInv(s: State, s': State, ref: Ref, entry: Entry)
    requires Inv(s) && ref !in s.entries && OpenAll(s, entry.contexts)
    requires (entry.creating ==> !entry.hasOwner) && (entry.creating || entry.hasOwner)
    requires !entry.retired && (entry.tree ==> entry.hasOwner)
    requires s' == SetEntry(s, ref, entry).(owners := s.owners[entry.identity.serverId := ref])
    ensures Inv(s')
  {
    FenceKept(s, s');
    assert EntriesOk(s');
    assert AdmittingOk(s');
    RegistryInv(s, s');
  }

  /** A context write into an entry whose contexts all lie outside every fence. */
  lemma {:induction false} ContextInv(s: State, s': State, ref: Ref, entry: Entry)
    requires Inv(s) && ref in s.entries && OpenAll(s, entry.contexts)
    requires entry == s.entries[ref].(contexts := entry.contexts, tree := entry.tree)
    requires entry.tree ==> entry.hasOwner && (entry.retired ==> s.entries[ref].tree)
    requires s'.admitting <= s.admitting
    requires s' == SetEntry(s, ref, entry).(admitting := s'.admitting)
    ensures Inv(s')
  {
    FenceKept(s, s');
    assert EntriesOk(s');
    assert AdmittingOk(s');
    RegistryInv(s, s');
  }

  /** A promotion or a proven retirement. */
  lemma {:induction false} EntryStepInv(s: State, s': State, ref: Ref, entry: Entry)
    requires Inv(s) && ref in s.entries && EntryGrows(s.entries[ref], entry)
      && entry.contexts == s.entries[ref].contexts
    requires (entry.creating ==> !entry.hasOwner) && (entry.retired ==> !entry.tree) && (entry.tree ==> entry.hasOwner)
    requires entry.hasOwner && s' == SetEntry(s, ref, entry)
    ensures Inv(s')
  {
    FenceKept(s, s');
    assert EntriesOk(s');
    assert AdmittingOk(s');
    RegistryInv(s, s');
  }

  /** A removal, or a placeholder whose channel closes as it leaves the registry. */
  ghost predicate Dropped(s: State, s': State, ref: Ref, entry: Entry) {
    && ref in s.entries && entry == s.entries[ref].(creating := entry.creating)
    && (entry.creating ==> s.entries[ref].creating)
    && s' == SetEntry(Unregister(s, ref), ref, entry)
  }

  lemma DropRegistered(s: State, s': State, ref: Ref, entry: Entry)
    requires Dropped(s, s', ref, entry)
    ensures forall other :: Registered(s', other) ==> Registered(s, other) && other != ref
  {
  }

  lemma DropOwners(s: State, s': State, ref: Ref, entry: Entry)
    requires EntriesOk(s) && Dropped(s, s', ref, entry)
    ensures forall sid :: sid in s'.owners ==>
      sid in s.owners && s'.owners[sid] == s.owners[sid] && s.owners[sid] != ref
  {
    forall other | other in s'.owners
      ensures other in s.owners && s'.owners[other] == s.owners[other] && s.owners[other] != ref
    {
      assert s.entries[s.owners[other]].identity.serverId == other;
    }
  }

  lemma DropEntries(s: State, s': State, ref: Ref, entry: Entry)
    requires EntriesOk(s) && Dropped(s, s', ref, entry)
    ensures EntriesOk(s')
  {
    DropOwners(s, s', ref, entry);
    assert s'.entries == s.entries[ref := entry];
  }

  lemma DropAdmitting(s: State, s': State, ref: Ref, entry: Entry)
    requires AdmittingOk(s) && Dropped(s, s', ref, entry)
    ensures AdmittingOk(s')
  {
    FenceKept(s, s');
    forall a | a in s'.admitting
      ensures a.entry in s'.entries && Open(s', a.key) && OpenAll(s', s'.entries[a.entry].contexts)
    {
      assert s'.entries[a.entry].contexts == s.entries[a.entry].contexts;
    }
  }

  lemma {:induction false} DropStep(s: State, s': State, ref: Ref, entry: Entry)
    requires Dropped(s, s', ref, entry)
    ensures RegistryStep(s, s')
  {
    DropRegistered(s, s', ref, entry);
    forall other | other in s.entries
      ensures other in s'.entries && EntryGrows(s.entries[other], s'.entries[other])
    {
    }
    forall other | Registered(s', other)
      ensures Registered(s, other) && s'.entries[other].contexts == s.entries[other].contexts
    {
    }
  }

  lemma {:induction false} EntryDropInv(s: State, s': State, ref: Ref, entry: Entry)
    requires Inv(s) && Dropped(s, s', ref, entry)
    ensures Inv(s')
  {
    DropEntries(s, s', ref, entry);
    DropStep(s, s', ref, entry);
    DropAdmitting(s, s', ref, entry);
    RegistryInv(s, s');
  }

  // ----- Lease steps -----

  /** Lease steps leave the registry and the used identities alone and touch at most one lease's scope-free part. */
  ghost predicate LeaseStep(s: State, s': State) {
    && s'.owners == s.owners && s'.entries == s.entries && s'.admitting == s.admitting
    && s'.leases.Keys <= s.leases.Keys
    && (forall id :: id in s'.leases ==>
          && s'.leases[id].keys == s.leases[id].keys && s'.leases[id].pins == s.leases[id].pins
          && s'.leases[id].recovered == s.leases[id].recovered)
  }

  lemma RegisteredKept(s: State, s': State)
    requires s'.owners == s.owners && s'.entries == s.entries
    ensures forall ref :: Registered(s', ref) == Registered(s, ref)
  {
  }

  lemma LeaseScope(s: State, s': State)
    requires ScopeOk(s) && KeysDisjoint(s) && PinsOk(s) && LeaseStep(s, s')
    ensures ScopeOk(s') && KeysDisjoint(s') && PinsOk(s')
  {
    RegisteredKept(s, s');
    forall id, ref | id in s'.leases && Registered(s', ref) && Overlaps(s'.leases[id], s'.entries[ref])
      ensures s'.entries[ref].contexts <= s'.leases[id].keys && ref in PinnedRefs(s'.leases[id])
        && !s'.leases[id].recovered
    {
      assert Overlaps(s.leases[id], s.entries[ref]);
    }
  }

  lemma LeaseAdmitting(s: State, s': State)
    requires AdmittingOk(s) && LeaseStep(s, s') && (s'.failed == s.failed || s.admitting == {})
    ensures AdmittingOk(s')
  {
    forall key ensures Fenced(s', key) ==> Fenced(s, key)
    {
      if Fenced(s', key) {
        var id :| id in s'.leases && key in s'.leases[id].keys;
        assert id in s.leases && key in s.leases[id].keys;
      }
    }
  }

  /** The proof obligation of every lease step: sound results, and a proof behind every HELD. */
  lemma {:induction false} LeaseInv(s: State, s': State)
    requires Inv(s) && LeaseStep(s, s') && (s'.failed == s.failed || s.admitting == {})
    requires ResultsOk(s')
    requires forall id :: id in s'.leases && s'.leases[id].result.state == Held ==>
      TreesRetired(s.entries, s'.leases[id])
    ensures Inv(s')
  {
    LeaseScope(s, s');
    LeaseAdmitting(s, s');
    RegisteredKept(s, s');
    assert EntriesOk(s');
  }

  /** Steps that keep every result: timers, the latch, the clock, the lifecycle flags. */
  lemma {:induction false} SameResultsInv(s: State, s': State)
    requires Inv(s) && LeaseStep(s, s') && (s'.failed == s.failed || s.admitting == {})
    requires s.clock <= s'.clock && s'.usedIds == s.usedIds && s'.leases.Keys == s.leases.Keys
    requires forall id :: id in s.leases ==> s'.leases[id].result == s.leases[id].result
    ensures Inv(s')
  {
    forall id | id in s'.leases && s'.leases[id].result.state == Held
      ensures TreesRetired(s.entries, s'.leases[id])
    {
      assert TreesRetired(s.entries, s.leases[id]);
    }
    LeaseInv(s, s');
  }

  /** Arming a timer moves nothing but the timers and the lease's own timer fields. */
  lemma ScheduleEffect(s: State, id: HoldId, due: int, retirement: bool)
    requires id in s.leases
    ensures LeaseStep(s, Schedule(s, id, due, retirement))
    ensures var s' := Schedule(s, id, due, retirement);
            && s' == s.(leases := s'.leases, timers := s'.timers)
            && s'.leases.Keys == s.leases.Keys
            && (forall other :: other in s.leases ==> s'.leases[other].result == s.leases[other].result)
            && (forall other :: other in s.leases && other != id ==> s'.leases[other] == s.leases[other])
  {
  }

  /** The state between stopping a lease's timer and arming the next one. */
  function Unarmed(s: State, id: HoldId, result: Result): State
    requires id in s.leases
  {
    s.(timers := Stopped(s.timers, s.leases[id].timer),
       leases := s.leases[id := s.leases[id].(result := result, timer := None, retirementRetry := false)])
  }

  lemma CommitIsSchedule(s: State, id: HoldId, result: Result)
    requires id in s.leases && result.state != Released
    ensures var retry := s.leases[id].retirementRetry && result.state == RetirementBlocked;
            var due := if retry then s.clock + RETRY_DELAY else Later(s.clock, result.expiresAt);
            Commit(s, id, result) == Schedule(Unarmed(s, id, result), id, due, retry)
  {
  }

  /** Everything but timers that a commit may touch: one result, or one lease. */
  ghost predicate Commits(s: State, s': State, id: HoldId, result: Result) {
    && LeaseStep(s, s')
    && s' == s.(leases := s'.leases, timers := s'.timers)
    && s'.leases.Keys == (if result.state == Released then s.leases.Keys - {id} else s.leases.Keys)
    && (forall other :: other in s'.leases && other != id ==> s'.leases[other] == s.leases[other])
    && (id in s'.leases ==> s'.leases[id].result == result)
  }

  lemma ReleaseEffect(s: State, id: HoldId, result: Result)
    requires id in s.leases && result.state == Released
    ensures Commits(s, Commit(s, id, result), id, result)
  {
  }

  lemma UnarmedEffect(s: State, id: HoldId, result: Result)
    requires id in s.leases && result.state != Released
    ensures Commits(s, Unarmed(s, id, result), id, result)
  {
  }

  lemma RearmedEffect(s: State, id: HoldId, result: Result, due: int, retirement: bool)
    requires id in s.leases && result.state != Released
    ensures Commits(s, Schedule(Unarmed(s, id, result), id, due, retirement), id, result)
  {
    UnarmedEffect(s, id, result);
    ScheduleEffect(Unarmed(s, id, result), id, due, retirement);
  }

  /** What one commit does: one result moves or one lease leaves, and nothing else but timers moves. */
  lemma CommitEffect(s: State, id: HoldId, result: Result)
    requires id in s.leases
    ensures Commits(s, Commit(s, id, result), id, result)
  {
    if result.state == Released {
      ReleaseEffect(s, id, result);
    } else {
      var retry := s.leases[id].retirementRetry && result.state == RetirementBlocked;
      var due := if retry then s.clock + RETRY_DELAY else Later(s.clock, result.expiresAt);
      CommitIsSchedule(s, id, result);
      RearmedEffect(s, id, result, due, retry);
    }
  }

  lemma CommitResults(s: State, s': State, id: HoldId)
    requires ResultsOk(s) && s' == s.(leases := s'.leases, timers := s'.timers) && LeaseStep(s, s')
    requires forall other :: other in s'.leases && other != id ==> s'.leases[other] == s.leases[other]
    requires id in s'.leases ==>
               s'.leases[id].result.state != Released && ValidResult(s'.leases[id].result)
                 && s'.leases[id].result.holdId == id
    ensures ResultsOk(s')
  {
  }

  lemma {:induction false} CommitInv(s: State, id: HoldId, result: Result)
    requires Inv(s) && id in s.leases && s.admitting == {}
    requires result.state != Released ==> ValidResult(result) && result.holdId == id
    requires result.state == Held && !s.leases[id].recovered ==> TreesRetired(s.entries, s.leases[id])
    ensures Inv(Commit(s, id, result))
  {
    var s' := Commit(s, id, result);
    CommitEffect(s, id, result);
    CommitResults(s, s', id);
    forall other | other in s'.leases && s'.leases[other].result.state == Held
      ensures TreesRetired(s.entries, s'.leases[other])
    {
      assert other != id ==> TreesRetired(s.entries, s.leases[other]);
    }
    LeaseInv(s, s');
  }

  /** The keys of a grantable hold lie outside every lease. */
  lemma SeededKeys(s: State, server: ServerId, id: HoldId, ttl: int, drain: int)
    requires Grantable(s, server, id, ttl, drain)
    ensures forall other :: other in s.leases ==> s.leases[other].keys !! NewLease(s, server, id, ttl, drain).keys
  {
    forall other | other in s.leases
      ensures s.leases[other].keys !! NewLease(s, server, id, ttl, drain).keys
    {
      assert forall key :: key in NewLease(s, server, id, ttl, drain).keys ==> !Fenced(s, key);
    }
  }

  lemma CapturedScope(s: State, server: ServerId, id: HoldId, ttl: int, drain: int)
    requires Grantable(s, server, id, ttl, drain)
    ensures var lease := NewLease(s, server, id, ttl, drain);
            forall ref :: Registered(s, ref) && Overlaps(lease, s.entries[ref]) ==>
              s.entries[ref].contexts <= lease.keys && ref in PinnedRefs(lease)
  {
    var lease := NewLease(s, server, id, ttl, drain);
    forall ref | Registered(s, ref) && Overlaps(lease, s.entries[ref])
      ensures s.entries[ref].contexts <= lease.keys && ref in PinnedRefs(lease)
    {
      assert PinOf(s, ref) in lease.pins;
    }
  }

  /** A hold captures every registered owner it meets, so the new lease is closed from the start. */
  lemma {:induction false} SeededScope(s: State, server: ServerId, id: HoldId, ttl: int, drain: int)
    requires ScopeOk(s) && KeysDisjoint(s) && PinsOk(s) && Grantable(s, server, id, ttl, drain)
    ensures var s' := Seeded(s, server, id, ttl, drain); ScopeOk(s') && KeysDisjoint(s') && PinsOk(s')
  {
    RegisteredKept(s, Seeded(s, server, id, ttl, drain));
    SeededKeys(s, server, id, ttl, drain);
    CapturedScope(s, server, id, ttl, drain);
  }

  lemma SeededInv(s: State, server: ServerId, id: HoldId, ttl: int, drain: int)
    requires Inv(s) && Grantable(s, server, id, ttl, drain)
    ensures Inv(Seeded(s, server, id, ttl, drain))
  {
    var s' := Seeded(s, server, id, ttl, drain);
    SeededScope(s, server, id, ttl, drain);
    RegisteredKept(s, s');
    forall other | other in s'.leases && s'.leases[other].result.state == Held
      ensures TreesRetired(s'.entries, s'.leases[other])
    {
      assert TreesRetired(s.entries, s.leases[other]);
    }
    assert HeldOk(s');
    assert EntriesOk(s');
  }

  predicate RegistryEvent(e: Event) {
    || e.Reserve? || e.Discard? || e.Promote? || e.AdmitBegin? || e.AdmitEnd? || e.Materialize? || e.Retire?
    || e.TreeExits?
    || e.Remove? || e.Restore? || e.ShutdownForgets?
  }

  /** Registry events move nothing but the registry and the admissions in flight. */
  ghost predicate MovesRegistry(s: State, s': State) {
    s' == s.(owners := s'.owners, entries := s'.entries, admitting := s'.admitting)
  }

  lemma AdmissionEffect(s: State, e: Event)
    requires Enabled(s, e) && (e.AdmitBegin? || e.AdmitEnd? || e.Materialize? || e.Promote?)
    ensures MovesRegistry(s, Step(s, e))
  {
  }

  lemma RegistryEffect(s: State, e: Event)
    requires Enabled(s, e) && RegistryEvent(e)
    ensures MovesRegistry(s, Step(s, e))
  {
    if e.AdmitBegin? || e.AdmitEnd? || e.Materialize? || e.Promote? {
      AdmissionEffect(s, e);
    }
  }

  lemma PlacementInv(s: State, e: Event)
    requires Inv(s) && Enabled(s, e) && (e.Reserve? || e.Restore?)
    ensures Inv(Step(s, e))
  {
    FreshEntryInv(s, Step(s, e), e.ref, Step(s, e).entries[e.ref]);
  }

  lemma ProgressInv(s: State, e: Event)
    requires Inv(s) && Enabled(s, e) && (e.Promote? || e.Retire? || e.TreeExits?)
    ensures Inv(Step(s, e))
  {
    EntryStepInv(s, Step(s, e), e.ref, Step(s, e).entries[e.ref]);
  }

  lemma DepartureInv(s: State, e: Event)
    requires Inv(s) && Enabled(s, e) && (e.Discard? || e.Remove? || e.ShutdownForgets?)
    ensures Inv(Step(s, e))
  {
    assert s.entries[e.ref := s.entries[e.ref]] == s.entries;
    EntryDropInv(s, Step(s, e), e.ref, Step(s, e).entries[e.ref]);
  }

  lemma {:induction false} RegistryEventInv(s: State, e: Event)
    requires Inv(s) && Enabled(s, e)
    requires e.Reserve? || e.Restore? || e.Discard? || e.Promote? || e.Retire? || e.TreeExits?
      || e.Remove? || e.ShutdownForgets?
    ensures Inv(Step(s, e))
  {
    if e.Reserve? || e.Restore? {
      PlacementInv(s, e);
    } else if e.Promote? || e.Retire? || e.TreeExits? {
      ProgressInv(s, e);
    } else {
      DepartureInv(s, e);
    }
  }

  lemma AdmitBeginInv(s: State, e: Event)
    requires Inv(s) && Enabled(s, e) && e.AdmitBegin?
    ensures Inv(Step(s, e))
  {
    var s' := Step(s, e);
    FenceKept(s, s');
    assert AdmittingOk(s');
    RegistryInv(s, s');
  }

  lemma {:induction false} AdmitEndInv(s: State, e: Event)
    requires Inv(s) && Enabled(s, e) && e.AdmitEnd?
    ensures Inv(Step(s, e))
  {
    var admission := Admission(e.ref, e.key);
    assert admission in s.admitting && admission.entry in s.entries;
    var entry := s.entries[e.ref];
    var contexts := if e.admitted then entry.contexts + {e.key} else entry.contexts;
    assert s.entries[e.ref := entry] == s.entries;
    ContextInv(s, Step(s, e), e.ref, entry.(contexts := contexts));
  }

  lemma {:induction false} MaterializeInv(s: State, e: Event)
    requires Inv(s) && Enabled(s, e) && e.Materialize?
    ensures Inv(Step(s, e))
  {
    var entry := s.entries[e.ref];
    ContextInv(s, Step(s, e), e.ref, entry.(contexts := entry.contexts + {e.key}, tree := true));
  }

  lemma {:induction false} RetirementEventInv(s: State, e: Event)
    requires Inv(s) && Enabled(s, e) && (e.Block? || e.Finish?)
    ensures Inv(Step(s, e))
  {
    var result := s.leases[e.id].result;
    assert ValidResult(result) && result.holdId == e.id;
    if e.Block? {
      CommitInv(s, e.id, result.(state := RetirementBlocked, treesRetired := false));
    } else {
      CommitInv(s, e.id, RetiredResult(s, s.leases[e.id]));
    }
  }

  lemma ReleaseEventInv(s: State, e: Event)
    requires Inv(s) && Enabled(s, e) && (e.Expire? || e.Resume?)
    ensures Inv(Step(s, e))
  {
    CommitInv(s, e.id, s.leases[e.id].result.(state := Released));
  }

  lemma HeldIsProven(s: State, id: HoldId)
    requires Inv(s) && id in s.leases && s.leases[id].result.state == Held
    ensures TreesRetired(s.entries, s.leases[id])
  {
  }

  lemma {:induction false} RenewInv(s: State, id: HoldId, ttl: int)
    requires Inv(s) && id in s.leases && 0 < ttl && s.admitting == {}
    ensures Inv(Commit(s, id, s.leases[id].result.(expiresAt := s.clock + ttl)))
  {
    var result := s.leases[id].result;
    assert ValidResult(result) && result.holdId == id;
    if result.state == Held {
      HeldIsProven(s, id);
    }
    CommitInv(s, id, result.(expiresAt := s.clock + ttl));
  }

  lemma RenewIsCommit(s: State, id: HoldId, ttl: int)
    requires Enabled(s, Renew(id, ttl))
    ensures Step(s, Renew(id, ttl)) == Commit(s, id, s.leases[id].result.(expiresAt := s.clock + ttl))
  {
  }

  lemma {:induction false} RenewEventInv(s: State, id: HoldId, ttl: int)
    requires Inv(s) && Enabled(s, Renew(id, ttl))
    ensures Inv(Step(s, Renew(id, ttl)))
  {
    RenewIsCommit(s, id, ttl);
    RenewInv(s, id, ttl);
  }

  lemma {:induction false} GrantEventInv(s: State, e: Event)
    requires Inv(s) && Enabled(s, e) && (e.Grant? || e.GrantTorn?)
    ensures Inv(Step(s, e))
  {
    var seeded := Seeded(s, e.server, e.id, e.ttl, e.drain);
    SeededInv(s, e.server, e.id, e.ttl, e.drain);
    if e.Grant? {
      ScheduleEffect(seeded, e.id, Later(seeded.clock, seeded.leases[e.id].result.expiresAt), false);
    }
    SameResultsInv(seeded, Step(s, e));
  }

  lemma ScheduleInv(s: State, id: HoldId, due: int, retirement: bool)
    requires Inv(s) && id in s.leases
    ensures Inv(Schedule(s, id, due, retirement))
  {
    ScheduleEffect(s, id, due, retirement);
    SameResultsInv(s, Schedule(s, id, due, retirement));
  }

  lemma LapseInv(s: State, t: TimerId)
    requires Inv(s)
    ensures Inv(s.(timers := s.timers - {t}))
  {
    SameResultsInv(s, s.(timers := s.timers - {t}));
  }

  lemma {:induction false} RearmInv(s: State, t: TimerId)
    requires Inv(s) && (Enabled(s, TimerRetry(t)) || Enabled(s, TimerRearm(t)))
    ensures Inv(Schedule(s, t.hold, s.clock + RETRY_DELAY, s.timers[t].retirement)) && Inv(ScheduleExpiry(s, t.hold))
  {
    ScheduleInv(s, t.hold, s.clock + RETRY_DELAY, s.timers[t].retirement);
    ScheduleInv(s, t.hold, Later(s.clock, s.leases[t.hold].result.expiresAt), false);
  }

  lemma {:induction false} TimerEventInv(s: State, e: Event)
    requires Inv(s) && Enabled(s, e)
    requires e.RetryLater? || e.TimerLapse? || e.TimerRetry? || e.TimerRearm?
    ensures Inv(Step(s, e))
  {
    if e.RetryLater? {
      ScheduleInv(s, e.id, s.clock + RETRY_DELAY, true);
    } else if e.TimerLapse? {
      LapseInv(s, e.t);
    } else {
      RearmInv(s, e.t);
    }
  }

  lemma FlagsInv(s: State, s': State)
    requires Inv(s) && s.clock <= s'.clock && (s'.failed == s.failed || s.admitting == {})
    requires s' == s.(failed := s'.failed, shuttingDown := s'.shuttingDown, clock := s'.clock,
                      grants := s'.grants, restarts := s'.restarts, stop := s'.stop)
    ensures Inv(s')
  {
    SameResultsInv(s, s');
  }

  predicate LifecycleEvent(e: Event) {
    || e.Tick? || e.Latch? || e.BeginShutdown? || e.RunShutdown? || e.ShutdownDrains? || e.ShutdownCloses?
    || e.BeginRestart? || e.AbortRestart? || e.SettleRestart?
  }

  /** Lifecycle events move only flags, counters and the clock, and latch only with the gate taken. */
  ghost predicate MovesFlags(s: State, s': State) {
    && s' == s.(failed := s'.failed, shuttingDown := s'.shuttingDown, clock := s'.clock,
                grants := s'.grants, restarts := s'.restarts, stop := s'.stop)
    && s.clock <= s'.clock && (s.failed ==> s'.failed) && (s'.failed == s.failed || s.admitting == {})
  }

  lemma ShutdownEffect(s: State, e: Event)
    requires Enabled(s, e) && (e.BeginShutdown? || e.RunShutdown? || e.ShutdownDrains? || e.ShutdownCloses?)
    ensures MovesFlags(s, Step(s, e))
  {
  }

  lemma LifecycleEffect(s: State, e: Event)
    requires Enabled(s, e) && LifecycleEvent(e)
    ensures MovesFlags(s, Step(s, e))
  {
    if e.BeginShutdown? || e.RunShutdown? || e.ShutdownDrains? || e.ShutdownCloses? {
      ShutdownEffect(s, e);
    }
  }

  lemma {:induction false} LifecycleEventInv(s: State, e: Event)
    requires Inv(s) && Enabled(s, e) && LifecycleEvent(e)
    ensures Inv(Step(s, e))
  {
    LifecycleEffect(s, e);
    FlagsInv(s, Step(s, e));
  }

  /** Every event keeps the invariant. */
  lemma {:induction false} StepInv(s: State, e: Event)
    requires Inv(s) && Enabled(s, e)
    ensures Inv(Step(s, e))
  {
    if e.Reserve? || e.Restore? || e.Discard? || e.Promote? || e.Retire? || e.TreeExits?
      || e.Remove? || e.ShutdownForgets? {
      RegistryEventInv(s, e);
    } else if e.AdmitBegin? {
      AdmitBeginInv(s, e);
    } else if e.AdmitEnd? {
      AdmitEndInv(s, e);
    } else if e.Materialize? {
      MaterializeInv(s, e);
    } else if e.Block? || e.Finish? {
      RetirementEventInv(s, e);
    } else if e.Expire? || e.Resume? {
      ReleaseEventInv(s, e);
    } else if e.Renew? {
      RenewEventInv(s, e.id, e.ttl);
    } else if e.Grant? || e.GrantTorn? {
      GrantEventInv(s, e);
    } else if e.RetryLater? || e.TimerLapse? || e.TimerRetry? || e.TimerRearm? {
      TimerEventInv(s, e);
    } else {
      LifecycleEventInv(s, e);
    }
  }

  /** The invariant holds after every run. */
  lemma {:induction false} RunInv(s: State, run: seq<Event>)
    requires Inv(s) && Valid(s, run)
    ensures Inv(Run(s, run))
    decreases |run|
  {
    if run != [] {
      RunInv(s, run[..|run| - 1]);
      StepInv(Run(s, run[..|run| - 1]), run[|run| - 1]);
    }
  }
}
