/** What the maintenance machine promises over whole runs. */
module MaintenanceTheorems {
  import opened MaintenanceModel
  import opened MaintenanceInvariant

  // ----- Safe replacement and scope closure -----

  /**
   A HELD lease means what an installer reads into it: every registered owner that shares a
   context with the lease is retired and has no live tree, whatever ran before.
   */
  lemma {:induction false} HeldMeansRetired(s: State, run: seq<Event>, id: HoldId, ref: Ref)
    requires Init(s) && Valid(s, run)
    requires var now := Run(s, run);
             && id in now.leases && now.leases[id].result.state == Held
             && Registered(now, ref) && Overlaps(now.leases[id], now.entries[ref])
    ensures var entry := Run(s, run).entries[ref]; entry.hasOwner && entry.retired && !entry.tree
  {
    InitInv(s);
    RunInv(s, run);
    var now := Run(s, run);
    HeldIsProven(now, id);
    var pin :| pin in now.leases[id].pins && pin.entry == ref;
    assert Settled(now.entries, pin);
    assert now.owners[now.entries[ref].identity.serverId] == ref;
  }

  /** Live leases never share a key, and an owner is inside one lease that pins it or outside all. */
  lemma {:induction false} ScopeClosure(s: State, run: seq<Event>)
    requires Init(s) && Valid(s, run)
    ensures var now := Run(s, run);
            && (forall a, b :: a in now.leases && b in now.leases && a != b ==>
              now.leases[a].keys !! now.leases[b].keys)
            && (forall ref, id :: Registered(now, ref) && id in now.leases ==>
                  || now.entries[ref].contexts !! now.leases[id].keys
                  || (now.entries[ref].contexts <= now.leases[id].keys && ref in PinnedRefs(now.leases[id])))
  {
    InitInv(s);
    RunInv(s, run);
    var now := Run(s, run);
    forall ref, id | Registered(now, ref) && id in now.leases && !(now.entries[ref].contexts !! now.leases[id].keys)
      ensures now.entries[ref].contexts <= now.leases[id].keys && ref in PinnedRefs(now.leases[id])
    {
      var key :| key in now.entries[ref].contexts && key in now.leases[id].keys;
      assert key in now.leases[id].keys * now.entries[ref].contexts;
    }
  }

  // ----- What one step can do to a lease -----

  predicate CommitEvent(e: Event) {
    e.Block? || e.Finish? || e.Expire? || e.Resume? || e.Renew?
  }

  /** The result a commit event publishes. */
  function Published(s: State, e: Event): Result
    requires Enabled(s, e) && CommitEvent(e)
  {
    var result := s.leases[e.id].result;
    if e.Block? then result.(state := RetirementBlocked, treesRetired := false)
    else if e.Finish? then RetiredResult(s, s.leases[e.id])
    else if e.Renew? then result.(expiresAt := s.clock + e.ttl)
    else result.(state := Released)
  }

  lemma CommitEventStep(s: State, e: Event)
    requires Enabled(s, e) && CommitEvent(e)
    ensures Step(s, e) == Commit(s, e.id, Published(s, e))
  {
  }

  /**
   What every other event does: it keeps the registry and every result and scope, and adds at most
   one fresh lease.
   */
  ghost predicate KeepsLeases(s: State, s': State) {
    && s'.entries == s.entries && s'.owners == s.owners
    && s.leases.Keys <= s'.leases.Keys && s.usedIds <= s'.usedIds
    && (forall id :: id in s'.leases && id !in s.leases ==> id !in s.usedIds && id in s'.usedIds)
    && (forall id :: id in s.leases && id in s.usedIds ==>
          && s'.leases[id].result == s.leases[id].result && s'.leases[id].keys == s.leases[id].keys
          && s'.leases[id].pins == s.leases[id].pins && s'.leases[id].recovered == s.leases[id].recovered)
  }

  lemma GrantLeases(s: State, e: Event)
    requires Enabled(s, e) && (e.Grant? || e.GrantTorn?)
    ensures KeepsLeases(s, Step(s, e))
  {
    if e.Grant? {
      var seeded := Seeded(s, e.server, e.id, e.ttl, e.drain);
      ScheduleEffect(seeded, e.id, Later(seeded.clock, seeded.leases[e.id].result.expiresAt), false);
    }
  }

  lemma TimerEventLeases(s: State, e: Event)
    requires Enabled(s, e) && (e.RetryLater? || e.TimerLapse? || e.TimerRetry? || e.TimerRearm?)
    ensures KeepsLeases(s, Step(s, e))
  {
    if e.RetryLater? {
      ScheduleEffect(s, e.id, s.clock + RETRY_DELAY, true);
    } else if e.TimerRetry? {
      ScheduleEffect(s, e.t.hold, s.clock + RETRY_DELAY, s.timers[e.t].retirement);
    } else if e.TimerRearm? {
      ScheduleEffect(s, e.t.hold, Later(s.clock, s.leases[e.t.hold].result.expiresAt), false);
    }
  }

  lemma OtherEventLeases(s: State, e: Event)
    requires Enabled(s, e) && !RegistryEvent(e) && !CommitEvent(e)
    ensures KeepsLeases(s, Step(s, e))
  {
    if e.Grant? || e.GrantTorn? {
      GrantLeases(s, e);
    } else if LifecycleEvent(e) {
      LifecycleEffect(s, e);
    } else {
      TimerEventLeases(s, e);
    }
  }

  /**
   The clock discipline of one step. A lease that stays keeps its scope and its drain deadline,
   and its expiry moves only by a renewal accepted before expiry. A lease that leaves had every
   tree proven retired, and left by an explicit resume or at or after its expiry.
   */
  ghost predicate LeaseDiscipline(s: State, e: Event, s': State, id: HoldId)
    requires id in s.leases
  {
    var lease := s.leases[id];
    if id in s'.leases then
      && s'.leases[id].keys == lease.keys && s'.leases[id].pins == lease.pins
      && s'.leases[id].recovered == lease.recovered
      && s'.leases[id].result.serverId == lease.result.serverId
      && s'.leases[id].result.drainDeadline == lease.result.drainDeadline
      && (s'.leases[id].result.expiresAt != lease.result.expiresAt ==>
            e.Renew? && e.id == id && s.clock < lease.result.expiresAt
              && s'.leases[id].result.expiresAt == s.clock + e.ttl)
      && (s'.leases[id].result.state == Held && lease.result.state != Held ==>
        e == Finish(id) && TreesRetired(s.entries, lease))
    else
      && TreesRetired(s.entries, lease)
      && (e == Resume(id) || lease.result.expiresAt <= s.clock)
  }

  /** What any commit of a published result does to the lease it names. */
  ghost predicate Moved(was: Lease, result: Result, s': State, id: HoldId) {
    if result.state == Released then
      id !in s'.leases
    else
      id in s'.leases && s'.leases[id] == was.(result := result, timer := s'.leases[id].timer,
                                               serial := s'.leases[id].serial, retirementRetry :=
                                                 s'.leases[id].retirementRetry)
  }

  lemma CommitMoves(s: State, id: HoldId, result: Result)
    requires id in s.leases
    ensures Moved(s.leases[id], result, Commit(s, id, result), id)
  {
  }

  lemma MovedDiscipline(s: State, e: Event, s': State)
    requires Enabled(s, e) && CommitEvent(e) && e.id in s.leases && Moved(s.leases[e.id], Published(s, e), s', e.id)
    requires s.leases[e.id].result.state != Released
    requires s.leases[e.id].result.state == Held ==> TreesRetired(s.entries, s.leases[e.id])
    ensures LeaseDiscipline(s, e, s', e.id)
  {
  }

  lemma {:induction false} CommitDiscipline(s: State, e: Event, id: HoldId)
    requires Inv(s) && Enabled(s, e) && CommitEvent(e) && e.id in s.leases && id in s.leases
    ensures LeaseDiscipline(s, e, Commit(s, e.id, Published(s, e)), id)
  {
    if id == e.id {
      CommitMoves(s, id, Published(s, e));
      MovedDiscipline(s, e, Commit(s, e.id, Published(s, e)));
    } else {
      CommitEffect(s, e.id, Published(s, e));
    }
  }

  lemma OtherDiscipline(s: State, e: Event, id: HoldId)
    requires Inv(s) && Enabled(s, e) && !RegistryEvent(e) && !CommitEvent(e) && id in s.leases
    ensures LeaseDiscipline(s, e, Step(s, e), id)
  {
    OtherEventLeases(s, e);
  }

  lemma {:induction false} LeaseDisciplineStep(s: State, e: Event, id: HoldId)
    requires Inv(s) && Enabled(s, e) && id in s.leases
    ensures LeaseDiscipline(s, e, Step(s, e), id)
  {
    if RegistryEvent(e) {
      RegistryEffect(s, e);
    } else if CommitEvent(e) {
      CommitEventStep(s, e);
      CommitDiscipline(s, e, id);
    } else {
      OtherDiscipline(s, e, id);
    }
  }

  /** Every step of every run obeys the discipline on every lease it finds. */
  lemma {:induction false} LeaseClockDiscipline(s: State, run: seq<Event>, id: HoldId)
    requires Init(s) && Valid(s, run) && run != [] && id in Run(s, run[..|run| - 1]).leases
    ensures LeaseDiscipline(Run(s, run[..|run| - 1]), run[|run| - 1], Run(s, run), id)
  {
    var front := run[..|run| - 1];
    InitInv(s);
    RunInv(s, front);
    LeaseDisciplineStep(Run(s, front), run[|run| - 1], id);
  }

  // ----- The fence while a lease lives -----

  /** Nothing joins the keys, nothing on them is promoted, and no tree on them starts. */
  ghost predicate Frozen(keys: set<Key>, s: State, s': State) {
    forall ref :: ref in s'.entries && s'.entries[ref].contexts * keys != {} ==>
      && ref in s.entries
      && s'.entries[ref].contexts == s.entries[ref].contexts
      && (s'.entries[ref].tree ==> s.entries[ref].tree)
      && (s'.entries[ref].hasOwner ==> s.entries[ref].hasOwner)
  }

  /** A context write outside every fence touches no entry that meets the lease. */
  lemma FrozenWrite(s: State, ref: Ref, entry: Entry, id: HoldId)
    requires id in s.leases && OpenAll(s, entry.contexts)
    ensures Frozen(s.leases[id].keys, s, SetEntry(s, ref, entry))
  {
    OpenMeetsNoLease(s, entry.contexts, id);
  }

  lemma FrozenContext(s: State, e: Event, id: HoldId)
    requires Inv(s) && Enabled(s, e) && id in s.leases
    requires e.Reserve? || e.Restore? || e.Materialize? || e.Promote?
    ensures Frozen(s.leases[id].keys, s, Step(s, e))
  {
    var entry := Step(s, e).entries[e.ref];
    assert OpenAll(s, entry.contexts);
    FrozenWrite(s, e.ref, entry, id);
  }

  lemma FrozenAdmitEnd(s: State, e: Event, id: HoldId)
    requires Inv(s) && Enabled(s, e) && id in s.leases && e.AdmitEnd?
    ensures Frozen(s.leases[id].keys, s, Step(s, e))
  {
    var admission := Admission(e.ref, e.key);
    assert admission in s.admitting && admission.entry in s.entries;
    if e.admitted {
      FrozenWrite(s, e.ref, s.entries[e.ref].(contexts := s.entries[e.ref].contexts + {e.key}), id);
    }
  }

  lemma FrozenDeparture(s: State, e: Event, id: HoldId)
    requires Enabled(s, e) && id in s.leases
      && (e.Discard? || e.Remove? || e.ShutdownForgets? || e.Retire? || e.TreeExits? || e.AdmitBegin?)
    ensures Frozen(s.leases[id].keys, s, Step(s, e))
  {
  }

  lemma {:induction false} FrozenRegistry(s: State, e: Event, id: HoldId)
    requires Inv(s) && Enabled(s, e) && id in s.leases && RegistryEvent(e)
    ensures Frozen(s.leases[id].keys, s, Step(s, e))
  {
    if e.Reserve? || e.Restore? || e.Materialize? || e.Promote? {
      FrozenContext(s, e, id);
    } else if e.AdmitEnd? {
      FrozenAdmitEnd(s, e, id);
    } else {
      FrozenDeparture(s, e, id);
    }
  }

  lemma {:induction false} FrozenStep(s: State, e: Event, id: HoldId)
    requires Inv(s) && Enabled(s, e) && id in s.leases
    ensures Frozen(s.leases[id].keys, s, Step(s, e))
  {
    if RegistryEvent(e) {
      FrozenRegistry(s, e, id);
    } else if CommitEvent(e) {
      CommitEventStep(s, e);
      CommitEffect(s, e.id, Published(s, e));
    } else {
      OtherEventLeases(s, e);
    }
  }

  lemma {:induction false} GoneStaysGone(s: State, e: Event, id: HoldId)
    requires Enabled(s, e) && id in s.usedIds && id !in s.leases
    ensures id in Step(s, e).usedIds && id !in Step(s, e).leases
  {
    if RegistryEvent(e) {
      RegistryEffect(s, e);
    } else if CommitEvent(e) {
      CommitEventStep(s, e);
      CommitEffect(s, e.id, Published(s, e));
    } else {
      OtherEventLeases(s, e);
    }
  }

  /** A hold identity that has been used and is gone never names a lease again. */
  lemma {:induction false} ReleasedNeverReturns(s: State, run: seq<Event>, id: HoldId)
    requires Valid(s, run) && id in s.usedIds && id !in s.leases
    ensures id in Run(s, run).usedIds && id !in Run(s, run).leases
    decreases |run|
  {
    if run != [] {
      ReleasedNeverReturns(s, run[..|run| - 1], id);
      GoneStaysGone(Run(s, run[..|run| - 1]), run[|run| - 1], id);
    }
  }

  lemma {:induction false} UsedStaysUsed(s: State, run: seq<Event>)
    requires Valid(s, run)
    ensures s.usedIds <= Run(s, run).usedIds
    decreases |run|
  {
    if run != [] {
      var front, last := run[..|run| - 1], run[|run| - 1];
      UsedStaysUsed(s, front);
      if RegistryEvent(last) {
        RegistryEffect(Run(s, front), last);
      } else if CommitEvent(last) {
        CommitEventStep(Run(s, front), last);
        CommitEffect(Run(s, front), last.id, Published(Run(s, front), last));
      } else {
        OtherEventLeases(Run(s, front), last);
      }
    }
  }

  /**
   Over any stretch of a run at whose two ends a lease is in the map, in whatever state, the
   lease's scope only shrinks: no admission, materialization, reservation, restore or promotion
   on its keys took effect.
   */
  lemma {:induction false} FenceHolds(s: State, run: seq<Event>, id: HoldId)
    requires Inv(s) && Valid(s, run) && id in s.leases && id in Run(s, run).leases
    ensures Run(s, run).leases[id].keys == s.leases[id].keys && Run(s, run).leases[id].pins == s.leases[id].pins
    ensures Run(s, run).leases[id].recovered == s.leases[id].recovered
    ensures Frozen(s.leases[id].keys, s, Run(s, run))
    decreases |run|
  {
    if run != [] {
      var front, last := run[..|run| - 1], run[|run| - 1];
      var mid := Run(s, front);
      if id !in mid.leases {
        UsedStaysUsed(s, front);
        GoneStaysGone(mid, last, id);
      } else {
        FenceHolds(s, front, id);
        RunInv(s, front);
        FrozenStep(mid, last, id);
        LeaseDisciplineStep(mid, last, id);
      }
    }
  }

  /**
   HELD also speaks for the owners that a hold drained and removed: every entry that was
   registered and met the lease when it was granted has no live tree once the lease is HELD,
   registered or not, and if it was or became an owner, that owner proved its retirement.
   */
  lemma HeldMeansCapturedRetired(s: State, server: ServerId, id: HoldId, ttl: int, drain: int, run: seq<Event>,
      ref: Ref)
    requires Inv(s) && Enabled(s, Grant(server, id, ttl, drain))
    requires Valid(Step(s, Grant(server, id, ttl, drain)), run)
    requires var now := Run(Step(s, Grant(server, id, ttl, drain)), run);
                id in now.leases && now.leases[id].result.state == Held
    requires Registered(s, ref) && s.entries[ref].contexts * s.entries[s.owners[server]].contexts != {}
    ensures var now := Run(Step(s, Grant(server, id, ttl, drain)), run);
            && ref in now.entries && !now.entries[ref].tree
            && (now.entries[ref].hasOwner ==> now.entries[ref].retired)
            && (s.entries[ref].creating ==> !now.entries[ref].creating)
  {
    var granted := Step(s, Grant(server, id, ttl, drain));
    StepInv(s, Grant(server, id, ttl, drain));
    GrantCaptures(s, server, id, ttl, drain, ref);
    FenceHolds(granted, run, id);
    RunInv(granted, run);
    HeldIsProven(Run(granted, run), id);
    PinIsRetired(Run(granted, run), id, PinOf(s, ref));
  }

  lemma GrantCaptures(s: State, server: ServerId, id: HoldId, ttl: int, drain: int, ref: Ref)
    requires Enabled(s, Grant(server, id, ttl, drain)) && Registered(s, ref)
    requires s.entries[ref].contexts * s.entries[s.owners[server]].contexts != {}
    ensures var granted := Step(s, Grant(server, id, ttl, drain));
            id in granted.leases && PinOf(s, ref) in granted.leases[id].pins && !granted.leases[id].recovered
  {
    assert PinOf(s, ref) in CapturedPins(s, s.entries[s.owners[server]].contexts);
  }

  lemma PinIsRetired(s: State, id: HoldId, pin: Pin)
    requires EntriesOk(s) && id in s.leases && !s.leases[id].recovered && pin in s.leases[id].pins
      && TreesRetired(s.entries, s.leases[id])
    ensures pin.entry in s.entries && !s.entries[pin.entry].tree
      && (s.entries[pin.entry].hasOwner ==> s.entries[pin.entry].retired)
    ensures pin.waits ==> !s.entries[pin.entry].creating
  {
    assert Settled(s.entries, pin);
  }

  // ----- Every tree on the keys, registered or not -----

  /** Every live tree belongs to a registered owner. */
  ghost predicate TreesRegistered(s: State) {
    forall ref :: ref in s.entries && s.entries[ref].tree ==> Registered(s, ref)
  }

  /**
   A reservation that takes the identity of an owner whose tree lives. A spawn in `cwd` mode can do
   this: it leaves the lock while it looks for an owner to share, and reserves without looking again.
   */
  predicate Displaces(s: State, e: Event) {
    && e.Reserve? && e.identity.serverId in s.owners
    && s.owners[e.identity.serverId] in s.entries && s.entries[s.owners[e.identity.serverId]].tree
  }

  /** Such a reservation is the only step that leaves a live tree without a registered owner, and it always does. */
  lemma TreesStep(s: State, e: Event)
    requires EntriesOk(s) && TreesRegistered(s) && Enabled(s, e)
    ensures TreesRegistered(Step(s, e)) <==> !Displaces(s, e)
  {
    if e.Reserve? {
      ReserveTrees(s, e);
    } else if RegistryEvent(e) {
      RegistryTrees(s, e);
    } else if CommitEvent(e) {
      CommitEventStep(s, e);
      CommitEffect(s, e.id, Published(s, e));
      RegisteredKept(s, Step(s, e));
    } else {
      OtherEventLeases(s, e);
      RegisteredKept(s, Step(s, e));
    }
  }

  lemma ReserveTrees(s: State, e: Event)
    requires EntriesOk(s) && TreesRegistered(s) && Enabled(s, e) && e.Reserve?
    ensures TreesRegistered(Step(s, e)) <==> !Displaces(s, e)
  {
    var s' := Step(s, e);
    if Displaces(s, e) {
      var lost := s.owners[e.identity.serverId];
      assert lost in s'.entries && s'.entries[lost].tree && !Registered(s', lost);
    } else {
      forall ref | ref in s'.entries && s'.entries[ref].tree
        ensures Registered(s', ref)
      {
        assert Registered(s, ref);
      }
    }
  }

  lemma DepartureTrees(s: State, e: Event)
    requires EntriesOk(s) && TreesRegistered(s) && Enabled(s, e)
    requires e.Discard? || e.Remove? || e.ShutdownForgets? || e.Restore?
    ensures TreesRegistered(Step(s, e))
  {
    var s' := Step(s, e);
    forall ref | ref in s'.entries && s'.entries[ref].tree
      ensures Registered(s', ref)
    {
      assert ref in s.entries && s.entries[ref].tree ==> Registered(s, ref);
    }
  }

  lemma RegistryTrees(s: State, e: Event)
    requires EntriesOk(s) && TreesRegistered(s) && Enabled(s, e) && RegistryEvent(e) && !e.Reserve?
    ensures TreesRegistered(Step(s, e))
  {
    if e.Discard? || e.Remove? || e.ShutdownForgets? || e.Restore? {
      DepartureTrees(s, e);
    } else {
      StandingTrees(s, e);
    }
  }

  lemma StandingTrees(s: State, e: Event)
    requires EntriesOk(s) && TreesRegistered(s) && Enabled(s, e)
    requires e.AdmitBegin? || e.AdmitEnd? || e.Materialize? || e.Promote? || e.Retire? || e.TreeExits?
    ensures TreesRegistered(Step(s, e))
  {
    var s' := Step(s, e);
    assert s'.owners == s.owners;
    forall ref | ref in s'.entries && s'.entries[ref].tree
      ensures Registered(s', ref)
    {
      assert ref in s.entries && s'.entries[ref].identity == s.entries[ref].identity;
      assert s.entries[ref].tree ==> Registered(s, ref);
    }
  }

  /** No reservation of the run displaces an owner whose tree lives. */
  ghost predicate Undisplaced(s: State, run: seq<Event>)
    requires Valid(s, run)
    decreases |run|
  {
    run != [] ==> Undisplaced(s, run[..|run| - 1]) && !Displaces(Run(s, run[..|run| - 1]), run[|run| - 1])
  }

  lemma {:induction false} TreesStayRegistered(s: State, run: seq<Event>)
    requires Inv(s) && TreesRegistered(s) && Valid(s, run) && Undisplaced(s, run)
    ensures TreesRegistered(Run(s, run))
    decreases |run|
  {
    if run != [] {
      var front := run[..|run| - 1];
      TreesStayRegistered(s, front);
      RunInv(s, front);
      TreesStep(Run(s, front), run[|run| - 1]);
    }
  }

  /**
   While a lease is HELD no entry that shares a context with it has a live tree: registered or
   removed, captured at the grant or not.
   */
  lemma {:induction false} HeldMeansNoTree(s: State, run: seq<Event>, id: HoldId, ref: Ref)
    requires Init(s) && Valid(s, run) && Undisplaced(s, run)
    requires var now := Run(s, run);
             && id in now.leases && now.leases[id].result.state == Held
             && ref in now.entries && Overlaps(now.leases[id], now.entries[ref])
    ensures !Run(s, run).entries[ref].tree
  {
    InitInv(s);
    TreesStayRegistered(s, run);
    if Run(s, run).entries[ref].tree {
      HeldMeansRetired(s, run, id, ref);
    }
  }

  // ----- Who can be held -----

  /**
   A hold on a server can be granted exactly if nothing in the daemon forbids it, its owner knows
   all its contexts, every owner of the same command does, every owner that shares a context lies
   inside its contexts, and no lease has the server or any of the contexts.
   */
  lemma GrantableExactly(s: State, server: ServerId, id: HoldId, ttl: int, drain: int)
    requires EntriesOk(s) && s.admitting == {} && ExactId(server) && ExactId(id) && id !in s.usedIds
    requires 0 < ttl && 0 <= drain
    ensures Grantable(s, server, id, ttl, drain) <==>
              && !s.failed && !s.shuttingDown && server in s.owners
              && var selected := s.entries[s.owners[server]];
              && selected.contexts != {} && !selected.incomplete
              && (forall sid :: sid in s.owners ==>
                    var other := s.entries[s.owners[sid]];
                    && (other.command == selected.command ==> other.contexts != {} && !other.incomplete)
                    && (other.contexts * selected.contexts != {} ==> other.contexts <= selected.contexts))
              && (forall other :: other in s.leases ==>
                    s.leases[other].result.serverId != server && s.leases[other].keys !! selected.contexts)
  {
    if server in s.owners {
      var ref := s.owners[server];
      assert Registered(s, ref);
      assert forall sid :: sid in s.owners ==> Registered(s, s.owners[sid]);
      UnfencedExactly(s, s.entries[ref].contexts);
      SelectableExactly(s, ref);
    }
  }

  lemma UnfencedExactly(s: State, keys: set<Key>)
    ensures (forall key :: key in keys ==> !Fenced(s, key)) <==>
      (forall id :: id in s.leases ==> s.leases[id].keys !! keys)
  {
    if forall key :: key in keys ==> !Fenced(s, key) {
      forall id | id in s.leases
        ensures s.leases[id].keys !! keys
      {
        assert forall key :: key in s.leases[id].keys ==> Fenced(s, key);
      }
    } else {
      var key :| key in keys && Fenced(s, key);
      var id :| id in s.leases && key in s.leases[id].keys;
      assert key in s.leases[id].keys * keys;
    }
  }

  lemma SelectableExactly(s: State, ref: Ref)
    requires EntriesOk(s) && Registered(s, ref)
    ensures Selectable(s, ref) <==>
              && s.entries[ref].contexts != {} && !s.entries[ref].incomplete
              && forall sid :: sid in s.owners ==>
                   var other := s.entries[s.owners[sid]];
                   && (other.command == s.entries[ref].command ==> other.contexts != {} && !other.incomplete)
                   && (other.contexts * s.entries[ref].contexts != {} ==> other.contexts <= s.entries[ref].contexts)
  {
    assert forall sid :: sid in s.owners ==> Registered(s, s.owners[sid]);
    assert forall other :: other in s.entries && Registered(s, other) ==>
      s.entries[other].identity.serverId in s.owners;
  }

  // ----- Recovered leases -----

  /** A recovered lease that was not durably HELD has no process authority: nothing makes it HELD or releases it. */
  lemma RecoveredStep(s: State, e: Event, id: HoldId)
    requires Inv(s) && Enabled(s, e) && id in s.leases
    requires s.leases[id].recovered && s.leases[id].result.state == RetirementBlocked
    ensures var s' := Step(s, e);
            id in s'.leases && s'.leases[id].recovered && s'.leases[id].result.state == RetirementBlocked
  {
    if RegistryEvent(e) {
      RegistryEffect(s, e);
    } else if CommitEvent(e) {
      CommitEventStep(s, e);
      CommitEffect(s, e.id, Published(s, e));
    } else {
      OtherEventLeases(s, e);
    }
  }

  lemma {:induction false} RecoveredStaysBlocked(s: State, run: seq<Event>, id: HoldId)
    requires Inv(s) && Valid(s, run) && id in s.leases
    requires s.leases[id].recovered && s.leases[id].result.state == RetirementBlocked
    ensures var now := Run(s, run);
            id in now.leases && now.leases[id].recovered && now.leases[id].result.state == RetirementBlocked
    decreases |run|
  {
    if run != [] {
      var front := run[..|run| - 1];
      RecoveredStaysBlocked(s, front, id);
      RunInv(s, front);
      RecoveredStep(Run(s, front), run[|run| - 1], id);
    }
  }
}
