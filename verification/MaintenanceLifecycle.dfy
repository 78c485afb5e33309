/** Shutdown, restart and expiry timers: what keeps them apart from live leases, and when. */
module MaintenanceLifecycle {
  import opened Options
  import opened MaintenanceModel
  import opened MaintenanceInvariant
  import opened MaintenanceTheorems

  // ----- The failure latch -----

  /** Requests that need the latch clear: admissions, holds, renewals, releases and lifecycle grants. */
  predicate NeedsClearLatch(e: Event) {
    || e.Reserve? || e.Promote? || e.AdmitBegin? || e.AdmitEnd? || e.Materialize? || e.Restore?
    || e.Grant? || e.GrantTorn? || e.Renew? || e.Resume? || e.Expire? || e.RetryLater? || e.TimerRetry? || e.TimerRearm?
    || e.BeginShutdown? || e.BeginRestart?
  }

  lemma LatchStays(s: State, e: Event)
    requires Enabled(s, e) && s.failed
    ensures Step(s, e).failed
  {
    if CommitEvent(e) {
      CommitEventStep(s, e);
      CommitEffect(s, e.id, Published(s, e));
    }
  }

  lemma LatchRefuses(s: State, e: Event)
    requires AdmittingOk(s) && Enabled(s, e) && NeedsClearLatch(e)
    ensures !s.failed
  {
    if e.AdmitEnd? {
      assert Admission(e.ref, e.key) in s.admitting;
    } else if e.Restore? {
      var key :| key in e.contexts;
      assert Open(s, key);
    }
  }

  /** Once latched, for the rest of the run: the latch stays, and every such request is refused. */
  lemma {:induction false} LatchIsForever(s: State, run: seq<Event>)
    requires Inv(s) && Valid(s, run) && s.failed
    ensures Run(s, run).failed
    ensures forall e :: e in run ==> !NeedsClearLatch(e)
    decreases |run|
  {
    if run != [] {
      var front, last := run[..|run| - 1], run[|run| - 1];
      LatchIsForever(s, front);
      RunInv(s, front);
      LatchStays(Run(s, front), last);
      if NeedsClearLatch(last) {
        LatchRefuses(Run(s, front), last);
      }
      assert run == front + [last];
    }
  }

  // ----- Shutting down against live leases -----

  /** The daemon is shutting down: the flag shows it, or the shutdown's body runs or has run. */
  predicate Stopping(s: State) {
    s.shuttingDown || !s.stop.Serving?
  }

  predicate Exclusive(s: State) {
    Stopping(s) ==> s.leases == map[]
  }

  /** No shutdown has been granted or run. */
  predicate Quiet(s: State) {
    s.grants == 0 && s.stop.Serving?
  }

  /** When a restart abort is harmless. */
  predicate AbortSafe(s: State) {
    Quiet(s) || s.failed
  }

  /**
   Exclusion together with what keeps it: a shutdown granted or run shows the flag, or nothing can be
   held any more.
   */
  predicate LifecycleOk(s: State) {
    && (Stopping(s) || !Quiet(s) ==> s.leases == map[])
    && (!Quiet(s) ==> s.shuttingDown || s.failed)
  }

  /** Restarts abort only while no shutdown has been granted or run, or after the latch. */
  ghost predicate Disciplined(s: State, run: seq<Event>)
    requires Valid(s, run)
    decreases |run|
  {
    run != [] ==>
      && Disciplined(s, run[..|run| - 1])
      && (run[|run| - 1].AbortRestart? ==> AbortSafe(Run(s, run[..|run| - 1])))
  }

  lemma LifecycleStep(s: State, e: Event)
    requires LifecycleOk(s) && Enabled(s, e) && (e.AbortRestart? ==> AbortSafe(s))
    ensures LifecycleOk(Step(s, e))
  {
    if RegistryEvent(e) {
      RegistryEffect(s, e);
    } else if CommitEvent(e) {
      CommitEventStep(s, e);
      CommitEffect(s, e.id, Published(s, e));
    }
  }

  /** No disciplined run shows a shutdown and a live lease together. */
  lemma {:induction false} DisciplinedRunsExclude(s: State, run: seq<Event>)
    requires LifecycleOk(s) && Valid(s, run) && Disciplined(s, run)
    ensures LifecycleOk(Run(s, run)) && Exclusive(Run(s, run))
    decreases |run|
  {
    if run != [] {
      DisciplinedRunsExclude(s, run[..|run| - 1]);
      LifecycleStep(Run(s, run[..|run| - 1]), run[|run| - 1]);
    }
  }

  /** Every disciplined future keeps shutdowns and live leases apart. */
  ghost predicate StaysExclusive(s: State) {
    forall run :: Valid(s, run) && Disciplined(s, run) ==> Exclusive(Run(s, run))
  }

  // ----- After an abort that was not safe, something breaks -----

  /** Ends every admission in flight without admitting anything. */
  lemma {:induction false} EndAdmissions(s: State) returns (run: seq<Event>)
    ensures Valid(s, run) && Run(s, run) == s.(admitting := {}) && NoAborts(run)
    decreases |s.admitting|
  {
    run := [];
    if s.admitting == {} {
      assert s == s.(admitting := {});
    } else {
      var a :| a in s.admitting;
      var next := s.(admitting := s.admitting - {a});
      var rest := EndAdmissions(next);
      run := EndFirst(s, a, next, rest);
    }
  }

  lemma EndFirst(s: State, a: Admission, next: State, rest: seq<Event>) returns (run: seq<Event>)
    requires a in s.admitting && next == s.(admitting := s.admitting - {a}) && Valid(next, rest) && NoAborts(rest)
    ensures Valid(s, run) && Run(s, run) == Run(next, rest) && NoAborts(run)
  {
    var e := AdmitEnd(a.entry, a.key, false);
    assert a == Admission(a.entry, a.key) && Step(s, e) == next;
    RunOfOne(s, e);
    RunConcat(s, next, [e], rest);
    run := [e] + rest;
    assert forall x :: x in run ==> x == e || x in rest;
  }

  predicate NoAborts(run: seq<Event>) {
    forall e :: e in run ==> !e.AbortRestart?
  }

  lemma {:induction false} NoAbortsIsDisciplined(s: State, run: seq<Event>)
    requires Valid(s, run) && NoAborts(run)
    ensures Disciplined(s, run)
    decreases |run|
  {
    if run != [] {
      var front := run[..|run| - 1];
      assert forall e :: e in front ==> e in run;
      NoAbortsIsDisciplined(s, front);
      assert run[|run| - 1] in run;
    }
  }

  /** A name longer than every one in use. */
  lemma {:induction false} FreshName(used: set<string>) returns (name: string)
    ensures name !in used && ExactId(name) && forall u :: u in used ==> |u| < |name|
  {
    name := "a";
    if used != {} {
      var u :| u in used;
      var rest := FreshName(used - {u});
      name := rest + u + "a";
      assert forall w :: w in used ==> w == u || w in used - {u};
    }
  }

  lemma {:induction false} FreshRef(used: set<Ref>) returns (ref: Ref)
    ensures forall u :: u in used ==> u < ref
  {
    ref := 0;
    if used != {} {
      var u :| u in used;
      var rest := FreshRef(used - {u});
      ref := rest + u + 1;
      assert forall w :: w in used ==> w == u || w in used - {u};
    }
  }

  /** Names no entry, owner or lease of the state uses. */
  datatype Fresh = Fresh(ref: Ref, server: ServerId, command: string, key: Key, id: HoldId)

  ghost predicate Unused(s: State, f: Fresh) {
    && f.ref !in s.entries && f.server !in s.owners && ExactId(f.server) && f.id !in s.usedIds && ExactId(f.id)
    && forall ref :: ref in s.entries ==> s.entries[ref].command != f.command && f.key !in s.entries[ref].contexts
  }

  lemma PickFresh(s: State) returns (f: Fresh)
    ensures Unused(s, f)
  {
    var ref := FreshRef(s.entries.Keys);
    var server := FreshName(s.owners.Keys);
    var command := FreshName(set r | r in s.entries :: s.entries[r].command);
    var key := FreshName(set r, k | r in s.entries && k in s.entries[r].contexts :: k);
    var id := FreshName(s.usedIds);
    f := Fresh(ref, server, command, key, id);
    forall r | r in s.entries
      ensures s.entries[r].command != command && key !in s.entries[r].contexts
    {
      assert s.entries[r].command in (set q | q in s.entries :: s.entries[q].command);
      assert forall k :: k in s.entries[r].contexts ==>
        k in (set q, j | q in s.entries && j in s.entries[q].contexts :: j);
    }
  }

  /** A fresh owner served and promoted. */
  function Served(s: State, f: Fresh): State {
    s.(entries :=
      s.entries[f.ref := Entry(Identity(f.server, "g"), f.command, {f.key}, false, true, false, false, false)],
       owners := s.owners[f.server := f.ref])
  }

  ghost predicate OpenForHolds(s: State) {
    s.admitting == {} && !s.failed && !s.shuttingDown && s.leases == map[] && EntriesOk(s)
  }

  lemma ServeFresh(s: State, f: Fresh)
    requires OpenForHolds(s) && Unused(s, f)
    ensures var run := [Reserve(f.ref, Identity(f.server, "g"), f.command, f.key), Promote(f.ref, f.key)];
            Valid(s, run) && Run(s, run) == Served(s, f)
  {
    var reserve, promote := Reserve(f.ref, Identity(f.server, "g"), f.command, f.key), Promote(f.ref, f.key);
    var placed := Step(s, reserve);
    assert placed.entries[f.ref].contexts == {f.key} && Registered(placed, f.ref) && Open(placed, f.key);
    assert placed.entries[f.ref := placed.entries[f.ref].(hasOwner := true, creating := false)] == Served(s, f).entries;
    assert Step(placed, promote) == Served(s, f);
    RunOfOne(s, reserve);
    RunSnoc(s, [reserve], promote);
    assert [reserve] + [promote] == [reserve, promote];
  }

  lemma ServedCanBeHeld(s: State, f: Fresh)
    requires OpenForHolds(s) && Unused(s, f)
    ensures Enabled(Served(s, f), Grant(f.server, f.id, 1, 0))
  {
    var served := Served(s, f);
    assert Registered(served, f.ref);
    forall other | other in served.entries && Registered(served, other)
      ensures !(served.entries[other].command == f.command && Ambiguous(served.entries[other]))
      ensures served.entries[other].contexts * {f.key} != {} ==> served.entries[other].contexts <= {f.key}
    {
      assert other != f.ref ==> other in s.entries && served.entries[other] == s.entries[other];
    }
    assert Selectable(served, f.ref);
  }

  /** From any state that is open for holds while a shutdown is granted or runs, a lease can meet that shutdown. */
  lemma HoldMeetsShutdown(s: State) returns (run: seq<Event>)
    requires OpenForHolds(s) && !Quiet(s)
    ensures Valid(s, run) && NoAborts(run) && !Exclusive(Run(s, run))
  {
    var f := PickFresh(s);
    var held;
    run, held := HoldFresh(s, f);
    if s.stop.Serving? {
      RunSnoc(s, run, RunShutdown);
      run := run + [RunShutdown];
    }
  }

  lemma HoldFresh(s: State, f: Fresh) returns (run: seq<Event>, held: State)
    requires OpenForHolds(s) && Unused(s, f)
    ensures Valid(s, run) && NoAborts(run) && Run(s, run) == held
    ensures held.leases != map[] && held.stop == s.stop && held.grants == s.grants
  {
    var grant := Grant(f.server, f.id, 1, 0);
    ServeFresh(s, f);
    ServedCanBeHeld(s, f);
    run := [Reserve(f.ref, Identity(f.server, "g"), f.command, f.key), Promote(f.ref, f.key)];
    GrantAddsLease(Served(s, f), f.server, f.id, 1, 0);
    RunSnoc(s, run, grant);
    held := Step(Served(s, f), grant);
    run := run + [grant];
  }

  lemma GrantAddsLease(s: State, server: ServerId, id: HoldId, ttl: int, drain: int)
    requires Enabled(s, Grant(server, id, ttl, drain))
    ensures var s' := Step(s, Grant(server, id, ttl, drain));
                id in s'.leases && s'.grants == s.grants && s'.stop == s.stop
  {
  }

  /** After an unsafe abort some future that aborts nothing more shows a shutdown over a live lease. */
  lemma UnsafeAbortBreaks(s: State) returns (run: seq<Event>)
    requires Inv(s) && LifecycleOk(s) && Enabled(s, AbortRestart) && !AbortSafe(s)
    ensures var s' := Step(s, AbortRestart); Valid(s', run) && Disciplined(s', run) && !Exclusive(Run(s', run))
  {
    var s' := Step(s, AbortRestart);
    StepInv(s, AbortRestart);
    run := EndAdmissions(s');
    var calm := s'.(admitting := {});
    RunInv(s', run);
    var tail := HoldMeetsShutdown(calm);
    RunConcat(s', calm, run, tail);
    run := run + tail;
    NoAbortsIsDisciplined(s', run);
  }

  /**
   The condition is exact: from a sound state, every disciplined future after a restart abort
   keeps shutdowns and live leases apart if and only if no shutdown had been granted or run at
   the abort, or the latch was set.
   */
  lemma AbortIsSafeExactly(s: State)
    requires Inv(s) && LifecycleOk(s) && Enabled(s, AbortRestart)
    ensures StaysExclusive(Step(s, AbortRestart)) <==> AbortSafe(s)
  {
    var s' := Step(s, AbortRestart);
    if AbortSafe(s) {
      LifecycleStep(s, AbortRestart);
      forall run | Valid(s', run) && Disciplined(s', run)
        ensures Exclusive(Run(s', run))
      {
        DisciplinedRunsExclude(s', run);
      }
    } else {
      var run := UnsafeAbortBreaks(s);
    }
  }

  // ----- Counterexamples from a cold start -----

  /** A cold daemon, and one with a restart in progress and a granted shutdown, which may run already. */
  function ColdDaemon(): State {
    State(map[], false, false, map[], map[], {}, map[], {}, 1, 0, 0, Serving)
  }

  function RacingDaemon(running: bool): State {
    var racing := ColdDaemon().(shuttingDown := true, restarts := 1);
    if running then racing.(stop := Finalizing) else racing.(grants := 1)
  }

  lemma RacingDaemonIsReachable(running: bool) returns (run: seq<Event>)
    ensures Init(ColdDaemon()) && Valid(ColdDaemon(), run) && Run(ColdDaemon(), run) == RacingDaemon(running)
  {
    var restarting := ColdDaemon().(shuttingDown := true, restarts := 1);
    RunOfOne(ColdDaemon(), BeginRestart);
    assert Run(ColdDaemon(), [BeginRestart]) == restarting;
    RunSnoc(ColdDaemon(), [BeginRestart], BeginShutdown);
    run := [BeginRestart] + [BeginShutdown];
    assert Run(ColdDaemon(), run) == RacingDaemon(false);
    if running {
      run := RunTheShutdown(run);
    }
  }

  lemma RunTheShutdown(front: seq<Event>) returns (run: seq<Event>)
    requires Valid(ColdDaemon(), front) && Run(ColdDaemon(), front) == RacingDaemon(false)
    ensures Valid(ColdDaemon(), run) && Run(ColdDaemon(), run) == RacingDaemon(true)
  {
    RunSnoc(ColdDaemon(), front, RunShutdown);
    run := front + [RunShutdown];
  }

  /**
   Exclusion fails on runs of the code's own steps: a restart aborts over a shutdown that is
   granted, or that has raised its flag and is still finalizing owners, and a hold follows.
   */
  lemma ExclusionCounterexample(running: bool) returns (run: seq<Event>)
    ensures Init(ColdDaemon()) && Valid(ColdDaemon(), run) && !Exclusive(Run(ColdDaemon(), run))
  {
    var s := RacingDaemon(running);
    run := RacingDaemonIsReachable(running);
    InitInv(ColdDaemon());
    RunInv(ColdDaemon(), run);
    RunSnoc(ColdDaemon(), run, AbortRestart);
    run := run + [AbortRestart];
    var tail := UnsafeAbortBreaks(s);
    RunConcat(ColdDaemon(), Step(s, AbortRestart), run, tail);
    run := run + tail;
  }

  // ----- Expiry timers -----

  /** The lease's own timer is armed: it fires no earlier than the lease expires, and at most one retry delay late. */
  predicate Armed(s: State, id: HoldId)
    requires id in s.leases
  {
    match s.leases[id].timer
    case None => false
    case Some(t) =>
      && t.hold == id && t in s.timers && !s.timers[t].retirement
      && s.leases[id].result.expiresAt <= s.timers[t].due <= Later(s.leases[id].result.expiresAt, s.clock + RETRY_DELAY)
  }

  /** The timer belongs to the lease that carries it, an expiry timer never fires early, and HELD is armed. */
  predicate TimerOk(s: State, id: HoldId)
    requires id in s.leases
  {
    var lease := s.leases[id];
    && (lease.timer.Some? ==> lease.timer.value.hold == id)
    && (lease.timer.Some? && lease.timer.value in s.timers && !s.timers[lease.timer.value].retirement ==> Armed(s, id))
    && (lease.result.state == Held && !s.failed ==> Armed(s, id))
  }

  ghost predicate TimersOk(s: State) {
    forall id :: id in s.leases ==> TimerOk(s, id)
  }

  /** A step that touches only timers of `id` leaves every other lease's timer as it was. */
  lemma OthersKeepTimers(s: State, s': State, id: HoldId)
    requires forall other :: other in s.leases && other != id ==> TimerOk(s, other)
    requires s'.failed == s.failed && s.clock <= s'.clock
    requires forall other :: other in s'.leases && other != id ==>
      other in s.leases && s'.leases[other] == s.leases[other]
    requires forall t: TimerId :: t.hold != id ==>
      (t in s'.timers <==> t in s.timers) && (t in s.timers ==> s'.timers[t] == s.timers[t])
    ensures forall other :: other in s'.leases && other != id ==> TimerOk(s', other)
  {
  }

  lemma ScheduleTimers(s: State, id: HoldId, due: int, retirement: bool)
    requires id in s.leases && (s.leases[id].timer.Some? ==> s.leases[id].timer.value.hold == id)
    requires forall other :: other in s.leases && other != id ==> TimerOk(s, other)
    requires retirement ==> s.leases[id].result.state != Held
    requires !retirement ==>
      s.leases[id].result.expiresAt <= due <= Later(s.leases[id].result.expiresAt, s.clock + RETRY_DELAY)
    ensures TimersOk(Schedule(s, id, due, retirement))
  {
    OthersKeepTimers(s, Schedule(s, id, due, retirement), id);
  }

  lemma ReleaseTimers(s: State, id: HoldId, result: Result)
    requires TimersOk(s) && id in s.leases && result.state == Released
    ensures TimersOk(Commit(s, id, result))
  {
    assert TimerOk(s, id);
    OthersKeepTimers(s, Commit(s, id, result), id);
  }

  lemma UnarmedOthers(s: State, id: HoldId, result: Result)
    requires TimersOk(s) && id in s.leases
    ensures forall other :: other in s.leases && other != id ==> TimerOk(Unarmed(s, id, result), other)
  {
    assert TimerOk(s, id);
    OthersKeepTimers(s, Unarmed(s, id, result), id);
  }

  lemma {:induction false} PublishTimers(s: State, id: HoldId, result: Result)
    requires TimersOk(s) && id in s.leases && result.state != Released
    ensures TimersOk(Commit(s, id, result))
    ensures forall other :: other in s.leases && other != id ==>
              other in Commit(s, id, result).leases && Commit(s, id, result).leases[other] == s.leases[other]
    ensures forall t: TimerId :: t.hold != id ==>
              && (t in Commit(s, id, result).timers <==> t in s.timers)
              && (t in s.timers ==> Commit(s, id, result).timers[t] == s.timers[t])
  {
    var retry := s.leases[id].retirementRetry && result.state == RetirementBlocked;
    var due := if retry then s.clock + RETRY_DELAY else Later(s.clock, result.expiresAt);
    assert TimerOk(s, id);
    CommitIsSchedule(s, id, result);
    UnarmedOthers(s, id, result);
    ScheduleTimers(Unarmed(s, id, result), id, due, retry);
  }

  /** A retry after contention: an expiry timer that fired is past its lease's expiry. */
  lemma RetryTimers(s: State, t: TimerId)
    requires TimersOk(s) && Enabled(s, TimerRetry(t))
    ensures TimersOk(Schedule(s, t.hold, s.clock + RETRY_DELAY, s.timers[t].retirement))
  {
    assert TimerOk(s, t.hold);
    ScheduleTimers(s, t.hold, s.clock + RETRY_DELAY, s.timers[t].retirement);
  }

  lemma LaterTimers(s: State, id: HoldId)
    requires TimersOk(s) && Enabled(s, RetryLater(id))
    ensures TimersOk(Schedule(s, id, s.clock + RETRY_DELAY, true))
  {
    assert TimerOk(s, id);
    ScheduleTimers(s, id, s.clock + RETRY_DELAY, true);
  }

  lemma RearmTimers(s: State, t: TimerId)
    requires TimersOk(s) && Enabled(s, TimerRearm(t))
    ensures TimersOk(ScheduleExpiry(s, t.hold))
  {
    assert TimerOk(s, t.hold);
    ScheduleTimers(s, t.hold, Later(s.clock, s.leases[t.hold].result.expiresAt), false);
  }

  lemma TimerEventTimers(s: State, e: Event)
    requires TimersOk(s) && Enabled(s, e)
    requires e.RetryLater? || e.TimerRetry? || e.TimerRearm?
    ensures TimersOk(Step(s, e))
  {
    if e.RetryLater? {
      LaterTimers(s, e.id);
    } else if e.TimerRetry? {
      RetryTimers(s, e.t);
    } else {
      RearmTimers(s, e.t);
    }
  }

  /** The timer is the armed expiry timer of a HELD lease, and failure is not latched. */
  predicate Guards(s: State, t: TimerId) {
    !s.failed && exists id :: id in s.leases && s.leases[id].result.state == Held && s.leases[id].timer == Some(t)
  }

  /**
   One step loses a HELD lease's timer exactly when that timer fires while the flag is up or the
   done channel is closed: its callback then only drops itself.
   */
  lemma TimerLostExactly(s: State, t: TimerId)
    requires TimersOk(s) && Enabled(s, TimerLapse(t))
    ensures TimersOk(Step(s, TimerLapse(t))) <==> !Guards(s, t)
    ensures Guards(s, t) ==> TimersStopped(s)
  {
    if Guards(s, t) {
      GuardIsLost(s, t);
    } else {
      LapseOfOthers(s, t);
    }
  }

  lemma GuardIsLost(s: State, t: TimerId)
    requires TimersOk(s) && Enabled(s, TimerLapse(t)) && Guards(s, t)
    ensures !TimersOk(Step(s, TimerLapse(t))) && TimersStopped(s)
  {
    var id :| id in s.leases && s.leases[id].result.state == Held && s.leases[id].timer == Some(t);
    assert TimerOk(s, id);
    assert t.hold == id && Expired(s, s.leases[id]) && !Unexpired(s);
    assert !TimerOk(s.(timers := s.timers - {t}), id);
  }

  lemma LapseOfOthers(s: State, t: TimerId)
    requires TimersOk(s) && !Guards(s, t)
    ensures TimersOk(s.(timers := s.timers - {t}))
  {
    forall id | id in s.leases
      ensures TimerOk(s.(timers := s.timers - {t}), id)
    {
      assert TimerOk(s, id);
    }
  }

  /**
   Every step keeps every HELD lease armed, with one exception, and there the converse holds: the
   lease's own timer fires while the flag is up or the done channel is closed.
   */
  lemma {:induction false} TimersStep(s: State, e: Event)
    requires Inv(s) && TimersOk(s) && Enabled(s, e)
    ensures TimersOk(Step(s, e)) <==> !(e.TimerLapse? && Guards(s, e.t))
    ensures e.TimerLapse? && Guards(s, e.t) ==> TimersStopped(s)
  {
    if RegistryEvent(e) {
      RegistryEventTimers(s, e);
    } else if CommitEvent(e) {
      CommitEventStep(s, e);
      if Published(s, e).state == Released {
        ReleaseTimers(s, e.id, Published(s, e));
      } else {
        PublishTimers(s, e.id, Published(s, e));
      }
    } else if e.Grant? || e.GrantTorn? {
      GrantTimers(s, e);
    } else if e.TimerLapse? {
      TimerLostExactly(s, e.t);
    } else if e.RetryLater? || e.TimerRetry? || e.TimerRearm? {
      TimerEventTimers(s, e);
    } else {
      LifecycleEventTimers(s, e);
    }
  }

  lemma LifecycleEventTimers(s: State, e: Event)
    requires TimersOk(s) && Enabled(s, e) && LifecycleEvent(e)
    ensures TimersOk(Step(s, e))
  {
    LifecycleEffect(s, e);
    forall id | id in Step(s, e).leases
      ensures TimerOk(Step(s, e), id)
    {
      assert TimerOk(s, id);
    }
  }

  lemma RegistryEventTimers(s: State, e: Event)
    requires TimersOk(s) && Enabled(s, e) && RegistryEvent(e)
    ensures TimersOk(Step(s, e))
  {
    var s' := Step(s, e);
    RegistryEffect(s, e);
    assert s'.timers == s.timers && s'.failed == s.failed;
  }

  lemma GrantTimers(s: State, e: Event)
    requires Inv(s) && TimersOk(s) && Enabled(s, e) && (e.Grant? || e.GrantTorn?)
    ensures TimersOk(Step(s, e))
  {
    var seeded := Seeded(s, e.server, e.id, e.ttl, e.drain);
    if e.Grant? {
      ScheduleTimers(seeded, e.id, Later(seeded.clock, seeded.leases[e.id].result.expiresAt), false);
    }
  }

  lemma InitTimers(s: State)
    requires Init(s)
    ensures TimersOk(s) && LifecycleOk(s)
  {
  }

  /** In every disciplined run a HELD lease has its armed expiry timer, or persistence failure is latched. */
  lemma {:induction false} HeldIsArmed(s: State, run: seq<Event>)
    requires Init(s) && Valid(s, run) && Disciplined(s, run)
    ensures TimersOk(Run(s, run)) && LifecycleOk(Run(s, run))
    decreases |run|
  {
    InitTimers(s);
    DisciplinedRunsExclude(s, run);
    if run != [] {
      var front := run[..|run| - 1];
      HeldIsArmed(s, front);
      InitInv(s);
      RunInv(s, front);
      TimersStep(Run(s, front), run[|run| - 1]);
    }
  }

  /** Something is always left to release a HELD lease: let its timer come due, and its callback expires it. */
  lemma {:induction false} HeldIsReleasable(s: State, run: seq<Event>, id: HoldId)
    requires Init(s) && Valid(s, run) && Disciplined(s, run)
    requires var now := Run(s, run);
             id in now.leases && now.leases[id].result.state == Held && !now.failed && now.admitting == {}
    ensures var now := Run(s, run);
            && now.leases[id].timer.Some?
            && var t := now.leases[id].timer.value;
            && t in now.timers
            && var due := now.(clock := Later(now.clock, now.timers[t].due));
            && Enabled(now, Tick(due.clock)) && Step(now, Tick(due.clock)) == due
            && Current(due, t)
            && Enabled(due, Expire(id)) && id !in Step(due, Expire(id)).leases
  {
    HeldIsArmed(s, run);
    var now := Run(s, run);
    assert Armed(now, id);
  }

  /** A finished shutdown strands a HELD lease without any flag: its timer comes due and goes for nothing. */
  lemma ClosedStrands(s: State, id: HoldId) returns (run: seq<Event>)
    requires id in s.leases && s.leases[id].result.state == Held && !s.failed && Armed(s, id)
    requires s.stop.Finalizing? && s.owners == map[]
    ensures Valid(s, run)
    ensures var end := Run(s, run);
            && id in end.leases && end.leases[id].result.state == Held
            && !end.failed && end.shuttingDown == s.shuttingDown && end.stop.Closed? && !Armed(end, id)
  {
    var closed := s.(stop := Closed);
    RunOfOne(s, ShutdownDrains);
    RunSnoc(s, [ShutdownDrains], ShutdownCloses);
    run := [ShutdownDrains] + [ShutdownCloses];
    assert Run(s, run) == closed;
    var tail := DueAfterClose(closed, id);
    RunConcat(s, closed, run, tail);
    run := run + tail;
  }

  lemma DueAfterClose(closed: State, id: HoldId) returns (run: seq<Event>)
    requires id in closed.leases && !closed.failed && Armed(closed, id) && closed.stop.Closed?
    ensures Valid(closed, run)
    ensures var end := Run(closed, run);
                end.leases == closed.leases && end == closed.(timers := end.timers, clock := end.clock)
                  && !Armed(end, id)
  {
    var t := closed.leases[id].timer.value;
    var due := closed.(clock := Later(closed.clock, closed.timers[t].due));
    RunOfOne(closed, Tick(due.clock));
    assert Run(closed, [Tick(due.clock)]) == due && !Current(due, t);
    RunSnoc(closed, [Tick(due.clock)], TimerLapse(t));
    run := [Tick(due.clock)] + [TimerLapse(t)];
  }

  /** A fresh owner's lease can go all the way to HELD, after which the owner leaves the registry. */
  function Parted(s: State, f: Fresh): State
    requires OpenForHolds(s) && Unused(s, f)
  {
    ServedCanBeHeld(s, f);
    var granted := Step(Served(s, f), Grant(f.server, f.id, 1, 0));
    granted.(entries := granted.entries[f.ref := granted.entries[f.ref].(retired := true, tree := false)])
  }

  lemma HoldCanFinish(s: State, f: Fresh)
    requires OpenForHolds(s) && Unused(s, f)
    ensures Enabled(Parted(s, f), Finish(f.id))
    ensures var held := Step(Parted(s, f), Finish(f.id));
            && f.id in held.leases && held.leases[f.id].result.state == Held && !held.failed && Armed(held, f.id)
            && held == Parted(s, f).(leases := held.leases, timers := held.timers)
  {
    var served, parted := Served(s, f), Parted(s, f);
    var lease := parted.leases[f.id];
    assert served.entries[served.owners[f.server]].contexts == {f.key};
    assert lease.pins == CapturedPins(served, {f.key});
    forall pin | pin in lease.pins
      ensures Settled(parted.entries, pin)
    {
      assert pin.entry != f.ref ==> pin.entry in s.entries;
    }
    assert TreesRetired(parted.entries, lease);
    CommitEventStep(parted, Finish(f.id));
  }

  /**
   On a run of the code's own steps a HELD lease loses its timer while no flag is up: a restart
   aborts over a shutdown that runs, a hold follows, and the shutdown finishes over the lease.
   */
  lemma {:induction false} StrandedCounterexample() returns (run: seq<Event>)
    ensures Init(ColdDaemon()) && Valid(ColdDaemon(), run)
    ensures var s := Run(ColdDaemon(), run);
            && !s.failed && !s.shuttingDown
            && exists id :: id in s.leases && s.leases[id].result.state == Held && !Armed(s, id)
  {
    var f := Fresh(0, "srv", "cmd", "k", "h");
    var s := ColdDaemon().(stop := Finalizing);
    run := AbortOverShutdown();
    assert ExactId("srv") && ExactId("h") && Unused(s, f);
    run := ServePart(s, f, run);
    run := HoldFinishPart(s, f, run);
    run := StrandParted(s, f, run);
  }

  lemma StrandParted(s: State, f: Fresh, front: seq<Event>) returns (run: seq<Event>)
    requires OpenForHolds(s) && Unused(s, f) && s.stop.Finalizing? && Enabled(Parted(s, f), Finish(f.id))
      && Valid(ColdDaemon(), front)
    requires Run(ColdDaemon(), front) == Step(Parted(s, f), Finish(f.id)).(owners := map[])
    ensures Valid(ColdDaemon(), run)
    ensures var s := Run(ColdDaemon(), run);
            && !s.failed && !s.shuttingDown
            && f.id in s.leases && s.leases[f.id].result.state == Held && !Armed(s, f.id)
  {
    HoldCanFinish(s, f);
    run := StrandPart(Step(Parted(s, f), Finish(f.id)).(owners := map[]), f.id, front);
  }

  lemma AbortOverShutdown() returns (run: seq<Event>)
    ensures Init(ColdDaemon()) && Valid(ColdDaemon(), run)
      && Run(ColdDaemon(), run) == ColdDaemon().(stop := Finalizing)
  {
    run := RacingDaemonIsReachable(true);
    RunSnoc(ColdDaemon(), run, AbortRestart);
    run := run + [AbortRestart];
  }

  lemma ServePart(s: State, f: Fresh, front: seq<Event>) returns (run: seq<Event>)
    requires OpenForHolds(s) && Unused(s, f) && Valid(ColdDaemon(), front) && Run(ColdDaemon(), front) == s
    ensures Valid(ColdDaemon(), run) && Run(ColdDaemon(), run) == Served(s, f)
  {
    ServeFresh(s, f);
    var serving := [Reserve(f.ref, Identity(f.server, "g"), f.command, f.key), Promote(f.ref, f.key)];
    RunConcat(ColdDaemon(), s, front, serving);
    run := front + serving;
  }

  lemma StrandPart(held: State, id: HoldId, front: seq<Event>) returns (run: seq<Event>)
    requires Valid(ColdDaemon(), front) && Run(ColdDaemon(), front) == held && held.stop.Finalizing?
      && held.owners == map[]
    requires id in held.leases && held.leases[id].result.state == Held && !held.failed && !held.shuttingDown
      && Armed(held, id)
    ensures Valid(ColdDaemon(), run)
    ensures var s := Run(ColdDaemon(), run);
            !s.failed && !s.shuttingDown && id in s.leases && s.leases[id].result.state == Held && !Armed(s, id)
  {
    var tail := ClosedStrands(held, id);
    RunConcat(ColdDaemon(), held, front, tail);
    run := front + tail;
  }

  /** From the served state: hold, retire, finish, and remove the owner. */
  lemma HoldFinishPart(s: State, f: Fresh, front: seq<Event>) returns (run: seq<Event>)
    requires OpenForHolds(s) && Unused(s, f) && s.owners == map[]
    requires Valid(ColdDaemon(), front) && Run(ColdDaemon(), front) == Served(s, f)
    ensures Enabled(Parted(s, f), Finish(f.id)) && Valid(ColdDaemon(), run)
    ensures Run(ColdDaemon(), run) == Step(Parted(s, f), Finish(f.id)).(owners := map[])
  {
    ServedCanBeHeld(s, f);
    HoldCanFinish(s, f);
    RunSnoc(ColdDaemon(), front, Grant(f.server, f.id, 1, 0));
    run := front + [Grant(f.server, f.id, 1, 0)];
    RunSnoc(ColdDaemon(), run, Retire(f.ref));
    run := run + [Retire(f.ref)];
    RunSnoc(ColdDaemon(), run, Finish(f.id));
    run := run + [Finish(f.id)];
    PartedCanLeave(s, f);
    RunSnoc(ColdDaemon(), run, Remove(f.ref));
    run := run + [Remove(f.ref)];
  }

  lemma PartedCanLeave(s: State, f: Fresh)
    requires OpenForHolds(s) && Unused(s, f) && s.owners == map[] && Enabled(Parted(s, f), Finish(f.id))
    ensures var held := Step(Parted(s, f), Finish(f.id));
            Enabled(held, Remove(f.ref)) && Step(held, Remove(f.ref)) == held.(owners := map[])
  {
    HoldCanFinish(s, f);
    var held := Step(Parted(s, f), Finish(f.id));
    assert held.owners == map[f.server := f.ref];
    assert Registered(held, f.ref);
  }

  // ----- A displaced tree under a HELD lease -----

  /** A cold daemon whose one owner's tree was displaced by a second owner of the same identity and context. */
  function DisplacedEntry(tree: bool, generation: string): Entry {
    Entry(Identity("srv", generation), "cmd", {"k"}, false, true, false, false, tree)
  }

  function DisplacedDaemon(): State {
    ColdDaemon().(entries := map[0 := DisplacedEntry(true, "g"), 1 := DisplacedEntry(false, "g2")], owners :=
      map["srv" := 1])
  }

  /** A served owner with a live tree, and then a second one reserved and promoted over it. */
  lemma DisplacementRun() returns (run: seq<Event>)
    ensures Valid(ColdDaemon(), run) && Run(ColdDaemon(), run) == DisplacedDaemon()
  {
    var f := Fresh(0, "srv", "cmd", "k", "h");
    assert ExactId("srv") && ExactId("h") && Unused(ColdDaemon(), f);
    run := ServePart(ColdDaemon(), f, []);
    run := StartTree(run);
    run := ReserveOver(run);
  }

  lemma StartTree(front: seq<Event>) returns (run: seq<Event>)
    requires Valid(ColdDaemon(), front)
    requires Run(ColdDaemon(), front) == Served(ColdDaemon(), Fresh(0, "srv", "cmd", "k", "h"))
    ensures Valid(ColdDaemon(), run)
    ensures Run(ColdDaemon(), run) ==
              ColdDaemon().(entries := map[0 := DisplacedEntry(true, "g")], owners := map["srv" := 0])
  {
    var served := Run(ColdDaemon(), front);
    assert Registered(served, 0) && Open(served, "k");
    RunSnoc(ColdDaemon(), front, Materialize(0, "k"));
    run := front + [Materialize(0, "k")];
    assert Run(ColdDaemon(), run).entries[0].contexts == {"k"};
  }

  lemma ReserveOver(front: seq<Event>) returns (run: seq<Event>)
    requires Valid(ColdDaemon(), front)
    requires Run(ColdDaemon(), front) ==
               ColdDaemon().(entries := map[0 := DisplacedEntry(true, "g")], owners := map["srv" := 0])
    ensures Valid(ColdDaemon(), run) && Run(ColdDaemon(), run) == DisplacedDaemon()
  {
    var reserve := Reserve(1, Identity("srv", "g2"), "cmd", "k");
    RunSnoc(ColdDaemon(), front, reserve);
    run := front + [reserve];
    var placed := Run(ColdDaemon(), run);
    assert placed.entries[1].contexts == {"k"} && Registered(placed, 1) && Open(placed, "k");
    RunSnoc(ColdDaemon(), run, Promote(1, "k"));
    run := run + [Promote(1, "k")];
    assert Run(ColdDaemon(), run).entries == DisplacedDaemon().entries;
  }

  lemma DisplacedCanBeHeld()
    ensures Enabled(DisplacedDaemon(), Grant("srv", "h", 1, 0))
  {
    var s := DisplacedDaemon();
    assert Registered(s, 1) && !Registered(s, 0);
    assert forall ref :: ref in s.entries ==> ref == 0 || ref == 1;
    assert Selectable(s, 1) && ExactId("srv") && ExactId("h");
  }

  /** The displacing owner retired under a granted hold. */
  function DisplacedHold(): State
    requires Enabled(DisplacedDaemon(), Grant("srv", "h", 1, 0))
  {
    var granted := Step(DisplacedDaemon(), Grant("srv", "h", 1, 0));
    granted.(entries := granted.entries[1 := granted.entries[1].(retired := true, tree := false)])
  }

  lemma DisplacedHoldFinishes()
    requires Enabled(DisplacedDaemon(), Grant("srv", "h", 1, 0))
    ensures Enabled(DisplacedHold(), Finish("h"))
    ensures var held := Step(DisplacedHold(), Finish("h"));
            && "h" in held.leases && held.leases["h"].result.state == Held
            && 0 in held.entries && held.entries[0].tree && Overlaps(held.leases["h"], held.entries[0])
  {
    var s, hold := DisplacedDaemon(), DisplacedHold();
    var lease := hold.leases["h"];
    assert lease.keys == {"k"} && lease.pins == CapturedPins(s, {"k"});
    forall pin | pin in lease.pins
      ensures Settled(hold.entries, pin)
    {
      assert Registered(s, pin.entry) && pin.entry == 1;
    }
    assert TreesRetired(hold.entries, lease);
    CommitEventStep(hold, Finish("h"));
    CommitEffect(hold, "h", Published(hold, Finish("h")));
    assert "k" in lease.keys * hold.entries[0].contexts;
  }

  /** With a displaced owner HELD does not mean that no tree runs on the keys: a run from a cold start. */
  lemma DisplacedCounterexample() returns (run: seq<Event>)
    ensures Init(ColdDaemon()) && Valid(ColdDaemon(), run)
    ensures var now := Run(ColdDaemon(), run);
            exists id, ref ::
              && id in now.leases && now.leases[id].result.state == Held
              && ref in now.entries && Overlaps(now.leases[id], now.entries[ref]) && now.entries[ref].tree
  {
    run := DisplacementRun();
    DisplacedCanBeHeld();
    DisplacedHoldFinishes();
    RunSnoc(ColdDaemon(), run, Grant("srv", "h", 1, 0));
    run := run + [Grant("srv", "h", 1, 0)];
    RunSnoc(ColdDaemon(), run, Retire(1));
    run := run + [Retire(1)];
    RunSnoc(ColdDaemon(), run, Finish("h"));
    run := run + [Finish("h")];
  }
}
