/**
 The locked sections of a spawn in the source's own form: methods that update the registry in
 place. Each is one event of the spawn machine; what an attempt remembers between its sections is
 its point.
 */
module SpawnDaemon {
  import opened Options
  import opened Environments
  import opened SpawnMachine

  class Registry {
    const rules: Rules
    var entries: map<Ref, Entry>
    var owners: map<ServerId, Ref>
    var attempts: map<AttemptId, Attempt>
    var tokens: set<Token>

    ghost function St(): State
      reads this
    {
      State(entries, owners, attempts, tokens)
    }

    constructor (rules: Rules)
      ensures St() == EMPTY && this.rules == rules
    {
      this.rules := rules;
      entries, owners, attempts, tokens := map[], map[], map[], {};
    }

    method MoveTo(a: AttemptId, point: Point)
      requires a in attempts
      modifies this`attempts
      ensures St() == Move(old(St()), a, point)
    {
      attempts := attempts[a := attempts[a].(point := point)];
    }

    /** The environment test of both reuse paths; it passes when no environment is stored. */
    method EnvironmentPasses(ref: Ref, request: Request) returns (ok: bool)
      requires ref in entries
      ensures ok <==> EnvPasses(rules, entries[ref], request)
    {
      if entries[ref].env.None? {
        return true;
      }
      ok := EnvCompatible(rules, entries[ref].env.value, request.env);
    }

    // ----- The identity derivation -----

    method ReadBaseEntry(a: AttemptId)
      requires Enabled(St(), ReadBase(a))
      modifies this`attempts
      ensures St() == Step(rules, old(St()), ReadBase(a))
      ensures var request := attempts[a].request;
              attempts[a].point ==
                if BaseKnown(St(), request.base) then
                  if Compatible(rules, entries[owners[request.base]].env.value, request.env) then
                    FirstLock(request.base)
                  else FirstLock(request.base + "-env-" + request.suffix)
                else DeriveBucket
    {
      var request := attempts[a].request;
      if request.base !in owners || owners[request.base] !in entries || !entries[owners[request.base]].hasOwner {
        MoveTo(a, DeriveBucket);
        return;
      }
      var existing := entries[owners[request.base]].env;
      if existing.None? {
        MoveTo(a, DeriveBucket);
        return;
      }
      var ok := EnvCompatible(rules, existing.value, request.env);
      MoveTo(a, FirstLock(if ok then request.base else Bucket(request)));
    }

    method ReadBucketEntry(a: AttemptId)
      requires Enabled(St(), ReadBucket(a))
      modifies this`attempts
      ensures St() == Step(rules, old(St()), ReadBucket(a))
      ensures var request := attempts[a].request;
              var own := request.base + "-env-" + request.suffix;
              attempts[a].point == FirstLock(if own in owners then own else request.base)
    {
      var request := attempts[a].request;
      MoveTo(a, FirstLock(if Bucket(request) in owners then Bucket(request) else request.base));
    }

    // ----- The locked sections of reuse -----

    /** Finds the identity occupied, or reserves it with a placeholder that stores the merged environment. */
    method FirstSection(a: AttemptId, free: Ref)
      requires Enabled(St(), LockFirst(a, free))
      modifies this`entries, this`owners, this`attempts
      ensures St() == Step(rules, old(St()), LockFirst(a, free))
      ensures var sid := old(attempts)[a].point.sid;
              if sid in old(owners) then
                && entries == old(entries) && owners == old(owners)
                && (attempts[a].point == CreateWait(sid) <==> owners[sid] in entries && entries[owners[sid]].creating)
                && (attempts[a].point == Probing(sid, owners[sid]) <==>
                  && owners[sid] in entries && !entries[owners[sid]].creating
                  && !entries[owners[sid]].frozen && entries[owners[sid]].accepting)
                && (attempts[a].point.CreateWait? || attempts[a].point.Probing? || attempts[a].point.Over?)
              else
                && owners == old(owners)[sid := free] && free in entries && entries[free].sid == sid
                && entries[free].env == Some(attempts[a].request.env)
                && entries[free].creating && !entries[free].hasOwner && attempts[a].point == Building(free)
    {
      var sid := attempts[a].point.sid;
      if sid in owners {
        var ref := owners[sid];
        if ref !in entries {
          MoveTo(a, Over);
        } else if entries[ref].creating {
          MoveTo(a, CreateWait(sid));
        } else if entries[ref].frozen || !entries[ref].accepting {
          MoveTo(a, Over);
        } else {
          MoveTo(a, Probing(sid, ref));
        }
        return;
      }
      entries := entries[free := Entry(sid, Some(attempts[a].request.env), false, true, Unset, false, false, false)];
      owners := owners[sid := free];
      MoveTo(a, Building(free));
    }

    method SecondTest(a: AttemptId, ref: Ref)
      requires a in attempts && ref in entries
      modifies this`attempts
      ensures St() == AfterSecond(rules, old(St()), a, ref)
    {
      var ok := EnvironmentPasses(ref, attempts[a].request);
      MoveTo(a, if ok then Gating(ref) else Over);
    }

    /** After a concurrent creation settled: the owner found must be live, thawed and accepting. */
    method WaitedSection(a: AttemptId)
      requires Enabled(St(), LockAfterWait(a))
      modifies this`attempts
      ensures St() == Step(rules, old(St()), LockAfterWait(a))
      ensures var sid := old(attempts)[a].point.sid;
              if sid in owners && owners[sid] in entries && entries[owners[sid]].hasOwner
                && !entries[owners[sid]].frozen && entries[owners[sid]].accepting
                && (entries[owners[sid]].env.Some? ==>
                  Compatible(rules, entries[owners[sid]].env.value, attempts[a].request.env))
              then attempts[a].point == Gating(owners[sid])
              else attempts[a].point == Over
    {
      var sid := attempts[a].point.sid;
      if sid in owners && owners[sid] in entries && entries[owners[sid]].hasOwner
         && !entries[owners[sid]].frozen && entries[owners[sid]].accepting {
        SecondTest(a, owners[sid]);
      } else {
        MoveTo(a, Over);
      }
    }

    /** After the dial probe: the entry must still be the one that was probed. */
    method ProbedSection(a: AttemptId)
      requires Enabled(St(), LockAfterProbe(a))
      modifies this`attempts
      ensures St() == Step(rules, old(St()), LockAfterProbe(a))
      ensures var was := old(attempts)[a].point;
              if was.sid in owners && owners[was.sid] == was.ref && was.ref in entries
                && (entries[was.ref].env.Some? ==>
                  Compatible(rules, entries[was.ref].env.value, attempts[a].request.env))
              then attempts[a].point == Gating(was.ref)
              else attempts[a].point == Over
    {
      var point := attempts[a].point;
      if point.sid in owners && owners[point.sid] == point.ref && point.ref in entries {
        SecondTest(a, point.ref);
      } else {
        MoveTo(a, Over);
      }
    }

    /** The classification gate, once the channel is closed. */
    method GateSection(a: AttemptId)
      requires Enabled(St(), PassGate(a))
      modifies this`attempts
      ensures St() == Step(rules, old(St()), PassGate(a))
      ensures var ref := old(attempts)[a].point.ref;
              attempts[a].point ==
                if entries[ref].hasOwner && entries[ref].verdict == Shareable then Checking(ref) else Over
    {
      var ref := attempts[a].point.ref;
      MoveTo(a, if entries[ref].hasOwner && entries[ref].verdict == Shareable then Checking(ref) else Over);
    }

    predicate Current(ref: Ref)
      reads this
    {
      ref in entries && entries[ref].hasOwner && entries[ref].sid in owners && owners[entries[ref].sid] == ref
    }

    /** Admission's registry check. */
    method CheckSection(a: AttemptId)
      requires Enabled(St(), CheckEntry(a))
      modifies this`attempts
      ensures St() == Step(rules, old(St()), CheckEntry(a))
      ensures var ref := old(attempts)[a].point.ref;
              attempts[a].point == if Current(ref) then Registering(ref) else Over
    {
      var ref := attempts[a].point.ref;
      MoveTo(a, if Current(ref) then Registering(ref) else Over);
    }

    /** The owner's own registration test, which issues the token. */
    method RegisterSection(a: AttemptId) returns (token: Option<Token>)
      requires Enabled(St(), Register(a))
      modifies this`attempts, this`tokens
      ensures St() == Step(rules, old(St()), Register(a))
      ensures tokens == if token.Some? then old(tokens) + {token.value} else old(tokens)
      ensures var ref := old(attempts)[a].point.ref;
              && (token.Some? <==>
                ref in entries && !entries[ref].frozen && entries[ref].accepting && entries[ref].verdict != Isolated)
              && (token.Some? ==>
                token.value.owner == ref && token.value.request == attempts[a].request.env && !token.value.created)
    {
      var ref := attempts[a].point.ref;
      token := None;
      if ref in entries && !entries[ref].frozen && entries[ref].accepting && entries[ref].verdict != Isolated {
        token := Some(Token(ref, attempts[a].request.env, false, entries[ref].verdict, entries[ref].settled));
        tokens := tokens + {token.value};
      }
      MoveTo(a, Over);
    }

    // ----- The sections of creation -----

    /** Promotes the placeholder only while it is current, and stores the session environment again. */
    method PromoteSection(a: AttemptId)
      requires Enabled(St(), Promote(a))
      modifies this`entries, this`attempts
      ensures St() == Step(rules, old(St()), Promote(a))
      ensures var ref := old(attempts)[a].point.ref;
              if ref in old(entries) && old(entries)[ref].sid in owners && owners[old(entries)[ref].sid] == ref then
                && attempts[a].point == CheckingOwn(ref) && entries[ref].hasOwner && !entries[ref].creating
                && entries[ref].accepting && entries[ref].env == Some(attempts[a].request.env)
              else attempts[a].point == Over && entries == old(entries)
    {
      var ref := attempts[a].point.ref;
      if ref !in entries || entries[ref].sid !in owners || owners[entries[ref].sid] != ref {
        MoveTo(a, Over);
        return;
      }
      entries := entries[ref :=
        entries[ref].(hasOwner := true, creating := false, accepting := true, env := Some(attempts[a].request.env))];
      MoveTo(a, CheckingOwn(ref));
    }

    method CheckOwnSection(a: AttemptId)
      requires Enabled(St(), CheckOwn(a))
      modifies this`attempts
      ensures St() == Step(rules, old(St()), CheckOwn(a))
      ensures var ref := old(attempts)[a].point.ref;
              attempts[a].point == if Current(ref) then RegisteringOwn(ref) else Over
    {
      var ref := attempts[a].point.ref;
      MoveTo(a, if Current(ref) then RegisteringOwn(ref) else Over);
    }

    /** The creating session's registration, valid even if the owner turned out to be isolated. */
    method RegisterOwnSection(a: AttemptId) returns (token: Option<Token>)
      requires Enabled(St(), RegisterOwn(a))
      modifies this`attempts, this`tokens
      ensures St() == Step(rules, old(St()), RegisterOwn(a))
      ensures tokens == if token.Some? then old(tokens) + {token.value} else old(tokens)
      ensures var ref := old(attempts)[a].point.ref;
              && (token.Some? <==> ref in entries)
              && (token.Some? ==>
                token.value.owner == ref && token.value.request == attempts[a].request.env && token.value.created)
    {
      var ref := attempts[a].point.ref;
      token := None;
      if ref in entries {
        token := Some(Token(ref, attempts[a].request.env, true, entries[ref].verdict, entries[ref].settled));
        tokens := tokens + {token.value};
      }
      MoveTo(a, Over);
    }
  }
}
