/**
 Legacy spawn in global mode as a machine over the registry.

 Any number of attempts run at once. Each is a sequence of locked sections; between two sections
 of one attempt every other attempt, every other spawn mode and the owners themselves may take
 steps. An issued token is recorded with the owner it names, the request it was issued for, and
 the owner's classification at that moment.
 */
module SpawnMachine {
  import opened Options
  import opened Environments

  type ServerId = string
  type Ref = nat
  type AttemptId = nat

  datatype Verdict = Unset | Shareable | Isolated

  /**
   One registry entry and its owner. `env` is the stored environment, missing for an owner restored
   without one; `settled` is the closed classification channel, `verdict` the owner's mode.
   */
  datatype Entry = Entry(sid: ServerId, env: Option<Env>, hasOwner: bool, creating: bool,
                         verdict: Verdict, settled: bool, frozen: bool, accepting: bool)

  /** A request: its base identity, its environment after the merge, and the suffix of that environment. */
  datatype Request = Request(base: ServerId, suffix: string, env: Env)

  /** The section an attempt runs next. */
  datatype Point =
    | DeriveBase
    | DeriveBucket
    | FirstLock(sid: ServerId)
    | CreateWait(sid: ServerId)
    | Probing(sid: ServerId, ref: Ref)
    | Gating(ref: Ref)
    | Checking(ref: Ref)
    | Registering(ref: Ref)
    | Building(ref: Ref)
    | CheckingOwn(ref: Ref)
    | RegisteringOwn(ref: Ref)
    | Over

  datatype Attempt = Attempt(request: Request, point: Point)

  /** A token issued to a request: the owner it names, and that owner's classification when it was issued. */
  datatype Token = Token(owner: Ref, request: Env, created: bool, verdict: Verdict, settled: bool)

  datatype State = State(entries: map<Ref, Entry>, owners: map<ServerId, Ref>, attempts: map<AttemptId, Attempt>,
      tokens: set<Token>)

  datatype Event =
    // everything but global attempts
    | OtherReserve(ref: Ref, sid: ServerId, env: Option<Env>)
    | OtherPromote(ref: Ref)
    | Restore(ref: Ref, sid: ServerId, env: Option<Env>, verdict: Verdict, settled: bool)
    | Discard(ref: Ref)
    | Remove(sid: ServerId)
    | Classify(ref: Ref, verdict: Verdict)
    | Settle(ref: Ref)
    | Listen(ref: Ref, frozen: bool, accepting: bool)
    // the sections of global attempts
    | Begin(a: AttemptId, request: Request)
    | ReadBase(a: AttemptId)
    | ReadBucket(a: AttemptId)
    | LockFirst(a: AttemptId, free: Ref)
    | LockAfterWait(a: AttemptId)
    | LockAfterProbe(a: AttemptId)
    | PassGate(a: AttemptId)
    | CheckEntry(a: AttemptId)
    | Register(a: AttemptId)
    | Promote(a: AttemptId)
    | CheckOwn(a: AttemptId)
    | RegisterOwn(a: AttemptId)
    | GiveUp(a: AttemptId)

  function Bucket(request: Request): ServerId {
    request.base + "-env-" + request.suffix
  }

  /** The owner at an identity, if there is one. */
  predicate Live(s: State, sid: ServerId) {
    sid in s.owners && s.owners[sid] in s.entries && s.entries[s.owners[sid]].hasOwner
  }

  /** Both reuse paths test the stored environment only if there is one. */
  ghost predicate EnvPasses(rules: Rules, entry: Entry, request: Request) {
    entry.env.Some? ==> Compatible(rules, entry.env.value, request.env)
  }

  predicate At(s: State, a: AttemptId) {
    a in s.attempts && !s.attempts[a].point.Over?
  }

  /** A mode, once known, stays known, and isolation stays. */
  predicate Reclassifies(was: Verdict, now: Verdict) {
    now != Unset && (was == Isolated ==> now == Isolated)
  }

  predicate Enabled(s: State, e: Event) {
    match e
    case OtherReserve(ref, _, _) => ref !in s.entries
    case OtherPromote(ref) => ref in s.entries && s.entries[ref].creating
    case Restore(ref, sid, _, _, _) => ref !in s.entries && sid !in s.owners
    case Discard(ref) => ref in s.entries && s.entries[ref].creating
    case Remove(sid) => sid in s.owners
    case Classify(ref, verdict) => ref in s.entries && Reclassifies(s.entries[ref].verdict, verdict)
    case Settle(ref) => ref in s.entries
    case Listen(ref, _, _) => ref in s.entries
    case Begin(a, _) => a !in s.attempts
    case ReadBase(a) => At(s, a) && s.attempts[a].point.DeriveBase?
    case ReadBucket(a) => At(s, a) && s.attempts[a].point.DeriveBucket?
    case LockFirst(a, free) => At(s, a) && s.attempts[a].point.FirstLock? && free !in s.entries
    case LockAfterWait(a) => At(s, a) && s.attempts[a].point.CreateWait?
    case LockAfterProbe(a) => At(s, a) && s.attempts[a].point.Probing?
    case PassGate(a) => At(s, a) && s.attempts[a].point.Gating? && s.attempts[a].point.ref in s.entries
      && s.entries[s.attempts[a].point.ref].settled
    case CheckEntry(a) => At(s, a) && s.attempts[a].point.Checking?
    case Register(a) => At(s, a) && s.attempts[a].point.Registering?
    case Promote(a) => At(s, a) && s.attempts[a].point.Building?
    case CheckOwn(a) => At(s, a) && s.attempts[a].point.CheckingOwn?
    case RegisterOwn(a) => At(s, a) && s.attempts[a].point.RegisteringOwn?
    case GiveUp(a) => At(s, a)
  }

  function Move(s: State, a: AttemptId, point: Point): State
    requires a in s.attempts
  {
    s.(attempts := s.attempts[a := s.attempts[a].(point := point)])
  }

  function SetEntry(s: State, ref: Ref, entry: Entry): State {
    s.(entries := s.entries[ref := entry])
  }

  /** An entry that leaves the registry keeps its reference; attempts may still hold it. */
  function Unregister(s: State, ref: Ref): State {
    s.(owners := map sid | sid in s.owners && s.owners[sid] != ref :: s.owners[sid])
  }

  /**
   The identity derivation: the base, or the bucket when the base's owner has another environment or
   only the bucket exists.
   */
  ghost function AfterBase(rules: Rules, s: State, request: Request): Point {
    if !Live(s, request.base) || s.entries[s.owners[request.base]].env.None? then DeriveBucket
    else if Compatible(rules, s.entries[s.owners[request.base]].env.value, request.env) then FirstLock(request.base)
    else FirstLock(Bucket(request))
  }

  function AfterBucket(s: State, request: Request): Point {
    FirstLock(if Bucket(request) in s.owners then Bucket(request) else request.base)
  }

  /** The first locked section: wait, probe, stop, or reserve the identity. */
  function AfterFirst(s: State, a: AttemptId, sid: ServerId, free: Ref): State
    requires a in s.attempts
  {
    if sid in s.owners then
      var ref := s.owners[sid];
      if ref !in s.entries then Move(s, a, Over)
      else if s.entries[ref].creating then Move(s, a, CreateWait(sid))
      else if s.entries[ref].frozen || !s.entries[ref].accepting then Move(s, a, Over)
      else Move(s, a, Probing(sid, ref))
    else
      var entry := Entry(sid, Some(s.attempts[a].request.env), false, true, Unset, false, false, false);
      Move(SetEntry(s, free, entry).(owners := s.owners[sid := free]), a, Building(free))
  }

  /** The second locked section of both reuse paths, on the entry it finds. */
  ghost function AfterSecond(rules: Rules, s: State, a: AttemptId, ref: Ref): State
    requires a in s.attempts
  {
    if ref in s.entries && EnvPasses(rules, s.entries[ref], s.attempts[a].request) then Move(s, a, Gating(ref))
    else Move(s, a, Over)
  }

  ghost function Step(rules: Rules, s: State, e: Event): State
    requires Enabled(s, e)
  {
    match e
    case OtherReserve(ref, sid, env) =>
      SetEntry(s, ref, Entry(sid, env, false, true, Unset, false, false, false)).(owners := s.owners[sid := ref])
    case OtherPromote(ref) => SetEntry(s, ref, s.entries[ref].(hasOwner := true, creating := false, accepting := true))
    case Restore(ref, sid, env, verdict, settled) =>
      SetEntry(s, ref, Entry(sid, env, true, false, verdict, settled, false, true)).(owners := s.owners[sid := ref])
    case Discard(ref) => SetEntry(Unregister(s, ref), ref, s.entries[ref].(creating := false))
    case Remove(sid) => s.(owners := s.owners - {sid})
    case Classify(ref, verdict) => SetEntry(s, ref, s.entries[ref].(verdict := verdict))
    case Settle(ref) => SetEntry(s, ref, s.entries[ref].(settled := true))
    case Listen(ref, frozen, accepting) => SetEntry(s, ref, s.entries[ref].(frozen := frozen, accepting := accepting))
    case Begin(a, request) => s.(attempts := s.attempts[a := Attempt(request, DeriveBase)])
    case ReadBase(a) => Move(s, a, AfterBase(rules, s, s.attempts[a].request))
    case ReadBucket(a) => Move(s, a, AfterBucket(s, s.attempts[a].request))
    case LockFirst(a, free) => AfterFirst(s, a, s.attempts[a].point.sid, free)
    case LockAfterWait(a) =>
      var sid := s.attempts[a].point.sid;
      if Live(s, sid) && !s.entries[s.owners[sid]].frozen
        && s.entries[s.owners[sid]].accepting then AfterSecond(rules, s, a, s.owners[sid])
      else Move(s, a, Over)
    case LockAfterProbe(a) =>
      var point := s.attempts[a].point;
      if point.sid in s.owners && s.owners[point.sid] == point.ref then AfterSecond(rules, s, a, point.ref)
      else Move(s, a, Over)
    case PassGate(a) =>
      var ref := s.attempts[a].point.ref;
      if s.entries[ref].hasOwner && s.entries[ref].verdict == Shareable then Move(s, a, Checking(ref))
      else Move(s, a, Over)
    case CheckEntry(a) =>
      var ref := s.attempts[a].point.ref;
      if ref in s.entries && s.entries[ref].hasOwner && s.entries[ref].sid in s.owners
        && s.owners[s.entries[ref].sid] == ref then
        Move(s, a, Registering(ref))
      else Move(s, a, Over)
    case Register(a) =>
      var ref := s.attempts[a].point.ref;
      if ref in s.entries && !s.entries[ref].frozen && s.entries[ref].accepting
        && s.entries[ref].verdict != Isolated then
        Issue(Move(s, a, Over), ref, s.attempts[a].request, false)
      else Move(s, a, Over)
    case Promote(a) =>
      var ref := s.attempts[a].point.ref;
      if ref in s.entries && s.entries[ref].sid in s.owners && s.owners[s.entries[ref].sid] == ref then
        var promoted := s.entries[ref].(hasOwner := true, creating := false, accepting := true,
                                        env := Some(s.attempts[a].request.env));
        Move(SetEntry(s, ref, promoted), a, CheckingOwn(ref))
      else Move(s, a, Over)
    case CheckOwn(a) =>
      var ref := s.attempts[a].point.ref;
      if ref in s.entries && s.entries[ref].hasOwner && s.entries[ref].sid in s.owners
        && s.owners[s.entries[ref].sid] == ref then
        Move(s, a, RegisteringOwn(ref))
      else Move(s, a, Over)
    case RegisterOwn(a) =>
      var ref := s.attempts[a].point.ref;
      if ref in s.entries then Issue(Move(s, a, Over), ref, s.attempts[a].request, true) else Move(s, a, Over)
    case GiveUp(a) => Move(s, a, Over)
  }

  function Issue(s: State, ref: Ref, request: Request, created: bool): State
    requires ref in s.entries
  {
    s.(tokens := s.tokens + {Token(ref, request.env, created, s.entries[ref].verdict, s.entries[ref].settled)})
  }

  // ----- The invariant -----

  /** What an attempt knows of the entry it holds. */
  ghost predicate AttemptOk(rules: Rules, entries: map<Ref, Entry>, attempt: Attempt) {
    match attempt.point
    case Gating(ref) => ref in entries && EnvPasses(rules, entries[ref], attempt.request)
    case Checking(ref) => ref in entries && EnvPasses(rules, entries[ref], attempt.request) && Gated(entries[ref])
    case Registering(ref) => ref in entries && EnvPasses(rules, entries[ref], attempt.request) && Gated(entries[ref])
    case Building(ref) => ref in entries && entries[ref].env == Some(attempt.request.env)
    case CheckingOwn(ref) => ref in entries && entries[ref].env == Some(attempt.request.env) && entries[ref].hasOwner
    case RegisteringOwn(ref) => ref in entries && entries[ref].env == Some(attempt.request.env) && entries[ref].hasOwner
    case _ => true
  }

  /** An owner that passed the gate once: it is classified, though perhaps isolated since. */
  predicate Gated(entry: Entry) {
    entry.hasOwner && entry.settled && entry.verdict != Unset
  }

  ghost predicate TokenOk(rules: Rules, entries: map<Ref, Entry>, token: Token) {
    && token.owner in entries && entries[token.owner].hasOwner
    && if token.created then
         entries[token.owner].env == Some(token.request)
       else
         && (entries[token.owner].env.Some? ==> Compatible(rules, entries[token.owner].env.value, token.request))
         && token.verdict == Shareable && token.settled
  }

  ghost predicate Inv(rules: Rules, s: State) {
    && (forall a :: a in s.attempts ==> AttemptOk(rules, s.entries, s.attempts[a]))
    && (forall token :: token in s.tokens ==> TokenOk(rules, s.entries, token))
  }

  /** How entries may change: the environment never, and what an attempt once saw stays so. */
  predicate Grows(was: Entry, now: Entry) {
    && now.env == was.env && now.sid == was.sid
    && (was.hasOwner ==> now.hasOwner) && (was.settled ==> now.settled)
    && (was.verdict != Unset ==> now.verdict != Unset)
  }

  ghost predicate EntriesGrow(s: State, s': State) {
    forall ref :: ref in s.entries ==> ref in s'.entries && Grows(s.entries[ref], s'.entries[ref])
  }

  lemma GrowsAttempts(rules: Rules, s: State, s': State)
    requires Inv(rules, s) && EntriesGrow(s, s')
    ensures forall a :: a in s.attempts ==> AttemptOk(rules, s'.entries, s.attempts[a])
    ensures forall token :: token in s.tokens ==> TokenOk(rules, s'.entries, token)
  {
  }

  /** Every step only grows entries; promotion stores the environment its placeholder was reserved with. */
  lemma StepGrows(rules: Rules, s: State, e: Event)
    requires Inv(rules, s) && Enabled(s, e)
    ensures EntriesGrow(s, Step(rules, s, e))
  {
    if e.Promote? {
      assert AttemptOk(rules, s.entries, s.attempts[e.a]);
    }
  }

  predicate SectionEvent(e: Event) {
    || e.ReadBase? || e.ReadBucket? || e.LockFirst? || e.LockAfterWait? || e.LockAfterProbe? || e.PassGate?
    || e.CheckEntry?
    || e.Register? || e.Promote? || e.CheckOwn? || e.RegisterOwn? || e.GiveUp?
  }

  /** A section moves only its own attempt, and that one soundly. */
  ghost predicate MovesSoundly(rules: Rules, s: State, a: AttemptId, s': State) {
    && s'.attempts.Keys == s.attempts.Keys && a in s.attempts
    && (forall b :: b in s.attempts && b != a ==> s'.attempts[b] == s.attempts[b])
    && AttemptOk(rules, s'.entries, s'.attempts[a])
  }

  lemma ReadMoves(rules: Rules, s: State, e: Event)
    requires Enabled(s, e) && (e.ReadBase? || e.ReadBucket? || e.GiveUp?)
    ensures MovesSoundly(rules, s, e.a, Step(rules, s, e))
  {
  }

  lemma FirstMoves(rules: Rules, s: State, a: AttemptId, sid: ServerId, free: Ref)
    requires a in s.attempts && free !in s.entries
    ensures MovesSoundly(rules, s, a, AfterFirst(s, a, sid, free))
  {
  }

  lemma SecondMoves(rules: Rules, s: State, a: AttemptId, ref: Ref)
    requires a in s.attempts
    ensures MovesSoundly(rules, s, a, AfterSecond(rules, s, a, ref)) && MovesSoundly(rules, s, a, Move(s, a, Over))
  {
  }

  lemma LockMoves(rules: Rules, s: State, e: Event)
    requires Enabled(s, e) && (e.LockFirst? || e.LockAfterWait? || e.LockAfterProbe?)
    ensures MovesSoundly(rules, s, e.a, Step(rules, s, e))
  {
    var sid := s.attempts[e.a].point.sid;
    if e.LockFirst? {
      FirstMoves(rules, s, e.a, sid, e.free);
    } else {
      SecondMoves(rules, s, e.a, if sid in s.owners then s.owners[sid] else 0);
    }
  }

  lemma HeldMoves(rules: Rules, s: State, e: Event)
    requires Inv(rules, s) && Enabled(s, e)
    requires e.PassGate? || e.CheckEntry? || e.Register? || e.Promote? || e.CheckOwn? || e.RegisterOwn?
    ensures MovesSoundly(rules, s, e.a, Step(rules, s, e))
  {
    assert AttemptOk(rules, s.entries, s.attempts[e.a]);
  }

  /** Only registrations issue tokens, and what they issue is sound. */
  lemma IssuesSoundly(rules: Rules, s: State, e: Event, token: Token)
    requires Inv(rules, s) && Enabled(s, e) && token in Step(rules, s, e).tokens && token !in s.tokens
    ensures TokenOk(rules, Step(rules, s, e).entries, token)
  {
    assert e.Register? || e.RegisterOwn?;
    assert AttemptOk(rules, s.entries, s.attempts[e.a]);
  }

  lemma AttemptsStayOk(rules: Rules, s: State, e: Event)
    requires Inv(rules, s) && Enabled(s, e)
    ensures forall b :: b in Step(rules, s, e).attempts ==>
      AttemptOk(rules, Step(rules, s, e).entries, Step(rules, s, e).attempts[b])
  {
    StepGrows(rules, s, e);
    GrowsAttempts(rules, s, Step(rules, s, e));
    if e.ReadBase? || e.ReadBucket? || e.GiveUp? {
      ReadMoves(rules, s, e);
    } else if e.LockFirst? || e.LockAfterWait? || e.LockAfterProbe? {
      LockMoves(rules, s, e);
    } else if SectionEvent(e) {
      HeldMoves(rules, s, e);
    }
  }

  lemma TokensStayOk(rules: Rules, s: State, e: Event)
    requires Inv(rules, s) && Enabled(s, e)
    ensures forall token :: token in Step(rules, s, e).tokens ==> TokenOk(rules, Step(rules, s, e).entries, token)
  {
    StepGrows(rules, s, e);
    GrowsAttempts(rules, s, Step(rules, s, e));
    forall token | token in Step(rules, s, e).tokens
      ensures TokenOk(rules, Step(rules, s, e).entries, token)
    {
      if token !in s.tokens {
        IssuesSoundly(rules, s, e, token);
      }
    }
  }

  lemma {:induction false} StepInv(rules: Rules, s: State, e: Event)
    requires Inv(rules, s) && Enabled(s, e)
    ensures Inv(rules, Step(rules, s, e))
  {
    AttemptsStayOk(rules, s, e);
    TokensStayOk(rules, s, e);
  }

  // ----- Whole runs -----

  /** The state a run of events reaches, if each was possible. */
  ghost function Run(rules: Rules, s: State, run: seq<Event>): Option<State> {
    if run == [] then
      Some(s)
    else
      var mid, last := Run(rules, s, run[..|run| - 1]), run[|run| - 1];
      if mid.Some? && Enabled(mid.value, last) then Some(Step(rules, mid.value, last)) else None
  }

  const EMPTY := State(map[], map[], map[], {})

  lemma {:induction false} RunInv(rules: Rules, run: seq<Event>)
    requires Run(rules, EMPTY, run).Some?
    ensures Inv(rules, Run(rules, EMPTY, run).value)
    decreases |run|
  {
    if run != [] {
      RunInv(rules, run[..|run| - 1]);
      StepInv(rules, Run(rules, EMPTY, run[..|run| - 1]).value, run[|run| - 1]);
    }
  }

  /**
   What every issued token says, under every interleaving. It names a promoted owner; if the
   attempt created that owner, the owner was stored with the request's own environment; if not,
   the owner was classified shareable when the token was issued. The owner's stored environment is
   compatible with the request exactly when it is present or the request carries no credential.
   */
  lemma {:induction false} TokensAreBound(rules: Rules, run: seq<Event>, token: Token)
    requires Run(rules, EMPTY, run).Some? && token in Run(rules, EMPTY, run).value.tokens
    ensures var entries := Run(rules, EMPTY, run).value.entries;
            && token.owner in entries && entries[token.owner].hasOwner
            && (token.created ==> entries[token.owner].env == Some(token.request))
            && (!token.created ==> token.settled && token.verdict == Shareable)
            && (Compatible(rules, StoredEnv(entries[token.owner].env), token.request) <==>
                  entries[token.owner].env.Some? || forall key :: key in token.request ==> !Secret(rules, key))
  {
    RunInv(rules, run);
    assert TokenOk(rules, Run(rules, EMPTY, run).value.entries, token);
    EmptyFitsExactly(rules, token.request);
  }

  /**
   Sessions that share an owner with a stored environment carry the same credentials, whoever created
   it and in whatever order they came.
   */
  lemma {:induction false} SessionsShareCredentials(rules: Rules, run: seq<Event>, x: Token, y: Token, key: string)
    requires Run(rules, EMPTY, run).Some?
    requires var s := Run(rules, EMPTY, run).value;
             x in s.tokens && y in s.tokens && x.owner == y.owner
               && (x.owner in s.entries ==> s.entries[x.owner].env.Some?)
    requires Secret(rules, key)
    ensures (key in x.request <==> key in y.request) && (key in x.request ==> x.request[key] == y.request[key])
  {
    TokensAreBound(rules, run, x);
    TokensAreBound(rules, run, y);
    CredentialsAgree(rules, Run(rules, EMPTY, run).value.entries[x.owner].env.value, x.request, y.request, key);
  }

  /** A stored environment never changes, whatever runs. */
  lemma {:induction false} EnvironmentsStay(rules: Rules, front: seq<Event>, back: seq<Event>, ref: Ref)
    requires Run(rules, EMPTY, front).Some? && Run(rules, EMPTY, front + back).Some?
      && ref in Run(rules, EMPTY, front).value.entries
    ensures var now := Run(rules, EMPTY, front + back).value;
            ref in now.entries && now.entries[ref].env == Run(rules, EMPTY, front).value.entries[ref].env
    decreases |back|
  {
    if back == [] {
      assert front + back == front;
    } else {
      var less := back[..|back| - 1];
      assert (front + back)[..|front + back| - 1] == front + less;
      EnvironmentsStay(rules, front, less, ref);
      RunInv(rules, front + less);
      StepGrows(rules, Run(rules, EMPTY, front + less).value, back[|back| - 1]);
    }
  }

  /**
   No section of a global attempt displaces a registered entry; reservations of the other modes may,
   and nothing proved here depends on them.
   */
  lemma ReservationsAreFree(rules: Rules, s: State, e: Event, sid: ServerId)
    requires Enabled(s, e) && SectionEvent(e) && sid in s.owners
    ensures sid in Step(rules, s, e).owners && Step(rules, s, e).owners[sid] == s.owners[sid]
  {
  }

  lemma RunSnoc(rules: Rules, s: State, run: seq<Event>, e: Event)
    requires Run(rules, s, run).Some? && Enabled(Run(rules, s, run).value, e)
    ensures Run(rules, s, run + [e]) == Some(Step(rules, Run(rules, s, run).value, e))
  {
    assert (run + [e])[..|run|] == run;
  }

  /**
   An owner restored without an environment and classified shareable is shared with a request whose
   credential it never saw.
   */
  lemma {:induction false} MissingEnvironmentLeaks() returns (rules: Rules, run: seq<Event>, token: Token)
    ensures Lawful(rules)
    ensures Run(rules, EMPTY, run).Some? && token in Run(rules, EMPTY, run).value.tokens
    ensures var entries := Run(rules, EMPTY, run).value.entries;
            token.owner in entries && !Compatible(rules, StoredEnv(entries[token.owner].env), token.request)
  {
    rules := Rules(key => false, key => key == "TOKEN", key => key == "TOKEN");
    var request := Request("base", "h", map["TOKEN" := "a"]);
    var entry := Entry("base", None, true, false, Shareable, true, false, true);
    token := Token(0, request.env, false, Shareable, true);
    run := LeakBinds(rules, request, entry);
    assert "TOKEN" in request.env && Secret(rules, "TOKEN");
    EmptyFitsExactly(rules, request.env);
  }

  /** The registry with one restored owner, and one attempt at a point. */
  function OneAttempt(request: Request, entry: Entry, point: Point): State {
    State(map[0 := entry], map[entry.sid := 0], map[0 := Attempt(request, point)], {})
  }

  lemma MoveOne(request: Request, entry: Entry, p: Point, q: Point)
    ensures Move(OneAttempt(request, entry, p), 0, q) == OneAttempt(request, entry, q)
  {
    assert map[0 := Attempt(request, p)][0 := Attempt(request, q)] == map[0 := Attempt(request, q)];
  }

  /** One more section of the one attempt. */
  lemma Advance(rules: Rules, run: seq<Event>, request: Request, entry: Entry, p: Point, e: Event, q: Point)
    returns (longer: seq<Event>)
    requires Run(rules, EMPTY, run) == Some(OneAttempt(request, entry, p)) && Enabled(OneAttempt(request, entry, p), e)
    requires Step(rules, OneAttempt(request, entry, p), e) == Move(OneAttempt(request, entry, p), 0, q)
    ensures Run(rules, EMPTY, longer) == Some(OneAttempt(request, entry, q))
  {
    MoveOne(request, entry, p, q);
    RunSnoc(rules, EMPTY, run, e);
    longer := run + [e];
  }

  lemma LeakBinds(rules: Rules, request: Request, entry: Entry) returns (run: seq<Event>)
    requires entry == Entry(request.base, None, true, false, Shareable, true, false, true)
    ensures Run(rules, EMPTY, run).Some?
    ensures Run(rules, EMPTY, run).value.entries == map[0 := entry]
    ensures Token(0, request.env, false, Shareable, true) in Run(rules, EMPTY, run).value.tokens
  {
    run := LeakProbes(rules, request, entry);
    run := Advance(rules, run, request, entry, Probing(request.base, 0), LockAfterProbe(0), Gating(0));
    run := Advance(rules, run, request, entry, Gating(0), PassGate(0), Checking(0));
    run := Advance(rules, run, request, entry, Checking(0), CheckEntry(0), Registering(0));
    RunSnoc(rules, EMPTY, run, Register(0));
    run := run + [Register(0)];
  }

  lemma LeakProbes(rules: Rules, request: Request, entry: Entry) returns (run: seq<Event>)
    requires entry == Entry(request.base, None, true, false, Shareable, true, false, true)
    ensures Run(rules, EMPTY, run) == Some(OneAttempt(request, entry, Probing(request.base, 0)))
  {
    run := LeakBegins(rules, request, entry);
    run := Advance(rules, run, request, entry, DeriveBase, ReadBase(0), DeriveBucket);
    assert Bucket(request) != request.base;
    run := Advance(rules, run, request, entry, DeriveBucket, ReadBucket(0), FirstLock(request.base));
    run := Advance(rules, run, request, entry, FirstLock(request.base), LockFirst(0, 1), Probing(request.base, 0));
  }

  lemma LeakBegins(rules: Rules, request: Request, entry: Entry) returns (run: seq<Event>)
    requires entry == Entry(request.base, None, true, false, Shareable, true, false, true)
    ensures Run(rules, EMPTY, run) == Some(OneAttempt(request, entry, DeriveBase))
  {
    var restore := Restore(0, request.base, None, Shareable, true);
    RunSnoc(rules, EMPTY, [], restore);
    run := [] + [restore];
    assert map[][0 := entry] == map[0 := entry];
    assert map[][request.base := 0] == map[request.base := 0];
    RunSnoc(rules, EMPTY, run, Begin(0, request));
    run := run + [Begin(0, request)];
    assert map[][0 := Attempt(request, DeriveBase)] == map[0 := Attempt(request, DeriveBase)];
  }

  // ----- Where an undisturbed attempt lands -----

  /** The base's owner has a stored environment to compare with. */
  predicate BaseKnown(s: State, base: ServerId) {
    base in s.owners && s.owners[base] in s.entries && s.entries[s.owners[base]].hasOwner
    && s.entries[s.owners[base]].env.Some?
  }

  /** One more section of an undisturbed attempt. */
  lemma Onward(rules: Rules, s: State, run: seq<Event>, now: State, e: Event, next: State) returns (longer: seq<Event>)
    requires Run(rules, s, run) == Some(now) && Enabled(now, e) && Step(rules, now, e) == next
    ensures Run(rules, s, longer) == Some(next)
  {
    RunSnoc(rules, s, run, e);
    longer := run + [e];
  }

  /**
   The identity derivation, undisturbed. An owner at the base whose environment is stored decides: a
   compatible request shares the base identity, and any other request gets the identity of its own
   environment. Without such an owner the request's own identity is taken exactly if it is registered.
   */
  lemma Derives(rules: Rules, s: State, a: AttemptId) returns (run: seq<Event>, sid: ServerId)
    requires a in s.attempts && s.attempts[a].point == DeriveBase
    ensures Run(rules, s, run) == Some(Move(s, a, FirstLock(sid)))
    ensures var request := s.attempts[a].request;
            var own := request.base + "-env-" + request.suffix;
            && (sid == request.base || sid == own) && request.base != own
            && (sid == request.base <==>
                  if BaseKnown(s, request.base) then
                    Compatible(rules, s.entries[s.owners[request.base]].env.value, request.env)
                  else own !in s.owners)
  {
    var request := s.attempts[a].request;
    var own := request.base + "-env-" + request.suffix;
    assert |request.base| < |own|;
    if BaseKnown(s, request.base) {
      sid := if Compatible(rules, s.entries[s.owners[request.base]].env.value, request.env) then request.base else own;
      run := Onward(rules, s, [], s, ReadBase(a), Move(s, a, FirstLock(sid)));
    } else {
      sid := if own in s.owners then own else request.base;
      var mid := Move(s, a, DeriveBucket);
      run := Onward(rules, s, [], s, ReadBase(a), mid);
      run := Onward(rules, s, run, mid, ReadBucket(a), Move(s, a, FirstLock(sid)));
    }
  }

  /** The registry after an attempt created its own owner at an identity. */
  ghost predicate Created(s: State, end: State, a: AttemptId, sid: ServerId, free: Ref) {
    && end.owners == s.owners[sid := free] && end.entries.Keys == s.entries.Keys + {free} && a in s.attempts
    && (forall ref :: ref in s.entries && ref != free ==> end.entries[ref] == s.entries[ref])
    && end.entries[free].sid == sid && end.entries[free].env == Some(s.attempts[a].request.env)
    && end.entries[free].hasOwner && !end.entries[free].creating && end.entries[free].accepting
    && a in end.attempts && end.attempts[a].point == Over
    && end.tokens == s.tokens + {Token(free, s.attempts[a].request.env, true, Unset, false)}
  }

  function Reserved(s: State, a: AttemptId, sid: ServerId, free: Ref, point: Point): State
    requires a in s.attempts
  {
    var entry := Entry(sid, Some(s.attempts[a].request.env), false, true, Unset, false, false, false);
    Move(SetEntry(s, free, entry).(owners := s.owners[sid := free]), a, point)
  }

  function Promoted(s: State, a: AttemptId, sid: ServerId, free: Ref, point: Point): State
    requires a in s.attempts
  {
    var entry := Entry(sid, Some(s.attempts[a].request.env), true, false, Unset, false, false, true);
    Move(SetEntry(s, free, entry).(owners := s.owners[sid := free]), a, point)
  }

  lemma ReservedStep(rules: Rules, s: State, a: AttemptId, sid: ServerId, free: Ref)
    requires a in s.attempts && sid !in s.owners && free !in s.entries
    ensures var now := Move(s, a, FirstLock(sid));
            Enabled(now, LockFirst(a, free)) && Step(rules, now, LockFirst(a, free)) ==
              Reserved(s, a, sid, free, Building(free))
  {
  }

  lemma PromotedStep(rules: Rules, s: State, a: AttemptId, sid: ServerId, free: Ref)
    requires a in s.attempts && sid !in s.owners && free !in s.entries
    ensures var now := Reserved(s, a, sid, free, Building(free));
            Enabled(now, Promote(a)) && Step(rules, now, Promote(a)) == Promoted(s, a, sid, free, CheckingOwn(free))
  {
  }

  lemma OwnCheckedStep(rules: Rules, s: State, a: AttemptId, sid: ServerId, free: Ref)
    requires a in s.attempts && sid !in s.owners && free !in s.entries
    ensures var now := Promoted(s, a, sid, free, CheckingOwn(free));
            Enabled(now, CheckOwn(a)) && Step(rules, now, CheckOwn(a)) ==
              Promoted(s, a, sid, free, RegisteringOwn(free))
  {
  }

  lemma OwnRegisteredStep(rules: Rules, s: State, a: AttemptId, sid: ServerId, free: Ref)
    requires a in s.attempts && sid !in s.owners && free !in s.entries
    ensures var now := Promoted(s, a, sid, free, RegisteringOwn(free));
            Enabled(now, RegisterOwn(a)) && Created(s, Step(rules, now, RegisterOwn(a)), a, sid, free)
  {
  }

  /** An attempt that finds its identity free creates its own owner there, with its own environment. */
  lemma {:induction false} Creates(rules: Rules, s: State, front: seq<Event>, mid: State, a: AttemptId, sid: ServerId,
      free: Ref) returns (run: seq<Event>, end: State)
    requires a in mid.attempts && sid !in mid.owners && free !in mid.entries
    requires Run(rules, s, front) == Some(Move(mid, a, FirstLock(sid)))
    ensures Run(rules, s, run) == Some(end) && Created(mid, end, a, sid, free)
  {
    ReservedStep(rules, mid, a, sid, free);
    run := Onward(rules, s, front, Move(mid, a, FirstLock(sid)), LockFirst(a, free),
        Reserved(mid, a, sid, free, Building(free)));
    PromotedStep(rules, mid, a, sid, free);
    run := Onward(rules, s, run, Reserved(mid, a, sid, free, Building(free)), Promote(a),
        Promoted(mid, a, sid, free, CheckingOwn(free)));
    OwnCheckedStep(rules, mid, a, sid, free);
    run := Onward(rules, s, run, Promoted(mid, a, sid, free, CheckingOwn(free)), CheckOwn(a),
        Promoted(mid, a, sid, free, RegisteringOwn(free)));
    OwnRegisteredStep(rules, mid, a, sid, free);
    end := Step(rules, Promoted(mid, a, sid, free, RegisteringOwn(free)), RegisterOwn(a));
    run := Onward(rules, s, run, Promoted(mid, a, sid, free, RegisteringOwn(free)), RegisterOwn(a), end);
  }

  /**
   Environments are kept apart, and nobody is turned away for it: an attempt whose base owner has
   another environment, and whose own identity is free, creates its own owner there with its own
   environment and gets a token on it, while the base owner stays as it was.
   */
  lemma {:induction false} OtherEnvironmentGetsItsOwnOwner(rules: Rules, s: State, a: AttemptId, free: Ref)
    returns (run: seq<Event>, end: State)
    requires a in s.attempts && s.attempts[a].point == DeriveBase && free !in s.entries
    requires var request := s.attempts[a].request;
             && BaseKnown(s, request.base)
             && !Compatible(rules, s.entries[s.owners[request.base]].env.value, request.env)
             && request.base + "-env-" + request.suffix !in s.owners
    ensures var request := s.attempts[a].request;
            var own := request.base + "-env-" + request.suffix;
            && Run(rules, s, run) == Some(end) && Created(s, end, a, own, free)
            && end.owners[request.base] == s.owners[request.base] != free
  {
    var sid;
    run, sid := Derives(rules, s, a);
    run, end := Creates(rules, s, run, s, a, sid, free);
  }

  /** An attempt that finds nothing registered under either identity creates the base's owner. */
  lemma {:induction false} FirstComerGetsTheBase(rules: Rules, s: State, a: AttemptId, free: Ref)
    returns (run: seq<Event>, end: State)
    requires a in s.attempts && s.attempts[a].point == DeriveBase && free !in s.entries
    requires var request := s.attempts[a].request;
             request.base !in s.owners && request.base + "-env-" + request.suffix !in s.owners
    ensures Run(rules, s, run) == Some(end) && Created(s, end, a, s.attempts[a].request.base, free)
  {
    var sid;
    run, sid := Derives(rules, s, a);
    run, end := Creates(rules, s, run, s, a, sid, free);
  }

  /** An owner that a fresh session may join: it listens, it is classified shareable, and its environment passes. */
  ghost predicate Joinable(rules: Rules, s: State, sid: ServerId, env: Env) {
    && sid in s.owners && s.owners[sid] in s.entries
    && var entry := s.entries[s.owners[sid]];
       && entry.sid == sid && entry.hasOwner && !entry.creating && !entry.frozen && entry.accepting
       && entry.settled && entry.verdict == Shareable
       && (entry.env.Some? ==> Compatible(rules, entry.env.value, env))
  }

  lemma JoinStep(rules: Rules, s: State, a: AttemptId, sid: ServerId, point: Point)
    requires a in s.attempts && Joinable(rules, s, sid, s.attempts[a].request.env)
    requires point == Probing(sid, s.owners[sid]) || point == CreateWait(sid)
    ensures var now, e := Move(s, a, point), if point.CreateWait? then LockAfterWait(a) else LockAfterProbe(a);
            Enabled(now, e) && Step(rules, now, e) == Move(s, a, Gating(s.owners[sid]))
  {
    MoveTwice(s, a, point, Gating(s.owners[sid]));
  }

  lemma MoveTwice(s: State, a: AttemptId, p: Point, q: Point)
    requires a in s.attempts
    ensures Move(Move(s, a, p), a, q) == Move(s, a, q)
  {
  }

  lemma GateSteps(rules: Rules, s: State, a: AttemptId, sid: ServerId)
    requires a in s.attempts && Joinable(rules, s, sid, s.attempts[a].request.env)
    ensures var ref := s.owners[sid];
            && Enabled(Move(s, a, Gating(ref)), PassGate(a))
            && Step(rules, Move(s, a, Gating(ref)), PassGate(a)) == Move(s, a, Checking(ref))
            && Enabled(Move(s, a, Checking(ref)), CheckEntry(a))
            && Step(rules, Move(s, a, Checking(ref)), CheckEntry(a)) == Move(s, a, Registering(ref))
  {
    MoveTwice(s, a, Gating(s.owners[sid]), Checking(s.owners[sid]));
    MoveTwice(s, a, Checking(s.owners[sid]), Registering(s.owners[sid]));
  }

  function Joined(s: State, a: AttemptId, sid: ServerId): State
    requires a in s.attempts && sid in s.owners
  {
    var token := Token(s.owners[sid], s.attempts[a].request.env, false, Shareable, true);
    Move(s, a, Over).(tokens := s.tokens + {token})
  }

  lemma RegisterStep(rules: Rules, s: State, a: AttemptId, sid: ServerId)
    requires a in s.attempts && Joinable(rules, s, sid, s.attempts[a].request.env)
    ensures var now := Move(s, a, Registering(s.owners[sid]));
            Enabled(now, Register(a)) && Step(rules, now, Register(a)) == Joined(s, a, sid)
  {
    MoveTwice(s, a, Registering(s.owners[sid]), Over);
  }

  /** An attempt at a joinable owner, after the probe or after waiting for its creation, gets a token on it. */
  lemma {:induction false} JoinsAt(rules: Rules, s: State, front: seq<Event>, mid: State, a: AttemptId, sid: ServerId,
      point: Point) returns (run: seq<Event>)
    requires a in mid.attempts && Joinable(rules, mid, sid, mid.attempts[a].request.env)
    requires point == Probing(sid, mid.owners[sid]) || point == CreateWait(sid)
    requires Run(rules, s, front) == Some(Move(mid, a, point))
    ensures Run(rules, s, run) == Some(Joined(mid, a, sid))
  {
    var ref := mid.owners[sid];
    var e := if point.CreateWait? then LockAfterWait(a) else LockAfterProbe(a);
    JoinStep(rules, mid, a, sid, point);
    run := Onward(rules, s, front, Move(mid, a, point), e, Move(mid, a, Gating(ref)));
    GateSteps(rules, mid, a, sid);
    run := Onward(rules, s, run, Move(mid, a, Gating(ref)), PassGate(a), Move(mid, a, Checking(ref)));
    run := Onward(rules, s, run, Move(mid, a, Checking(ref)), CheckEntry(a), Move(mid, a, Registering(ref)));
    RegisterStep(rules, mid, a, sid);
    run := Onward(rules, s, run, Move(mid, a, Registering(ref)), Register(a), Joined(mid, a, sid));
  }

  /**
   Sharing happens whenever it may: an attempt whose base owner is joinable, and is known or alone,
   gets a token on that owner, and neither entries nor owners change.
   */
  lemma {:induction false} CompatibleSharesTheBase(rules: Rules, s: State, a: AttemptId, free: Ref)
    returns (run: seq<Event>, end: State)
    requires a in s.attempts && s.attempts[a].point == DeriveBase && free !in s.entries
    requires var request := s.attempts[a].request;
             && Joinable(rules, s, request.base, request.env)
             && (BaseKnown(s, request.base) || request.base + "-env-" + request.suffix !in s.owners)
    ensures var request := s.attempts[a].request;
            && Run(rules, s, run) == Some(end) && end.entries == s.entries && end.owners == s.owners
            && end.tokens == s.tokens + {Token(s.owners[request.base], request.env, false, Shareable, true)}
  {
    var sid;
    run, sid := Derives(rules, s, a);
    run := JoinsFrom(rules, s, run, s, a, sid, free);
    end := Joined(s, a, sid);
  }

  /** The same for the request's own identity, when the base's owner has another environment or none is stored. */
  lemma {:induction false} OwnIdentityIsJoined(rules: Rules, s: State, a: AttemptId, free: Ref)
    returns (run: seq<Event>, end: State)
    requires a in s.attempts && s.attempts[a].point == DeriveBase && free !in s.entries
    requires var request := s.attempts[a].request;
             && Joinable(rules, s, request.base + "-env-" + request.suffix, request.env)
             && (BaseKnown(s, request.base) ==>
               !Compatible(rules, s.entries[s.owners[request.base]].env.value, request.env))
    ensures var request := s.attempts[a].request;
            var own := request.base + "-env-" + request.suffix;
            && Run(rules, s, run) == Some(end) && end.entries == s.entries && end.owners == s.owners
            && end.tokens == s.tokens + {Token(s.owners[own], request.env, false, Shareable, true)}
  {
    var sid;
    run, sid := Derives(rules, s, a);
    run := JoinsFrom(rules, s, run, s, a, sid, free);
    end := Joined(s, a, sid);
  }

  lemma {:induction false} JoinsFrom(rules: Rules, s: State, front: seq<Event>, mid: State, a: AttemptId, sid: ServerId,
      free: Ref) returns (run: seq<Event>)
    requires a in mid.attempts && Joinable(rules, mid, sid, mid.attempts[a].request.env) && free !in mid.entries
    requires Run(rules, s, front) == Some(Move(mid, a, FirstLock(sid)))
    ensures Run(rules, s, run) == Some(Joined(mid, a, sid))
  {
    var point := Probing(sid, mid.owners[sid]);
    MoveTwice(mid, a, FirstLock(sid), point);
    run := Onward(rules, s, front, Move(mid, a, FirstLock(sid)), LockFirst(a, free), Move(mid, a, point));
    run := JoinsAt(rules, s, run, mid, a, sid, point);
  }

  /** An attempt that waited for another's creation joins what it finds, if it may. */
  lemma {:induction false} WaiterJoins(rules: Rules, s: State, a: AttemptId) returns (run: seq<Event>, end: State)
    requires a in s.attempts && s.attempts[a].point.CreateWait?
    requires Joinable(rules, s, s.attempts[a].point.sid, s.attempts[a].request.env)
    ensures Run(rules, s, run) == Some(end) && end.entries == s.entries && end.owners == s.owners
    ensures var token := Token(s.owners[s.attempts[a].point.sid], s.attempts[a].request.env, false, Shareable, true);
            end.tokens == s.tokens + {token}
  {
    var sid := s.attempts[a].point.sid;
    assert Move(s, a, CreateWait(sid)) == s;
    run := JoinsAt(rules, s, [], s, a, sid, CreateWait(sid));
    end := Joined(s, a, sid);
  }
}
