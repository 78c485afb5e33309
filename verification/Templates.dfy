/**
 The revisioned template cache: a map from command families to context-scoped discovery snapshots.

 The cache is a fast form of its own history. `Expected` reads the answer to a lookup off the
 list of everything that was published and invalidated; `LookupMeetsHistory` says the cache gives
 that answer.

 An environment stands for its identity: two environments are equal here when the source finds
 their identities equal, so that the fingerprint is injective. `canon` stands for path
 canonicalization.
 */
module Templates {
  import opened Options

  type Env = string
  type Path = string

  datatype Mode = Shared | SessionAware | Isolated | Unclassified

  /** A command and its arguments: what a family key is made of. */
  datatype Family = Family(command: string, args: seq<string>)

  datatype Snapshot = Snapshot(family: Family, cwd: Path, env: Env, classification: Mode,
                               cachedInit: string, cachedTools: string,
                               boundTokens: seq<string>, upstreamPid: int, handoffSocket: string, spawnPgid: int)

  datatype Scope = PathScope(env: Env, cwd: Path) | EnvScope(mode: Mode, env: Env)

  datatype FamilyState = FamilyState(revision: nat, entries: map<Scope, Snapshot>)

  type Cache = map<Family, FamilyState>

  const REVISIONS := 0x1_0000_0000_0000_0000

  datatype Match = Match(snapshot: Snapshot, family: Family, scope: Scope, revision: nat)

  ghost predicate Idempotent(canon: Path -> Path) {
    forall p :: canon(canon(p)) == canon(p)
  }

  function ScopeOf(canon: Path -> Path, mode: Mode, cwd: Path, env: Env): Option<Scope> {
    match mode
    case Isolated => Some(PathScope(env, canon(cwd)))
    case Unclassified => None
    case _ => Some(EnvScope(mode, env))
  }

  /** What a template keeps: discovery metadata, never process or reconnect authority. */
  function Stripped(snap: Snapshot): Snapshot {
    snap.(boundTokens := [], upstreamPid := 0, handoffSocket := "", spawnPgid := 0)
  }

  /** No process and no reconnect authority. */
  predicate DiscoveryOnly(snap: Snapshot) {
    snap.boundTokens == [] && snap.upstreamPid == 0 && snap.handoffSocket == "" && snap.spawnPgid == 0
  }

  predicate SameDiscovery(left: Snapshot, right: Snapshot) {
    && left.family == right.family && left.cwd == right.cwd && left.env == right.env
    && left.classification == right.classification
    && left.cachedInit == right.cachedInit && left.cachedTools == right.cachedTools
  }

  /** The one is absent with the other, and else says what the other published, without its authority. */
  predicate TemplateOf(found: Option<Snapshot>, published: Option<Snapshot>) {
    && (found.Some? <==> published.Some?)
    && (found.Some? ==> DiscoveryOnly(found.value) && SameDiscovery(found.value, published.value))
  }

  predicate Publishable(snap: Snapshot) {
    snap.classification != Unclassified && snap.cachedInit != "" && snap.cachedTools != ""
  }

  // ----- Publication and invalidation as functions -----

  /** An older verdict of the same environment that a new publication displaces. */
  predicate Displaced(was: Snapshot, snap: Snapshot) {
    && was.env == snap.env && was.classification != snap.classification
    && !(was.classification == Isolated && snap.classification != Isolated)
  }

  function Kept(entries: map<Scope, Snapshot>, snap: Snapshot): map<Scope, Snapshot> {
    map scope | scope in entries && !Displaced(entries[scope], snap) :: entries[scope]
  }

  function FamilyOf(cache: Cache, family: Family): FamilyState {
    if family in cache then cache[family] else FamilyState(0, map[])
  }

  function Publish(canon: Path -> Path, cache: Cache, snap: Snapshot): Cache {
    var scope := ScopeOf(canon, snap.classification, snap.cwd, snap.env);
    if !Publishable(snap) || scope.None? then cache
    else
      var state := FamilyOf(cache, snap.family);
      cache[snap.family :=
        FamilyState((state.revision + 1) % REVISIONS, Kept(state.entries, snap)[scope.value := Stripped(snap)])]
  }

  function Invalidate(cache: Cache, family: Family): Cache {
    if family in cache then cache[family := FamilyState((cache[family].revision + 1) % REVISIONS, map[])] else cache
  }

  function EntryAt(cache: Cache, family: Family, scope: Scope): Option<Snapshot> {
    var entries := FamilyOf(cache, family).entries;
    if scope in entries then Some(entries[scope]) else None
  }

  /** The first hit in the lookup order: this path's isolated verdict, then session-aware, then shared. */
  function FirstHit(canon: Path -> Path, cache: Cache, family: Family, cwd: Path, env: Env): Option<Snapshot> {
    var isolated := EntryAt(cache, family, PathScope(env, canon(canon(cwd))));
    var aware := EntryAt(cache, family, EnvScope(SessionAware, env));
    if isolated.Some? then isolated
    else if aware.Some? then aware
    else EntryAt(cache, family, EnvScope(Shared, env))
  }

  /** A hit is stripped again as it is handed out. */
  function Lookup(canon: Path -> Path, cache: Cache, family: Family, cwd: Path, env: Env): Option<Snapshot> {
    var hit := FirstHit(canon, cache, family, cwd, env);
    if hit.None? then None else Some(Stripped(hit.value))
  }

  predicate Current(cache: Cache, found: Match) {
    && found.family in cache && cache[found.family].revision == found.revision
    && found.scope in cache[found.family].entries && cache[found.family].entries[found.scope].env == found.snapshot.env
  }

  // ----- History -----

  datatype Op = Published(snap: Snapshot) | Invalidated(family: Family)

  function Apply(canon: Path -> Path, cache: Cache, op: Op): Cache {
    match op
    case Published(snap) => Publish(canon, cache, snap)
    case Invalidated(family) => Invalidate(cache, family)
  }

  function After(canon: Path -> Path, cache: Cache, ops: seq<Op>): Cache {
    if ops == [] then cache else Apply(canon, After(canon, cache, ops[..|ops| - 1]), ops[|ops| - 1])
  }

  predicate PublishesFor(op: Op, family: Family, env: Env) {
    op.Published? && Publishable(op.snap) && op.snap.family == family && op.snap.env == env
  }

  /** The latest isolated publication for the path since the family's last invalidation. */
  function LatestIsolated(canon: Path -> Path, ops: seq<Op>, family: Family, cwd: Path, env: Env): Option<Snapshot> {
    if ops == [] then
      None
    else
      var last := ops[|ops| - 1];
      if last == Invalidated(family) then None
      else if PublishesFor(last, family, env) && last.snap.classification == Isolated
        && canon(last.snap.cwd) == canon(cwd) then
        Some(last.snap)
      else LatestIsolated(canon, ops[..|ops| - 1], family, cwd, env)
  }

  /** The latest other publication since the family's last invalidation and the environment's last isolated one. */
  function LatestRelaxed(ops: seq<Op>, family: Family, env: Env): Option<Snapshot> {
    if ops == [] then
      None
    else
      var last := ops[|ops| - 1];
      if last == Invalidated(family) then None
      else if PublishesFor(last, family, env) then
        if last.snap.classification == Isolated then None else Some(last.snap)
      else LatestRelaxed(ops[..|ops| - 1], family, env)
  }

  /** The publication that a lookup should find, read off the history. */
  function Expected(canon: Path -> Path, ops: seq<Op>, family: Family, cwd: Path, env: Env): Option<Snapshot> {
    var isolated := LatestIsolated(canon, ops, family, cwd, env);
    if isolated.Some? then isolated else LatestRelaxed(ops, family, env)
  }

  /** Every entry lies in the scope its own verdict, path and environment name. */
  ghost predicate Scoped(canon: Path -> Path, cache: Cache) {
    forall family, scope :: family in cache && scope in cache[family].entries ==>
      var snap := cache[family].entries[scope];
      ScopeOf(canon, snap.classification, snap.cwd, snap.env) == Some(scope) && snap.family == family
  }

  /** No entry carries its publisher's authority. */
  ghost predicate Clean(cache: Cache) {
    forall family, scope :: family in cache && scope in cache[family].entries ==>
      DiscoveryOnly(cache[family].entries[scope])
  }

  ghost predicate HistoryOk(canon: Path -> Path, cache: Cache, ops: seq<Op>, family: Family, cwd: Path, env: Env) {
    var relaxed := LatestRelaxed(ops, family, env);
    && TemplateOf(EntryAt(cache, family, PathScope(env, canon(cwd))), LatestIsolated(canon, ops, family, cwd, env))
    && (relaxed.Some? ==> relaxed.value.classification == Shared || relaxed.value.classification == SessionAware)
    && TemplateOf(EntryAt(cache, family, EnvScope(SessionAware, env)),
                  if relaxed.Some? && relaxed.value.classification == SessionAware then relaxed else None)
    && TemplateOf(EntryAt(cache, family, EnvScope(Shared, env)),
                  if relaxed.Some? && relaxed.value.classification == Shared then relaxed else None)
  }

  lemma PublishScoped(canon: Path -> Path, cache: Cache, op: Op)
    requires Scoped(canon, cache)
    ensures Scoped(canon, Apply(canon, cache, op))
  {
    var now := Apply(canon, cache, op);
    forall family, scope | family in now && scope in now[family].entries
      ensures var snap := now[family].entries[scope];
              ScopeOf(canon, snap.classification, snap.cwd, snap.env) == Some(scope) && snap.family == family
    {
      if family in cache && scope in cache[family].entries {
        var was := cache[family].entries[scope];
        assert ScopeOf(canon, was.classification, was.cwd, was.env) == Some(scope) && was.family == family;
      }
    }
  }

  lemma ApplyClean(canon: Path -> Path, cache: Cache, op: Op)
    requires Clean(cache)
    ensures Clean(Apply(canon, cache, op))
  {
    var now := Apply(canon, cache, op);
    forall family, scope | family in now && scope in now[family].entries
      ensures DiscoveryOnly(now[family].entries[scope])
    {
      if family in cache && scope in cache[family].entries {
        assert DiscoveryOnly(cache[family].entries[scope]);
      }
    }
  }

  /** What one publication does to one scope of one family. */
  lemma EntryAfterPublish(canon: Path -> Path, cache: Cache, snap: Snapshot, family: Family, scope: Scope)
    requires Publishable(snap)
    ensures var was, now := EntryAt(cache, family, scope), EntryAt(Publish(canon, cache, snap), family, scope);
            if snap.family != family then now == was
            else if ScopeOf(canon, snap.classification, snap.cwd, snap.env) == Some(scope) then
              TemplateOf(now, Some(snap))
            else
              now == if was.Some? && Displaced(was.value, snap) then None else was
  {
  }

  lemma EntryIsScoped(canon: Path -> Path, cache: Cache, family: Family, scope: Scope)
    requires Scoped(canon, cache)
    ensures var was := EntryAt(cache, family, scope);
            was.Some? ==>
              && was.value.env == scope.env
              && was.value.classification == (if scope.PathScope? then Isolated else scope.mode)
  {
    if family in cache && scope in cache[family].entries {
      var snap := cache[family].entries[scope];
      assert ScopeOf(canon, snap.classification, snap.cwd, snap.env) == Some(scope);
    }
  }

  lemma HistoryStep(canon: Path -> Path, cache: Cache, ops: seq<Op>, op: Op, family: Family, cwd: Path, env: Env)
    requires Scoped(canon, cache) && HistoryOk(canon, cache, ops, family, cwd, env)
    ensures HistoryOk(canon, Apply(canon, cache, op), ops + [op], family, cwd, env)
  {
    assert (ops + [op])[..|ops|] == ops;
    if op.Published? && Publishable(op.snap) {
      EntryIsScoped(canon, cache, family, PathScope(env, canon(cwd)));
      EntryAfterPublish(canon, cache, op.snap, family, PathScope(env, canon(cwd)));
      EntryIsScoped(canon, cache, family, EnvScope(SessionAware, env));
      EntryAfterPublish(canon, cache, op.snap, family, EnvScope(SessionAware, env));
      EntryIsScoped(canon, cache, family, EnvScope(Shared, env));
      EntryAfterPublish(canon, cache, op.snap, family, EnvScope(Shared, env));
    }
  }

  lemma {:induction false} CacheMeetsHistory(canon: Path -> Path, ops: seq<Op>, family: Family, cwd: Path, env: Env)
    ensures Scoped(canon, After(canon, map[], ops))
    ensures HistoryOk(canon, After(canon, map[], ops), ops, family, cwd, env)
    decreases |ops|
  {
    if ops != [] {
      var front, last := ops[..|ops| - 1], ops[|ops| - 1];
      CacheMeetsHistory(canon, front, family, cwd, env);
      assert ops == front + [last];
      PublishScoped(canon, After(canon, map[], front), last);
      HistoryStep(canon, After(canon, map[], front), front, last, family, cwd, env);
    }
  }

  /** A lookup after any history finds exactly what the history says. */
  lemma LookupMeetsHistory(canon: Path -> Path, ops: seq<Op>, family: Family, cwd: Path, env: Env)
    requires Idempotent(canon)
    ensures TemplateOf(Lookup(canon, After(canon, map[], ops), family, cwd, env),
                       Expected(canon, ops, family, cwd, env))
  {
    CacheMeetsHistory(canon, ops, family, cwd, env);
  }

  /**
   A found template carries none of its publisher's process or reconnect authority. Everything else
   it says was published, complete and classified, for the family and the environment of the lookup.
   */
  lemma FoundIsStripped(canon: Path -> Path, ops: seq<Op>, family: Family, cwd: Path, env: Env)
    requires Idempotent(canon)
    ensures var found := Lookup(canon, After(canon, map[], ops), family, cwd, env);
            found.Some? ==>
              var it := found.value;
              && it.boundTokens == [] && it.upstreamPid == 0 && it.handoffSocket == "" && it.spawnPgid == 0
              && it.family == family && it.env == env
              && it.classification != Unclassified && it.cachedInit != "" && it.cachedTools != ""
              && (it.classification == Isolated ==> canon(it.cwd) == canon(cwd))
              && exists snap :: Published(snap) in ops && SameDiscovery(it, snap)
  {
    LookupMeetsHistory(canon, ops, family, cwd, env);
    HistoryIsPublishable(canon, ops, family, cwd, env);
  }

  /** After any history no entry of the cache carries its publisher's authority. */
  lemma {:induction false} CacheIsClean(canon: Path -> Path, cache: Cache, ops: seq<Op>)
    requires Clean(cache)
    ensures Clean(After(canon, cache, ops))
    decreases |ops|
  {
    if ops != [] {
      CacheIsClean(canon, cache, ops[..|ops| - 1]);
      ApplyClean(canon, After(canon, cache, ops[..|ops| - 1]), ops[|ops| - 1]);
    }
  }

  // ----- Revisions -----

  /** How many revisions a stretch of history adds to a family that the cache already knows. */
  function Bumps(ops: seq<Op>, family: Family): nat {
    if ops == [] then
      0
    else
      var last := ops[|ops| - 1];
      var counts := last == Invalidated(family)
        || (last.Published? && Publishable(last.snap) && last.snap.family == family);
      Bumps(ops[..|ops| - 1], family) + if counts then 1 else 0
  }

  lemma {:induction false} RevisionCounts(canon: Path -> Path, cache: Cache, ops: seq<Op>, family: Family)
    requires family in cache && cache[family].revision < REVISIONS
    ensures var now := After(canon, cache, ops);
            && family in now && now[family].revision == (cache[family].revision + Bumps(ops, family)) % REVISIONS
            && (Bumps(ops, family) == 0 ==> now[family] == cache[family])
    decreases |ops|
  {
    if ops != [] {
      var front, last := ops[..|ops| - 1], ops[|ops| - 1];
      RevisionCounts(canon, cache, front, family);
      var mid := After(canon, cache, front);
      AddOne(cache[family].revision + Bumps(front, family));
      assert Apply(canon, mid, last) == After(canon, cache, ops);
    }
  }

  lemma AddOne(n: nat)
    ensures (n % REVISIONS + 1) % REVISIONS == (n + 1) % REVISIONS
  {
  }

  function Find(canon: Path -> Path, cache: Cache, family: Family, cwd: Path, env: Env): Option<Match> {
    var snapshot := Lookup(canon, cache, family, cwd, env);
    if snapshot.None? then None
    else
      var mode := snapshot.value.classification;
      var scope := if mode == Isolated then PathScope(env, canon(cwd)) else EnvScope(mode, env);
      Some(Match(snapshot.value, family, scope, FamilyOf(cache, family).revision))
  }

  ghost predicate Bounded(cache: Cache) {
    forall family :: family in cache ==> cache[family].revision < REVISIONS
  }

  lemma {:induction false} AfterIsBounded(canon: Path -> Path, cache: Cache, ops: seq<Op>)
    requires Bounded(cache)
    ensures Bounded(After(canon, cache, ops))
    decreases |ops|
  {
    if ops != [] {
      AfterIsBounded(canon, cache, ops[..|ops| - 1]);
    }
  }

  lemma {:induction false} AfterIsScoped(canon: Path -> Path, cache: Cache, ops: seq<Op>)
    requires Scoped(canon, cache)
    ensures Scoped(canon, After(canon, cache, ops))
    decreases |ops|
  {
    if ops != [] {
      AfterIsScoped(canon, cache, ops[..|ops| - 1]);
      PublishScoped(canon, After(canon, cache, ops[..|ops| - 1]), ops[|ops| - 1]);
    }
  }

  /** A found match names a live entry of the cache it was found in. */
  lemma FoundIsLive(canon: Path -> Path, cache: Cache, family: Family, cwd: Path, env: Env)
    requires Idempotent(canon) && Scoped(canon, cache) && Clean(cache)
    ensures var found := Find(canon, cache, family, cwd, env);
            found.Some? ==>
              && Current(cache, found.value) && found.value.scope.env == env == found.value.snapshot.env
              && cache[family].entries[found.value.scope] == found.value.snapshot
  {
    EntryIsScoped(canon, cache, family, PathScope(env, canon(cwd)));
    EntryIsScoped(canon, cache, family, EnvScope(SessionAware, env));
    EntryIsScoped(canon, cache, family, EnvScope(Shared, env));
  }

  /**
   The test of an earlier match, exactly: it is current when the revisions added since are a
   multiple of 2^64 and its scope is occupied. Short of a wrap-around that means that nothing was
   published or invalidated in its family since, and then the live entry is the match's own.
   */
  lemma MatchIsCurrentExactly(canon: Path -> Path, before: seq<Op>, since: seq<Op>, family: Family, cwd: Path, env: Env)
    requires Idempotent(canon) && Find(canon, After(canon, map[], before), family, cwd, env).Some?
    ensures var found := Find(canon, After(canon, map[], before), family, cwd, env).value;
            var now := After(canon, After(canon, map[], before), since);
            && (Current(now, found) <==>
              Bumps(since, family) % REVISIONS == 0 && EntryAt(now, family, found.scope).Some?)
            && (Bumps(since, family) < REVISIONS ==> (Current(now, found) <==> Bumps(since, family) == 0))
            && (Bumps(since, family) == 0 ==> EntryAt(now, family, found.scope) == Some(found.snapshot))
  {
    var first := After(canon, map[], before);
    AfterIsScoped(canon, map[], before);
    AfterIsBounded(canon, map[], before);
    CacheIsClean(canon, map[], before);
    FoundIsLive(canon, first, family, cwd, env);
    LiveMatch(canon, first, since, Find(canon, first, family, cwd, env).value);
  }

  lemma LiveMatch(canon: Path -> Path, cache: Cache, since: seq<Op>, found: Match)
    requires Scoped(canon, cache) && Bounded(cache) && Current(cache, found) && found.scope.env == found.snapshot.env
    requires cache[found.family].entries[found.scope] == found.snapshot
    ensures var now, bumps := After(canon, cache, since), Bumps(since, found.family);
            && (Current(now, found) <==> bumps % REVISIONS == 0 && EntryAt(now, found.family, found.scope).Some?)
            && (bumps == 0 ==> Current(now, found) && EntryAt(now, found.family, found.scope) == Some(found.snapshot))
  {
    var now := After(canon, cache, since);
    AfterIsScoped(canon, cache, since);
    RevisionCounts(canon, cache, since, found.family);
    EntryIsScoped(canon, now, found.family, found.scope);
    SameRevision(cache[found.family].revision, Bumps(since, found.family));
  }

  lemma SameRevision(revision: nat, bumps: nat)
    requires revision < REVISIONS
    ensures (revision + bumps) % REVISIONS == revision <==> bumps % REVISIONS == 0
  {
  }

  /** At 2^64 revisions the test does pass again: publishing the found snapshot that often goes unnoticed. */
  lemma MatchSurvivesWrapAround(canon: Path -> Path, before: seq<Op>, family: Family, cwd: Path, env: Env)
    requires Idempotent(canon) && Find(canon, After(canon, map[], before), family, cwd, env).Some?
    ensures var first := After(canon, map[], before);
            var found := Find(canon, first, family, cwd, env).value;
            var since := Repeated(Published(found.snapshot), REVISIONS);
            Bumps(since, family) == REVISIONS && Current(After(canon, first, since), found)
  {
    var first := After(canon, map[], before);
    var found := Find(canon, first, family, cwd, env).value;
    var since := Repeated(Published(found.snapshot), REVISIONS);
    AfterIsScoped(canon, map[], before);
    CacheIsClean(canon, map[], before);
    FoundIsLive(canon, first, family, cwd, env);
    FoundIsPublishable(canon, before, family, cwd, env);
    BumpsOfRepeated(found.snapshot, REVISIONS);
    MatchIsCurrentExactly(canon, before, since, family, cwd, env);
    var front := After(canon, first, since[..|since| - 1]);
    EntryAfterPublish(canon, front, found.snapshot, family, found.scope);
  }

  function Repeated(op: Op, n: nat): seq<Op> {
    seq(n, i => op)
  }

  lemma {:induction false} BumpsOfRepeated(snap: Snapshot, n: nat)
    requires Publishable(snap)
    ensures Bumps(Repeated(Published(snap), n), snap.family) == n
  {
    if n != 0 {
      BumpsOfRepeated(snap, n - 1);
      assert Repeated(Published(snap), n)[..n - 1] == Repeated(Published(snap), n - 1);
    }
  }

  lemma FoundIsPublishable(canon: Path -> Path, ops: seq<Op>, family: Family, cwd: Path, env: Env)
    requires Idempotent(canon)
    ensures var found := Find(canon, After(canon, map[], ops), family, cwd, env);
            found.Some? ==>
              && Publishable(found.value.snapshot) && found.value.snapshot.family == family
              && ScopeOf(canon, found.value.snapshot.classification, found.value.snapshot.cwd, env) ==
                Some(found.value.scope)
  {
    LookupMeetsHistory(canon, ops, family, cwd, env);
    HistoryIsPublishable(canon, ops, family, cwd, env);
  }

  lemma {:induction false} HistoryIsPublishable(canon: Path -> Path, ops: seq<Op>, family: Family, cwd: Path, env: Env)
    ensures var found := LatestIsolated(canon, ops, family, cwd, env);
            found.Some? ==>
              && PublishesFor(Published(found.value), family, env) && Published(found.value) in ops
              && found.value.classification == Isolated && canon(found.value.cwd) == canon(cwd)
    ensures var found := LatestRelaxed(ops, family, env);
            found.Some? ==>
              && PublishesFor(Published(found.value), family, env) && Published(found.value) in ops
              && found.value.classification != Isolated
    decreases |ops|
  {
    if ops != [] {
      HistoryIsPublishable(canon, ops[..|ops| - 1], family, cwd, env);
    }
  }

  // ----- The cache in the daemon -----

  class TemplateCache {
    const canon: Path -> Path
    var families: Cache

    constructor (canon: Path -> Path)
      ensures families == map[] && this.canon == canon
    {
      this.canon := canon;
      families := map[];
    }

    /** Removes displaced verdicts one by one from the entries it ranges over. */
    method Displace(entries: map<Scope, Snapshot>, snap: Snapshot) returns (kept: map<Scope, Snapshot>)
      ensures kept == Kept(entries, snap)
    {
      kept := entries;
      var todo := entries.Keys;
      while todo != {}
        invariant todo <= entries.Keys
        invariant kept == map scope | scope in entries
          && (scope in todo || !Displaced(entries[scope], snap)) :: entries[scope]
      {
        var scope :| scope in todo;
        todo := todo - {scope};
        var was := entries[scope];
        if was.env != snap.env || was.classification == snap.classification {
          continue;
        }
        if was.classification == Isolated && snap.classification != Isolated {
          continue;
        }
        kept := kept - {scope};
      }
    }

    method UpdateTemplate(snap: Snapshot) returns (ok: bool)
      modifies this
      ensures ok <==> snap.classification != Unclassified && snap.cachedInit != "" && snap.cachedTools != ""
      ensures ok ==>
        var scope := ScopeOf(canon, snap.classification, snap.cwd, snap.env).value;
        TemplateOf(EntryAt(families, snap.family, scope), Some(snap))
      ensures !ok ==> families == old(families)
      ensures families == Apply(canon, old(families), Published(snap))
      ensures Scoped(canon, old(families)) ==> Scoped(canon, families)
      ensures Clean(old(families)) ==> Clean(families)
    {
      var scope := ScopeOf(canon, snap.classification, snap.cwd, snap.env);
      if scope.None? || snap.cachedInit == "" || snap.cachedTools == "" {
        return false;
      }
      var family := if snap.family in families then families[snap.family] else FamilyState(0, map[]);
      var entries := Displace(family.entries, snap);
      if Scoped(canon, families) {
        PublishScoped(canon, families, Published(snap));
      }
      if Clean(families) {
        ApplyClean(canon, families, Published(snap));
      }
      families := families[snap.family :=
        FamilyState((family.revision + 1) % REVISIONS, entries[scope.value := Stripped(snap)])];
      return true;
    }

    method InvalidateTemplate(family: Family) returns (existed: bool)
      modifies this
      ensures existed <==> family in old(families) && old(families)[family].entries != map[]
      ensures families == Apply(canon, old(families), Invalidated(family))
      ensures Scoped(canon, old(families)) ==> Scoped(canon, families)
      ensures Clean(old(families)) ==> Clean(families)
    {
      existed := family in families && families[family].entries != map[];
      if Scoped(canon, families) {
        PublishScoped(canon, families, Invalidated(family));
      }
      if Clean(families) {
        ApplyClean(canon, families, Invalidated(family));
      }
      if family in families {
        families := families[family := FamilyState((families[family].revision + 1) % REVISIONS, map[])];
      }
    }

    method GetCompatibleTemplate(family: Family, cwd: Path, env: Env) returns (found: Option<Match>)
      requires Idempotent(canon) && Scoped(canon, families)
      ensures found == Find(canon, families, family, cwd, env)
      ensures found.Some? ==>
        && DiscoveryOnly(found.value.snapshot)
        && found.value.scope in FamilyOf(families, family).entries
        && SameDiscovery(found.value.snapshot, families[family].entries[found.value.scope])
    {
      if family !in families {
        return None;
      }
      var state, canonical := families[family], canon(cwd);
      var modes := [Isolated, SessionAware, Shared];
      EntryIsScoped(canon, families, family, PathScope(env, canonical));
      EntryIsScoped(canon, families, family, EnvScope(SessionAware, env));
      EntryIsScoped(canon, families, family, EnvScope(Shared, env));
      for i := 0 to 3
        invariant i > 0 ==> PathScope(env, canonical) !in state.entries
        invariant i > 1 ==> EnvScope(SessionAware, env) !in state.entries
        invariant i > 2 ==> EnvScope(Shared, env) !in state.entries
      {
        var scope := ScopeOf(canon, modes[i], canonical, env);
        if scope.Some? && scope.value in state.entries && state.entries[scope.value].env == env {
          return Some(Match(Stripped(state.entries[scope.value]), family, scope.value, state.revision));
        }
      }
      return None;
    }

    method MatchCurrent(found: Match) returns (current: bool)
      ensures current <==> Current(families, found)
    {
      if found.family !in families || families[found.family].revision != found.revision {
        return false;
      }
      var entries := families[found.family].entries;
      return found.scope in entries && entries[found.scope].env == found.snapshot.env;
    }
  }
}
