/** The identities of isolated spawns: a counter suffix and the search for one that is free. */
module IsolatedIdentities {
  type ServerId = string

  function Digit(n: nat): char
    requires n < 10
  {
    "0123456789"[n]
  }

  function Decimal(n: nat): string {
    if n < 10 then [Digit(n)] else Decimal(n / 10) + [Digit(n % 10)]
  }

  function Candidate(base: ServerId, n: nat): ServerId {
    base + "-r" + Decimal(n)
  }

  lemma {:induction false} DecimalIsInjective(m: nat, n: nat)
    requires Decimal(m) == Decimal(n)
    ensures m == n
  {
    var s, t := Decimal(m), Decimal(n);
    assert s[|s| - 1] == Digit(m % 10) && t[|t| - 1] == Digit(n % 10);
    assert m % 10 == n % 10;
    if m >= 10 && n >= 10 {
      assert s[..|s| - 1] == Decimal(m / 10) && t[..|t| - 1] == Decimal(n / 10);
      DecimalIsInjective(m / 10, n / 10);
    }
  }

  lemma CandidateIsInjective(base: ServerId, m: nat, n: nat)
    requires Candidate(base, m) == Candidate(base, n)
    ensures m == n
  {
    var prefix := base + "-r";
    assert Candidate(base, m)[|prefix|..] == Decimal(m);
    assert Candidate(base, n)[|prefix|..] == Decimal(n);
    DecimalIsInjective(m, n);
  }

  /** The occupied candidates that a search past `counter` can still meet. */
  ghost function Ahead(owners: set<ServerId>, base: ServerId, counter: nat): set<ServerId> {
    set sid | sid in owners && exists n: nat :: counter < n && sid == Candidate(base, n)
  }

  lemma AheadShrinks(owners: set<ServerId>, base: ServerId, counter: nat)
    requires Candidate(base, counter + 1) in owners
    ensures Ahead(owners, base, counter + 1) < Ahead(owners, base, counter)
  {
    var hit := Candidate(base, counter + 1);
    assert hit in Ahead(owners, base, counter);
    if hit in Ahead(owners, base, counter + 1) {
      var n: nat :| counter + 1 < n && hit == Candidate(base, n);
      CandidateIsInjective(base, counter + 1, n);
    }
  }

  /** The search for a free identity: it ends, and on the first free one after the counter. */
  method FreeCandidate(owners: set<ServerId>, base: ServerId, start: nat) returns (sid: ServerId, counter: nat)
    ensures start < counter && sid == Candidate(base, counter) && sid !in owners
    ensures forall n: nat :: start < n < counter ==> Candidate(base, n) in owners
  {
    counter := start + 1;
    while Candidate(base, counter) in owners
      invariant start < counter
      invariant forall n: nat :: start < n < counter ==> Candidate(base, n) in owners
      decreases Ahead(owners, base, counter - 1)
    {
      AheadShrinks(owners, base, counter - 1);
      counter := counter + 1;
    }
    return Candidate(base, counter), counter;
  }

  /** The identity tried first: the base, or its candidate of a pending retry, or of the counter. */
  function FirstChoice(base: ServerId, retry: nat, counters: map<ServerId, nat>): ServerId {
    if retry > 0 then Candidate(base, retry)
    else if base in counters && counters[base] > 0 then Candidate(base, counters[base])
    else base
  }

  /** The identity registry of isolated spawns: occupied identities and the retry counter of each base. */
  class Identities {
    var owners: set<ServerId>
    var counters: map<ServerId, nat>

    constructor ()
      ensures owners == {} && counters == map[]
    {
      owners, counters := {}, map[];
    }

    /**
     Reserves an identity that no registered owner holds, whatever the registry holds: the first
     choice if it is free, which leaves the counters alone, else the first free candidate past the
     counter, which becomes the counter.
     */
    method ReserveIsolated(base: ServerId, retry: nat) returns (sid: ServerId)
      modifies this
      ensures sid !in old(owners) && owners == old(owners) + {sid}
      ensures var first := FirstChoice(base, retry, old(counters));
              if first !in old(owners) then sid == first && counters == old(counters)
              else
                var start := if base in old(counters) then old(counters)[base] else 0;
                && base in counters && counters == old(counters)[base := counters[base]]
                && start < counters[base] && sid == Candidate(base, counters[base])
                && forall n: nat :: start < n < counters[base] ==> Candidate(base, n) in old(owners)
    {
      var n := retry;
      if n == 0 && base in counters {
        n := counters[base];
      }
      sid := if n > 0 then Candidate(base, n) else base;
      if sid in owners {
        var counter;
        sid, counter := FreeCandidate(owners, base, if base in counters then counters[base] else 0);
        counters := counters[base := counter];
      }
      owners := owners + {sid};
    }
  }
}
