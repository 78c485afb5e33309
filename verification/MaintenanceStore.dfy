/**
 The durable ledger: two files, each replaced atomically. A commit first prepares a transaction,
 then replaces the ledger, then certifies the transaction. Recovery accepts only a certified
 transaction that names the ledger's own content, and refuses everything else.
 */
module MaintenanceStore {
  import opened Options
  import opened MaintenanceModel

  /** One ledger record. */
  datatype Record = Record(keys: set<Key>, state: LeaseState, expiresAt: int, drainDeadline: int)

  type Records = map<HoldId, Record>

  /** The ledger file; its content digest is injective, so the content stands for it. */
  datatype Ledger = Ledger(transaction: nat, records: Records)

  datatype Transaction = Transaction(id: nat, target: Ledger, committed: bool)

  /** What the disk holds: the private directory and its two files. */
  datatype Store = Store(directory: bool, transaction: Option<Transaction>, ledger: Option<Ledger>)

  /** What a start reads: the records, or a refusal. No directory at all is a cold start. */
  function Recover(store: Store): Option<Records> {
    if store.transaction.None? && store.ledger.None? then
      if store.directory then None else Some(map[])
    else if store.transaction.None? || store.ledger.None? then None
    else
      var t, l := store.transaction.value, store.ledger.value;
      if t.committed && t.id == l.transaction && t.target == l then Some(l.records) else None
  }

  /** How one atomic file replacement ended: acknowledged, or reported failed with or without effect. */
  datatype WriteOutcome = Acknowledged | Lost | Unacknowledged

  method WriteTransaction(store: Store, t: Transaction) returns (ok: bool, next: Store)
    ensures ok ==> next == store.(directory := true, transaction := Some(t))
    ensures !ok ==>
              || next == store
              || next == store.(directory := true)
              || next == store.(directory := true, transaction := Some(t))
  {
    var outcome: WriteOutcome := *;
    var created := *;
    match outcome
    case Acknowledged => return true, store.(directory := true, transaction := Some(t));
    case Lost => return false, if created then store.(directory := true) else store;
    case Unacknowledged => return false, store.(directory := true, transaction := Some(t));
  }

  method WriteLedger(store: Store, l: Ledger) returns (ok: bool, next: Store)
    ensures
      || next == store.(directory := true, ledger := Some(l))
      || (!ok && (next == store || next == store.(directory := true)))
  {
    var outcome: WriteOutcome := *;
    match outcome
    case Acknowledged => return true, store.(directory := true, ledger := Some(l));
    case Lost => return false, store;
    case Unacknowledged => return false, store.(directory := true, ledger := Some(l));
  }

  /**
   One ledger commit, with every state the disk goes through. Acknowledged, a start recovers exactly
   the new records; not acknowledged, a start refuses, or recovers what it would have recovered
   before, or the new records, and nothing else: no mixture and nothing older. A crash between two
   writes is always refused. The ledger changes only under its own prepared transaction, and is
   certified only where it already stands.
   */
  method CommitStore(store: Store, token: nat, records: Records)
    returns (ok: bool, next: Store, ghost trail: seq<Store>)
    ensures ok ==> Recover(next) == Some(records)
    ensures !ok ==> Recover(next) == None || Recover(next) == Recover(store) || Recover(next) == Some(records)
    ensures |trail| > 0 && trail[0] == store && trail[|trail| - 1] == next && (ok ==> |trail| == 4)
    ensures forall i :: 0 < i < |trail| - 1 ==> Recover(trail[i]).None?
    ensures forall i :: 0 < i < |trail| && trail[i].ledger != trail[i - 1].ledger ==>
      trail[i - 1].transaction == Some(Transaction(token, Ledger(token, records), false))
    ensures forall i :: 0 < i < |trail| && trail[i].transaction != trail[i - 1].transaction ==>
      trail[i].transaction.Some?
      && (trail[i].transaction.value.committed ==> i == 3 && trail[i - 1].ledger == Some(Ledger(token, records)))
  {
    var ledger := Ledger(token, records);
    var transaction := Transaction(token, ledger, false);
    ok, next := WriteTransaction(store, transaction);
    trail := [store, next];
    if !ok {
      return;
    }
    ok, next := WriteLedger(next, ledger);
    trail := trail + [next];
    if !ok {
      return;
    }
    ok, next := WriteTransaction(next, transaction.(committed := true));
    trail := trail + [next];
  }

  /** The records of a lease map. */
  function RecordOf(lease: Lease): Record {
    Record(lease.keys, lease.result.state, lease.result.expiresAt, lease.result.drainDeadline)
  }

  function RecordsOf(leases: map<HoldId, Lease>): Records {
    map id | id in leases :: RecordOf(leases[id])
  }

  /** The records a start accepts. */
  predicate ValidLedger(ledger: Records) {
    && (forall id :: id in ledger ==>
          && ExactId(id) && ledger[id].keys != {} && ledger[id].state != Released
          && ledger[id].expiresAt != 0 && ledger[id].drainDeadline != 0)
    && (forall a, b :: a in ledger && b in ledger && a != b ==> ledger[a].keys !! ledger[b].keys)
  }
}
