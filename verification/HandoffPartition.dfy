/** The list checks of the handoff: exact identity sets, matching sets and the final partition. */
module HandoffPartition {
  import opened Options
  import opened HandoffProto

  /** What the final acknowledgment must be against the announced and the receipted identities. */
  predicate FinalPartition(ready: seq<Id>, receipted: seq<Id>, accepted: seq<Id>, aborted: seq<Id>) {
    && Exact(ready) && Exact(receipted) && Exact(accepted) && Exact(aborted)
    && Set(accepted) <= Set(receipted)
    && Set(accepted) !! Set(aborted)
    && Set(accepted) + Set(aborted) == Set(ready)
  }

  datatype PartitionError = NotExact | NotReceipted | Both | WrongCount | Missing | UnknownAccepted | UnknownAborted

  datatype Partition = Partition(accepted: set<Id>) | Rejected(error: PartitionError)

  method ExactIdSet(ids: seq<Id>) returns (r: Option<set<Id>>)
    ensures r.Some? <==> Exact(ids)
    ensures r.Some? ==> r.value == Set(ids) && |r.value| == |ids|
  {
    var found: set<Id> := {};
    for i := 0 to |ids|
      invariant found == Set(ids[..i]) && Exact(ids[..i])
    {
      if ids[i] == "" || ids[i] in found {
        var bad :| 0 <= bad <= i && (ids[bad] == "" || (bad < i && ids[bad] == ids[i]));
        return None;
      }
      assert ids[..i + 1] == ids[..i] + [ids[i]];
      found := found + {ids[i]};
    }
    assert ids[..|ids|] == ids;
    ExactSize(ids);
    return Some(found);
  }

  /** Whether `a` lies inside `b`, or apart from it: the shape of every membership loop below. */
  method FirstOutside(a: set<Id>, b: set<Id>, inside: bool) returns (bad: Option<Id>)
    ensures bad.None? <==> if inside then a <= b else a !! b
    ensures bad.Some? ==> bad.value in a && (bad.value in b) != inside
  {
    var todo := a;
    while todo != {}
      invariant todo <= a
      invariant forall id :: id in a - todo ==> (id in b) == inside
    {
      var id :| id in todo;
      if (id in b) != inside {
        return Some(id);
      }
      todo := todo - {id};
    }
    return None;
  }

  /**
   The sender's test of the final acknowledgment, in the source's order. It accepts exactly the
   final partitions, and the two last tests never fire: the counts already rule them out.
   */
  method ValidateFinalPartition(ready: seq<Id>, receipted: seq<Id>, accepted: seq<Id>, aborted: seq<Id>)
    returns (r: Partition)
    ensures r.Partition? <==> FinalPartition(ready, receipted, accepted, aborted)
    ensures r.Partition? ==> r.accepted == Set(accepted)
    ensures r.Rejected? ==> r.error != UnknownAccepted && r.error != UnknownAborted
  {
    var readySet := ExactIdSet(ready);
    var receiptSet := ExactIdSet(receipted);
    var acceptedSet := ExactIdSet(accepted);
    var abortedSet := ExactIdSet(aborted);
    if readySet.None? || receiptSet.None? || acceptedSet.None? || abortedSet.None? {
      return Rejected(NotExact);
    }
    var whole, acc, abt := readySet.value, acceptedSet.value, abortedSet.value;
    var bad := FirstOutside(acc, receiptSet.value, true);
    if bad.Some? {
      return Rejected(NotReceipted);
    }
    bad := FirstOutside(acc, abt, false);
    if bad.Some? {
      return Rejected(Both);
    }
    if |acc| + |abt| != |whole| {
      assert |acc + abt| == |acc| + |abt|;
      return Rejected(WrongCount);
    }
    bad := FirstOutside(whole, acc + abt, true);
    if bad.Some? {
      return Rejected(Missing);
    }
    PartitionByCount(whole, acc, abt);
    bad := FirstOutside(acc, whole, true);
    if bad.Some? {
      return Rejected(UnknownAccepted);
    }
    bad := FirstOutside(abt, whole, true);
    if bad.Some? {
      return Rejected(UnknownAborted);
    }
    return Partition(acc);
  }

  /** Comparing sizes and one inclusion decides equality with a duplicate-free list. */
  method SameIdSet(got: set<Id>, want: seq<Id>) returns (same: bool)
    ensures same <==> |got| == |want| && Set(want) <= got
    ensures NoDuplicates(want) ==> (same <==> got == Set(want))
  {
    if NoDuplicates(want) {
      ExactSize(want);
    }
    if |got| != |want| {
      return false;
    }
    for i := 0 to |want|
      invariant forall j :: 0 <= j < i ==> want[j] in got
    {
      if want[i] !in got {
        assert want[i] in Set(want);
        return false;
      }
    }
    SubsetSize(Set(want), got);
    return true;
  }

  /** The members, or the non-members, of the accepted set, in the order of the list. */
  method OrderedIds(ids: seq<Id>, accepted: set<Id>, want: bool) returns (chosen: seq<Id>)
    ensures chosen == Choose(ids, accepted, want)
  {
    chosen := [];
    for i := 0 to |ids|
      invariant chosen == Choose(ids[..i], accepted, want)
    {
      assert ids[..i + 1] == ids[..i] + [ids[i]];
      ChooseSnoc(ids[..i], ids[i], accepted, want);
      if (ids[i] in accepted) == want {
        chosen := chosen + [ids[i]];
      }
    }
    assert ids[..|ids|] == ids;
  }
}
