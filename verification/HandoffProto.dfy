/** Messages of the version 2 handoff protocol, identity lists, and the values both endpoints share. */
module HandoffProto {
  import opened Options

  type Id = string
  /** A process handle; zero is the missing handle. */
  type Handle = nat

  const PROTOCOL_VERSION := 2
  const NATIVE_PREFIX := "native-"

  /** The exact handle payload of one transport. */
  datatype Schema = Schema(count: nat, requiresAuthority: bool)

  /** The two transports: three stdio handles, or those and one tree authority. */
  predicate ValidSchema(schema: Schema) {
    schema.count == if schema.requiresAuthority then 4 else 3
  }

  datatype Upstream = Upstream(serverId: Id, command: string, pid: int,
                               stdin: Handle, stdout: Handle, stderr: Handle, authority: Handle)

  datatype UpstreamRef = UpstreamRef(serverId: Id, command: string, pid: int)

  /** Control messages, and the out-of-band handle batch that travels in order among them. */
  datatype Msg =
    | Ready(version: int, upstreams: seq<UpstreamRef>)
    | Transfer(version: int, serverId: Id, stdin: string, stdout: string, stderr: string, authority: Option<string>)
    | Ack(version: int, serverId: Id, ok: bool)
    | Done(version: int, transferred: seq<Id>, aborted: seq<Id>)
    | FinalAck(version: int, accepted: seq<Id>, aborted: seq<Id>)
    | Handles(fds: seq<Handle>)

  /** The server identity a reader finds in a message, whatever its type; absent reads as empty. */
  function NamedId(m: Msg): Id {
    if m.Transfer? || m.Ack? then m.serverId else ""
  }

  predicate IsModern(id: Id) {
    NATIVE_PREFIX <= id
  }

  /** What one transport can move: an owner of ours with a process and exactly the schema's handles. */
  predicate Sendable(schema: Schema, u: Upstream) {
    && !IsModern(u.serverId) && 0 < u.pid
    && u.stdin != 0 && u.stdout != 0 && u.stderr != 0
    && (schema.requiresAuthority <==> u.authority != 0)
  }

  // ----- Identity lists -----

  function Set(ids: seq<Id>): set<Id> {
    set id | id in ids
  }

  predicate NoDuplicates(ids: seq<Id>) {
    forall i, j :: 0 <= i < j < |ids| ==> ids[i] != ids[j]
  }

  /** What a valid identity list is: nonempty identities, none twice. */
  predicate Exact(ids: seq<Id>) {
    "" !in ids && NoDuplicates(ids)
  }

  lemma ExactSnoc(ids: seq<Id>, id: Id)
    ensures Exact(ids + [id]) <==> Exact(ids) && id != "" && id !in ids
  {
    var all := ids + [id];
    assert all[..|ids|] == ids && all[|ids|] == id;
    if Exact(all) {
      assert forall i :: 0 <= i < |ids| ==> all[i] == ids[i] && all[i] in all;
    }
  }

  /** The sublist of members, or of non-members, of a set, in order. */
  function Choose(ids: seq<Id>, chosen: set<Id>, want: bool): seq<Id> {
    if ids == [] then
      []
    else
      var front, last := Choose(ids[..|ids| - 1], chosen, want), ids[|ids| - 1];
      if (last in chosen) == want then front + [last] else front
  }

  lemma ChooseSnoc(ids: seq<Id>, id: Id, chosen: set<Id>, want: bool)
    ensures Choose(ids + [id], chosen, want) ==
              if (id in chosen) == want then Choose(ids, chosen, want) + [id] else Choose(ids, chosen, want)
  {
    assert (ids + [id])[..|ids|] == ids;
  }

  lemma {:induction false} ChooseMembers(ids: seq<Id>, chosen: set<Id>, want: bool, id: Id)
    ensures id in Choose(ids, chosen, want) <==> id in ids && (id in chosen) == want
    decreases |ids|
  {
    if ids != [] {
      ChooseMembers(ids[..|ids| - 1], chosen, want, id);
      assert ids == ids[..|ids| - 1] + [ids[|ids| - 1]];
    }
  }

  lemma {:induction false} ChooseExact(ids: seq<Id>, chosen: set<Id>, want: bool)
    requires Exact(ids)
    ensures Exact(Choose(ids, chosen, want))
    decreases |ids|
  {
    if ids != [] {
      var front, last := ids[..|ids| - 1], ids[|ids| - 1];
      assert forall id :: id in front ==> id in ids;
      ChooseExact(front, chosen, want);
      ChooseMembers(front, chosen, want, last);
      ChooseMembers(ids, chosen, want, "");
    }
  }

  /** The two sublists together hold every identity as often as the list does. */
  lemma {:induction false} ChoosePartitions(ids: seq<Id>, chosen: set<Id>)
    ensures multiset(Choose(ids, chosen, true)) + multiset(Choose(ids, chosen, false)) == multiset(ids)
    ensures |Choose(ids, chosen, true)| + |Choose(ids, chosen, false)| == |ids|
    decreases |ids|
  {
    if ids != [] {
      ChoosePartitions(ids[..|ids| - 1], chosen);
      assert ids == ids[..|ids| - 1] + [ids[|ids| - 1]];
    }
  }

  /** Choosing depends only on which of the list's own members are chosen. */
  lemma {:induction false} ChooseAgrees(ids: seq<Id>, a: set<Id>, b: set<Id>, want: bool)
    requires forall id :: id in ids ==> (id in a <==> id in b)
    ensures Choose(ids, a, want) == Choose(ids, b, want)
    decreases |ids|
  {
    if ids != [] {
      ChooseAgrees(ids[..|ids| - 1], a, b, want);
    }
  }

  lemma ChooseSet(ids: seq<Id>, chosen: set<Id>, want: bool)
    ensures Set(Choose(ids, chosen, want)) == if want then Set(ids) * chosen else Set(ids) - chosen
  {
    forall id
      ensures id in Set(Choose(ids, chosen, want)) <==> id in (if want then Set(ids) * chosen else Set(ids) - chosen)
    {
      ChooseMembers(ids, chosen, want, id);
    }
  }

  lemma {:induction false} ExactSize(ids: seq<Id>)
    requires NoDuplicates(ids)
    ensures |Set(ids)| == |ids|
    decreases |ids|
  {
    if ids != [] {
      var front, last := ids[..|ids| - 1], ids[|ids| - 1];
      ExactSize(front);
      assert ids == front + [last];
      assert Set(ids) == Set(front) + {last};
    }
  }

  lemma {:induction false} SubsetSize(a: set<Id>, b: set<Id>)
    requires a <= b
    ensures |a| <= |b|
    ensures |a| == |b| ==> a == b
  {
    if a != {} {
      var x :| x in a;
      SubsetSize(a - {x}, b - {x});
    }
  }

  /** Two disjoint parts as large as the whole that lie in it, or that cover it, are a partition of it. */
  lemma PartitionByCount(whole: set<Id>, a: set<Id>, b: set<Id>)
    requires a !! b && |a| + |b| == |whole|
    ensures (a + b <= whole || whole <= a + b) ==> a + b == whole
  {
    assert |a + b| == |a| + |b|;
    if a + b <= whole {
      SubsetSize(a + b, whole);
    } else if whole <= a + b {
      SubsetSize(whole, a + b);
    }
  }
}
