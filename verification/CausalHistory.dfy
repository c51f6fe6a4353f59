/**
 * The bounded causal history: whatever order decisions reach publication in,
 * the buffer holds the newest causal identities, in order.
 */
module CausalHistory {
  import opened Basics

  datatype Record = Record(sequence: uint64, body: nat)

  ghost predicate Rising(s: seq<Record>) {
    forall i, j | 0 <= i < j < |s| :: s[i].sequence < s[j].sequence
  }

  /** How many records precede `sequence`. */
  function Place(s: seq<Record>, sequence: uint64): nat {
    if s == [] then 0
    else if s[|s| - 1].sequence < sequence then |s|
    else Place(s[..|s| - 1], sequence)
  }

  lemma {:induction false} PlaceSplits(s: seq<Record>, sequence: uint64)
    requires Rising(s)
    ensures Place(s, sequence) <= |s|
    ensures forall i | 0 <= i < |s| :: s[i].sequence < sequence <==> i < Place(s, sequence)
    decreases |s|
  {
    if s != [] {
      PlaceSplits(s[..|s| - 1], sequence);
    }
  }

  predicate Holds(s: seq<Record>, sequence: uint64) {
    exists i :: 0 <= i < |s| && s[i].sequence == sequence
  }

  /** The buffer of at most `k` records after `r` is published. */
  function Published(s: seq<Record>, k: nat, r: Record): seq<Record> {
    var i := Place(s, r.sequence);
    if Holds(s, r.sequence) || i > |s| then s
    else if |s| < k then s[..i] + [r] + s[i..]
    else if i == 0 then s
    else s[1..i] + [r] + s[i..]
  }

  /** Whether publishing `r` drops a record: it does whenever the buffer is full and `r` is new to it. */
  predicate Drops(s: seq<Record>, k: nat, r: Record) {
    !Holds(s, r.sequence) && |s| == k
  }

  // --------------------------------------------- what the buffer should hold

  /** No two records of `all` carry the same number. */
  ghost predicate Unique(all: set<Record>) {
    forall a, b | a in all && b in all && a.sequence == b.sequence :: a == b
  }

  /** `s` lists the `k` records of `all` with the largest numbers, or all of them if there are fewer. */
  ghost predicate Newest(all: set<Record>, k: nat, s: seq<Record>) {
    && Rising(s) && (forall r | r in s :: r in all)
    && |s| == (if |all| < k then |all| else k)
    && (forall r, q | r in all && r !in s && q in s :: r.sequence < q.sequence)
  }

  ghost function SetOf(s: seq<Record>): set<Record> {
    set r | r in s
  }

  lemma {:induction false} RisingSize(s: seq<Record>)
    requires Rising(s)
    ensures |SetOf(s)| == |s|
    decreases |s|
  {
    if s != [] {
      var init := s[..|s| - 1];
      RisingSize(init);
      assert SetOf(s) == SetOf(init) + {s[|s| - 1]};
    }
  }

  lemma SubsetSize(a: set<Record>, b: set<Record>)
    requires a <= b
    ensures |a| <= |b| && (|a| == |b| ==> a == b)
  {
    assert b == a + (b - a);
  }

  lemma EmptyTogether(s: seq<Record>, t: seq<Record>)
    requires forall r :: r in s <==> r in t
    ensures s == [] <==> t == []
  {
    if s != [] { assert s[0] in s; }
    if t != [] { assert t[0] in t; }
  }

  /** Equal sets of records are listed in one way only. */
  lemma {:induction false} RisingUnique(s: seq<Record>, t: seq<Record>)
    requires Rising(s) && Rising(t) && forall r :: r in s <==> r in t
    ensures s == t
    decreases |s|
  {
    EmptyTogether(s, t);
    if s != [] {
      var m, n := |s| - 1, |t| - 1;
      assert s[m] in s;
      var j :| 0 <= j <= n && t[j] == s[m];
      assert t[n] in t;
      var i :| 0 <= i <= m && s[i] == t[n];
      assert s[m] == t[n];
      forall r ensures r in s[..m] <==> r in t[..n] {
        assert r in s <==> r in s[..m] || r == s[m];
        assert r in t <==> r in t[..n] || r == t[n];
      }
      RisingUnique(s[..m], t[..n]);
    }
  }

  lemma OutsideIsOlder(all: set<Record>, k: nat, s: seq<Record>, r: Record, q: Record)
    requires Newest(all, k, s) && r in all && r !in s && q in s
    ensures r.sequence < q.sequence
  {
  }

  /** The newest `k` records are determined by the set of all records: how they were published does not matter. */
  lemma NewestUnique(all: set<Record>, k: nat, s: seq<Record>, t: seq<Record>)
    requires Unique(all) && Newest(all, k, s) && Newest(all, k, t)
    ensures s == t
  {
    RisingSize(s);
    RisingSize(t);
    var a, b := SetOf(s), SetOf(t);
    if a != b {
      if a <= b { SubsetSize(a, b); }
      if b <= a { SubsetSize(b, a); }
      var x :| x in a && x !in b;
      var y :| y in b && y !in a;
      OutsideIsOlder(all, k, t, x, y);
      OutsideIsOlder(all, k, s, y, x);
      assert false;
    }
    forall r ensures r in s <==> r in t {
      assert r in s <==> r in a;
      assert r in t <==> r in b;
    }
    RisingUnique(s, t);
  }

  // -------------------------------------------------------- publication

  ghost function Inserted(s: seq<Record>, i: nat, r: Record): seq<Record>
    requires i <= |s|
  {
    s[..i] + [r] + s[i..]
  }

  lemma InsertedMembers(s: seq<Record>, i: nat, r: Record)
    requires i <= |s|
    ensures |Inserted(s, i, r)| == |s| + 1 && forall q :: q in Inserted(s, i, r) <==> q in s || q == r
  {
    assert s == s[..i] + s[i..];
  }

  lemma InsertedRises(s: seq<Record>, i: nat, r: Record)
    requires i <= |s| && Rising(s)
    requires forall j | 0 <= j < |s| :: s[j].sequence != r.sequence && (s[j].sequence < r.sequence <==> j < i)
    ensures Rising(Inserted(s, i, r))
  {
    var t := Inserted(s, i, r);
    assert forall a | 0 <= a < |t| :: t[a] == if a < i then s[a] else if a == i then r else s[a - 1];
  }

  /** A fresh number separates the buffer. */
  lemma {:induction false} FreshPlace(all: set<Record>, s: seq<Record>, r: Record)
    requires Rising(s) && (forall q | q in s :: q in all) && r !in all && Unique(all + {r})
    ensures Place(s, r.sequence) <= |s| && !Holds(s, r.sequence)
    ensures forall j | 0 <= j < |s| :: s[j].sequence != r.sequence && (s[j].sequence < r.sequence <==> j < Place(s, r.sequence))
  {
    PlaceSplits(s, r.sequence);
    forall j | 0 <= j < |s| ensures s[j].sequence != r.sequence {
      assert s[j] in s;
    }
  }

  /** A buffer that is not full holds everything. */
  lemma NothingDropped(all: set<Record>, k: nat, s: seq<Record>)
    requires Newest(all, k, s) && |all| <= k
    ensures forall r | r in all :: r in s
  {
    RisingSize(s);
    assert SetOf(s) <= all;
    SubsetSize(SetOf(s), all);
  }

  lemma RestMembers(s: seq<Record>)
    requires s != [] && Rising(s)
    ensures Rising(s[1..]) && s[0] in s
    ensures forall q | q in s[1..] :: q in s && s[0].sequence < q.sequence
    ensures forall q | q in s :: q == s[0] || q in s[1..]
  {
    assert s == [s[0]] + s[1..];
  }

  lemma GrownNewest(all: set<Record>, k: nat, s: seq<Record>, r: Record)
    requires Newest(all, k, s) && r !in all && Unique(all + {r}) && |s| < k
    ensures Newest(all + {r}, k, Published(s, k, r))
  {
    FreshPlace(all, s, r);
    var i := Place(s, r.sequence);
    InsertedMembers(s, i, r);
    InsertedRises(s, i, r);
    NothingDropped(all, k, s);
    assert |all + {r}| == |all| + 1;
    assert Published(s, k, r) == Inserted(s, i, r);
  }

  /** A record older than a full buffer is dropped at once. */
  lemma {:induction false} SkippedNewest(all: set<Record>, k: nat, s: seq<Record>, r: Record)
    requires Newest(all, k, s) && r !in all && Unique(all + {r}) && |s| == k && Place(s, r.sequence) == 0
    ensures Newest(all + {r}, k, Published(s, k, r))
  {
    FreshPlace(all, s, r);
    hide Place, Rising;
    assert |all + {r}| == |all| + 1;
    assert forall q | q in s :: r.sequence < q.sequence;
  }

  lemma NewestIs(all: set<Record>, k: nat, s: seq<Record>)
    requires Newest(all, k, s)
    ensures Rising(s) && (forall r | r in s :: r in all) && |s| <= k
  {
  }

  /** The newest records after a newer one took the place of the oldest. */
  lemma OldestGivesWay(all: set<Record>, k: nat, s: seq<Record>, r: Record, t: seq<Record>)
    requires Newest(all, k, s) && r !in all && |s| == k > 0 && s[0].sequence < r.sequence
    requires Rising(t) && |t| == k && forall q :: q in t <==> q in s[1..] || q == r
    ensures Newest(all + {r}, k, t)
  {
    RestMembers(s);
    hide Rising;
    assert |all + {r}| == |all| + 1;
    forall a, q | a in all + {r} && a !in t && q in t ensures a.sequence < q.sequence {
      if a in s {
        assert a == s[0];
      }
    }
  }

  /** Otherwise the oldest record gives way. */
  lemma {:induction false} ShiftedNewest(all: set<Record>, k: nat, s: seq<Record>, r: Record)
    requires Newest(all, k, s) && r !in all && Unique(all + {r}) && |s| == k && Place(s, r.sequence) > 0
    ensures Newest(all + {r}, k, Published(s, k, r))
  {
    hide Published, Place, Holds, Inserted, Newest;
    NewestIs(all, k, s);
    FreshPlace(all, s, r);
    var i, rest := Place(s, r.sequence), s[1..];
    PublishedIs(s, k, r);
    AppendFits(s, r);
    RestMembers(s);
    InsertedMembers(rest, i - 1, r);
    OldestGivesWay(all, k, s, r, Inserted(rest, i - 1, r));
  }

  /** Publishing keeps the newest records, whatever has been dropped before. */
  lemma PublishedNewest(all: set<Record>, k: nat, s: seq<Record>, r: Record)
    requires Newest(all, k, s) && r !in all && Unique(all + {r})
    ensures Newest(all + {r}, k, Published(s, k, r))
    ensures Drops(s, k, r) <==> |all| >= k
  {
    FreshPlace(all, s, r);
    if |s| < k {
      GrownNewest(all, k, s, r);
    } else if Place(s, r.sequence) == 0 {
      SkippedNewest(all, k, s, r);
    } else {
      ShiftedNewest(all, k, s, r);
    }
  }

  /** The buffer after publishing `rs` one after the other. */
  ghost function PublishedAll(rs: seq<Record>, k: nat): seq<Record> {
    if rs == [] then [] else Published(PublishedAll(rs[..|rs| - 1], k), k, rs[|rs| - 1])
  }

  /** How many of them a full buffer had to drop. */
  ghost function DroppedAll(rs: seq<Record>, k: nat): nat {
    if rs == [] then 0 else
      var init := rs[..|rs| - 1];
      DroppedAll(init, k) + if Drops(PublishedAll(init, k), k, rs[|rs| - 1]) then 1 else 0
  }

  ghost predicate Different(rs: seq<Record>) {
    forall i, j | 0 <= i < j < |rs| :: rs[i].sequence != rs[j].sequence
  }

  lemma AddsOne(rs: seq<Record>)
    requires rs != [] && Different(rs)
    ensures var n := |rs| - 1;
      Different(rs[..n]) && SetOf(rs) == SetOf(rs[..n]) + {rs[n]} && rs[n] !in SetOf(rs[..n]) && Unique(SetOf(rs))
  {
    var n := |rs| - 1;
    assert rs == rs[..n] + [rs[n]];
  }

  lemma PublishedSize(s: seq<Record>, k: nat, r: Record)
    requires Rising(s) && |s| <= k && !Holds(s, r.sequence)
    ensures |Published(s, k, r)| == |s| + if Drops(s, k, r) then 0 else 1
  {
    PlaceSplits(s, r.sequence);
  }

  lemma NothingPublished(k: nat)
    ensures Newest(SetOf([]), k, []) && |SetOf([])| == 0
  {
    assert SetOf([]) == {};
  }

  /** One more record is published, and retained or dropped. */
  lemma PublishedOne(all: set<Record>, k: nat, s: seq<Record>, r: Record)
    requires Newest(all, k, s) && r !in all && Unique(all + {r})
    ensures |all + {r}| == |all| + 1 && |Published(s, k, r)| == |s| + if Drops(s, k, r) then 0 else 1
  {
    hide Published, Drops, Place, Holds;
    FreshPlace(all, s, r);
    PublishedSize(s, k, r);
  }

  /** After any publications with different numbers, in any order, the buffer holds exactly the newest ones, and every other one was counted as dropped. */
  lemma {:induction false} HistoryIsNewest(rs: seq<Record>, k: nat)
    requires Different(rs)
    ensures Newest(SetOf(rs), k, PublishedAll(rs, k)) && |SetOf(rs)| == |rs|
    ensures |PublishedAll(rs, k)| + DroppedAll(rs, k) == |rs|
    decreases |rs|
  {
    hide Newest, Different, Published, Drops, SetOf;
    if rs == [] {
      NothingPublished(k);
    } else {
      var n := |rs| - 1;
      AddsOne(rs);
      HistoryIsNewest(rs[..n], k);
      PublishedNewest(SetOf(rs[..n]), k, PublishedAll(rs[..n], k), rs[n]);
      PublishedOne(SetOf(rs[..n]), k, PublishedAll(rs[..n], k), rs[n]);
    }
  }

  lemma AllUnique(rs: seq<Record>)
    requires Different(rs)
    ensures Unique(SetOf(rs))
  {
  }

  /** The history does not depend on the order of publication. */
  lemma {:induction false} OrderDoesNotMatter(a: seq<Record>, b: seq<Record>, k: nat)
    requires Different(a) && Different(b) && multiset(a) == multiset(b)
    ensures PublishedAll(a, k) == PublishedAll(b, k) && DroppedAll(a, k) == DroppedAll(b, k)
  {
    hide Different, Newest, PublishedAll, DroppedAll;
    HistoryIsNewest(a, k);
    HistoryIsNewest(b, k);
    AllUnique(a);
    forall r ensures r in a <==> r in b {
      assert r in multiset(a) <==> r in multiset(b);
    }
    var all := SetOf(a);
    assert all == SetOf(b);
    NewestUnique(all, k, PublishedAll(a, k), PublishedAll(b, k));
  }

  // ----------------------------------------------------------- the buffer

  class History {
    const records: array<Record>
    var count: nat
    var dropped: uint64

    ghost predicate Valid()
      reads this, records
    {
      count <= records.Length && Rising(records[..count])
    }

    ghost function Contents(): seq<Record>
      reads this, records
      requires Valid()
    {
      records[..count]
    }

    constructor (capacity: nat)
      ensures Valid() && fresh(records) && records.Length == capacity && Contents() == [] && dropped == 0
    {
      records := new Record[capacity](_ => Record(0, 0));
      count, dropped := 0, 0;
    }

    /** Binary search for the first record that does not precede `sequence`. */
    method Search(sequence: uint64) returns (index: nat, found: bool)
      requires Valid()
      ensures index == Place(Contents(), sequence) && index <= count
      ensures found <==> Holds(Contents(), sequence)
    {
      var low, high := 0, count;
      while low < high
        invariant 0 <= low <= high <= count
        invariant forall i | 0 <= i < low :: records[i].sequence < sequence
        invariant forall i | high <= i < count :: sequence <= records[i].sequence
      {
        var mid := (low + high) / 2;
        if records[mid].sequence < sequence {
          low := mid + 1;
        } else {
          high := mid;
        }
      }
      PlaceSplits(Contents(), sequence);
      assert low == Place(Contents(), sequence) by {
        assert low < count ==> !(Contents()[low].sequence < sequence);
        assert low > 0 ==> Contents()[low - 1].sequence < sequence;
      }
      index, found := low, low < count && records[low].sequence == sequence;
    }

    /** The drop counter saturates. */
    method Drop()
      requires Valid()
      modifies `dropped
      ensures Valid() && dropped == if old(dropped) < MAX_UINT64 then old(dropped) + 1 else MAX_UINT64
      ensures Contents() == old(Contents())
    {
      if dropped < MAX_UINT64 {
        dropped := dropped + 1;
      }
    }

    /** appendRecordLocked: searches, makes room by dropping the oldest record, shifts and inserts in place. */
    method Append(record: Record)
      requires Valid()
      modifies this, records
      ensures Valid() && Contents() == Published(old(Contents()), records.Length, record)
      ensures dropped == if Drops(old(Contents()), records.Length, record) && old(dropped) < MAX_UINT64 then old(dropped) + 1 else old(dropped)
    {
      hide Rising, Place, Holds, Inserted, Published, Drops, Younger;
      ghost var before := Contents();
      DropsFull(before, records.Length, record);
      var index, present := Search(record.sequence);
      if present {
        PublishedHeld(before, records.Length, record);
        return;
      }
      if count == records.Length {
        Drop();
        if index == 0 {
          PublishedOld(before, record);
          return;
        }
        PublishedShifts(before, record);
        DropOldest();
        index := index - 1;
      } else {
        PublishedGrows(before, records.Length, record);
      }
      Insert(record, index);
    }

    method DropOldest()
      requires Valid() && 0 < count
      modifies `count, records
      ensures Valid() && Contents() == Younger(old(Contents())) && count == old(count) - 1
    {
      RestMembers(Contents());
      ShiftDown(count);
      count := count - 1;
      assert records[..count] == old(Contents())[1..];
    }

    /** Opens a gap at `index` and fills it. */
    method Insert(record: Record, index: nat)
      requires Valid() && index <= count < records.Length && Rising(Inserted(Contents(), index, record))
      modifies `count, records
      ensures Valid() && Contents() == Inserted(old(Contents()), index, record)
    {
      ghost var kept := Contents();
      ShiftUp(index);
      records[index] := record;
      count := count + 1;
      assert records[..count] == Inserted(kept, index, record);
    }

    /** Moves every record but the first one place down. */
    method ShiftDown(n: nat)
      requires 0 < n == count <= records.Length
      modifies records
      ensures forall i | 0 <= i < n - 1 :: records[i] == old(records[i + 1])
    {
      for i := 0 to n - 1
        invariant forall j | 0 <= j < i :: records[j] == old(records[j + 1])
        invariant forall j | i <= j < n :: records[j] == old(records[j])
      {
        records[i] := records[i + 1];
      }
    }

    /** Moves the records from `index` on one place up. */
    method ShiftUp(index: nat)
      requires index <= count < records.Length
      modifies records
      ensures forall i | 0 <= i < index :: records[i] == old(records[i])
      ensures forall i | index <= i < count :: records[i + 1] == old(records[i])
    {
      for i := count downto index
        invariant forall j | 0 <= j <= i :: records[j] == old(records[j])
        invariant forall j | i < j <= count :: records[j] == old(records[j - 1])
      {
        if i < count {
          records[i + 1] := records[i];
        }
      }
    }
  }

  lemma PublishedHeld(s: seq<Record>, k: nat, r: Record)
    requires Holds(s, r.sequence)
    ensures Published(s, k, r) == s
  {
  }

  lemma {:induction false} PublishedIs(s: seq<Record>, k: nat, r: Record)
    requires Rising(s) && !Holds(s, r.sequence) && |s| <= k
    ensures var i := Place(s, r.sequence);
      && i <= |s|
      && Published(s, k, r) == (if |s| < k then Inserted(s, i, r) else if i == 0 then s else Inserted(s[1..], i - 1, r))
  {
    AppendFits(s, r);
  }

  lemma DropsFull(s: seq<Record>, k: nat, r: Record)
    ensures Drops(s, k, r) == (!Holds(s, r.sequence) && |s| == k)
  {
  }

  lemma PublishedOld(s: seq<Record>, r: Record)
    requires Place(s, r.sequence) == 0
    ensures Published(s, |s|, r) == s
  {
  }

  lemma PublishedGrows(s: seq<Record>, k: nat, r: Record)
    requires Rising(s) && !Holds(s, r.sequence) && |s| < k
    ensures var i := Place(s, r.sequence);
      i <= |s| && Rising(Inserted(s, i, r)) && Published(s, k, r) == Inserted(s, i, r)
  {
    AppendFits(s, r);
  }

  /** All but the oldest record. */
  ghost function Younger(s: seq<Record>): seq<Record>
    requires s != []
  {
    s[1..]
  }

  lemma PublishedShifts(s: seq<Record>, r: Record)
    requires Rising(s) && !Holds(s, r.sequence) && Place(s, r.sequence) > 0
    ensures var i := Place(s, r.sequence);
      && i <= |s| && i <= |Younger(s)| + 1
      && Rising(Inserted(Younger(s), i - 1, r)) && Published(s, |s|, r) == Inserted(Younger(s), i - 1, r)
  {
    AppendFits(s, r);
  }

  /** What Append writes is what publication means. */
  lemma AppendFits(s: seq<Record>, r: Record)
    requires Rising(s) && !Holds(s, r.sequence)
    ensures var i := Place(s, r.sequence);
      && i <= |s| && Rising(Inserted(s, i, r))
      && (i > 0 ==> Rising(Inserted(s[1..], i - 1, r)) && Inserted(s[1..], i - 1, r) == s[1..i] + [r] + s[i..])
  {
    hide Place, Rising;
    PlaceSplits(s, r.sequence);
    var i := Place(s, r.sequence);
    assert forall j | 0 <= j < |s| :: s[j].sequence != r.sequence;
    InsertedRises(s, i, r);
    if i > 0 {
      var rest := s[1..];
      RestMembers(s);
      assert forall j | 0 <= j < |rest| :: rest[j] == s[j + 1];
      InsertedRises(rest, i - 1, r);
      assert rest[..i - 1] == s[1..i] && rest[i - 1..] == s[i..];
    }
  }
}
