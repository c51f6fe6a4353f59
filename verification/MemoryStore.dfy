/**
 * The optimistic in-memory store: any number of updates may run their callbacks
 * at once, and a commit goes through only on the revision its callback was given.
 */
module MemoryStore {
  import opened Basics

  type Key = nat
  type State = nat

  /** A committed state with its optimistic concurrency token. */
  datatype Snapshot = Snapshot(state: State, revision: uint64)

  datatype Result = Committed(state: State) | NotFound | StepFailed(state: State) | Conflict(state: State, expected: uint64, actual: uint64)

  function Wrap(n: nat): uint64 {
    n % (MAX_UINT64 + 1)
  }

  /** The conditional commit of Update, on the entry's present snapshot. */
  function Commit(current: Snapshot, before: Snapshot, next: State): (Snapshot, Result) {
    if current.revision != before.revision then (current, Conflict(current.state, before.revision, current.revision))
    else (Snapshot(next, Inc64(before.revision)), Committed(next))
  }

  // ----------------------------------------------------------- the object

  class Store {
    var entries: map<Key, Snapshot>

    constructor (initial: map<Key, State>)
      ensures entries == map k | k in initial :: Snapshot(initial[k], 0)
    {
      entries := map k | k in initial :: Snapshot(initial[k], 0);
    }

    method Load(key: Key) returns (snapshot: Option<Snapshot>)
      ensures snapshot == if key in entries then Some(entries[key]) else None
    {
      if key in entries {
        return Some(entries[key]);
      }
      snapshot := None;
    }

    /** The critical section at the end of Update. */
    method ConditionalCommit(key: Key, before: Snapshot, next: State) returns (result: Result)
      requires key in entries
      modifies this
      ensures (entries, result) == (old(entries)[key := Commit(old(entries)[key], before, next).0], Commit(old(entries)[key], before, next).1)
    {
      var current := entries[key];
      if current.revision != before.revision {
        assert entries == entries[key := current];
        return Conflict(current.state, before.revision, current.revision);
      }
      entries := entries[key := Snapshot(next, Inc64(before.revision))];
      result := Committed(next);
    }
  }

  // ----------------------------------------------------------- the system

  /** A commit: the state its callback was given, what it returned, and how many commits there were at its load. */
  datatype Entry = Entry(given: State, next: State, loadedAt: nat)

  /** An update between its load and its commit. */
  datatype Update = Update(key: Key, before: Snapshot, loadedAt: nat)

  datatype Sys = Sys(initial: map<Key, State>, entries: map<Key, Snapshot>, updates: map<nat, Update>, log: map<Key, seq<Entry>>)

  /** Begin loads and runs the callback; Fail is its error or a cancellation; Finish is the conditional commit. */
  datatype Step = Begin(id: nat, key: Key) | Fail(id: nat) | Finish(id: nat, next: State)

  ghost predicate Init(c: Sys) {
    && c.entries == (map k | k in c.initial :: Snapshot(c.initial[k], 0))
    && c.log == (map k | k in c.initial :: []) && c.updates == map[]
  }

  predicate Enabled(c: Sys, step: Step) {
    match step
    case Begin(id, _) => id !in c.updates
    case Fail(id) => id in c.updates
    case Finish(id, _) => id in c.updates && c.updates[id].key in c.entries && c.updates[id].key in c.log
  }

  function Exec(c: Sys, step: Step): Sys
    requires Enabled(c, step)
  {
    match step
    case Begin(id, key) =>
      if key in c.entries && key in c.log
      then c.(updates := c.updates[id := Update(key, c.entries[key], |c.log[key]|)]) else c
    case Fail(id) => c.(updates := c.updates - {id})
    case Finish(id, next) =>
      var u := c.updates[id];
      var r := Commit(c.entries[u.key], u.before, next);
      c.(updates := c.updates - {id}, entries := c.entries[u.key := r.0],
         log := if r.1.Committed? then c.log[u.key := c.log[u.key] + [Entry(u.before.state, next, u.loadedAt)]] else c.log)
  }

  ghost predicate Runnable(c: Sys, steps: seq<Step>)
    decreases |steps|
  {
    steps == [] || (Enabled(c, steps[0]) && Runnable(Exec(c, steps[0]), steps[1..]))
  }

  ghost function Execute(c: Sys, steps: seq<Step>): Sys
    requires Runnable(c, steps)
    decreases |steps|
  {
    if steps == [] then c else Execute(Exec(c, steps[0]), steps[1..])
  }

  /** The state of `key` after its first `n` commits. */
  ghost function StateAt(c: Sys, key: Key, n: nat): State
    requires key in c.initial && key in c.log && n <= |c.log[key]|
  {
    if n == 0 then c.initial[key] else c.log[key][n - 1].next
  }

  /** A load saw the state and the revision after `loadedAt` commits. */
  ghost predicate LoadFine(c: Sys, u: Update) {
    && u.key in c.initial && u.key in c.log && u.loadedAt <= |c.log[u.key]|
    && u.before == Snapshot(StateAt(c, u.key, u.loadedAt), Wrap(u.loadedAt))
  }

  ghost predicate EntryFine(c: Sys, key: Key, i: nat)
    requires key in c.initial && key in c.log && i < |c.log[key]|
  {
    var e := c.log[key][i];
    e.loadedAt <= i && Wrap(e.loadedAt) == Wrap(i) && e.given == StateAt(c, key, e.loadedAt)
  }

  ghost predicate Inv(c: Sys) {
    && c.entries.Keys == c.initial.Keys == c.log.Keys
    && (forall k | k in c.entries :: c.entries[k] == Snapshot(StateAt(c, k, |c.log[k]|), Wrap(|c.log[k]|)))
    && (forall id | id in c.updates :: LoadFine(c, c.updates[id]))
    && (forall k, i: nat | k in c.log && i < |c.log[k]| :: EntryFine(c, k, i))
  }

  lemma WrapNext(n: nat)
    ensures Inc64(Wrap(n)) == Wrap(n + 1)
  {
  }

  /** Earlier states do not change when a log grows. */
  lemma StatesStay(c: Sys, d: Sys, key: Key, n: nat)
    requires d.initial == c.initial && key in c.initial && key in c.log && key in d.log
    requires c.log[key] <= d.log[key] && n <= |c.log[key]|
    ensures StateAt(d, key, n) == StateAt(c, key, n)
  {
  }

  /** The log of `key` grew by one commit of an update that loaded it at `loadedAt`. */
  lemma CommitInv(c: Sys, d: Sys, u: Update, next: State)
    requires Inv(c) && LoadFine(c, u) && Wrap(u.loadedAt) == Wrap(|c.log[u.key]|)
    requires d.initial == c.initial && d.log == c.log[u.key := c.log[u.key] + [Entry(u.before.state, next, u.loadedAt)]]
    requires d.entries == c.entries[u.key := Snapshot(next, Wrap(|c.log[u.key]| + 1))]
    requires forall id | id in d.updates :: id in c.updates && d.updates[id] == c.updates[id]
    ensures Inv(d)
  {
    hide Wrap;
    forall k | k in d.entries ensures d.entries[k] == Snapshot(StateAt(d, k, |d.log[k]|), Wrap(|d.log[k]|)) {
      if k != u.key { StatesStay(c, d, k, |c.log[k]|); }
    }
    forall other | other in d.updates ensures LoadFine(d, d.updates[other]) {
      assert LoadFine(c, c.updates[other]);
      StatesStay(c, d, c.updates[other].key, c.updates[other].loadedAt);
    }
    forall k, i: nat | k in d.log && i < |d.log[k]| ensures EntryFine(d, k, i) {
      if i < |c.log[k]| {
        assert EntryFine(c, k, i);
        StatesStay(c, d, k, c.log[k][i].loadedAt);
      } else {
        StatesStay(c, d, k, u.loadedAt);
      }
    }
  }

  lemma FinishInv(c: Sys, id: nat, next: State)
    requires Inv(c) && Enabled(c, Finish(id, next))
    ensures Inv(Exec(c, Finish(id, next)))
  {
    var d, u := Exec(c, Finish(id, next)), c.updates[id];
    assert LoadFine(c, u) && c.entries[u.key] == Snapshot(StateAt(c, u.key, |c.log[u.key]|), Wrap(|c.log[u.key]|));
    WrapNext(|c.log[u.key]|);
    hide Inv, Wrap, StateAt;
    if c.entries[u.key].revision == u.before.revision {
      CommitInv(c, d, u, next);
    } else {
      assert d.entries == c.entries;
      SameLogInv(c, d);
    }
  }

  lemma StepInv(c: Sys, step: Step)
    requires Inv(c) && Enabled(c, step)
    ensures Inv(Exec(c, step))
  {
    match step
    case Finish(id, next) => FinishInv(c, id, next);
    case _ => SameLogInv(c, Exec(c, step));
  }

  lemma SameLogInv(c: Sys, d: Sys)
    requires Inv(c) && d.initial == c.initial && d.entries == c.entries && d.log == c.log
    requires forall id | id in d.updates ::
      (id in c.updates && d.updates[id] == c.updates[id])
      || (d.updates[id].key in c.log && d.updates[id] == Update(d.updates[id].key, c.entries[d.updates[id].key], |c.log[d.updates[id].key]|))
    ensures Inv(d)
  {
    hide Wrap;
    forall id | id in d.updates ensures LoadFine(d, d.updates[id]) {
      if id in c.updates && d.updates[id] == c.updates[id] {
        assert LoadFine(c, c.updates[id]);
      }
    }
    forall k, i: nat | k in d.log && i < |d.log[k]| ensures EntryFine(d, k, i) {
      assert EntryFine(c, k, i);
    }
  }

  lemma {:induction false} RunInv(c: Sys, steps: seq<Step>)
    requires Inv(c) && Runnable(c, steps)
    ensures Inv(Execute(c, steps))
    decreases |steps|
  {
    hide Inv;
    if steps != [] {
      StepInv(c, steps[0]);
      RunInv(Exec(c, steps[0]), steps[1..]);
    }
  }

  ghost predicate Reachable(c: Sys) {
    exists start, steps :: Init(start) && Runnable(start, steps) && Execute(start, steps) == c
  }

  lemma {:induction false} ReachableInv(c: Sys)
    requires Reachable(c)
    ensures Inv(c)
  {
    var start, steps :| Init(start) && Runnable(start, steps) && Execute(start, steps) == c;
    assert Inv(start);
    RunInv(start, steps);
  }

  /** A key's revision is its number of commits, modulo 2^64, and its state is what the last of them wrote. */
  lemma {:induction false} RevisionCountsCommits(c: Sys, key: Key)
    requires Reachable(c) && key in c.entries
    ensures key in c.initial && key in c.log
    ensures c.entries[key] == Snapshot(StateAt(c, key, |c.log[key]|), Wrap(|c.log[key]|))
  {
    ReachableInv(c);
  }

  /**
   * Serialisability: every commit's callback was given the state some multiple
   * of 2^64 commits before it, so below 2^64 commits of the key exactly the state
   * committed immediately before it.
   */
  lemma {:induction false} CommitsFormAChain(c: Sys, key: Key, i: nat)
    requires Reachable(c) && key in c.log && i < |c.log[key]|
    ensures key in c.initial && var e := c.log[key][i];
      && e.loadedAt <= i && (i - e.loadedAt) % (MAX_UINT64 + 1) == 0 && e.given == StateAt(c, key, e.loadedAt)
      && (i <= MAX_UINT64 ==> e.given == StateAt(c, key, i))
  {
    ReachableInv(c);
    assert EntryFine(c, key, i);
    WrapEqual(c.log[key][i].loadedAt, i);
  }

  /**
   * When an update commits: exactly when the number of commits since its load is
   * a multiple of 2^64, which below 2^64 commits means none. A loser leaves the
   * entry as it is.
   */
  lemma {:induction false} CommitsExactlyUndisturbed(c: Sys, id: nat, next: State)
    requires Reachable(c) && Enabled(c, Finish(id, next))
    ensures var u, d := c.updates[id], Exec(c, Finish(id, next));
      var since := |c.log[u.key]| - u.loadedAt;
      && since >= 0
      && (since % (MAX_UINT64 + 1) == 0 <==> d.entries[u.key] == Snapshot(next, Wrap(|c.log[u.key]| + 1)) && d.log != c.log)
      && (since % (MAX_UINT64 + 1) != 0 <==> d.entries == c.entries && d.log == c.log)
  {
    ReachableInv(c);
    var u := c.updates[id];
    assert LoadFine(c, u);
    WrapNext(|c.log[u.key]|);
    WrapEqual(u.loadedAt, |c.log[u.key]|);
    var d := Exec(c, Finish(id, next));
    if c.entries[u.key].revision != u.before.revision {
      assert c.entries == c.entries[u.key := c.entries[u.key]];
    } else {
      assert |d.log[u.key]| == |c.log[u.key]| + 1;
    }
  }

  lemma WrapEqual(a: nat, b: nat)
    requires a <= b
    ensures Wrap(a) == Wrap(b) <==> (b - a) % (MAX_UINT64 + 1) == 0
  {
  }
}
