/**
 * The queued Runtime and its cascades as the program holds them: objects whose
 * fields the critical sections update in place.
 */
module QueuedObject {
  import opened Basics
  import opened QueuedSpec
  import Spec = QueuedSpec

  /** A waiting root; the object itself is its identity. */
  class Root {
    const id: nat
    const item: Item

    constructor (id: nat, item: Item)
      ensures this.id == id && this.item == item
    {
      this.id, this.item := id, item;
    }
  }

  class Runtime {
    const limits: Limits
    var roots: seq<Root>
    var running: bool
    var rootCount: int
    var sequence: uint64

    /** Different root objects carry different numbers. */
    ghost predicate Valid()
      reads this
    {
      forall i, j | 0 <= i < j < |roots| :: roots[i].id != roots[j].id
    }

    ghost function View(): Spec.Runtime
      reads this
    {
      Spec.Runtime(Requests(roots), running, rootCount, sequence)
    }

    constructor (limits: Limits)
      ensures Valid() && this.limits == limits && View() == Spec.Runtime([], false, 0, 0)
    {
      this.limits := limits;
      roots, running, rootCount, sequence := [], false, 0, 0;
    }

    /** Fire's admission; `start` tells the caller to start a worker. */
    method Admit(req: Root) returns (admitted: bool, start: bool)
      requires Valid() && forall i | 0 <= i < |roots| :: roots[i].id != req.id
      modifies this
      ensures Valid() && (View(), admitted, start) == Spec.Admit(old(View()), limits, Request(req.id, req.item))
    {
      if rootCount >= limits.maxRoots {
        return false, false;
      }
      roots := roots + [req];
      assert Requests(roots) == old(Requests(roots)) + [Request(req.id, req.item)];
      rootCount := rootCount + 1;
      start := !running;
      if start {
        running := true;
      }
      admitted := true;
    }

    /** removeRootLocked: finds the request object and closes the gap it leaves. */
    method RemoveRoot(target: Root) returns (removed: bool)
      requires Valid() && forall i | 0 <= i < |roots| && roots[i].id == target.id :: roots[i] == target
      modifies `roots
      ensures Valid() && removed == Spec.Queued(old(View()).roots, target.id)
      ensures Requests(roots) == if removed then Spec.Without(old(View()).roots, target.id) else old(View()).roots
    {
      ghost var before := Requests(roots);
      for index := 0 to |roots|
        invariant roots == old(roots) && forall i | 0 <= i < index :: roots[i].id != target.id
      {
        if roots[index] == target {
          WithoutAt(before, target.id, index);
          Closes(roots, index);
          assert before[index].id == target.id;
          roots := roots[..index] + roots[index + 1..];
          return true;
        }
      }
      removed := false;
    }

    /** The cancelled Fire's critical section. */
    method Withdraw(target: Root) returns (removed: bool)
      requires Valid() && forall i | 0 <= i < |roots| && roots[i].id == target.id :: roots[i] == target
      modifies `roots, `rootCount
      ensures Valid() && (View(), removed) == Spec.Withdraw(old(View()), target.id)
    {
      removed := RemoveRoot(target);
      if removed {
        rootCount := rootCount - 1;
      }
    }

    /** The worker's next root; without one it stops. */
    method Take() returns (req: Root?)
      requires Valid()
      modifies `roots, `running
      ensures Valid() && View() == Spec.Take(old(View())).0
      ensures Spec.Take(old(View())).1 == if req == null then None else Some(Request(req.id, req.item))
    {
      if |roots| == 0 {
        running := false;
        roots := [];
        return null;
      }
      req := roots[0];
      roots := roots[1..];
    }

    method Finish()
      requires Valid()
      modifies `rootCount
      ensures Valid() && View() == Spec.Finish(old(View()))
    {
      rootCount := rootCount - 1;
    }

    /** The section after a commit: numbers the step if it is observed. */
    method Number(moved: bool, observed: bool) returns (step: uint64)
      requires Valid()
      modifies `sequence
      ensures Valid()
      ensures if moved && observed then (View(), step) == Spec.Number(old(View())) else View() == old(View()) && step == 0
    {
      step := 0;
      if moved && observed {
        step := Plus64(sequence, 1);
        sequence := Plus64(sequence, 2);
      }
    }
  }

  ghost function Requests(roots: seq<Root>): seq<Request> {
    seq(|roots|, i requires 0 <= i < |roots| => Request(roots[i].id, roots[i].item))
  }

  lemma Closes(roots: seq<Root>, k: nat)
    requires k < |roots|
    ensures Requests(roots[..k] + roots[k + 1..]) == Requests(roots)[..k] + Requests(roots)[k + 1..]
  {
  }

  lemma {:induction false} WithoutAt(roots: seq<Request>, id: nat, k: nat)
    requires k < |roots| && roots[k].id == id && forall i | 0 <= i < k :: roots[i].id != id
    ensures Without(roots, id) == roots[..k] + roots[k + 1..]
    decreases k
  {
    if k > 0 {
      WithoutAt(roots[1..], id, k - 1);
    }
  }

  /** One run's queue of follow-ups, with its own lock. */
  class Cascade {
    var active: bool
    var pending: seq<Item>
    var accepted: nat
    const maximum: nat

    ghost function View(): Spec.Cascade
      reads this
    {
      Spec.Cascade(active, pending, accepted, maximum)
    }

    constructor (maximum: nat)
      ensures View() == Spec.NewCascade(maximum)
    {
      active, pending, accepted, this.maximum := true, [], 1, maximum;
    }

    method Enqueue(item: Item) returns (result: EnqueueResult)
      modifies this
      ensures (View(), result) == Spec.Enqueue(old(View()), item)
    {
      if !active {
        return NotRunning;
      }
      if accepted >= maximum {
        return RunLimit;
      }
      pending := pending + [item];
      accepted := accepted + 1;
      result := Accepted;
    }

    /** The next follow-up; an empty queue closes the cascade under the same lock. */
    method Next() returns (item: Option<Item>)
      modifies this
      ensures (View(), item) == Spec.Next(old(View()))
    {
      if |pending| == 0 {
        active := false;
        return None;
      }
      item := Some(pending[0]);
      pending := pending[1..];
    }

    method Abort()
      modifies this
      ensures View() == Spec.Abort(old(View()))
    {
      active := false;
      pending := [];
    }
  }
}
