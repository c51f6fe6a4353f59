/** What every interleaving of clients, workers and enqueuers keeps. */
module QueuedSafety {
  import opened Basics
  import opened QueuedSpec
  import opened QueuedSystem

  // ----------------------------------------------------------- the queue

  lemma {:induction false} WithoutLength(roots: seq<Request>, id: nat)
    requires Queued(roots, id)
    ensures |Without(roots, id)| == |roots| - 1
    decreases |roots|
  {
    if roots[0].id != id {
      assert Queued(roots[1..], id) by {
        var i :| 0 <= i < |roots| && roots[i].id == id;
        assert roots[1..][i - 1].id == id;
      }
      WithoutLength(roots[1..], id);
    }
  }

  /** Withdrawing a root removes its number from the queue, and only that. */
  lemma {:induction false} WithoutIds(roots: seq<Request>, id: nat)
    requires forall i, j | 0 <= i < j < |roots| :: roots[i].id != roots[j].id
    ensures Ids(Without(roots, id)) == Kept(Ids(roots), {id})
    decreases |roots|
  {
    if roots != [] {
      var rest := roots[1..];
      assert Ids(roots) == [roots[0].id] + Ids(rest);
      if roots[0].id == id {
        KeptAll(Ids(rest), {id});
        KeptJoins([roots[0].id], Ids(rest), {id});
      } else {
        WithoutIds(rest, id);
        KeptJoins([roots[0].id], Ids(rest), {id});
        assert Ids([roots[0]] + Without(rest, id)) == [roots[0].id] + Ids(Without(rest, id));
      }
      assert Kept([roots[0].id], {id}) == if roots[0].id == id then [] else [roots[0].id];
    }
  }

  lemma {:induction false} KeptJoins(a: seq<nat>, b: seq<nat>, removed: set<nat>)
    ensures Kept(a + b, removed) == Kept(a, removed) + Kept(b, removed)
    decreases |b|
  {
    if b == [] {
      assert a + b == a;
    } else {
      var n := |b| - 1;
      assert (a + b)[..|a + b| - 1] == a + b[..n];
      KeptJoins(a, b[..n], removed);
    }
  }

  lemma {:induction false} KeptAll(s: seq<nat>, removed: set<nat>)
    requires forall i | 0 <= i < |s| :: s[i] !in removed
    ensures Kept(s, removed) == s
    decreases |s|
  {
    if s != [] {
      KeptAll(s[..|s| - 1], removed);
    }
  }

  lemma {:induction false} KeptTwice(s: seq<nat>, a: set<nat>, b: set<nat>)
    ensures Kept(Kept(s, a), b) == Kept(s, a + b)
    decreases |s|
  {
    if s != [] {
      var n := |s| - 1;
      KeptTwice(s[..n], a, b);
      KeptJoins(Kept(s[..n], a), if s[n] in a then [] else [s[n]], b);
      assert Kept([s[n]], b) == if s[n] in b then [] else [s[n]];
    }
  }

  lemma {:induction false} KeptMembers(s: seq<nat>, removed: set<nat>)
    ensures forall x :: x in Kept(s, removed) <==> x in s && x !in removed
    decreases |s|
  {
    if s != [] {
      KeptMembers(s[..|s| - 1], removed);
    }
  }

  lemma {:induction false} KeptRises(s: seq<nat>, removed: set<nat>)
    requires forall i, j | 0 <= i < j < |s| :: s[i] < s[j]
    ensures forall i, j | 0 <= i < j < |Kept(s, removed)| :: Kept(s, removed)[i] < Kept(s, removed)[j]
    decreases |s|
  {
    if s != [] {
      var n := |s| - 1;
      KeptRises(s[..n], removed);
      KeptMembers(s[..n], removed);
      forall i | 0 <= i < |Kept(s[..n], removed)| ensures Kept(s[..n], removed)[i] < s[n] {
        assert Kept(s[..n], removed)[i] in s[..n];
      }
    }
  }

  /** Started and queued roots are all different, and rise with their admission. */
  lemma OrderedRises(c: Sys)
    requires Ordered(c)
    ensures var line := c.h.started + Ids(c.rt.roots);
      && (forall i, j | 0 <= i < j < |line| :: line[i] < line[j])
      && (forall x :: x in line <==> x in c.h.admitted && x !in c.h.removed)
  {
    KeptRises(c.h.admitted, c.h.removed);
    KeptMembers(c.h.admitted, c.h.removed);
  }

  // -------------------------------------------------------- scheduling

  /** There is one worker. */
  lemma OnlyWorker(c: Sys, w: nat)
    requires Scheduled(c) && w in c.workers
    ensures c.workers.Keys == {w} && c.rt.running
  {
  }

  lemma StepScheduled(c: Sys, step: Step)
    requires Scheduled(c) && Enabled(c, step)
    ensures Scheduled(Exec(c, step))
  {
    hide Scheduled, DoFire, DoWithdraw, DoEnqueue;
    match step
    case Fire(item) => FireScheduled(c, item);
    case Cancel(_) => RestScheduled(c, Exec(c, step));
    case WithdrawRoot(id) => WithdrawScheduled(c, id);
    case EnqueueItem(root, item) => EnqueueScheduled(c, root, item);
    case _ =>
      OnlyWorker(c, step.w);
      WorkerScheduled(c, step);
  }

  lemma RestScheduled(c: Sys, d: Sys)
    requires Scheduled(c) && d.rt == c.rt && d.workers == c.workers && d.nextWorker == c.nextWorker && d.limits == c.limits
    ensures Scheduled(d)
  {
  }

  lemma EnqueueScheduled(c: Sys, root: nat, item: Item)
    requires Scheduled(c) && root in c.cascades && root in c.h.runs
    ensures Scheduled(DoEnqueue(c, root, item))
  {
    hide Scheduled;
    RestScheduled(c, DoEnqueue(c, root, item));
  }

  lemma FireScheduled(c: Sys, item: Item)
    requires Scheduled(c)
    ensures Scheduled(DoFire(c, item))
  {
    var d := DoFire(c, item);
    if d != c {
      if c.rt.running {
        var w :| c.workers.Keys == {w};
        assert d.workers == c.workers;
      } else {
        assert d.workers.Keys == {c.nextWorker};
      }
    }
  }

  lemma WithdrawScheduled(c: Sys, id: nat)
    requires Scheduled(c)
    ensures Scheduled(DoWithdraw(c, id))
  {
    if Queued(c.rt.roots, id) { WithoutLength(c.rt.roots, id); }
  }

  lemma TakeScheduled(c: Sys, w: nat)
    requires Scheduled(c) && c.workers.Keys == {w} && c.workers[w].Draining?
    ensures Scheduled(DoTake(c, w))
  {
    var d := DoTake(c, w);
    if c.rt.roots == [] {
      assert d.workers == map[];
    } else {
      assert d.workers.Keys == {w};
      assert d.workers[w].Running?;
    }
    assert Busy(c) <==> c.workers[w].Running? || c.workers[w].Ended?;
  }

  lemma EndWorks(c: Sys, w: nat, ok: bool)
    requires c.workers.Keys == {w} && IsRunning(c, w) && c.workers[w].pc.Firing?
    ensures var d := DoEnd(c, w, ok);
      && d.workers.Keys == {w} && !d.workers[w].Delivering? && !d.workers[w].Draining?
      && d.rt == c.rt.(sequence := d.rt.sequence) && d.nextWorker == c.nextWorker && d.limits == c.limits
  {
    hide Number;
    SequenceOnly(c.rt);
    assert DoEnd(c, w, ok).workers.Keys == {w};
  }

  lemma SequenceOnly(r: Runtime)
    ensures Number(r).0 == r.(sequence := Number(r).0.sequence)
  {
  }

  /** The one worker goes on, or finishes its root. */
  lemma BusyScheduled(c: Sys, d: Sys, w: nat)
    requires Scheduled(c) && c.workers.Keys == {w} && d.workers.Keys == {w} && d.nextWorker == c.nextWorker && d.limits == c.limits
    requires d.rt.roots == c.rt.roots && d.rt.running == c.rt.running
    requires var before, after := c.workers[w].Running? || c.workers[w].Ended?, d.workers[w].Running? || d.workers[w].Ended?;
      d.rt.rootCount == c.rt.rootCount + (if after then 1 else 0) - (if before then 1 else 0) && (after ==> before)
    ensures Scheduled(d)
  {
    assert Busy(c) <==> c.workers[w].Running? || c.workers[w].Ended?;
    assert Busy(d) <==> d.workers[w].Running? || d.workers[w].Ended?;
  }

  /** A step of the one worker. */
  lemma WorkerScheduled(c: Sys, step: Step)
    requires Scheduled(c) && Enabled(c, step)
    requires !step.Fire? && !step.Cancel? && !step.WithdrawRoot? && !step.EnqueueItem?
    requires c.workers.Keys == {step.w} && c.rt.running
    ensures Scheduled(Exec(c, step))
  {
    hide Scheduled, Number, DoTake, DoEnd;
    var d, w := Exec(c, step), step.w;
    if step.TakeRoot? {
      TakeScheduled(c, w);
    } else {
      if step.EndFire? { EndWorks(c, w, step.ok); }
      assert d.workers.Keys == {w};
      BusyScheduled(c, d, w);
    }
  }

  // --------------------------------------------------------------- order

  lemma FireOrdered(c: Sys, item: Item)
    requires Ordered(c) && Scheduled(c)
    ensures Ordered(DoFire(c, item))
  {
    var d := DoFire(c, item);
    if d != c {
      var n := |c.h.admitted|;
      assert d.h.admitted[..n] == c.h.admitted;
      assert Ids(d.rt.roots) == Ids(c.rt.roots) + [n];
      forall id | id in c.h.removed ensures id < n {
        assert id in c.h.admitted;
      }
    }
  }

  lemma WithdrawOrdered(c: Sys, id: nat)
    requires Ordered(c)
    ensures Ordered(DoWithdraw(c, id))
  {
    if Queued(c.rt.roots, id) {
      WithdrawnLine(c, id);
      hide Kept;
    }
  }

  /** The line of started and queued roots without the withdrawn one. */
  lemma WithdrawnLine(c: Sys, id: nat)
    requires Ordered(c) && Queued(c.rt.roots, id)
    ensures c.h.started + Ids(Without(c.rt.roots, id)) == Kept(c.h.admitted, c.h.removed + {id}) && id in c.h.admitted
  {
    LineDistinct(c, id);
    hide Ordered, Kept;
    var ids := Ids(c.rt.roots);
    WithoutIds(c.rt.roots, id);
    KeptAll(c.h.started, {id});
    KeptJoins(c.h.started, ids, {id});
    KeptTwice(c.h.admitted, c.h.removed, {id});
  }

  lemma RisingApart(a: seq<nat>, b: seq<nat>)
    requires forall i, j | 0 <= i < j < |a + b| :: (a + b)[i] < (a + b)[j]
    ensures forall i, j | 0 <= i < |a| && 0 <= j < |b| :: a[i] != b[j]
    ensures forall i, j | 0 <= i < j < |b| :: b[i] != b[j]
  {
    forall i, j | 0 <= i < |a| && 0 <= j < |b| ensures a[i] != b[j] {
      assert (a + b)[i] < (a + b)[|a| + j];
    }
    forall i, j | 0 <= i < j < |b| ensures b[i] != b[j] {
      assert (a + b)[|a| + i] < (a + b)[|a| + j];
    }
  }

  /** No two queued roots have the same number, and no started root has a queued one's. */
  lemma LineDistinct(c: Sys, id: nat)
    requires Ordered(c) && Queued(c.rt.roots, id)
    ensures c.h.started + Ids(c.rt.roots) == Kept(c.h.admitted, c.h.removed) && id in c.h.admitted
    ensures forall i | 0 <= i < |c.h.started| :: c.h.started[i] != id
    ensures forall i, j | 0 <= i < j < |c.rt.roots| :: c.rt.roots[i].id != c.rt.roots[j].id
  {
    OrderedRises(c);
    var ids := Ids(c.rt.roots);
    assert c.h.started + ids == Kept(c.h.admitted, c.h.removed);
    hide Ordered, Kept;
    RisingApart(c.h.started, ids);
    var k :| 0 <= k < |c.rt.roots| && c.rt.roots[k].id == id;
    assert ids[k] == id;
    assert id in c.h.started + ids;
    forall i, j | 0 <= i < j < |c.rt.roots| ensures c.rt.roots[i].id != c.rt.roots[j].id {
      assert ids[i] != ids[j];
    }
  }

  lemma TakeOrdered(c: Sys, w: nat)
    requires Ordered(c) && Scheduled(c) && w in c.workers && c.workers[w].Draining?
    ensures Ordered(DoTake(c, w))
  {
    hide Scheduled, Ordered, Ids;
    OnlyWorker(c, w);
    AllDelivered(c, w);
    var d := DoTake(c, w);
    if c.rt.roots != [] {
      IdsSplit(c.rt.roots);
      assert d.workers.Keys == {w};
      assert d.h.started + Ids(d.rt.roots) == c.h.started + Ids(c.rt.roots);
      OrderedFrame(c, d, w);
    } else {
      assert d.workers == map[];
      StoppedOrdered(c, d);
    }
  }

  lemma AllDelivered(c: Sys, w: nat)
    requires Ordered(c) && w in c.workers && c.workers[w].Draining?
    ensures c.h.started == c.h.delivered
  {
    hide Kept;
  }

  lemma StoppedOrdered(c: Sys, d: Sys)
    requires Ordered(c) && d.h == c.h && d.rt.roots == c.rt.roots && d.workers == map[] && c.h.started == c.h.delivered
    ensures Ordered(d)
  {
  }

  lemma IdsSplit(roots: seq<Request>)
    requires roots != []
    ensures Ids(roots) == [roots[0].id] + Ids(roots[1..])
  {
  }

  lemma StepOrdered(c: Sys, step: Step)
    requires Ordered(c) && Scheduled(c) && Enabled(c, step)
    ensures Ordered(Exec(c, step))
  {
    hide Scheduled;
    match step
    case Fire(item) => FireOrdered(c, item);
    case WithdrawRoot(id) => WithdrawOrdered(c, id);
    case TakeRoot(w) => TakeOrdered(c, w);
    case Cancel(_) =>
    case EnqueueItem(_, _) =>
    case _ => WorkerOrdered(c, step);
  }

  lemma OrderedFrame(c: Sys, d: Sys, w: nat)
    requires Ordered(c) && d.h.admitted == c.h.admitted && d.h.removed == c.h.removed
    requires d.h.started + Ids(d.rt.roots) == c.h.started + Ids(c.rt.roots)
    requires d.workers.Keys == {w} && d.h.started == d.h.delivered + InHand(d.workers[w])
    ensures Ordered(d)
  {
  }

  lemma EndInHand(c: Sys, w: nat, ok: bool)
    requires IsRunning(c, w) && c.workers[w].pc.Firing?
    ensures var d := DoEnd(c, w, ok);
      && d.workers.Keys == c.workers.Keys && InHand(d.workers[w]) == InHand(c.workers[w]) && d.rt.roots == c.rt.roots
      && d.h.admitted == c.h.admitted && d.h.removed == c.h.removed && d.h.started == c.h.started && d.h.delivered == c.h.delivered
  {
    hide Number;
    SequenceOnly(c.rt);
  }

  lemma WorkerOrdered(c: Sys, step: Step)
    requires Ordered(c) && Scheduled(c) && Enabled(c, step)
    requires !step.Fire? && !step.Cancel? && !step.WithdrawRoot? && !step.EnqueueItem? && !step.TakeRoot?
    ensures Ordered(Exec(c, step))
  {
    hide Scheduled, Ordered, Number, DoEnd;
    OnlyWorker(c, step.w);
    InHandLast(c, step.w);
    var d := Exec(c, step);
    if step.EndFire? { EndInHand(c, step.w, step.ok); }
    assert d.workers.Keys == {step.w};
    OrderedFrame(c, d, step.w);
  }

  // ------------------------------------------------------------- cascades

  /** A step that leaves the cascade and the run of `id` alone, and does not move its worker. */
  lemma OtherCascade(c: Sys, d: Sys, id: nat)
    requires id in c.cascades && id in c.h.runs && CascadeFine(c, id) && d.limits == c.limits
    requires id in d.cascades && id in d.h.runs && d.cascades[id] == c.cascades[id] && d.h.runs[id] == c.h.runs[id]
    requires forall w | w in c.workers && c.workers[w].Running? && c.workers[w].root.id == id ::
      w in d.workers && d.workers[w].Running? && d.workers[w].root.id == id
    ensures CascadeFine(d, id)
  {
  }

  lemma EnqueueFine(c: Sys, root: nat, item: Item)
    requires root in c.cascades && root in c.h.runs && CascadeFine(c, root)
    ensures CascadeFine(DoEnqueue(c, root, item), root)
  {
  }

  lemma EnqueueCascaded(c: Sys, root: nat, item: Item)
    requires Cascaded(c) && root in c.cascades && root in c.h.runs
    ensures Cascaded(DoEnqueue(c, root, item))
  {
    hide CascadeFine;
    var d := DoEnqueue(c, root, item);
    EnqueueFine(c, root, item);
    forall id | id in d.cascades ensures CascadeFine(d, id) {
      if id != root { OtherCascade(c, d, id); }
    }
    forall w | w in d.workers && d.workers[w].Running? ensures IsRunning(d, w) && RunFine(d, w) {
      assert RunFine(c, w);
    }
  }

  /** The next root has not started yet. */
  lemma NextIsNew(c: Sys)
    requires Ordered(c) && c.rt.roots != []
    ensures c.rt.roots[0].id !in c.h.started
  {
    OrderedRises(c);
    var line := c.h.started + Ids(c.rt.roots);
    assert line[|c.h.started|] == c.rt.roots[0].id;
    forall i | 0 <= i < |c.h.started| ensures c.h.started[i] != c.rt.roots[0].id {
      assert line[i] < line[|c.h.started|];
    }
  }

  lemma TakeCascaded(c: Sys, w: nat)
    requires Cascaded(c) && Ordered(c) && Scheduled(c) && w in c.workers && c.workers[w].Draining?
    ensures Cascaded(DoTake(c, w))
  {
    OnlyWorker(c, w);
    var d := DoTake(c, w);
    if c.rt.roots != [] {
      NextIsNew(c);
      NewCascaded(c, d, w, c.rt.roots[0]);
    } else {
      hide Scheduled, Ordered, Cascaded;
      QuietCascaded(c, d);
    }
  }

  lemma NewCascaded(c: Sys, d: Sys, w: nat, root: Request)
    requires Cascaded(c) && c.workers.Keys == {w} && c.workers[w].Draining? && root.id !in c.h.started
    requires d.workers == c.workers[w := Running(root, Checking(root.item))] && d.limits == c.limits
    requires d.cascades == c.cascades[root.id := NewCascade(c.limits.maxRunEvents)] && d.h.started == c.h.started + [root.id]
    requires d.h.runs == c.h.runs[root.id := Run([root.item], [], [], |c.h.committed|, 0, false)]
    ensures Cascaded(d)
  {
    assert d.workers.Keys == {w};
    forall id | id in d.cascades ensures CascadeFine(d, id) {
      if id != root.id {
        OtherCascade(c, d, id);
      } else {
        assert d.workers[w].Running? && d.workers[w].root.id == id;
      }
    }
  }

  lemma StopCascaded(c: Sys, w: nat, outcome: Outcome)
    requires Cascaded(c) && Scheduled(c) && IsRunning(c, w)
    ensures Cascaded(Stop(c, w, outcome))
  {
    OnlyWorker(c, w);
    var d := Stop(c, w, outcome);
    assert RunFine(c, w);
    forall id | id in d.cascades ensures CascadeFine(d, id) {
      assert CascadeFine(c, id);
    }
  }

  /** A step of the worker on its own run. */
  lemma OwnCascaded(c: Sys, d: Sys, w: nat, root: nat)
    requires Cascaded(c) && IsRunning(c, w) && c.workers.Keys == {w} && c.workers[w].root.id == root
    requires root in d.cascades && root in d.h.runs && d.h.started == c.h.started
    requires d.limits == c.limits && d.cascades == c.cascades[root := d.cascades[root]] && d.h.runs == c.h.runs[root := d.h.runs[root]]
    requires d.workers.Keys == {w} && !d.workers[w].Draining? && d.workers[w].root.id == root && CascadeFine(d, root)
    requires d.workers[w].Running? ==> RunFine(d, w)
    ensures Cascaded(d)
  {
    forall id | id in d.cascades ensures CascadeFine(d, id) {
      if id != root {
        OtherCascade(c, d, id);
      }
    }
  }

  lemma AdvanceCascaded(c: Sys, w: nat)
    requires Cascaded(c) && Scheduled(c) && IsRunning(c, w) && c.workers[w].pc.Advancing?
    ensures Cascaded(DoAdvance(c, w))
  {
    OnlyWorker(c, w);
    assert RunFine(c, w) && CascadeFine(c, c.workers[w].root.id);
    hide Scheduled, Cascaded;
    AdvanceFine(c, w);
    hide CascadeFine, RunFine;
    var d := DoAdvance(c, w);
    assert d.workers.Keys == {w};
    OwnCascaded(c, d, w, c.workers[w].root.id);
  }

  lemma AdvanceFine(c: Sys, w: nat)
    requires IsRunning(c, w) && c.workers[w].pc.Advancing? && RunFine(c, w) && CascadeFine(c, c.workers[w].root.id)
    ensures var d := DoAdvance(c, w);
      CascadeFine(d, c.workers[w].root.id) && (d.workers[w].Running? ==> IsRunning(d, w) && RunFine(d, w))
  {
    var k, d := c.cascades[c.workers[w].root.id], DoAdvance(c, w);
    if k.pending != [] {
      assert k.pending == [k.pending[0]] + k.pending[1..];
      assert d.workers[w].Running?;
    }
  }

  lemma BeginCascaded(c: Sys, w: nat)
    requires Cascaded(c) && Scheduled(c) && IsRunning(c, w) && c.workers[w].pc.Checking?
    ensures Cascaded(DoBegin(c, w))
  {
    if c.inFlight {
      StopCascaded(c, w, EventFailed);
    } else {
      OnlyWorker(c, w);
      var d, root := DoBegin(c, w), c.workers[w].root.id;
      assert RunFine(c, w) && CascadeFine(c, root);
      hide Scheduled, Cascaded;
      assert d.workers.Keys == {w};
      BeginFine(c, w);
      hide CascadeFine, RunFine;
      OwnCascaded(c, d, w, root);
    }
  }

  lemma BeginFine(c: Sys, w: nat)
    requires IsRunning(c, w) && c.workers[w].pc.Checking? && !c.inFlight
    requires RunFine(c, w) && CascadeFine(c, c.workers[w].root.id)
    ensures var d := DoBegin(c, w); IsRunning(d, w) && CascadeFine(d, c.workers[w].root.id) && RunFine(d, w)
  {
  }

  lemma StopElsewhere(c: Sys, d: Sys, w: nat)
    requires Cascaded(c) && Scheduled(c) && IsRunning(c, w)
    requires d == Stop(c.(inFlight := d.inFlight), w, EventFailed)
    ensures Cascaded(d)
  {
    hide Scheduled, Cascaded;
    QuietCascaded(c, c.(inFlight := d.inFlight));
    assert Scheduled(c.(inFlight := d.inFlight)) by { SameSchedule(c, d.inFlight); }
    StopCascaded(c.(inFlight := d.inFlight), w, EventFailed);
  }

  lemma SameSchedule(c: Sys, inFlight: bool)
    requires Scheduled(c)
    ensures Scheduled(c.(inFlight := inFlight))
  {
  }

  lemma EndCascaded(c: Sys, w: nat, ok: bool)
    requires Cascaded(c) && Scheduled(c) && IsRunning(c, w) && c.workers[w].pc.Firing?
    ensures Cascaded(DoEnd(c, w, ok))
  {
    hide Number;
    var pc := c.workers[w].pc;
    if !ok || Target(c, pc.item, pc.from).None? {
      StopElsewhere(c, DoEnd(c, w, ok), w);
    } else {
      OnlyWorker(c, w);
      var d, root := DoEnd(c, w, ok), c.workers[w].root.id;
      assert RunFine(c, w) && CascadeFine(c, root);
      hide Scheduled, Cascaded;
      assert d.workers.Keys == {w} && RunFine(d, w);
      OwnCascaded(c, d, w, root);
    }
  }

  /** Steps of clients, and of a worker that is done with its run. */
  predicate Outside(step: Step) {
    step.Fire? || step.Cancel? || step.WithdrawRoot? || step.FinishRoot? || step.Deliver?
  }

  /** No run and no cascade is touched, and whoever runs goes on. */
  ghost predicate Apart(c: Sys, d: Sys) {
    && d.machine == c.machine && d.limits == c.limits && d.initial == c.initial && d.state == c.state && d.inFlight == c.inFlight
    && d.cascades == c.cascades && d.h.runs == c.h.runs && d.h.started == c.h.started && d.h.committed == c.h.committed
    && d.h.steps == c.h.steps && d.rt.sequence == c.rt.sequence
    && (forall w | w in d.workers && !d.workers[w].Draining? ::
          w in c.workers && !c.workers[w].Draining? && (d.workers[w] == c.workers[w]
            || (c.workers[w].Ended? && d.workers[w].Delivering? && d.workers[w].outcome == c.workers[w].outcome)))
    && (forall w | w in c.workers && c.workers[w].Running? :: w in d.workers && d.workers[w] == c.workers[w])
  }

  lemma FireApart(c: Sys, item: Item)
    requires Scheduled(c)
    ensures Apart(c, DoFire(c, item))
  {
  }

  lemma OutsideApart(c: Sys, step: Step)
    requires Scheduled(c) && Enabled(c, step) && Outside(step)
    ensures Apart(c, Exec(c, step))
  {
    hide Scheduled, DoFire, Withdraw;
    match step
    case Fire(item) => FireApart(c, item);
    case WithdrawRoot(id) => WithdrawKeepsNumbers(c.rt, id);
    case _ =>
  }

  lemma WithdrawKeepsNumbers(r: Runtime, id: nat)
    ensures Withdraw(r, id).0.sequence == r.sequence
  {
  }

  lemma QuietCascaded(c: Sys, d: Sys)
    requires Cascaded(c) && d.limits == c.limits && d.cascades == c.cascades && d.h.runs == c.h.runs && d.h.started == c.h.started
    requires forall w | w in d.workers && d.workers[w].Running? :: w in c.workers && d.workers[w] == c.workers[w]
    requires forall w | w in c.workers && c.workers[w].Running? :: w in d.workers && d.workers[w] == c.workers[w]
    ensures Cascaded(d)
  {
    forall id | id in d.cascades ensures CascadeFine(d, id) {
      OtherCascade(c, d, id);
    }
    forall w | w in d.workers && d.workers[w].Running? ensures IsRunning(d, w) && RunFine(d, w) {
      assert RunFine(c, w);
    }
  }

  lemma ApartCascaded(c: Sys, d: Sys)
    requires Cascaded(c) && Apart(c, d)
    ensures Cascaded(d)
  {
    hide Cascaded;
    QuietCascaded(c, d);
  }

  lemma StepCascaded(c: Sys, step: Step)
    requires Cascaded(c) && Ordered(c) && Scheduled(c) && Enabled(c, step)
    ensures Cascaded(Exec(c, step))
  {
    hide Cascaded, Ordered, Scheduled, Apart, DoFire, DoWithdraw, DoEnqueue, DoTake, DoBegin, DoEnd, DoAdvance, DoFinish, DoDeliver;
    match step
    case EnqueueItem(root, item) => EnqueueCascaded(c, root, item);
    case TakeRoot(w) => TakeCascaded(c, w);
    case SkipCancelled(w) => StopCascaded(c, w, Cancelled);
    case BeginFire(w) => BeginCascaded(c, w);
    case EndFire(w, ok) => EndCascaded(c, w, ok);
    case Advance(w) => AdvanceCascaded(c, w);
    case _ =>
      OutsideApart(c, step);
      ApartCascaded(c, Exec(c, step));
  }

  // -------------------------------------------------------- committed state

  /** The state, the commits and the one worker's run are as they were. */
  lemma QuietFolded(c: Sys, d: Sys)
    requires Folded(c) && Apart(c, d)
    ensures Folded(d)
  {
    hide Fold, CommittedOf;
  }

  lemma ActiveGoesOn(c: Sys, root: nat)
    requires Cascaded(c) && root in c.cascades && root in c.h.runs
    ensures c.cascades[root].active ==> !c.h.runs[root].succeeded
  {
    assert CascadeFine(c, root);
  }

  lemma EnqueueFolded(c: Sys, root: nat, item: Item)
    requires Folded(c) && Cascaded(c) && root in c.cascades && root in c.h.runs
    ensures Folded(DoEnqueue(c, root, item))
  {
    hide Cascaded, Folded;
    ActiveGoesOn(c, root);
    AcceptFolded(c, DoEnqueue(c, root, item), root);
  }

  /** A run that goes on may accept more. */
  lemma AcceptFolded(c: Sys, d: Sys, root: nat)
    requires Folded(c) && root in c.cascades && root in c.h.runs && root in d.cascades && root in d.h.runs
    requires d == c.(cascades := c.cascades[root := d.cascades[root]], h := c.h.(runs := c.h.runs[root := d.h.runs[root]]))
    requires d.h.runs[root] == c.h.runs[root]
      || (!c.h.runs[root].succeeded && d.h.runs[root] == c.h.runs[root].(accepted := d.h.runs[root].accepted))
    ensures Folded(d)
  {
    hide Fold;
    assert d.workers == c.workers && d.state == c.state && d.h.committed == c.h.committed;
  }

  /** A step of the one worker on its own run. */
  lemma OwnFolded(c: Sys, d: Sys, w: nat, root: nat)
    requires Folded(c) && d.workers.Keys == {w} && root in d.h.runs
    requires d.state == Fold(d.machine, d.initial, d.h.committed) && c.h.committed <= d.h.committed
    requires forall id | id in d.h.runs && id != root :: id in c.h.runs && d.h.runs[id] == c.h.runs[id]
    requires d.inFlight <==> d.workers[w].Running? && d.workers[w].pc.Firing?
    requires d.workers[w].Running? ==>
      && IsRunning(d, w) && d.workers[w].root.id == root
      && (d.workers[w].pc.Firing? ==> d.workers[w].pc.from == d.state)
      && (d.workers[w].pc.Advancing? ==> d.workers[w].pc.to == d.state)
      && d.h.runs[root].base <= |d.h.committed|
      && d.h.committed[d.h.runs[root].base..] == CommittedOf(d.h.runs[root], d.workers[w].pc)
    requires d.workers[w].Ended? || d.workers[w].Delivering? ==>
      d.workers[w].outcome.Succeeded? ==> d.workers[w].outcome.state == d.state
    requires var run := d.h.runs[root]; run.succeeded ==>
      run.base + |run.accepted| <= |d.h.committed| && d.h.committed[run.base..run.base + |run.accepted|] == run.accepted
    ensures Folded(d)
  {
    hide Fold, CommittedOf;
  }

  lemma TakeFolded(c: Sys, w: nat)
    requires Folded(c) && Cascaded(c) && Ordered(c) && Scheduled(c) && w in c.workers && c.workers[w].Draining?
    ensures Folded(DoTake(c, w))
  {
    hide Folded, Scheduled, Cascaded, Ordered, Fold;
    OnlyWorker(c, w);
    var d := DoTake(c, w);
    if c.rt.roots != [] {
      DrainingIdle(c, w);
      assert c.h.committed[|c.h.committed|..] == [];
      assert d.workers.Keys == {w};
      OwnFolded(c, d, w, c.rt.roots[0].id);
    } else {
      assert d.workers == map[];
      QuietFolded(c, d);
    }
  }

  lemma DrainingIdle(c: Sys, w: nat)
    requires Folded(c) && c.workers.Keys == {w} && c.workers[w].Draining?
    ensures c.state == Fold(c.machine, c.initial, c.h.committed) && !c.inFlight
  {
    hide Fold;
  }

  lemma StopFolded(c: Sys, w: nat, outcome: Outcome, inFlight: bool)
    requires Folded(c) && Scheduled(c) && IsRunning(c, w) && !outcome.Succeeded?
    requires inFlight == if c.workers[w].pc.Firing? then false else c.inFlight
    ensures Folded(Stop(c.(inFlight := inFlight), w, outcome))
  {
    hide Scheduled, Folded, Fold;
    OnlyWorker(c, w);
    RunFolded(c, w);
    var d := Stop(c.(inFlight := inFlight), w, outcome);
    assert d.workers.Keys == {w} && d.workers[w] == Ended(c.workers[w].root, outcome);
    OwnFolded(c, d, w, c.workers[w].root.id);
  }

  /** The inner Instance is idle whenever the worker is about to fire. */
  lemma InnerIdle(c: Sys, w: nat)
    requires Folded(c) && Scheduled(c) && IsRunning(c, w) && !c.workers[w].pc.Firing?
    ensures !c.inFlight
  {
    OnlyWorker(c, w);
  }

  lemma BeginFolded(c: Sys, w: nat)
    requires Folded(c) && Scheduled(c) && IsRunning(c, w) && c.workers[w].pc.Checking?
    ensures Folded(DoBegin(c, w))
  {
    hide Scheduled, Folded, Fold;
    OnlyWorker(c, w);
    RunFolded(c, w);
    var d, root := DoBegin(c, w), c.workers[w].root.id;
    assert d.workers.Keys == {w};
    var run := d.h.runs[root];
    assert run.began[..|run.began| - 1] == c.h.runs[root].began;
    OwnFolded(c, d, w, root);
  }

  /** The run in progress and what it committed. */
  lemma RunFolded(c: Sys, w: nat)
    requires Folded(c) && c.workers.Keys == {w} && IsRunning(c, w)
    ensures (c.inFlight <==> c.workers[w].pc.Firing?) && c.state == Fold(c.machine, c.initial, c.h.committed)
    ensures var run := c.h.runs[c.workers[w].root.id];
      && run.base <= |c.h.committed| && c.h.committed[run.base..] == CommittedOf(run, c.workers[w].pc)
      && (run.succeeded ==>
            run.base + |run.accepted| <= |c.h.committed| && c.h.committed[run.base..run.base + |run.accepted|] == run.accepted)
  {
    hide Fold, CommittedOf;
  }

  lemma EndFolded(c: Sys, w: nat, ok: bool)
    requires Folded(c) && Cascaded(c) && Scheduled(c) && IsRunning(c, w) && c.workers[w].pc.Firing?
    ensures Folded(DoEnd(c, w, ok))
  {
    var pc := c.workers[w].pc;
    if !ok || Target(c, pc.item, pc.from).None? {
      StopFolded(c, w, EventFailed, false);
    } else {
      CommitFolded(c, w, ok);
    }
  }

  lemma {:induction false} FoldOne(machine: Machine, s: State, items: seq<Item>, item: Item)
    requires (Fold(machine, s, items), item.event, item.data) in machine
    ensures Fold(machine, s, items + [item]) == machine[(Fold(machine, s, items), item.event, item.data)]
  {
    assert (items + [item])[..|items|] == items;
  }

  /** What is known of the run in progress. */
  lemma AtHand(c: Sys, w: nat)
    requires Folded(c) && Cascaded(c) && Scheduled(c) && IsRunning(c, w)
    ensures var pc, run := c.workers[w].pc, c.h.runs[c.workers[w].root.id];
      && c.workers.Keys == {w} && c.state == Fold(c.machine, c.initial, c.h.committed) && !run.succeeded
      && run.base <= |c.h.committed| && c.h.committed[run.base..] == CommittedOf(run, pc)
      && (pc.Firing? ==> pc.from == c.state && run.began != [] && run.began[|run.began| - 1] == pc.item)
      && (pc.Advancing? ==> pc.to == c.state && run.accepted == run.began + c.cascades[c.workers[w].root.id].pending)
      && (c.inFlight <==> pc.Firing?)
  {
    OnlyWorker(c, w);
    assert RunFine(c, w);
    hide Scheduled, Fold;
  }

  lemma CommitFolded(c: Sys, w: nat, ok: bool)
    requires Folded(c) && Cascaded(c) && Scheduled(c) && IsRunning(c, w) && c.workers[w].pc.Firing?
    requires ok && Target(c, c.workers[w].pc.item, c.workers[w].pc.from).Some?
    ensures Folded(DoEnd(c, w, ok))
  {
    hide Scheduled, Number, Cascaded, Folded, Fold;
    AtHand(c, w);
    var d, pc, root := DoEnd(c, w, ok), c.workers[w].pc, c.workers[w].root.id;
    var run := c.h.runs[root];
    FoldOne(c.machine, c.initial, c.h.committed, pc.item);
    assert d.workers.Keys == {w};
    assert run.began == run.began[..|run.began| - 1] + [pc.item];
    assert d.h.committed[run.base..] == c.h.committed[run.base..] + [pc.item];
    OwnFolded(c, d, w, root);
  }

  lemma AdvanceFolded(c: Sys, w: nat)
    requires Folded(c) && Cascaded(c) && Scheduled(c) && IsRunning(c, w) && c.workers[w].pc.Advancing?
    ensures Folded(DoAdvance(c, w))
  {
    hide Scheduled, Cascaded, Folded, Fold;
    AtHand(c, w);
    var d, root := DoAdvance(c, w), c.workers[w].root.id;
    var run := c.h.runs[root];
    assert d.workers.Keys == {w};
    assert c.h.committed[run.base..] == c.h.committed[run.base..run.base + |run.began|] == run.began;
    assert c.cascades[root].pending == [] ==> run.accepted == run.began;
    OwnFolded(c, d, w, root);
  }

  lemma StepFolded(c: Sys, step: Step)
    requires Folded(c) && Cascaded(c) && Ordered(c) && Scheduled(c) && Enabled(c, step)
    ensures Folded(Exec(c, step))
  {
    hide Folded, Cascaded, Ordered, Scheduled, Apart, DoFire, DoWithdraw, DoEnqueue, DoTake, DoBegin, DoEnd, DoAdvance, DoFinish, DoDeliver;
    match step
    case EnqueueItem(root, item) => EnqueueFolded(c, root, item);
    case TakeRoot(w) => TakeFolded(c, w);
    case SkipCancelled(w) => StopFolded(c, w, Cancelled, c.inFlight);
    case BeginFire(w) => BeginFolded(c, w);
    case EndFire(w, ok) => EndFolded(c, w, ok);
    case Advance(w) => AdvanceFolded(c, w);
    case _ =>
      OutsideApart(c, step);
      QuietFolded(c, Exec(c, step));
  }

  // ---------------------------------------------------------- all the runs

  /** Runs that are not listed do not matter. */
  lemma {:induction false} JoinedFrame(ids: seq<nat>, runs: map<nat, Run>, more: map<nat, Run>)
    requires forall i | 0 <= i < |ids| :: ids[i] in runs && ids[i] in more && more[ids[i]].committed == runs[ids[i]].committed
    ensures Joined(ids, more) == Joined(ids, runs)
    decreases |ids|
  {
    if ids != [] {
      JoinedFrame(ids[..|ids| - 1], runs, more);
    }
  }

  lemma SameSequential(c: Sys, d: Sys)
    requires Sequential(c) && d.h.started == c.h.started && d.h.committed == c.h.committed
    requires forall id | id in c.h.runs ::
      id in d.h.runs && d.h.runs[id].committed == c.h.runs[id].committed && c.h.runs[id].began <= d.h.runs[id].began
    requires forall id | id in d.h.runs :: id in c.h.runs && (d.h.runs[id].succeeded ==> d.h.runs[id].committed == d.h.runs[id].began)
    requires forall w | w in d.workers && d.workers[w].Running? :: Paced(d, w)
    ensures Sequential(d)
  {
    JoinedFrame(c.h.started, c.h.runs, d.h.runs);
    hide Joined, CommittedOf;
  }

  /** A run that has committed nothing joins at the end. */
  lemma NewSequential(c: Sys, d: Sys, id: nat)
    requires Sequential(c) && id !in c.h.started && d.h.started == c.h.started + [id] && d.h.committed == c.h.committed
    requires id in d.h.runs && d.h.runs == c.h.runs[id := d.h.runs[id]]
    requires d.h.runs[id].committed == [] && !d.h.runs[id].succeeded
    requires forall w | w in d.workers && d.workers[w].Running? :: Paced(d, w)
    ensures Sequential(d)
  {
    hide Paced;
    forall i | 0 <= i < |c.h.started| ensures c.h.started[i] != id {
      assert c.h.started[i] in c.h.started;
    }
    JoinedFrame(c.h.started, c.h.runs, d.h.runs);
    assert d.h.started[..|d.h.started| - 1] == c.h.started;
  }

  lemma TakeSequential(c: Sys, w: nat)
    requires Sequential(c) && Ordered(c) && Scheduled(c) && w in c.workers && c.workers[w].Draining?
    ensures Sequential(DoTake(c, w))
  {
    hide Sequential, Ordered, Scheduled;
    OnlyWorker(c, w);
    var d := DoTake(c, w);
    if c.rt.roots != [] {
      NextIsNew(c);
      assert d.workers.Keys == {w};
      NewSequential(c, d, c.rt.roots[0].id);
    } else {
      assert d.workers == map[];
      QuietSequential(c, d);
    }
  }

  lemma StopSequential(c: Sys, w: nat, outcome: Outcome, inFlight: bool)
    requires Sequential(c) && Scheduled(c) && IsRunning(c, w)
    ensures Sequential(Stop(c.(inFlight := inFlight), w, outcome))
  {
    OnlyWorker(c, w);
    hide Scheduled, Sequential;
    var d := Stop(c.(inFlight := inFlight), w, outcome);
    assert d.workers.Keys == {w};
    SequentialSucceeds(c);
    SameSequential(c, d);
  }

  lemma SequentialSucceeds(c: Sys)
    requires Sequential(c)
    ensures forall id | id in c.h.runs && c.h.runs[id].succeeded :: c.h.runs[id].committed == c.h.runs[id].began
  {
    hide Joined, CommittedOf;
  }

  lemma RunningSequential(c: Sys, w: nat)
    requires Sequential(c) && IsRunning(c, w)
    ensures c.h.runs[c.workers[w].root.id].committed == CommittedOf(c.h.runs[c.workers[w].root.id], c.workers[w].pc)
  {
    hide Joined;
  }

  /** What the run committed is all it began before the event at hand. */
  lemma BeginPaced(c: Sys, w: nat)
    requires IsRunning(c, w) && c.workers[w].pc.Checking? && !c.inFlight
    requires c.h.runs[c.workers[w].root.id].committed == c.h.runs[c.workers[w].root.id].began
    ensures Paced(DoBegin(c, w), w)
  {
    var run := DoBegin(c, w).h.runs[c.workers[w].root.id];
    assert run.began[..|run.began| - 1] == c.h.runs[c.workers[w].root.id].began;
  }

  lemma BeginSequential(c: Sys, w: nat)
    requires Sequential(c) && Folded(c) && Cascaded(c) && Scheduled(c) && IsRunning(c, w) && c.workers[w].pc.Checking?
    ensures Sequential(DoBegin(c, w))
  {
    hide Sequential, Scheduled, Folded, Cascaded, Fold;
    OnlyWorker(c, w);
    AtHand(c, w);
    RunningSequential(c, w);
    SequentialSucceeds(c);
    BeginPaced(c, w);
    hide CommittedOf, Paced, CascadeFine, RunFine;
    var d := DoBegin(c, w);
    assert d.workers.Keys == {w};
    SameSequential(c, d);
  }

  lemma AdvanceSequential(c: Sys, w: nat)
    requires Sequential(c) && Scheduled(c) && IsRunning(c, w) && c.workers[w].pc.Advancing?
    ensures Sequential(DoAdvance(c, w))
  {
    hide Sequential, Scheduled;
    OnlyWorker(c, w);
    RunningSequential(c, w);
    SequentialSucceeds(c);
    var d := DoAdvance(c, w);
    assert d.workers.Keys == {w};
    SameSequential(c, d);
  }

  /** A commit extends the run that started last. */
  lemma CommitSequential(c: Sys, d: Sys, root: nat, item: Item)
    requires Sequential(c) && c.h.started != [] && c.h.started[|c.h.started| - 1] == root && root in c.h.runs && root in d.h.runs
    requires forall i | 0 <= i < |c.h.started| - 1 :: c.h.started[i] != root
    requires d.h.started == c.h.started && d.h.committed == c.h.committed + [item] && d.h.runs == c.h.runs[root := d.h.runs[root]]
    requires d.h.runs[root].committed == c.h.runs[root].committed + [item] <= d.h.runs[root].began && !d.h.runs[root].succeeded
    requires forall w | w in d.workers && d.workers[w].Running? :: Paced(d, w)
    ensures Sequential(d)
  {
    hide Paced;
    var n := |c.h.started| - 1;
    JoinedFrame(c.h.started[..n], c.h.runs, d.h.runs);
    assert d.h.committed == Joined(c.h.started[..n], c.h.runs) + (c.h.runs[root].committed + [item]);
  }

  lemma EndSequential(c: Sys, w: nat, ok: bool)
    requires Sequential(c) && Folded(c) && Ordered(c) && Cascaded(c) && Scheduled(c) && IsRunning(c, w) && c.workers[w].pc.Firing?
    ensures Sequential(DoEnd(c, w, ok))
  {
    hide Sequential, Scheduled, Folded, Cascaded, Ordered, Number;
    var pc, root := c.workers[w].pc, c.workers[w].root.id;
    if !ok || Target(c, pc.item, pc.from).None? {
      StopSequential(c, w, EventFailed, false);
    } else {
      OnlyWorker(c, w);
      LastStarted(c, w);
      RunningSequential(c, w);
      AtHand(c, w);
      var d, run := DoEnd(c, w, ok), c.h.runs[root];
      assert d.workers.Keys == {w};
      assert run.began == run.began[..|run.began| - 1] + [pc.item];
      CommitSequential(c, d, root, pc.item);
    }
  }

  lemma LastStarted(c: Sys, w: nat)
    requires Ordered(c) && w in c.workers && c.workers[w].Running?
    ensures c.h.started != [] && c.h.started[|c.h.started| - 1] == c.workers[w].root.id
    ensures forall i | 0 <= i < |c.h.started| - 1 :: c.h.started[i] != c.workers[w].root.id
  {
    OrderedRises(c);
    hide Ordered, Kept;
    assert c.h.started == c.h.delivered + InHand(c.workers[w]) by { InHandLast(c, w); }
    var line, n := c.h.started + Ids(c.rt.roots), |c.h.started| - 1;
    forall i | 0 <= i < n ensures c.h.started[i] != c.workers[w].root.id {
      assert line[i] < line[n];
    }
  }

  lemma InHandLast(c: Sys, w: nat)
    requires Ordered(c) && w in c.workers
    ensures c.h.started == c.h.delivered + InHand(c.workers[w])
  {
    hide Kept;
  }

  lemma EnqueueSequential(c: Sys, root: nat, item: Item)
    requires Sequential(c) && root in c.cascades && root in c.h.runs
    ensures Sequential(DoEnqueue(c, root, item))
  {
    hide Joined;
    JoinedFrame(c.h.started, c.h.runs, DoEnqueue(c, root, item).h.runs);
  }

  lemma QuietSequential(c: Sys, d: Sys)
    requires Sequential(c) && Apart(c, d)
    ensures Sequential(d)
  {
    hide Joined, CommittedOf;
  }

  lemma StepSequential(c: Sys, step: Step)
    requires Sequential(c) && Folded(c) && Cascaded(c) && Ordered(c) && Scheduled(c) && Enabled(c, step)
    ensures Sequential(Exec(c, step))
  {
    hide Sequential, Folded, Cascaded, Ordered, Scheduled, Apart, DoFire, DoWithdraw, DoEnqueue, DoTake, DoBegin, DoEnd, DoAdvance, DoFinish, DoDeliver;
    match step
    case EnqueueItem(root, item) => EnqueueSequential(c, root, item);
    case TakeRoot(w) => TakeSequential(c, w);
    case SkipCancelled(w) => StopSequential(c, w, Cancelled, c.inFlight);
    case BeginFire(w) => BeginSequential(c, w);
    case EndFire(w, ok) => EndSequential(c, w, ok);
    case Advance(w) => AdvanceSequential(c, w);
    case _ =>
      OutsideApart(c, step);
      QuietSequential(c, Exec(c, step));
  }

  // -------------------------------------------------------------- numbers

  lemma PlusPlus(a: nat, b: nat)
    ensures Plus64(Plus64(0, a), b) == Plus64(0, a + b)
  {
  }

  lemma OddIsSet(j: nat)
    ensures Plus64(0, 2 * j + 1) != 0
  {
  }

  lemma SeenNumbered(c: Sys, d: Sys, root: nat)
    requires Numbered(c) && root in c.h.runs
    requires var run := c.h.runs[root];
      var numbered := Number(c.rt);
      var runId := if run.runId == 0 then numbered.1 else run.runId;
      && d.rt.sequence == numbered.0.sequence && d.h.steps == c.h.steps + [StepRecord(root, numbered.1, runId)]
      && root in d.h.runs && d.h.runs == c.h.runs[root := d.h.runs[root]] && d.h.runs[root].runId == runId
    ensures Numbered(d)
  {
    var n := |c.h.steps|;
    PlusPlus(2 * n, 1);
    PlusPlus(2 * n, 2);
    OddIsSet(n);
    hide Plus64;
    forall id | id in d.h.runs && d.h.runs[id].runId != 0 ensures exists j :: 0 <= j < |d.h.steps| && d.h.steps[j].root == id {
      if id == root {
        assert d.h.steps[n].root == id;
      } else {
        var j :| 0 <= j < n && c.h.steps[j].root == id;
        assert d.h.steps[j].root == id;
      }
    }
    forall j: nat | j < n + 1 ensures RecordFine(d.h.steps, d.h.runs, j) {
      if j < n {
        assert RecordFine(c.h.steps, c.h.runs, j);
        assert FirstOf(d.h.steps, j) ==> FirstOf(c.h.steps, j) by {
          assert forall i | 0 <= i <= j :: d.h.steps[i] == c.h.steps[i];
        }
      } else {
        LastRecord(c, d, root, n);
      }
    }
  }

  lemma LastRecord(c: Sys, d: Sys, root: nat, n: nat)
    requires Numbered(c) && root in c.h.runs && root in d.h.runs && n == |c.h.steps| && |d.h.steps| == n + 1 && d.h.steps[..n] == c.h.steps
    requires d.h.steps[n].root == root && d.h.steps[n].step == Plus64(0, 2 * n + 1) != 0
    requires d.h.steps[n].run == d.h.runs[root].runId
    requires d.h.runs[root].runId == if c.h.runs[root].runId == 0 then d.h.steps[n].step else c.h.runs[root].runId
    ensures RecordFine(d.h.steps, d.h.runs, n)
  {
    hide Plus64;
    if c.h.runs[root].runId != 0 {
      var j :| 0 <= j < n && c.h.steps[j].root == root;
      assert d.h.steps[..n][j] == d.h.steps[j];
      assert !FirstOf(d.h.steps, n);
    }
  }

  lemma QuietNumbered(c: Sys, d: Sys)
    requires Numbered(c) && d.rt.sequence == c.rt.sequence && d.h.steps == c.h.steps
    requires forall id | id in c.h.runs :: id in d.h.runs && d.h.runs[id].runId == c.h.runs[id].runId
    requires forall id | id in d.h.runs && id !in c.h.runs :: d.h.runs[id].runId == 0
    ensures Numbered(d)
  {
    hide Plus64;
    forall j: nat | j < |d.h.steps| ensures RecordFine(d.h.steps, d.h.runs, j) {
      assert RecordFine(c.h.steps, c.h.runs, j);
    }
  }

  lemma TakeNumbered(c: Sys, w: nat)
    requires Numbered(c) && Cascaded(c) && Ordered(c) && w in c.workers
    ensures Numbered(DoTake(c, w))
  {
    if c.rt.roots != [] { NextIsNew(c); }
    hide Numbered, Ordered, CascadeFine, RunFine;
    QuietNumbered(c, DoTake(c, w));
  }

  lemma EndNumbered(c: Sys, w: nat, ok: bool)
    requires Numbered(c) && IsRunning(c, w) && c.workers[w].pc.Firing?
    ensures Numbered(DoEnd(c, w, ok))
  {
    hide Numbered, Number;
    var pc := c.workers[w].pc;
    var to := Target(c, pc.item, pc.from);
    if ok && to.Some? && pc.from != to.value && c.observed {
      SeenNumbered(c, DoEnd(c, w, ok), c.workers[w].root.id);
    } else {
      QuietNumbered(c, DoEnd(c, w, ok));
    }
  }

  lemma RunsNumbered(c: Sys, step: Step)
    requires Numbered(c) && Enabled(c, step) && (step.EnqueueItem? || step.SkipCancelled? || step.BeginFire? || step.Advance?)
    ensures Numbered(Exec(c, step))
  {
    hide Numbered;
    QuietNumbered(c, Exec(c, step));
  }

  lemma OutsideNumbered(c: Sys, d: Sys)
    requires Numbered(c) && Apart(c, d)
    ensures Numbered(d)
  {
    hide Numbered;
    QuietNumbered(c, d);
  }

  lemma StepNumbered(c: Sys, step: Step)
    requires Numbered(c) && Cascaded(c) && Ordered(c) && Scheduled(c) && Enabled(c, step)
    ensures Numbered(Exec(c, step))
  {
    hide Numbered, Cascaded, Ordered, Scheduled, Apart, Number, DoFire, DoWithdraw, DoEnqueue, DoTake, DoBegin, DoEnd, DoAdvance, DoFinish, DoDeliver;
    match step
    case TakeRoot(w) => TakeNumbered(c, w);
    case EndFire(w, ok) => EndNumbered(c, w, ok);
    case _ =>
      if Outside(step) {
        OutsideApart(c, step);
        OutsideNumbered(c, Exec(c, step));
      } else {
        RunsNumbered(c, step);
      }
  }

  // ------------------------------------------------------------ every run

  lemma InitInv(c: Sys)
    requires Init(c)
    ensures Inv(c)
  {
  }

  lemma StepInv(c: Sys, step: Step)
    requires Inv(c) && Enabled(c, step)
    ensures Inv(Exec(c, step))
  {
    hide Scheduled, Ordered, Cascaded, Folded, Sequential, Numbered, Exec, Enabled;
    StepSequential(c, step);
    StepScheduled(c, step);
    StepOrdered(c, step);
    StepCascaded(c, step);
    StepFolded(c, step);
    StepNumbered(c, step);
  }

  lemma {:induction false} RunInv(c: Sys, steps: seq<Step>)
    requires Inv(c) && Runnable(c, steps)
    ensures Inv(Execute(c, steps))
    decreases |steps|
  {
    hide Inv, Exec, Enabled;
    if steps != [] {
      StepInv(c, steps[0]);
      RunInv(Exec(c, steps[0]), steps[1..]);
    }
  }

  ghost predicate Reachable(c: Sys) {
    exists start, steps :: Init(start) && Runnable(start, steps) && Execute(start, steps) == c
  }

  lemma {:induction false} ReachableInv(c: Sys)
    requires Reachable(c)
    ensures Inv(c)
  {
    hide Inv;
    var start, steps :| Init(start) && Runnable(start, steps) && Execute(start, steps) == c;
    InitInv(start);
    RunInv(start, steps);
  }

  /** Admission accounting: the count is what is queued or executing, within the limit, and a queue is never without its one worker. */
  lemma {:induction false} Accounting(c: Sys)
    requires Reachable(c)
    ensures c.rt.rootCount == |c.rt.roots| + |(set w | w in c.workers && (c.workers[w].Running? || c.workers[w].Ended?))|
    ensures c.rt.rootCount <= c.limits.maxRoots
    ensures |c.workers| <= 1 && (c.rt.running <==> |c.workers| == 1) && (c.rt.roots != [] ==> |c.workers| == 1)
  {
    hide Inv, Sequential, Ordered, Cascaded, Folded, Numbered;
    ReachableInv(c);
    InvParts(c);
    var busy := set w | w in c.workers && (c.workers[w].Running? || c.workers[w].Ended?);
    if c.rt.running {
      var w :| c.workers.Keys == {w};
      assert |c.workers| == |c.workers.Keys| == 1;
      if Busy(c) { assert busy == {w}; } else { assert busy == {}; }
    } else {
      assert busy == {};
    }
  }

  /** Roots execute in order of admission, minus the withdrawn ones, each at most once. */
  lemma {:induction false} FirstInFirstOut(c: Sys)
    requires Reachable(c)
    ensures c.h.started + Ids(c.rt.roots) == Kept(c.h.admitted, c.h.removed)
    ensures forall i, j | 0 <= i < j < |c.h.started| :: c.h.started[i] < c.h.started[j]
    ensures c.h.delivered <= c.h.started && |c.h.started| <= |c.h.delivered| + 1
  {
    hide Inv, Sequential, Cascaded, Folded, Numbered;
    ReachableInv(c);
    InvParts(c);
    OrderedRises(c);
    var line := c.h.started + Ids(c.rt.roots);
    forall i, j | 0 <= i < j < |c.h.started| ensures c.h.started[i] < c.h.started[j] {
      assert line[i] < line[j];
    }
    if c.rt.running {
      var w :| c.workers.Keys == {w};
      assert c.h.started == c.h.delivered + InHand(c.workers[w]);
    }
  }

  lemma InvParts(c: Sys)
    requires Inv(c)
    ensures Scheduled(c) && Ordered(c) && Cascaded(c) && Folded(c) && Sequential(c) && Numbered(c)
  {
  }

  /**
   * Every admitted root has exactly one fate: still queued, withdrawn and never
   * started, at hand, or started and delivered once.
   */
  lemma {:induction false} OneFate(c: Sys, id: nat)
    requires Reachable(c) && id in c.h.admitted
    ensures id in c.h.removed ==> id !in c.h.started && id !in c.h.delivered && !Queued(c.rt.roots, id)
    ensures id !in c.h.removed ==> (Queued(c.rt.roots, id) <==> id !in c.h.started)
    ensures id in c.h.delivered ==> id in c.h.started
    ensures id in c.h.started && id !in c.h.delivered ==> exists w :: w in c.workers && !c.workers[w].Draining? && c.workers[w].root.id == id
    ensures forall i, j | 0 <= i < j < |c.h.delivered| :: c.h.delivered[i] != c.h.delivered[j]
  {
    hide Inv, Sequential, Cascaded, Folded, Numbered, Scheduled, Ordered, Kept, Queued;
    ReachableInv(c);
    InvParts(c);
    FirstInFirstOut(c);
    StartedOrQueued(c, id);
    HandsOn(c, id);
  }

  lemma {:induction false} QueuedIsListed(roots: seq<Request>, id: nat)
    ensures Queued(roots, id) <==> id in Ids(roots)
  {
    if id in Ids(roots) {
      var k :| 0 <= k < |roots| && Ids(roots)[k] == id;
      assert roots[k].id == id;
    }
    if Queued(roots, id) {
      var k :| 0 <= k < |roots| && roots[k].id == id;
      assert Ids(roots)[k] == id;
    }
  }

  lemma StartedOrQueued(c: Sys, id: nat)
    requires Ordered(c) && id in c.h.admitted
    ensures id in c.h.removed ==> id !in c.h.started && !Queued(c.rt.roots, id)
    ensures id !in c.h.removed ==> (Queued(c.rt.roots, id) <==> id !in c.h.started)
  {
    OrderedRises(c);
    QueuedIsListed(c.rt.roots, id);
    hide Ordered, Kept, Queued;
    var ids := Ids(c.rt.roots);
    var line := c.h.started + ids;
    assert id in line <==> id in c.h.started || id in ids;
    forall i, k | 0 <= i < |c.h.started| && 0 <= k < |ids| ensures c.h.started[i] != ids[k] {
      assert line[i] < line[|c.h.started| + k];
    }
  }

  /** What started and was not delivered is in the one worker's hand. */
  lemma HandsOn(c: Sys, id: nat)
    requires Scheduled(c) && Ordered(c)
    ensures id in c.h.delivered ==> id in c.h.started
    ensures id in c.h.started && id !in c.h.delivered ==> exists w :: w in c.workers && !c.workers[w].Draining? && c.workers[w].root.id == id
  {
    if c.rt.running {
      var w :| c.workers.Keys == {w};
      InHandLast(c, w);
      hide Ordered, Scheduled;
      assert w in c.workers;
    }
  }

  /** The inner Instance never reports a call in flight. */
  lemma {:induction false} NeverInFlight(c: Sys, w: nat)
    requires Reachable(c) && Enabled(c, BeginFire(w))
    ensures !c.inFlight && Exec(c, BeginFire(w)).workers[w].Running?
  {
    hide Inv, Sequential, Cascaded, Ordered, Numbered;
    ReachableInv(c);
    InvParts(c);
    InnerIdle(c, w);
  }

  /**
   * Run to completion: follow-ups begin in the order they were accepted, never
   * more than the limit; a run that succeeds has begun and committed every one
   * it accepted, none lost to a concurrent Enqueue, and takes no more.
   */
  lemma {:induction false} RunToCompletion(c: Sys, id: nat, item: Item)
    requires Reachable(c) && id in c.h.runs
    ensures id in c.cascades && var run := c.h.runs[id];
      && run.began <= run.accepted && |run.accepted| <= c.limits.maxRunEvents
      && (run.succeeded ==>
            && run.began == run.accepted && Enqueue(c.cascades[id], item) == (c.cascades[id], NotRunning)
            && run.base + |run.accepted| <= |c.h.committed| && c.h.committed[run.base..run.base + |run.accepted|] == run.accepted)
  {
    hide Inv, Sequential, Scheduled, Ordered, Numbered, Fold;
    ReachableInv(c);
    InvParts(c);
    assert CascadeFine(c, id);
  }

  /**
   * A plain first-in first-out simulation: the state is the fold of what the
   * runs committed, in the order they started, each a prefix of what it accepted
   * and, when it succeeded, all of it.
   */
  lemma {:induction false} CommittedFold(c: Sys)
    requires Reachable(c)
    ensures forall i | 0 <= i < |c.h.started| :: c.h.started[i] in c.h.runs
    ensures c.state == Fold(c.machine, c.initial, Joined(c.h.started, c.h.runs))
    ensures forall id | id in c.h.runs ::
      c.h.runs[id].committed <= c.h.runs[id].accepted && (c.h.runs[id].succeeded ==> c.h.runs[id].committed == c.h.runs[id].accepted)
    ensures forall w | w in c.workers && c.workers[w].Ended? && c.workers[w].outcome.Succeeded? :: c.workers[w].outcome.state == c.state
  {
    hide Inv, Sequential, Scheduled, Ordered, Cascaded, Numbered, Fold, Joined;
    ReachableInv(c);
    InvParts(c);
    RunPrefixes(c);
  }

  lemma RunPrefixes(c: Sys)
    requires Sequential(c) && Cascaded(c)
    ensures (forall i | 0 <= i < |c.h.started| :: c.h.started[i] in c.h.runs) && c.h.committed == Joined(c.h.started, c.h.runs)
    ensures forall id | id in c.h.runs ::
      c.h.runs[id].committed <= c.h.runs[id].accepted && (c.h.runs[id].succeeded ==> c.h.runs[id].committed == c.h.runs[id].accepted)
  {
    hide Joined;
    forall id | id in c.h.runs
      ensures c.h.runs[id].committed <= c.h.runs[id].accepted && (c.h.runs[id].succeeded ==> c.h.runs[id].committed == c.h.runs[id].accepted)
    {
      assert CascadeFine(c, id);
    }
  }

  /** Observed steps carry consecutive numbers, and all steps of one run carry the number of its first. */
  lemma {:induction false} StepsShareRun(c: Sys, i: nat, j: nat)
    requires Reachable(c) && i < j < |c.h.steps| && c.h.steps[i].root == c.h.steps[j].root
    ensures c.h.steps[i].run == c.h.steps[j].run != 0
    ensures c.h.steps[i].step == Plus64(0, 2 * i + 1) && c.h.steps[j].step == Plus64(0, 2 * j + 1)
    ensures FirstOf(c.h.steps, i) ==> c.h.steps[j].run == c.h.steps[i].step
  {
    hide Inv, Sequential, Scheduled, Ordered, Cascaded, Folded, FirstOf, Plus64;
    ReachableInv(c);
    InvParts(c);
    assert RecordFine(c.h.steps, c.h.runs, i) && RecordFine(c.h.steps, c.h.runs, j);
  }
}
