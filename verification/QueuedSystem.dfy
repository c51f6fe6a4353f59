/**
 * The queued Runtime at work: many clients that fire and cancel, workers that
 * drain the queue, and goroutines that enqueue follow-ups at any time.
 */
module QueuedSystem {
  import opened Basics
  import opened QueuedSpec

  /** The inner Machine as a partial function; an absent key is a refusal. */
  type Machine = map<(State, Event, nat), State>

  datatype Outcome = Succeeded(state: State) | Cancelled | EventFailed

  /** Where the run of one root stands. */
  datatype Pc = Checking(item: Item) | Firing(item: Item, from: State) | Advancing(to: State)

  datatype Worker =
    | Draining
    | Running(root: Request, pc: Pc)
    | Ended(root: Request, outcome: Outcome)
    | Delivering(root: Request, outcome: Outcome)

  /** What a run did: the events it accepted, those it began, those it committed, and where its commits start. */
  datatype Run = Run(accepted: seq<Item>, began: seq<Item>, committed: seq<Item>, base: nat, runId: uint64, succeeded: bool)

  /** One observed step: its own number, and the number its run is known by. */
  datatype StepRecord = StepRecord(root: nat, step: uint64, run: uint64)

  datatype History = History(
    admitted: seq<nat>, removed: set<nat>, started: seq<nat>, delivered: seq<nat>,
    committed: seq<Item>, runs: map<nat, Run>, steps: seq<StepRecord>)

  datatype Sys = Sys(
    machine: Machine, limits: Limits, observed: bool, initial: State,
    rt: Runtime, state: State, inFlight: bool, workers: map<nat, Worker>, nextWorker: nat,
    cascades: map<nat, Cascade>, cancelled: set<Context>, h: History)

  datatype Step =
    | Fire(item: Item) | Cancel(context: Context) | WithdrawRoot(id: nat)
    | TakeRoot(w: nat) | SkipCancelled(w: nat) | BeginFire(w: nat) | EndFire(w: nat, ok: bool) | Advance(w: nat)
    | EnqueueItem(root: nat, item: Item) | FinishRoot(w: nat) | Deliver(w: nat)

  ghost predicate Init(c: Sys) {
    && c.rt == Runtime([], false, 0, 0) && c.state == c.initial && !c.inFlight && c.workers == map[] && c.cascades == map[]
    && c.limits.maxRoots > 0 && c.limits.maxRunEvents > 0
    && c.h == History([], {}, [], [], [], map[], [])
  }

  predicate IsRunning(c: Sys, w: nat) {
    w in c.workers && c.workers[w].Running? && c.workers[w].root.id in c.cascades && c.workers[w].root.id in c.h.runs
  }

  predicate Enabled(c: Sys, step: Step) {
    match step
    case Fire(_) => true
    case Cancel(_) => true
    case WithdrawRoot(id) => id in c.h.admitted
    case TakeRoot(w) => w in c.workers && c.workers[w].Draining?
    case SkipCancelled(w) => IsRunning(c, w) && c.workers[w].pc.Checking?
      && (c.workers[w].root.item.context in c.cancelled || c.workers[w].pc.item.context in c.cancelled)
    case BeginFire(w) => IsRunning(c, w) && c.workers[w].pc.Checking?
    case EndFire(w, _) => IsRunning(c, w) && c.workers[w].pc.Firing?
    case Advance(w) => IsRunning(c, w) && c.workers[w].pc.Advancing?
    case EnqueueItem(root, _) => root in c.cascades && root in c.h.runs
    case FinishRoot(w) => w in c.workers && c.workers[w].Ended?
    case Deliver(w) => w in c.workers && c.workers[w].Delivering?
  }

  function DoFire(c: Sys, item: Item): Sys {
    var id := |c.h.admitted|;
    var r := Admit(c.rt, c.limits, Request(id, item));
    if !r.1 then c
    else
      c.(rt := r.0, h := c.h.(admitted := c.h.admitted + [id]),
         workers := if r.2 then c.workers[c.nextWorker := Draining] else c.workers,
         nextWorker := if r.2 then c.nextWorker + 1 else c.nextWorker)
  }

  function DoWithdraw(c: Sys, id: nat): Sys {
    var r := Withdraw(c.rt, id);
    c.(rt := r.0, h := if r.1 then c.h.(removed := c.h.removed + {id}) else c.h)
  }

  function DoTake(c: Sys, w: nat): Sys requires w in c.workers {
    var r := Take(c.rt);
    match r.1
    case None => c.(rt := r.0, workers := c.workers - {w})
    case Some(root) =>
      c.(rt := r.0, workers := c.workers[w := Running(root, Checking(root.item))],
         cascades := c.cascades[root.id := NewCascade(c.limits.maxRunEvents)],
         h := c.h.(started := c.h.started + [root.id],
                   runs := c.h.runs[root.id := Run([root.item], [], [], |c.h.committed|, 0, false)]))
  }

  /** The run of `w` ends, its remaining follow-ups dropped. */
  function Stop(c: Sys, w: nat, outcome: Outcome): Sys requires IsRunning(c, w) {
    var root := c.workers[w].root;
    c.(workers := c.workers[w := Ended(root, outcome)], cascades := c.cascades[root.id := Abort(c.cascades[root.id])])
  }

  function DoBegin(c: Sys, w: nat): Sys requires IsRunning(c, w) && c.workers[w].pc.Checking? {
    var root, item := c.workers[w].root, c.workers[w].pc.item;
    var run := c.h.runs[root.id];
    if c.inFlight then Stop(c, w, EventFailed)
    else
      c.(inFlight := true, workers := c.workers[w := Running(root, Firing(item, c.state))],
         h := c.h.(runs := c.h.runs[root.id := run.(began := run.began + [item])]))
  }

  function Target(c: Sys, item: Item, from: State): Option<State> {
    if (from, item.event, item.data) in c.machine then Some(c.machine[(from, item.event, item.data)]) else None
  }

  function DoEnd(c: Sys, w: nat, ok: bool): Sys requires IsRunning(c, w) && c.workers[w].pc.Firing? {
    var root, item, from := c.workers[w].root, c.workers[w].pc.item, c.workers[w].pc.from;
    var to := Target(c, item, from);
    var d := c.(inFlight := false);
    if !ok || to.None? then Stop(d, w, EventFailed)
    else
      var run := c.h.runs[root.id];
      var numbered := Number(c.rt);
      var seen := from != to.value && c.observed;
      var runId := if run.runId == 0 then numbered.1 else run.runId;
      d.(state := to.value, rt := if seen then numbered.0 else c.rt,
         workers := c.workers[w := Running(root, Advancing(to.value))],
         h := c.h.(committed := c.h.committed + [item],
                   steps := if seen then c.h.steps + [StepRecord(root.id, numbered.1, runId)] else c.h.steps,
                   runs := c.h.runs[root.id := run.(committed := run.committed + [item], runId := if seen then runId else run.runId)]))
  }

  function DoAdvance(c: Sys, w: nat): Sys requires IsRunning(c, w) && c.workers[w].pc.Advancing? {
    var root, to := c.workers[w].root, c.workers[w].pc.to;
    var r := Next(c.cascades[root.id]);
    var d := c.(cascades := c.cascades[root.id := r.0]);
    match r.1
    case Some(item) => d.(workers := c.workers[w := Running(root, Checking(item))])
    case None =>
      d.(workers := c.workers[w := Ended(root, Succeeded(to))],
         h := c.h.(runs := c.h.runs[root.id := c.h.runs[root.id].(succeeded := true)]))
  }

  function DoEnqueue(c: Sys, root: nat, item: Item): Sys requires root in c.cascades && root in c.h.runs {
    var r := Enqueue(c.cascades[root], item);
    var run := c.h.runs[root];
    c.(cascades := c.cascades[root := r.0],
       h := if r.1.Accepted? then c.h.(runs := c.h.runs[root := run.(accepted := run.accepted + [item])]) else c.h)
  }

  function DoFinish(c: Sys, w: nat): Sys requires w in c.workers && c.workers[w].Ended? {
    c.(rt := Finish(c.rt), workers := c.workers[w := Delivering(c.workers[w].root, c.workers[w].outcome)])
  }

  function DoDeliver(c: Sys, w: nat): Sys requires w in c.workers && c.workers[w].Delivering? {
    c.(workers := c.workers[w := Draining], h := c.h.(delivered := c.h.delivered + [c.workers[w].root.id]))
  }

  function Exec(c: Sys, step: Step): Sys
    requires Enabled(c, step)
  {
    match step
    case Fire(item) => if item.context in c.cancelled then c else DoFire(c, item)
    case Cancel(context) => c.(cancelled := c.cancelled + {context})
    case WithdrawRoot(id) => DoWithdraw(c, id)
    case TakeRoot(w) => DoTake(c, w)
    case SkipCancelled(w) => Stop(c, w, Cancelled)
    case BeginFire(w) => DoBegin(c, w)
    case EndFire(w, ok) => DoEnd(c, w, ok)
    case Advance(w) => DoAdvance(c, w)
    case EnqueueItem(root, item) => DoEnqueue(c, root, item)
    case FinishRoot(w) => DoFinish(c, w)
    case Deliver(w) => DoDeliver(c, w)
  }

  ghost predicate Runnable(c: Sys, steps: seq<Step>)
    decreases |steps|
  {
    steps == [] || (Enabled(c, steps[0]) && Runnable(Exec(c, steps[0]), steps[1..]))
  }

  ghost function Execute(c: Sys, steps: seq<Step>): Sys
    requires Runnable(c, steps)
    decreases |steps|
  {
    if steps == [] then c else Execute(Exec(c, steps[0]), steps[1..])
  }

  // --------------------------------------------------- what always holds

  /** The root a worker is busy with, if any. */
  function InHand(w: Worker): seq<nat> {
    if w.Draining? then [] else [w.root.id]
  }

  ghost predicate Busy(c: Sys) {
    exists w :: w in c.workers && (c.workers[w].Running? || c.workers[w].Ended?)
  }

  /** The admitted roots that were not withdrawn, in order of admission. */
  ghost function Kept(admitted: seq<nat>, removed: set<nat>): seq<nat> {
    if admitted == [] then [] else
      var n := |admitted| - 1;
      Kept(admitted[..n], removed) + if admitted[n] in removed then [] else [admitted[n]]
  }

  ghost function Ids(roots: seq<Request>): seq<nat> {
    seq(|roots|, i requires 0 <= i < |roots| => roots[i].id)
  }

  /** At most one worker, and exactly as many roots counted as are queued or executing. */
  ghost predicate Scheduled(c: Sys) {
    && (if c.rt.running then exists w :: c.workers.Keys == {w} else c.workers == map[])
    && (forall w | w in c.workers :: w < c.nextWorker)
    && (c.rt.roots != [] ==> c.rt.running)
    && c.rt.rootCount == |c.rt.roots| + (if Busy(c) then 1 else 0)
    && c.rt.rootCount <= c.limits.maxRoots
  }

  /** Roots start in order of admission, except the withdrawn ones, and end in the order they started. */
  ghost predicate Ordered(c: Sys) {
    && (forall i | 0 <= i < |c.h.admitted| :: c.h.admitted[i] == i)
    && c.h.started + Ids(c.rt.roots) == Kept(c.h.admitted, c.h.removed)
    && (forall id | id in c.h.removed :: id in c.h.admitted)
    && (forall w | w in c.workers :: c.h.started == c.h.delivered + InHand(c.workers[w]))
    && (c.workers == map[] ==> c.h.started == c.h.delivered)
  }

  /** What the cascade of root `id` accepted, began and still holds. */
  ghost predicate CascadeFine(c: Sys, id: nat)
    requires id in c.cascades && id in c.h.runs
  {
    var k, run := c.cascades[id], c.h.runs[id];
    && k.maximum == c.limits.maxRunEvents && k.accepted == |run.accepted| <= k.maximum
    && run.began <= run.accepted && (run.succeeded ==> run.began == run.accepted)
    && (k.active ==> !run.succeeded && exists w :: w in c.workers && c.workers[w].Running? && c.workers[w].root.id == id)
    && (!k.active ==> k.pending == [])
  }

  /** The run in progress: everything accepted was begun, is at hand, or is pending, in that order. */
  ghost predicate RunFine(c: Sys, w: nat)
    requires IsRunning(c, w)
  {
    var id, pc := c.workers[w].root.id, c.workers[w].pc;
    var k, run := c.cascades[id], c.h.runs[id];
    && k.active && !run.succeeded
    && match pc
       case Checking(item) => run.accepted == run.began + [item] + k.pending
       case Firing(item, _) => run.accepted == run.began + k.pending && run.began != [] && run.began[|run.began| - 1] == item
       case Advancing(_) => run.accepted == run.began + k.pending
  }

  ghost predicate Cascaded(c: Sys) {
    && c.limits.maxRunEvents > 0
    && c.cascades.Keys == c.h.runs.Keys
    && (forall id :: id in c.cascades <==> id in c.h.started)
    && (forall id | id in c.cascades :: CascadeFine(c, id))
    && (forall w | w in c.workers && c.workers[w].Running? :: IsRunning(c, w) && RunFine(c, w))
  }

  /** The state after committing `items` one after the other. */
  ghost function Fold(machine: Machine, s: State, items: seq<Item>): State {
    if items == [] then s else
      var n := |items| - 1;
      var from := Fold(machine, s, items[..n]);
      var key := (from, items[n].event, items[n].data);
      if key in machine then machine[key] else from
  }

  /** The items that run `run` has committed so far, given how far it is. */
  ghost function CommittedOf(run: Run, pc: Pc): seq<Item> {
    if pc.Firing? && run.began != [] then run.began[..|run.began| - 1] else run.began
  }

  ghost predicate Folded(c: Sys) {
    && c.state == Fold(c.machine, c.initial, c.h.committed)
    && (c.inFlight <==> exists w :: w in c.workers && c.workers[w].Running? && c.workers[w].pc.Firing?)
    && (forall w | w in c.workers && c.workers[w].Running? ::
          && IsRunning(c, w)
          && (c.workers[w].pc.Firing? ==> c.workers[w].pc.from == c.state)
          && (c.workers[w].pc.Advancing? ==> c.workers[w].pc.to == c.state)
          && var run := c.h.runs[c.workers[w].root.id];
             run.base <= |c.h.committed| && c.h.committed[run.base..] == CommittedOf(run, c.workers[w].pc))
    && (forall w | w in c.workers && (c.workers[w].Ended? || c.workers[w].Delivering?) && c.workers[w].outcome.Succeeded? ::
          c.workers[w].outcome.state == c.state)
    && (forall id | id in c.h.runs && c.h.runs[id].succeeded ::
          var run := c.h.runs[id];
          run.base + |run.accepted| <= |c.h.committed| && c.h.committed[run.base..run.base + |run.accepted|] == run.accepted)
  }

  /** What the runs of `ids` committed, one run after the other. */
  ghost function Joined(ids: seq<nat>, runs: map<nat, Run>): seq<Item>
    requires forall i | 0 <= i < |ids| :: ids[i] in runs
  {
    if ids == [] then [] else Joined(ids[..|ids| - 1], runs) + runs[ids[|ids| - 1]].committed
  }

  /** The run in progress has committed what its position says. */
  ghost predicate Paced(c: Sys, w: nat) {
    IsRunning(c, w) && c.h.runs[c.workers[w].root.id].committed == CommittedOf(c.h.runs[c.workers[w].root.id], c.workers[w].pc)
  }

  /** All commits are those of the runs in the order they started, each a prefix of what its run began. */
  ghost predicate Sequential(c: Sys) {
    && (forall i | 0 <= i < |c.h.started| :: c.h.started[i] in c.h.runs)
    && c.h.committed == Joined(c.h.started, c.h.runs)
    && (forall id | id in c.h.runs :: c.h.runs[id].committed <= c.h.runs[id].began)
    && (forall id | id in c.h.runs && c.h.runs[id].succeeded :: c.h.runs[id].committed == c.h.runs[id].began)
    && (forall w | w in c.workers && c.workers[w].Running? :: Paced(c, w))
  }

  /** No earlier step belongs to the same root. */
  ghost predicate FirstOf(steps: seq<StepRecord>, j: nat)
    requires j < |steps|
  {
    forall i | 0 <= i < j :: steps[i].root != steps[j].root
  }

  ghost predicate RecordFine(steps: seq<StepRecord>, runs: map<nat, Run>, j: nat)
    requires j < |steps|
  {
    && steps[j].step == Plus64(0, 2 * j + 1)
    && steps[j].root in runs && steps[j].run == runs[steps[j].root].runId != 0
    && (FirstOf(steps, j) ==> steps[j].run == steps[j].step)
  }

  /** Steps are numbered 1, 3, 5, ... modulo 2^64; a run is known by the number of its first step. */
  ghost predicate Numbered(c: Sys) {
    && c.rt.sequence == Plus64(0, 2 * |c.h.steps|)
    && (forall j: nat | j < |c.h.steps| :: RecordFine(c.h.steps, c.h.runs, j))
    && (forall id | id in c.h.runs && c.h.runs[id].runId != 0 :: exists j :: 0 <= j < |c.h.steps| && c.h.steps[j].root == id)
  }

  ghost predicate Inv(c: Sys) {
    Scheduled(c) && Ordered(c) && Cascaded(c) && Folded(c) && Sequential(c) && Numbered(c)
  }
}
