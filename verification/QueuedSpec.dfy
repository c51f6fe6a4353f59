/**
 * The critical sections of the queued Runtime and of a cascade, as functions on
 * their fields.
 */
module QueuedSpec {
  import opened Basics

  type State = nat
  type Event = nat
  type Context = nat

  /** One event to run, with the context that may cancel it. */
  datatype Item = Item(event: Event, data: nat, context: Context)

  /** One external Fire; `id` identifies the request object. */
  datatype Request = Request(id: nat, item: Item)

  datatype Limits = Limits(maxRoots: nat, maxRunEvents: nat)

  /** The scheduling fields of a Runtime. */
  datatype Runtime = Runtime(roots: seq<Request>, running: bool, rootCount: int, sequence: uint64)

  datatype Cascade = Cascade(active: bool, pending: seq<Item>, accepted: nat, maximum: nat)

  datatype EnqueueResult = Accepted | NotRunning | RunLimit

  /** Fire's admission: whether the root was admitted, and whether a worker must be started for it. */
  function Admit(r: Runtime, limits: Limits, req: Request): (Runtime, bool, bool) {
    if r.rootCount >= limits.maxRoots then (r, false, false)
    else (r.(roots := r.roots + [req], rootCount := r.rootCount + 1, running := true), true, !r.running)
  }

  /** The queue without its first request numbered `id`. */
  function Without(roots: seq<Request>, id: nat): seq<Request> {
    if roots == [] then []
    else if roots[0].id == id then roots[1..]
    else [roots[0]] + Without(roots[1..], id)
  }

  predicate Queued(roots: seq<Request>, id: nat) {
    exists i :: 0 <= i < |roots| && roots[i].id == id
  }

  /** A cancelled Fire withdraws its root if it is still queued. */
  function Withdraw(r: Runtime, id: nat): (Runtime, bool) {
    if Queued(r.roots, id) then (r.(roots := Without(r.roots, id), rootCount := r.rootCount - 1), true) else (r, false)
  }

  /** The worker takes the next root, or stops when there is none. */
  function Take(r: Runtime): (Runtime, Option<Request>) {
    if r.roots == [] then (r.(running := false), None) else (r.(roots := r.roots[1..]), Some(r.roots[0]))
  }

  function Finish(r: Runtime): Runtime {
    r.(rootCount := r.rootCount - 1)
  }

  function Plus64(x: uint64, n: nat): uint64 {
    (x + n) % (MAX_UINT64 + 1)
  }

  /** Numbers one observed step: an exit and an entry. */
  function Number(r: Runtime): (Runtime, uint64) {
    (r.(sequence := Plus64(r.sequence, 2)), Plus64(r.sequence, 1))
  }

  function NewCascade(maximum: nat): Cascade {
    Cascade(true, [], 1, maximum)
  }

  function Enqueue(c: Cascade, item: Item): (Cascade, EnqueueResult) {
    if !c.active then (c, NotRunning)
    else if c.accepted >= c.maximum then (c, RunLimit)
    else (c.(pending := c.pending + [item], accepted := c.accepted + 1), Accepted)
  }

  function Next(c: Cascade): (Cascade, Option<Item>) {
    if c.pending == [] then (c.(active := false), None) else (c.(pending := c.pending[1..]), Some(c.pending[0]))
  }

  function Abort(c: Cascade): Cascade {
    c.(active := false, pending := [])
  }
}
