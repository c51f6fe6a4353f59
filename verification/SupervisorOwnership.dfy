/**
 * Operation ownership: who holds the Supervisor, which callbacks and
 * publications are live, and how that shows in its counters, gates and mode.
 */
module SupervisorOwnership {
  import opened Basics
  import opened SupervisorTypes
  import opened SupervisorSpec
  import opened SupervisorSystem

  // --------------------------------------------------------- ghost counts

  datatype Trait = HeldBy(op: nat) | OfApp | OfJournal | OfRecorder

  predicate Has(l: Live, which: Trait) {
    match which
    case HeldBy(o) => OwnerOf(l) == Some(o)
    case OfApp => l.App?
    case OfJournal => l.JournalWrite?
    case OfRecorder => l.RecorderWrite?
  }

  /** The live callbacks with one trait. */
  ghost function Tagged(live: map<nat, Live>, which: Trait): set<nat> {
    set k | k in live && Has(live[k], which)
  }

  datatype Role = Reporter | Returner | Late

  predicate Plays(pub: Pub, role: Role) {
    match role
    case Reporter => pub.kind.Reporting?
    case Returner => pub.kind.Returning?
    case Late => pub.kind.LateCause?
  }

  /** The publications with one role. */
  ghost function Cast(pubs: map<nat, Pub>, role: Role): set<nat> {
    set p | p in pubs && Plays(pubs[p], role)
  }

  lemma TaggedAdd(live: map<nat, Live>, k: nat, l: Live, which: Trait)
    requires k !in live
    ensures |Tagged(live[k := l], which)| == |Tagged(live, which)| + if Has(l, which) then 1 else 0
  {
    assert Tagged(live[k := l], which) == Tagged(live, which) + if Has(l, which) then {k} else {};
  }

  lemma TaggedDrop(live: map<nat, Live>, k: nat, which: Trait)
    requires k in live
    ensures |Tagged(live - {k}, which)| == |Tagged(live, which)| - if Has(live[k], which) then 1 else 0
  {
    assert Tagged(live, which) == Tagged(live - {k}, which) + if Has(live[k], which) then {k} else {};
  }

  lemma TaggedKeep(live: map<nat, Live>, k: nat, l: Live, which: Trait)
    requires k in live && Has(l, which) == Has(live[k], which)
    ensures Tagged(live[k := l], which) == Tagged(live, which)
  {
  }

  lemma CastAdd(pubs: map<nat, Pub>, p: nat, pub: Pub, role: Role)
    requires p !in pubs
    ensures |Cast(pubs[p := pub], role)| == |Cast(pubs, role)| + if Plays(pub, role) then 1 else 0
  {
    assert Cast(pubs[p := pub], role) == Cast(pubs, role) + if Plays(pub, role) then {p} else {};
  }

  lemma CastDrop(pubs: map<nat, Pub>, p: nat, role: Role)
    requires p in pubs
    ensures |Cast(pubs - {p}, role)| == |Cast(pubs, role)| - if Plays(pubs[p], role) then 1 else 0
  {
    assert Cast(pubs, role) == Cast(pubs - {p}, role) + if Plays(pubs[p], role) then {p} else {};
  }

  lemma CastKeep(pubs: map<nat, Pub>, p: nat, pub: Pub, role: Role)
    requires p in pubs && pub.kind == pubs[p].kind
    ensures Cast(pubs[p := pub], role) == Cast(pubs, role)
  {
  }

  // ------------------------------------------------------------ invariant

  predicate Terminal(pc: Pc) {
    pc.FailAt? || pc.RestoreFaultAt?
  }

  /** An admitted, undecided and unrevoked call exists. */
  predicate Active(c: Sys) {
    c.sup.operation.Some? && c.sup.operation.value in c.calls && !OpOf(c.sup, c.sup.operation.value).revoked
  }

  ghost predicate CallOwned(c: Sys, o: nat)
    requires o in c.calls
  {
    var call := c.calls[o];
    && c.sup.operation == Some(o) && o in c.sup.ops && !c.sup.ops[o].returned
    && (c.sup.ops[o].revoked ==> c.sup.mode == Faulted)
    && (c.sup.ops[o].abandoned ==> Terminal(call.pc))
    && (call.waiting.Some? ==>
          var k := call.waiting.value;
          && k < c.nextId && (Invokable(call.pc) || call.pc.DeliverAt?)
          && (call.inbox.Some? ==> k !in c.live)
          && (call.inbox.None? ==>
                && k in c.live
                && (Invokable(call.pc) ==> c.live[k].App? && c.live[k].op == o && !c.live[k].late)
                && (call.pc.DeliverAt? ==> c.live[k].JournalWrite? && c.live[k].preparing)))
  }

  ghost predicate LiveOwned(c: Sys, k: nat)
    requires k in c.live
  {
    && k < c.nextId
    && (OwnerOf(c.live[k]).Some? ==> OwnerOf(c.live[k]).value in c.sup.ops)
    && match c.live[k]
       case App(o, _, _, late) =>
         && c.sup.operation == Some(o)
         && (!OpOf(c.sup, o).abandoned ==> !late && o in c.calls && c.calls[o].waiting == Some(k) && Invokable(c.calls[o].pc))
       case JournalWrite(owner, preparing, _, _) =>
         && (preparing ==>
               && owner.Some? && c.sup.operation == owner
               && (owner.value in c.calls && !Terminal(c.calls[owner.value].pc) ==>
                     c.calls[owner.value].pc.DeliverAt? && c.calls[owner.value].waiting == Some(k)))
         && (!preparing ==> c.sup.mode != Executing)
       case RecorderWrite(_) => true
  }

  ghost predicate PubOwned(c: Sys, p: nat)
    requires p in c.pubs
  {
    && p < c.nextId
    && (c.pubs[p].Owner().Some? ==> c.pubs[p].Owner().value in c.sup.ops)
    && match c.pubs[p].kind
       case Refusal => !c.pubs[p].durable
       case Returning(o) => c.sup.operation == Some(o) && !OpOf(c.sup, o).returned && o !in c.calls
       case Reporting(_) => c.sup.mode != Executing
       case LateCause(k, o) => !c.pubs[p].durable && k in c.live && c.live[k].App? && c.live[k].late && c.live[k].op == o
  }

  ghost predicate Counted(c: Sys) {
    && (forall o | o in c.sup.ops :: c.sup.ops[o].callbacks == |Tagged(c.live, HeldBy(o))|)
    && c.sup.reporting == |Cast(c.pubs, Reporter)|
    && c.sup.journalBusy == c.sup.journalRunning && |Tagged(c.live, OfJournal)| == (if c.sup.journalRunning then 1 else 0)
    && c.sup.recorderBusy == c.sup.recorderRunning && |Tagged(c.live, OfRecorder)| == (if c.sup.recorderRunning then 1 else 0)
    && |Tagged(c.live, OfApp)| <= 1 && |Cast(c.pubs, Returner)| <= 1 && |Cast(c.pubs, Late)| <= 1
  }

  /** The operation is held exactly as long as its call or one of its callbacks needs it. */
  ghost predicate Held(c: Sys) {
    && (c.sup.operation.Some? ==>
          var o := c.sup.operation.value;
          && o in c.sup.ops
          && (c.sup.ops[o].returned ==> c.sup.ops[o].callbacks > 0)
          && (!c.sup.ops[o].returned ==> o in c.calls || |Cast(c.pubs, Returner)| == 1))
    && (forall o | o in c.sup.ops :: 0 < o <= c.sup.nextOperation)
  }

  ghost predicate Moded(c: Sys) {
    var s := c.sup;
    && (s.mode == Executing <==> Active(c))
    && (s.mode == Faulted ==> s.fault.Some?)
    && (s.fault.Some? ==> s.mode == Faulted || s.mode == Executing)
    && (s.pending.Some? ==> s.fault.None? && (s.mode == AwaitingVerification || s.mode == Executing))
    && (s.mode == AwaitingVerification ==> s.pending.Some?)
    && (s.mode == Executing ==>
          var call := c.calls[s.operation.value];
          match call.kind
          case StartCall => s.fault.None? && s.pending.None?
          case IssueCall => s.fault.None? && s.pending.None?
          case VerifyCall => s.fault.None? && s.pending.Some? && call.change == s.pending.value.change && call.row == s.pending.value.row
          case AdjudicateCall(_, _, original, _) => s.fault == Some(original))
    && (s.fault.Some? ==> s.pending.None?)
  }

  /** Nothing has wrapped the operation counter, nor will. */
  ghost predicate TokensLeft(c: Sys)
    requires c.sup.mode == Executing ==> Active(c)
  {
    c.sup.nextOperation == MAX_UINT64 ==>
      c.sup.mode == Faulted || (c.sup.mode == Executing && c.calls[c.sup.operation.value].pc.FailAt?)
  }

  ghost predicate Owned(c: Sys) {
    Threads(c) && Regime(c) && Counted(c)
  }

  ghost predicate Threads(c: Sys) {
    && (forall o | o in c.calls :: CallOwned(c, o))
    && (forall k | k in c.live :: LiveOwned(c, k))
    && (forall p | p in c.pubs :: PubOwned(c, p))
  }

  ghost predicate Regime(c: Sys) {
    Held(c) && Moded(c) && TokensLeft(c)
  }

  // ------------------------------------------------- consequences

  /** Nothing waits behind a call that is about to start a callback. */
  lemma NothingOutstanding(c: Sys, o: nat)
    requires Threads(c) && o in c.calls && !Terminal(c.calls[o].pc)
    requires c.calls[o].waiting.None? || c.calls[o].inbox.Some?
    ensures forall k | k in c.live && Outstanding(c.live[k], o) :: false
    ensures Tagged(c.live, OfApp) == {}
    ensures !OpOf(c.sup, o).abandoned
  {
    assert CallOwned(c, o);
    forall k | k in c.live ensures !c.live[k].App? && !Outstanding(c.live[k], o) {
      assert LiveOwned(c, k);
    }
  }

  /** An application callback or a Journal preparation of operation `o`. */
  predicate Outstanding(l: Live, o: nat) {
    (l.App? && l.op == o) || (l.JournalWrite? && l.preparing && l.owner == Some(o))
  }

  lemma EmptyTag(live: map<nat, Live>, which: Trait)
    requires |Tagged(live, which)| == 0
    ensures forall k | k in live :: !Has(live[k], which)
  {
    forall k | k in live ensures !Has(live[k], which) {
      assert Tagged(live, which) == {};
      assert k !in Tagged(live, which);
    }
  }

  lemma EmptyCast(pubs: map<nat, Pub>, role: Role)
    requires |Cast(pubs, role)| == 0
    ensures forall p | p in pubs :: !Plays(pubs[p], role)
  {
    forall p | p in pubs ensures !Plays(pubs[p], role) {
      assert Cast(pubs, role) == {};
      assert p !in Cast(pubs, role);
    }
  }

  lemma SingleTag(live: map<nat, Live>, which: Trait, j: nat, k: nat)
    requires |Tagged(live, which)| <= 1 && j in live && k in live && Has(live[j], which) && Has(live[k], which)
    ensures j == k
  {
    if j != k {
      var pair := {j, k};
      assert pair <= Tagged(live, which);
      SubsetSize(pair, Tagged(live, which));
    }
  }

  lemma SingleCast(pubs: map<nat, Pub>, role: Role, p: nat, q: nat)
    requires |Cast(pubs, role)| <= 1 && p in pubs && q in pubs && Plays(pubs[p], role) && Plays(pubs[q], role)
    ensures p == q
  {
    if p != q {
      var pair := {p, q};
      assert pair <= Cast(pubs, role);
      SubsetSize(pair, Cast(pubs, role));
    }
  }

  lemma SubsetSize(a: set<nat>, b: set<nat>)
    requires a <= b
    ensures |a| <= |b|
  {
    assert b == a + (b - a);
  }

  /**
   * Operation exclusion: when the admission test passes, no call is running, no
   * callback of any kind is live, and no Trip, expiry, return or secondary-cause
   * publication is in flight. Only publications of refused calls may remain.
   */
  lemma AdmissionIsExclusive(c: Sys)
    requires Owned(c) && !Occupied(c.sup)
    ensures c.calls == map[] && c.live == map[]
    ensures forall p | p in c.pubs :: c.pubs[p].kind.Refusal?
  {
    forall k | k in c.live ensures !c.live[k].App? {
      assert LiveOwned(c, k);
    }
    forall p | p in c.pubs ensures c.pubs[p].kind.Refusal? || c.pubs[p].kind.Reporting? {
      assert PubOwned(c, p);
    }
    EmptyTag(c.live, OfJournal);
    EmptyTag(c.live, OfRecorder);
    EmptyCast(c.pubs, Reporter);
  }

  // ------------------------------------------------- preservation

  /** Moving the call of `o` to a new position, not waiting for anything. */
  lemma MoveOwned(c: Sys, o: nat, call: Call)
    requires Owned(c) && o in c.calls
    requires call.waiting.None? && call.kind == c.calls[o].kind
    requires call.kind.VerifyCall? ==> call.change == c.calls[o].change && call.row == c.calls[o].row
    requires OpOf(c.sup, o).abandoned ==> Terminal(call.pc)
    requires c.calls[o].pc.FailAt? ==> call.pc.FailAt?
    requires forall k | k in c.live && Outstanding(c.live[k], o) ::
      Terminal(call.pc) && (c.live[k].App? ==> OpOf(c.sup, o).abandoned)
    ensures Owned(c.(calls := c.calls[o := call]))
  {
    hide Threads, Regime, Counted, Outstanding, Terminal;
    MoveThreads(c, o, call);
    OwnsOperation(c, o);
    MoveRegime(c, o, call);
    RetoldCounted(c, c.(calls := c.calls[o := call]));
  }

  lemma OwnsOperation(c: Sys, o: nat)
    requires Threads(c) && o in c.calls
    ensures c.sup.operation == Some(o) && o in c.sup.ops
  {
    assert CallOwned(c, o);
  }

  lemma RetoldCounted(c: Sys, d: Sys)
    requires Counted(c) && d.sup == c.sup && d.live == c.live && d.pubs == c.pubs
    ensures Counted(d)
  {
  }

  lemma MoveThreads(c: Sys, o: nat, call: Call)
    requires Threads(c) && o in c.calls && call.waiting.None?
    requires OpOf(c.sup, o).abandoned ==> Terminal(call.pc)
    requires forall k | k in c.live && Outstanding(c.live[k], o) ::
      Terminal(call.pc) && (c.live[k].App? ==> OpOf(c.sup, o).abandoned)
    ensures Threads(c.(calls := c.calls[o := call]))
  {
    hide Terminal;
    var d := c.(calls := c.calls[o := call]);
    forall p | p in d.calls ensures CallOwned(d, p) {
      assert CallOwned(c, p);
    }
    forall k | k in d.live ensures LiveOwned(d, k) {
      assert LiveOwned(c, k);
    }
    forall p | p in d.pubs ensures PubOwned(d, p) {
      assert PubOwned(c, p);
    }
  }

  lemma MoveRegime(c: Sys, o: nat, call: Call)
    requires Regime(c) && o in c.calls && c.sup.operation == Some(o) && call.kind == c.calls[o].kind
    requires call.kind.VerifyCall? ==> call.change == c.calls[o].change && call.row == c.calls[o].row
    requires c.calls[o].pc.FailAt? ==> call.pc.FailAt?
    ensures Regime(c.(calls := c.calls[o := call]))
  {
  }

  /** The ownership and evidence fields of two Supervisor values agree; `t` may have numbered a new attempt. */
  predicate SameOwnership(s: Sup, t: Sup) {
    && s.state == t.state && s.exec == t.exec && s.inc == t.inc && s.revision == t.revision && s.attempt <= t.attempt
    && s.mode == t.mode && s.pending == t.pending && s.fault == t.fault && s.operation == t.operation
    && s.ops == t.ops && s.nextOperation == t.nextOperation && s.reporting == t.reporting
    && s.recorderBusy == t.recorderBusy && s.journalBusy == t.journalBusy
    && s.recorderRunning == t.recorderRunning && s.journalRunning == t.journalRunning
  }

  /** Calls and callbacks are the same; of the publications, only stages differ, except where the owner is known anew. */
  lemma FrameThreads(c: Sys, d: Sys)
    requires Threads(c) && SameOwnership(c.sup, d.sup) && d.calls == c.calls && d.live == c.live && c.nextId <= d.nextId
    requires forall p | p in d.pubs ::
      (p in c.pubs && d.pubs[p].kind == c.pubs[p].kind && d.pubs[p].durable == c.pubs[p].durable) || PubOwned(d, p)
    ensures Threads(d)
  {
    forall o | o in d.calls ensures CallOwned(d, o) {
      assert CallOwned(c, o);
    }
    forall k | k in d.live ensures LiveOwned(d, k) {
      assert LiveOwned(c, k);
    }
    forall p | p in d.pubs ensures PubOwned(d, p) {
      assert PubOwned(d, p) || PubOwned(c, p);
    }
  }

  lemma FrameRegime(c: Sys, d: Sys)
    requires Regime(c) && SameOwnership(c.sup, d.sup) && d.calls == c.calls
    requires |Cast(d.pubs, Returner)| == |Cast(c.pubs, Returner)|
    ensures Regime(d)
  {
  }

  lemma FrameCounted(c: Sys, d: Sys)
    requires Counted(c) && SameOwnership(c.sup, d.sup) && d.live == c.live
    requires |Cast(d.pubs, Returner)| == |Cast(c.pubs, Returner)| && |Cast(d.pubs, Reporter)| == |Cast(c.pubs, Reporter)|
    requires |Cast(d.pubs, Late)| <= |Cast(c.pubs, Late)|
    ensures Counted(d)
  {
  }

  lemma FrameOwned(c: Sys, d: Sys)
    requires Owned(c) && SameOwnership(c.sup, d.sup)
    requires d.calls == c.calls && d.live == c.live && d.pubs == c.pubs && d.nextId == c.nextId
    ensures Owned(d)
  {
    hide Threads, Regime, Counted, SameOwnership;
    FrameThreads(c, d);
    FrameRegime(c, d);
    FrameCounted(c, d);
  }

  /** Identities above the counter are free. */
  lemma Numbered(c: Sys)
    requires Threads(c)
    ensures c.nextId !in c.pubs && c.nextId !in c.live
  {
    assert c.nextId in c.pubs ==> PubOwned(c, c.nextId);
    assert c.nextId in c.live ==> LiveOwned(c, c.nextId);
  }

  lemma RefusalOwned(c: Sys)
    requires Owned(c)
    ensures Owned(AddPub(c, Pub(Refusal, false, JournalDue)))
  {
    hide Threads, Regime, Counted;
    var pub := Pub(Refusal, false, JournalDue);
    var d := AddPub(c, pub);
    Numbered(c);
    CastAdd(c.pubs, c.nextId, pub, Reporter);
    CastAdd(c.pubs, c.nextId, pub, Returner);
    CastAdd(c.pubs, c.nextId, pub, Late);
    assert PubOwned(d, c.nextId);
    FrameThreads(c, d);
    FrameRegime(c, d);
    FrameCounted(c, d);
  }

  lemma StageOwned(c: Sys, p: nat, stage: Stage)
    requires Owned(c) && p in c.pubs
    ensures Owned(SetStage(c, p, stage))
  {
    hide Threads, Regime, Counted;
    var pub := c.pubs[p].(stage := stage);
    CastKeep(c.pubs, p, pub, Reporter);
    CastKeep(c.pubs, p, pub, Returner);
    CastKeep(c.pubs, p, pub, Late);
    FrameThreads(c, SetStage(c, p, stage));
    FrameRegime(c, SetStage(c, p, stage));
    FrameCounted(c, SetStage(c, p, stage));
  }

  /** The attempt of an Issue call is the newest one, taken at the current state. */
  predicate Current(s: Sup, attempt: Change) {
    && attempt.exec == s.exec && attempt.inc == s.inc && attempt.id == s.attempt && attempt.id > 0
    && attempt.revision == s.revision && attempt.from == s.state
  }

  /** `t` admits `call` as operation `o` of an idle Supervisor. */
  ghost predicate Begins(c: Sys, t: Sup, o: nat, call: Call) {
    var s := c.sup;
    && !Occupied(s) && s.nextOperation < MAX_UINT64 && o == s.nextOperation + 1
    && t.mode == Executing && t.operation == Some(o) && t.nextOperation == o
    && o in t.ops && t.ops == s.ops[o := t.ops[o]]
    && t.ops[o].callbacks == 0 && !t.ops[o].returned && !t.ops[o].revoked && !t.ops[o].abandoned
    && t.pending == s.pending && t.fault == s.fault && t.reporting == s.reporting
    && t.recorderBusy == s.recorderBusy && t.journalBusy == s.journalBusy
    && t.recorderRunning == s.recorderRunning && t.journalRunning == s.journalRunning
    && t.state == s.state && t.exec == s.exec && t.inc == s.inc && t.revision == s.revision && t.attempt >= s.attempt
    && call.waiting.None? && !Reaching(call.pc) && t.ops[o].issuedAt == 0
    && (o == MAX_UINT64 ==> call.pc.FailAt?)
    && (call.kind.IssueCall? ==> call.pc.FailAt? || (Current(t, call.attempt) && t.attempt == s.attempt + 1))
    && (call.kind.VerifyCall? ==> t.ops[o].change == call.change)
    && (call.kind.AdjudicateCall? ==> t.revision < MAX_UINT64)
    && match call.kind
       case StartCall => s.fault.None? && s.pending.None?
       case IssueCall => s.fault.None? && s.pending.None?
       case VerifyCall => s.fault.None? && s.pending.Some? && call.change == s.pending.value.change && call.row == s.pending.value.row
       case AdjudicateCall(_, _, original, _) => s.fault == Some(original)
  }

  /** beginOperationLocked: a new token for an idle Supervisor. */
  lemma BeginOwned(c: Sys, t: Sup, o: nat, call: Call)
    requires Owned(c) && Begins(c, t, o, call)
    ensures Owned(c.(sup := t, calls := c.calls[o := call]))
  {
    AdmissionIsExclusive(c);
    assert Tagged(c.live, HeldBy(o)) == {};
    assert Active(c.(sup := t, calls := c.calls[o := call]));
  }

  /** The tokens after the live one was revoked. */
  function Revoked(s: Sup): map<nat, Op> {
    match s.operation
    case None => s.ops
    case Some(o) => s.ops[o := OpOf(s, o).(revoked := true)]
  }

  /** Two Supervisor values agree on ownership up to revocation, and `t` is not executing. */
  ghost predicate Settled(s: Sup, t: Sup) {
    && t.operation == s.operation && t.nextOperation == s.nextOperation && t.reporting == s.reporting
    && t.recorderBusy == s.recorderBusy && t.journalBusy == s.journalBusy
    && t.recorderRunning == s.recorderRunning && t.journalRunning == s.journalRunning
    && (t.ops == s.ops || (t.mode == Faulted && t.ops == Revoked(s)))
    && t.mode != Executing
    && (t.mode == Faulted <==> t.fault.Some?)
    && (t.mode == AwaitingVerification <==> t.pending.Some?)
    && (s.nextOperation == MAX_UINT64 ==> t.mode == Faulted)
  }

  lemma CallsAtOperation(c: Sys)
    requires Threads(c)
    ensures forall o | o in c.calls :: c.sup.operation == Some(o)
  {
    forall o | o in c.calls ensures c.sup.operation == Some(o) {
      assert CallOwned(c, o);
    }
  }

  lemma OnlyCall(c: Sys, o: nat)
    requires Threads(c) && o in c.calls
    ensures c.calls - {o} == map[]
  {
    CallsAtOperation(c);
  }

  /** The call of `o` decides: from now on its publication holds the operation. */
  lemma DecideThreads(c: Sys, o: nat, t: Sup, d: Sys, durable: bool)
    requires Owned(c) && At(c, o) && Settled(c.sup, t)
    requires d.sup == t && d.calls == map[] && d.live == c.live && d.nextId == c.nextId + 1
    requires d.pubs == c.pubs[c.nextId := Pub(Returning(o), durable, JournalDue)]
    ensures Threads(d)
  {
    assert CallOwned(c, o);
    forall k | k in d.live ensures LiveOwned(d, k) {
      assert LiveOwned(c, k);
    }
    forall p | p in d.pubs ensures PubOwned(d, p) {
      assert p in c.pubs ==> PubOwned(c, p);
    }
  }

  lemma DecideOwned(c: Sys, o: nat, t: Sup, d: Sys, durable: bool)
    requires Owned(c) && At(c, o) && Settled(c.sup, t)
    requires d.sup == t && d.calls == c.calls - {o} && d.live == c.live && d.nextId == c.nextId + 1
    requires d.pubs == c.pubs[c.nextId := Pub(Returning(o), durable, JournalDue)]
    ensures Owned(d)
  {
    OnlyCall(c, o);
    DecideThreads(c, o, t, d, durable);
    var pub := Pub(Returning(o), durable, JournalDue);
    forall p | p in c.pubs ensures !Plays(c.pubs[p], Returner) {
      assert PubOwned(c, p);
    }
    assert Cast(c.pubs, Returner) == {};
    CastAdd(c.pubs, c.nextId, pub, Returner);
    CastAdd(c.pubs, c.nextId, pub, Reporter);
    CastAdd(c.pubs, c.nextId, pub, Late);
    assert CallOwned(c, o);
  }

  /** Trip and expiry: the fault is latched, the operation revoked, and a publication reserved. */
  lemma ReportThreads(c: Sys, t: Sup, d: Sys, pub: Pub)
    requires Owned(c) && Settled(c.sup, t) && t.mode == Faulted
    requires forall o | o in c.calls :: t.ops[o].revoked
    requires pub.kind == Reporting(c.sup.operation)
    requires d.sup == t.(reporting := t.reporting + 1) && d.calls == c.calls && d.live == c.live
    requires d.nextId == c.nextId + 1 && d.pubs == c.pubs[c.nextId := pub]
    ensures Threads(d)
  {
    forall o | o in d.calls ensures CallOwned(d, o) {
      assert CallOwned(c, o);
    }
    forall k | k in d.live ensures LiveOwned(d, k) {
      assert LiveOwned(c, k);
    }
    forall p | p in d.pubs ensures PubOwned(d, p) {
      assert p in c.pubs ==> PubOwned(c, p);
    }
  }

  lemma HeldToken(c: Sys)
    requires Regime(c)
    ensures c.sup.operation.Some? ==> c.sup.operation.value in c.sup.ops
  {
  }

  lemma CallbackCount(c: Sys, o: nat)
    requires Counted(c) && o in c.sup.ops
    ensures c.sup.ops[o].callbacks == |Tagged(c.live, HeldBy(o))| >= 0
  {
  }

  lemma OwnersKnown(c: Sys)
    requires Threads(c)
    ensures forall o | o in c.calls :: c.sup.operation == Some(o) && o in c.sup.ops
  {
    forall o | o in c.calls ensures c.sup.operation == Some(o) && o in c.sup.ops {
      assert CallOwned(c, o);
    }
  }

  lemma ReportRegime(c: Sys, t: Sup, d: Sys)
    requires Regime(c) && Settled(c.sup, t) && t.mode == Faulted
    requires forall o | o in c.calls :: c.sup.operation == Some(o) && o in c.sup.ops && t.ops[o].revoked
    requires d.sup == t.(reporting := t.reporting + 1) && d.calls == c.calls
    requires |Cast(d.pubs, Returner)| == |Cast(c.pubs, Returner)|
    ensures Regime(d)
  {
    assert d.sup.operation.Some? && d.sup.operation.value in d.calls ==> d.sup.ops[d.sup.operation.value].revoked;
  }

  lemma ReportCounted(c: Sys, t: Sup, d: Sys)
    requires Counted(c) && Settled(c.sup, t) && d.sup == t.(reporting := t.reporting + 1) && d.live == c.live
    requires c.sup.operation.Some? ==> c.sup.operation.value in c.sup.ops
    requires |Cast(d.pubs, Reporter)| == |Cast(c.pubs, Reporter)| + 1
    requires |Cast(d.pubs, Returner)| == |Cast(c.pubs, Returner)| && |Cast(d.pubs, Late)| == |Cast(c.pubs, Late)|
    ensures Counted(d)
  {
  }

  lemma ReportOwned(c: Sys, t: Sup, d: Sys, pub: Pub)
    requires Owned(c) && Settled(c.sup, t) && t.mode == Faulted
    requires forall o | o in c.calls :: t.ops[o].revoked
    requires pub.kind == Reporting(c.sup.operation)
    requires d.sup == t.(reporting := t.reporting + 1) && d.calls == c.calls && d.live == c.live
    requires d.nextId == c.nextId + 1 && d.pubs == c.pubs[c.nextId := pub]
    ensures Owned(d)
  {
    hide Threads, Regime, Counted, Settled;
    ReportThreads(c, t, d, pub);
    Numbered(c);
    CastAdd(c.pubs, c.nextId, pub, Returner);
    CastAdd(c.pubs, c.nextId, pub, Reporter);
    CastAdd(c.pubs, c.nextId, pub, Late);
    OwnersKnown(c);
    HeldToken(c);
    ReportRegime(c, t, d);
    ReportCounted(c, t, d);
  }

  /** The counters after one more live callback. */
  lemma CountedAdd(c: Sys, k: nat, l: Live, d: Sys)
    requires Counted(c) && k !in c.live && d.live == c.live[k := l] && d.pubs == c.pubs
    requires d.sup.ops.Keys == c.sup.ops.Keys && d.sup.reporting == c.sup.reporting
    requires forall o | o in c.sup.ops ::
      d.sup.ops[o].callbacks == c.sup.ops[o].callbacks + if OwnerOf(l) == Some(o) then 1 else 0
    requires d.sup.journalBusy == d.sup.journalRunning && d.sup.recorderBusy == d.sup.recorderRunning
    requires if l.JournalWrite? then !c.sup.journalRunning && d.sup.journalRunning else d.sup.journalRunning == c.sup.journalRunning
    requires if l.RecorderWrite? then !c.sup.recorderRunning && d.sup.recorderRunning else d.sup.recorderRunning == c.sup.recorderRunning
    requires l.App? ==> Tagged(c.live, OfApp) == {}
    ensures Counted(d)
  {
    forall o | o in d.sup.ops ensures d.sup.ops[o].callbacks == |Tagged(d.live, HeldBy(o))| {
      TaggedAdd(c.live, k, l, HeldBy(o));
    }
    TaggedAdd(c.live, k, l, OfApp);
    TaggedAdd(c.live, k, l, OfJournal);
    TaggedAdd(c.live, k, l, OfRecorder);
  }

  /** The counters after a live callback ended. */
  lemma CountedDrop(c: Sys, k: nat, d: Sys)
    requires Counted(c) && k in c.live && d.live == c.live - {k} && d.pubs == c.pubs
    requires d.sup.ops.Keys == c.sup.ops.Keys && d.sup.reporting == c.sup.reporting
    requires forall o | o in c.sup.ops ::
      d.sup.ops[o].callbacks == c.sup.ops[o].callbacks - if OwnerOf(c.live[k]) == Some(o) then 1 else 0
    requires d.sup.journalBusy == d.sup.journalRunning && d.sup.recorderBusy == d.sup.recorderRunning
    requires if c.live[k].JournalWrite? then !d.sup.journalRunning else d.sup.journalRunning == c.sup.journalRunning
    requires if c.live[k].RecorderWrite? then !d.sup.recorderRunning else d.sup.recorderRunning == c.sup.recorderRunning
    ensures Counted(d)
  {
    forall o | o in d.sup.ops ensures d.sup.ops[o].callbacks == |Tagged(d.live, HeldBy(o))| {
      TaggedDrop(c.live, k, HeldBy(o));
    }
    TaggedDrop(c.live, k, OfApp);
    TaggedDrop(c.live, k, OfJournal);
    TaggedDrop(c.live, k, OfRecorder);
  }

  lemma InvokeOwned(c: Sys, o: nat, change: Change, phase: Phase, d: Sys)
    requires Owned(c) && At(c, o) && Invokable(c.calls[o].pc) && InvokeBegin(c.sup, o, change, phase).1
    requires d == c.(sup := InvokeBegin(c.sup, o, change, phase).0, nextId := c.nextId + 1, h := d.h,
                     live := c.live[c.nextId := App(o, c.calls[o].pc, change, false)],
                     calls := c.calls[o := c.calls[o].(waiting := Some(c.nextId), inbox := None)])
    ensures Owned(d)
  {
    NothingOutstanding(c, o);
    CountedAdd(c, c.nextId, App(o, c.calls[o].pc, change, false), d);
    assert CallOwned(c, o);
    InvokeThreads(c, o, change, phase, d);
  }

  lemma InvokeThreads(c: Sys, o: nat, change: Change, phase: Phase, d: Sys)
    requires Owned(c) && At(c, o) && Invokable(c.calls[o].pc) && InvokeBegin(c.sup, o, change, phase).1
    requires !OpOf(c.sup, o).abandoned
    requires d == c.(sup := InvokeBegin(c.sup, o, change, phase).0, nextId := c.nextId + 1, h := d.h,
                     live := c.live[c.nextId := App(o, c.calls[o].pc, change, false)],
                     calls := c.calls[o := c.calls[o].(waiting := Some(c.nextId), inbox := None)])
    ensures Threads(d)
  {
    forall p | p in d.calls ensures CallOwned(d, p) {
      assert CallOwned(c, p);
    }
    forall k | k in d.live ensures LiveOwned(d, k) {
      assert k in c.live ==> LiveOwned(c, k);
    }
    forall p | p in d.pubs ensures PubOwned(d, p) {
      assert PubOwned(c, p);
    }
  }

  /** The call of `o` starts to wait for the Journal write that prepares it. */
  lemma WaitThreads(c: Sys, o: nat, d: Sys)
    requires Threads(c) && At(c, o) && c.calls[o].pc.DeliverAt? && SameTokens(c.sup, d.sup)
    requires !OpOf(c.sup, o).abandoned && forall k | k in c.live && Outstanding(c.live[k], o) :: false
    requires d.nextId == c.nextId + 1 && d.live == c.live[c.nextId := JournalWrite(Some(o), true, None, false)] && d.pubs == c.pubs
    requires d.calls == c.calls[o := c.calls[o].(waiting := Some(c.nextId), inbox := None)]
    ensures Threads(d)
  {
    OwnsOperation(c, o);
    forall p | p in d.calls ensures CallOwned(d, p) {
      assert CallOwned(c, p);
    }
    forall k | k in d.live ensures LiveOwned(d, k) {
      assert k in c.live ==> LiveOwned(c, k);
    }
    forall p | p in d.pubs ensures PubOwned(d, p) {
      assert PubOwned(c, p);
    }
  }

  lemma PrepareAcquireThreads(c: Sys, o: nat, d: Sys)
    requires Threads(c) && At(c, o) && c.calls[o].pc.DeliverAt? && Acquire(c.sup, Journal, Some(o)).1
    requires d == c.(sup := Acquire(c.sup, Journal, Some(o)).0, nextId := c.nextId + 1,
                     live := c.live[c.nextId := JournalWrite(Some(o), true, None, false)],
                     calls := c.calls[o := c.calls[o].(waiting := Some(c.nextId), inbox := None)])
    ensures Threads(d)
  {
    OwnsOperation(c, o);
    AcquiresToken(c.sup, Journal, Some(o));
    NothingOutstanding(c, o);
    hide Acquire, Borrow;
    WaitThreads(c, o, d);
  }

  lemma PrepareAcquireOwned(c: Sys, o: nat, d: Sys)
    requires Owned(c) && At(c, o) && c.calls[o].pc.DeliverAt? && Acquire(c.sup, Journal, Some(o)).1
    requires d == c.(sup := Acquire(c.sup, Journal, Some(o)).0, nextId := c.nextId + 1,
                     live := c.live[c.nextId := JournalWrite(Some(o), true, None, false)],
                     calls := c.calls[o := c.calls[o].(waiting := Some(c.nextId), inbox := None)])
    ensures Owned(d)
  {
    assert CallOwned(c, o);
    CountedAdd(c, c.nextId, JournalWrite(Some(o), true, None, false), d);
    PrepareAcquireThreads(c, o, d);
  }

  /** A publication's adapter delivery borrows its owner. */
  /** Two Supervisor values hold the same operation and the same tokens, apart from their callbacks. */
  ghost predicate SameTokens(s: Sup, t: Sup) {
    && t.operation == s.operation && t.mode == s.mode && t.ops.Keys == s.ops.Keys
    && forall o | o in s.ops ::
         t.ops[o].returned == s.ops[o].returned && t.ops[o].revoked == s.ops[o].revoked && t.ops[o].abandoned == s.ops[o].abandoned
  }

  lemma AcquiresToken(s: Sup, gate: Gate, owner: Option<nat>)
    requires Acquire(s, gate, owner).1 && (owner.Some? ==> owner.value in s.ops)
    ensures SameTokens(s, Acquire(s, gate, owner).0)
  {
  }

  /** One more live callback starts. */
  lemma StartThreads(c: Sys, k: nat, d: Sys)
    requires Threads(c) && SameTokens(c.sup, d.sup) && d.calls == c.calls && d.pubs == c.pubs && c.nextId <= d.nextId
    requires k == c.nextId && k !in c.live && k in d.live && d.live == c.live[k := d.live[k]] && LiveOwned(d, k)
    ensures Threads(d)
  {
    forall q | q in d.calls ensures CallOwned(d, q) {
      assert CallOwned(c, q);
    }
    forall j | j in d.live ensures LiveOwned(d, j) {
      assert j in c.live ==> LiveOwned(c, j);
    }
    forall q | q in d.pubs ensures PubOwned(d, q) {
      assert PubOwned(c, q);
    }
  }

  lemma BorrowThreads(c: Sys, p: nat, gate: Gate, d: Sys)
    requires Threads(c) && p in c.pubs && Acquire(c.sup, gate, c.pubs[p].Owner()).1
    requires gate.Journal? ==> c.sup.mode != Executing
    requires d == Borrow(c, c.pubs[p].Owner(), gate)
    ensures Threads(d)
  {
    hide Threads, Acquire, SameTokens;
    PubOwner(c, p);
    Numbered(c);
    AcquiresToken(c.sup, gate, c.pubs[p].Owner());
    assert SameTokens(c.sup, d.sup);
    assert LiveOwned(d, c.nextId) by { BorrowerOwned(c, d, c.pubs[p].Owner()); }
    StartThreads(c, c.nextId, d);
  }

  lemma BorrowerOwned(c: Sys, d: Sys, owner: Option<nat>)
    requires SameTokens(c.sup, d.sup) && c.nextId in d.live && d.nextId == c.nextId + 1
    requires owner.Some? ==> owner.value in c.sup.ops
    requires
      || d.live[c.nextId] == RecorderWrite(owner)
      || (c.sup.mode != Executing && d.live[c.nextId] == JournalWrite(owner, false, None, false))
    ensures LiveOwned(d, c.nextId)
  {
  }

  /** A durable outcome is published only while nothing executes. */
  lemma PubOwner(c: Sys, p: nat)
    requires Threads(c) && p in c.pubs
    ensures c.pubs[p].Owner().Some? ==> c.pubs[p].Owner().value in c.sup.ops
  {
    assert PubOwned(c, p);
  }

  lemma DurableSettled(c: Sys, p: nat)
    requires Owned(c) && p in c.pubs && c.pubs[p].durable
    ensures c.sup.mode != Executing
  {
    hide Counted;
    assert PubOwned(c, p);
  }

  lemma BorrowRegime(c: Sys, gate: Gate, owner: Option<nat>, d: Sys)
    requires Regime(c) && Acquire(c.sup, gate, owner).1 && (owner.Some? ==> owner.value in c.sup.ops)
    requires d == Borrow(c, owner, gate)
    ensures Regime(d)
  {
  }

  lemma BorrowCounted(c: Sys, gate: Gate, owner: Option<nat>, d: Sys)
    requires Counted(c) && Acquire(c.sup, gate, owner).1 && (owner.Some? ==> owner.value in c.sup.ops)
    requires d == Borrow(c, owner, gate) && c.nextId !in c.live
    ensures Counted(d)
  {
    GateFree(c);
    CountedAdd(c, c.nextId, d.live[c.nextId], d);
  }

  lemma GateFree(c: Sys)
    requires Counted(c)
    ensures c.sup.journalBusy == c.sup.journalRunning && c.sup.recorderBusy == c.sup.recorderRunning
  {
  }

  lemma BorrowOwned(c: Sys, p: nat, gate: Gate, d: Sys)
    requires Owned(c) && p in c.pubs && Acquire(c.sup, gate, c.pubs[p].Owner()).1
    requires (gate.Journal? ==> c.pubs[p].durable) && d == Borrow(c, c.pubs[p].Owner(), gate)
    ensures Owned(d)
  {
    hide Threads, Regime, Counted, Acquire, Borrow;
    PubOwner(c, p);
    Numbered(c);
    if gate.Journal? { DurableSettled(c, p); }
    BorrowThreads(c, p, gate, d);
    BorrowRegime(c, gate, c.pubs[p].Owner(), d);
    BorrowCounted(c, gate, c.pubs[p].Owner(), d);
  }

  /** Publishing an outcome only fills the inbox of the call that awaits it. */
  predicate Delivered(c: Sys, k: nat, calls: map<nat, Call>) {
    && calls.Keys == c.calls.Keys
    && forall o | o in c.calls ::
         && calls[o] == c.calls[o].(inbox := calls[o].inbox)
         && (c.calls[o].waiting == Some(k) ==> calls[o].inbox.Some?)
         && (c.calls[o].waiting != Some(k) ==> calls[o] == c.calls[o])
  }

  ghost predicate Unreferenced(c: Sys, k: nat) {
    forall p | p in c.pubs && c.pubs[p].kind.LateCause? :: c.pubs[p].kind.callback != k
  }

  /** A callback that no secondary-cause publication refers to ended. */
  ghost predicate Ended(c: Sys, k: nat, d: Sys) {
    && k in c.live && Unreferenced(c, k)
    && d.live == c.live - {k} && d.pubs == c.pubs && d.nextId == c.nextId && Delivered(c, k, d.calls)
    && var t := CallbackReturned(c.sup, OwnerOf(c.live[k]));
       d.sup == match c.live[k]
                case App(_, _, _, _) => t
                case JournalWrite(_, _, _, _) => t.(journalBusy := false, journalRunning := false)
                case RecorderWrite(_) => t.(recorderBusy := false, recorderRunning := false)
  }

  /** What the end of callback `k` does to the Supervisor, read off the fields. */
  ghost predicate EndFacts(c: Sys, k: nat, d: Sys)
    requires k in c.live
  {
    var s, t, owner := c.sup, d.sup, OwnerOf(c.live[k]);
    && Unreferenced(c, k)
    && d.live == c.live - {k} && d.pubs == c.pubs && d.nextId == c.nextId && Delivered(c, k, d.calls)
    && t.mode == s.mode && t.pending == s.pending && t.fault == s.fault && t.nextOperation == s.nextOperation
    && t.reporting == s.reporting && Returned(s, t, owner)
    && t.journalBusy == t.journalRunning && t.recorderBusy == t.recorderRunning
    && (if c.live[k].JournalWrite? then !t.journalRunning else t.journalRunning == s.journalRunning)
    && (if c.live[k].RecorderWrite? then !t.recorderRunning else t.recorderRunning == s.recorderRunning)
  }

  lemma EndEffect(c: Sys, k: nat, d: Sys)
    requires Ended(c, k, d)
    requires c.sup.journalBusy == c.sup.journalRunning && c.sup.recorderBusy == c.sup.recorderRunning
    requires OwnerOf(c.live[k]).Some? ==> OwnerOf(c.live[k]).value in c.sup.ops
    requires c.sup.operation.Some? ==> Holding(c.sup, c.sup.operation.value)
    ensures EndFacts(c, k, d)
  {
    hide Unreferenced, Delivered, CallbackReturned, Returned, Holding;
    var t := CallbackReturned(c.sup, OwnerOf(c.live[k]));
    ReturnEffect(c.sup, OwnerOf(c.live[k]));
    assert Returned(c.sup, d.sup, OwnerOf(c.live[k])) by { GatesApart(c.sup, t, d.sup, OwnerOf(c.live[k])); }
    assert t.(ops := c.sup.ops, operation := c.sup.operation) == c.sup by { ReturnTouches(c.sup, t, OwnerOf(c.live[k])); }
  }

  /** A returned token is kept for its callbacks alone. */
  predicate Holding(s: Sup, o: nat) {
    o in s.ops && (s.ops[o].returned ==> s.ops[o].callbacks > 0)
  }

  /** A callback of `owner` returned: what becomes of the tokens and the operation. */
  ghost predicate Returned(s: Sup, t: Sup, owner: Option<nat>) {
    && t.ops.Keys == s.ops.Keys
    && (forall o | o in s.ops :: t.ops[o] == s.ops[o].(callbacks := s.ops[o].callbacks - if owner == Some(o) then 1 else 0))
    && (t.operation == s.operation || t.operation.None?)
    && (t.operation.Some? && OpOf(t, t.operation.value).returned ==> OpOf(t, t.operation.value).callbacks > 0)
    && (t.operation != s.operation ==>
          s.operation == owner && OpOf(s, owner.value).returned && OpOf(s, owner.value).callbacks == 1)
  }

  lemma ReturnEffect(s: Sup, owner: Option<nat>)
    requires owner.Some? ==> owner.value in s.ops
    requires s.operation.Some? ==> Holding(s, s.operation.value)
    ensures Returned(s, CallbackReturned(s, owner), owner)
    ensures var t := CallbackReturned(s, owner); t == s.(ops := t.ops, operation := t.operation)
  {
  }

  lemma GatesApart(s: Sup, t: Sup, u: Sup, owner: Option<nat>)
    requires Returned(s, t, owner) && u.ops == t.ops && u.operation == t.operation
    ensures Returned(s, u, owner)
  {
  }

  lemma ReturnTouches(s: Sup, t: Sup, owner: Option<nat>)
    requires t == s.(ops := t.ops, operation := t.operation)
    ensures t.(ops := s.ops, operation := s.operation) == s
  {
  }

  /** The operation is only released when no other callback of it is live. */
  lemma ReleasedAlone(c: Sys, k: nat, d: Sys)
    requires Owned(c) && k in c.live && EndFacts(c, k, d)
    ensures d.sup.operation != c.sup.operation ==>
      && c.calls == map[]
      && (forall j | j in c.live && j != k :: OwnerOf(c.live[j]) != c.sup.operation)
      && (forall p | p in c.pubs :: !c.pubs[p].kind.Returning?)
  {
    assert LiveOwned(c, k);
    forall p | p in c.calls ensures c.sup.operation == Some(p) && !c.sup.ops[p].returned {
      assert CallOwned(c, p);
    }
    forall p | p in c.pubs && c.pubs[p].kind.Returning? ensures !OpOf(c.sup, c.sup.operation.value).returned {
      assert PubOwned(c, p);
    }
    if d.sup.operation != c.sup.operation {
      var o := c.sup.operation.value;
      TaggedDrop(c.live, k, HeldBy(o));
      EmptyTag(c.live - {k}, HeldBy(o));
      forall j | j in c.live && j != k ensures OwnerOf(c.live[j]) != c.sup.operation {
        assert j in c.live - {k} && !Has((c.live - {k})[j], HeldBy(o));
      }
    }
  }

  lemma EndCalls(c: Sys, k: nat, d: Sys)
    requires Owned(c) && k in c.live && EndFacts(c, k, d)
    ensures forall p | p in d.calls :: CallOwned(d, p)
  {
    hide Owned, EndFacts;
    ReleasedAlone(c, k, d);
    forall p | p in d.calls ensures CallOwned(d, p) {
      EndCall(c, k, d, p);
    }
  }

  lemma EndCall(c: Sys, k: nat, d: Sys, p: nat)
    requires Owned(c) && k in c.live && EndFacts(c, k, d) && p in d.calls
    requires d.sup.operation != c.sup.operation ==> c.calls == map[]
    ensures CallOwned(d, p)
  {
    hide Regime, Counted, Unreferenced;
    assert CallOwned(c, p);
  }

  lemma EndLive(c: Sys, k: nat, d: Sys)
    requires Owned(c) && k in c.live && EndFacts(c, k, d)
    ensures forall j | j in d.live :: LiveOwned(d, j)
  {
    ReleasedAlone(c, k, d);
    forall j | j in d.live ensures LiveOwned(d, j) {
      assert LiveOwned(c, j);
    }
  }

  lemma EndPubs(c: Sys, k: nat, d: Sys)
    requires Owned(c) && k in c.live && EndFacts(c, k, d)
    ensures forall p | p in d.pubs :: PubOwned(d, p)
  {
    ReleasedAlone(c, k, d);
    forall p | p in d.pubs ensures PubOwned(d, p) {
      assert PubOwned(c, p);
    }
  }

  lemma EndRegime(c: Sys, k: nat, d: Sys)
    requires Owned(c) && k in c.live && EndFacts(c, k, d)
    ensures Regime(d)
  {
    ReleasedAlone(c, k, d);
  }

  lemma EndOwned(c: Sys, k: nat, d: Sys)
    requires Owned(c) && Ended(c, k, d)
    ensures Owned(d)
  {
    assert LiveOwned(c, k);
    EndEffect(c, k, d);
    CountedDrop(c, k, d);
    EndCalls(c, k, d);
    EndLive(c, k, d);
    EndPubs(c, k, d);
    EndRegime(c, k, d);
  }

  /** Only a late application callback has a secondary-cause publication. */
  lemma NotLateUnreferenced(c: Sys, k: nat)
    requires Threads(c) && k in c.live && (c.live[k].App? ==> !c.live[k].late)
    ensures Unreferenced(c, k)
  {
    forall p | p in c.pubs && c.pubs[p].kind.LateCause? ensures c.pubs[p].kind.callback != k {
      assert PubOwned(c, p);
    }
  }

  /** Updating a live callback in place. */
  lemma KeepOwned(c: Sys, k: nat, l: Live, d: Sys)
    requires Owned(c) && k in c.live && d.live == c.live[k := l]
    requires d.sup == c.sup && d.calls == c.calls && d.pubs == c.pubs && d.nextId == c.nextId
    requires c.live[k].JournalWrite? && l.JournalWrite? && l.owner == c.live[k].owner && l.preparing == c.live[k].preparing
    ensures Owned(d)
  {
    hide Threads, Regime, Counted;
    KeepThreads(c, k, l, d);
    FrameRegime(c, d);
    KeepCounted(c, k, l, d);
  }

  lemma KeepCounted(c: Sys, k: nat, l: Live, d: Sys)
    requires Counted(c) && k in c.live && d.live == c.live[k := l] && d.sup == c.sup && d.pubs == c.pubs
    requires forall which :: Has(l, which) == Has(c.live[k], which)
    ensures Counted(d)
  {
    forall o | o in c.sup.ops ensures Tagged(d.live, HeldBy(o)) == Tagged(c.live, HeldBy(o)) {
      TaggedKeep(c.live, k, l, HeldBy(o));
    }
    TaggedKeep(c.live, k, l, OfApp);
    TaggedKeep(c.live, k, l, OfJournal);
    TaggedKeep(c.live, k, l, OfRecorder);
  }

  lemma KeepThreads(c: Sys, k: nat, l: Live, d: Sys)
    requires Threads(c) && k in c.live && d.live == c.live[k := l]
    requires d.sup == c.sup && d.calls == c.calls && d.pubs == c.pubs && d.nextId == c.nextId
    requires c.live[k].JournalWrite? && l.JournalWrite? && l.owner == c.live[k].owner && l.preparing == c.live[k].preparing
    ensures Threads(d)
  {
    forall p | p in d.calls ensures CallOwned(d, p) {
      assert CallOwned(c, p);
    }
    forall j | j in d.live ensures LiveOwned(d, j) {
      assert LiveOwned(c, j);
    }
    forall p | p in d.pubs ensures PubOwned(d, p) {
      assert PubOwned(c, p);
    }
  }

  /** An abandoned callback failed: it stays live while its cause is recorded. */
  lemma LateThreads(c: Sys, k: nat, d: Sys)
    requires Owned(c) && k in c.live && c.live[k].App? && !c.live[k].late && OpOf(c.sup, c.live[k].op).abandoned
    requires d.live == c.live[k := c.live[k].(late := true)] && SameOwnership(c.sup, d.sup) && d.calls == c.calls
    requires d.pubs == c.pubs[c.nextId := Pub(LateCause(k, c.live[k].op), false, RecordDue(false))] && d.nextId == c.nextId + 1
    ensures Threads(d)
  {
    assert LiveOwned(c, k);
    forall p | p in d.calls ensures CallOwned(d, p) {
      assert CallOwned(c, p);
    }
    forall j | j in d.live ensures LiveOwned(d, j) {
      assert LiveOwned(c, j);
    }
    forall p | p in d.pubs ensures PubOwned(d, p) {
      assert p in c.pubs ==> PubOwned(c, p);
    }
  }

  lemma LateOwned(c: Sys, k: nat, d: Sys)
    requires Owned(c) && k in c.live && c.live[k].App? && !c.live[k].late && OpOf(c.sup, c.live[k].op).abandoned
    requires d.live == c.live[k := c.live[k].(late := true)] && SameOwnership(c.sup, d.sup) && d.calls == c.calls
    requires d.pubs == c.pubs[c.nextId := Pub(LateCause(k, c.live[k].op), false, RecordDue(false))] && d.nextId == c.nextId + 1
    ensures Owned(d)
  {
    hide Threads, Regime, Counted, SameOwnership;
    LateThreads(c, k, d);
    var pub := Pub(LateCause(k, c.live[k].op), false, RecordDue(false));
    NoneLate(c, k);
    Numbered(c);
    CastAdd(c.pubs, c.nextId, pub, Reporter);
    CastAdd(c.pubs, c.nextId, pub, Returner);
    CastAdd(c.pubs, c.nextId, pub, Late);
    FrameRegime(c, d);
    LateCounted(c, k, d);
  }

  /** While a callback of the operation still runs, no other one is late. */
  lemma NoneLate(c: Sys, k: nat)
    requires Threads(c) && Counted(c) && k in c.live && c.live[k].App? && !c.live[k].late
    ensures |Cast(c.pubs, Late)| == 0
  {
    hide Regime;
    forall p | p in c.pubs ensures !Plays(c.pubs[p], Late) {
      assert PubOwned(c, p);
      if c.pubs[p].kind.LateCause? {
        SingleTag(c.live, OfApp, k, c.pubs[p].kind.callback);
      }
    }
    assert Cast(c.pubs, Late) == {};
  }

  lemma LateCounted(c: Sys, k: nat, d: Sys)
    requires Counted(c) && k in c.live && c.live[k].App? && d.live == c.live[k := c.live[k].(late := true)]
    requires SameOwnership(c.sup, d.sup)
    requires |Cast(d.pubs, Reporter)| == |Cast(c.pubs, Reporter)| && |Cast(d.pubs, Returner)| == |Cast(c.pubs, Returner)|
    requires |Cast(d.pubs, Late)| <= 1
    ensures Counted(d)
  {
    var l := c.live[k].(late := true);
    forall o | o in c.sup.ops ensures Tagged(d.live, HeldBy(o)) == Tagged(c.live, HeldBy(o)) {
      TaggedKeep(c.live, k, l, HeldBy(o));
    }
    TaggedKeep(c.live, k, l, OfApp);
    TaggedKeep(c.live, k, l, OfJournal);
    TaggedKeep(c.live, k, l, OfRecorder);
  }

  /** A publication that holds nothing is over. */
  lemma DropPubOwned(c: Sys, p: nat)
    requires Owned(c) && p in c.pubs && (c.pubs[p].kind.Refusal? || c.pubs[p].kind.LateCause?)
    ensures Owned(c.(pubs := c.pubs - {p}))
  {
    hide Threads, Regime, Counted;
    var d := c.(pubs := c.pubs - {p});
    CastDrop(c.pubs, p, Reporter);
    CastDrop(c.pubs, p, Returner);
    CastDrop(c.pubs, p, Late);
    FrameThreads(c, d);
    FrameRegime(c, d);
    FrameCounted(c, d);
  }

  lemma ReportingReturnedOwned(c: Sys, p: nat)
    requires Owned(c) && p in c.pubs && c.pubs[p].kind.Reporting?
    ensures Owned(c.(pubs := c.pubs - {p}, sup := ReportingReturned(c.sup)))
  {
    hide Threads, Regime, Counted;
    var d := c.(pubs := c.pubs - {p}, sup := ReportingReturned(c.sup));
    CastDrop(c.pubs, p, Reporter);
    CastDrop(c.pubs, p, Returner);
    CastDrop(c.pubs, p, Late);
    ReportedThreads(c, p, d);
    ReportedRegime(c, d);
    ReportedCounted(c, d);
  }

  lemma ReportedThreads(c: Sys, p: nat, d: Sys)
    requires Threads(c) && d == c.(pubs := c.pubs - {p}, sup := ReportingReturned(c.sup))
    ensures Threads(d)
  {
    forall q | q in d.calls ensures CallOwned(d, q) {
      assert CallOwned(c, q);
    }
    forall k | k in d.live ensures LiveOwned(d, k) {
      assert LiveOwned(c, k);
    }
    forall q | q in d.pubs ensures PubOwned(d, q) {
      assert PubOwned(c, q);
    }
  }

  lemma ReportedRegime(c: Sys, d: Sys)
    requires Regime(c) && d.sup == ReportingReturned(c.sup) && d.calls == c.calls
    requires |Cast(d.pubs, Returner)| == |Cast(c.pubs, Returner)|
    ensures Regime(d)
  {
  }

  lemma ReportedCounted(c: Sys, d: Sys)
    requires Counted(c) && d.sup == ReportingReturned(c.sup) && d.live == c.live
    requires |Cast(d.pubs, Reporter)| == |Cast(c.pubs, Reporter)| - 1 && |Cast(d.pubs, Returner)| == |Cast(c.pubs, Returner)|
    requires |Cast(d.pubs, Late)| <= |Cast(c.pubs, Late)|
    ensures Counted(d)
  {
  }

  /** The public call of `o` returned; the last of its callbacks will release it. */
  lemma OperationReturnedThreads(c: Sys, p: nat, o: nat, d: Sys)
    requires Owned(c) && p in c.pubs && c.pubs[p].kind == Returning(o)
    requires d == c.(pubs := c.pubs - {p}, sup := OperationReturned(c.sup, o))
    ensures Threads(d)
  {
    assert PubOwned(c, p);
    CallsAtOperation(c);
    assert c.calls.Keys == {};
    if OpOf(c.sup, o).callbacks == 0 {
      EmptyTag(c.live, HeldBy(o));
    }
    forall k | k in d.live ensures LiveOwned(d, k) {
      assert LiveOwned(c, k);
      assert OpOf(c.sup, o).callbacks == 0 ==> !Has(c.live[k], HeldBy(o));
    }
    forall q | q in d.pubs ensures PubOwned(d, q) {
      assert PubOwned(c, q);
      if c.pubs[q].kind.Returning? {
        SingleCast(c.pubs, Returner, p, q);
      }
    }
  }

  lemma OperationReturnedOwned(c: Sys, p: nat, o: nat, d: Sys)
    requires Owned(c) && p in c.pubs && c.pubs[p].kind == Returning(o)
    requires d == c.(pubs := c.pubs - {p}, sup := OperationReturned(c.sup, o))
    ensures Owned(d)
  {
    hide Threads, Regime, Counted, OperationReturned;
    OperationReturnedThreads(c, p, o, d);
    ReturnerHolds(c, p, o);
    CallbackCount(c, o);
    OperationReturnedRegime(c, o, d);
    CastDrop(c.pubs, p, Reporter);
    CastDrop(c.pubs, p, Returner);
    CastDrop(c.pubs, p, Late);
    OperationReturnedCounted(c, o, d);
  }

  lemma ReturnerHolds(c: Sys, p: nat, o: nat)
    requires Threads(c) && p in c.pubs && c.pubs[p].kind == Returning(o)
    ensures c.sup.operation == Some(o) && o in c.sup.ops && c.calls == map[]
  {
    assert PubOwned(c, p);
    CallsAtOperation(c);
    assert c.calls.Keys == {};
  }

  lemma OperationReturnedRegime(c: Sys, o: nat, d: Sys)
    requires Regime(c) && c.sup.operation == Some(o) && OpOf(c.sup, o).callbacks >= 0 && c.calls == map[] && d.calls == map[]
    requires d.sup == OperationReturned(c.sup, o)
    ensures Regime(d)
  {
  }

  lemma OperationReturnedCounted(c: Sys, o: nat, d: Sys)
    requires Counted(c) && o in c.sup.ops && d.live == c.live && d.sup == OperationReturned(c.sup, o)
    requires |Cast(d.pubs, Reporter)| == |Cast(c.pubs, Reporter)|
    requires |Cast(d.pubs, Returner)| <= |Cast(c.pubs, Returner)| && |Cast(d.pubs, Late)| <= |Cast(c.pubs, Late)|
    ensures Counted(d)
  {
  }

  /** Changing what the live operation is about, not who holds it. */
  lemma RetargetOwned(c: Sys, o: nat, op: Op, d: Sys)
    requires Owned(c) && At(c, o) && op.callbacks == OpOf(c.sup, o).callbacks && op.returned == OpOf(c.sup, o).returned
    requires op.revoked == OpOf(c.sup, o).revoked && op.abandoned == OpOf(c.sup, o).abandoned
    requires d == c.(sup := c.sup.(ops := c.sup.ops[o := op]))
    ensures Owned(d)
  {
    assert CallOwned(c, o);
    forall q | q in d.calls ensures CallOwned(d, q) {
      assert CallOwned(c, q);
    }
    forall k | k in d.live ensures LiveOwned(d, k) {
      assert LiveOwned(c, k);
    }
    forall q | q in d.pubs ensures PubOwned(d, q) {
      assert PubOwned(c, q);
    }
  }

  lemma AbandonThreads(c: Sys, o: nat, call: Call, d: Sys)
    requires Threads(c) && o in c.calls && Terminal(call.pc) && call.waiting.None?
    requires d == c.(sup := Abandon(c.sup, o), calls := c.calls[o := call])
    ensures Threads(d)
  {
    hide Terminal;
    OwnsOperation(c, o);
    forall q | q in d.calls ensures CallOwned(d, q) {
      assert CallOwned(c, q);
    }
    forall k | k in d.live ensures LiveOwned(d, k) {
      assert LiveOwned(c, k);
    }
    forall q | q in d.pubs ensures PubOwned(d, q) {
      assert PubOwned(c, q);
    }
  }

  lemma AbandonRegime(c: Sys, o: nat, call: Call, d: Sys)
    requires Regime(c) && o in c.calls && call.kind == c.calls[o].kind && c.sup.operation == Some(o) && o in c.sup.ops
    requires call.kind.VerifyCall? ==> call.change == c.calls[o].change && call.row == c.calls[o].row
    requires c.calls[o].pc.FailAt? ==> call.pc.FailAt?
    requires d == c.(sup := Abandon(c.sup, o), calls := c.calls[o := call])
    ensures Regime(d)
  {
  }

  lemma AbandonCounted(c: Sys, o: nat, d: Sys)
    requires Counted(c) && o in c.sup.ops && d.sup == Abandon(c.sup, o) && d.live == c.live && d.pubs == c.pubs
    ensures Counted(d)
  {
  }

  /** invoke stops waiting: the call can only fail from here. */
  lemma AbandonOwned(c: Sys, o: nat, call: Call, d: Sys)
    requires Owned(c) && o in c.calls && Terminal(call.pc) && call.waiting.None? && call.kind == c.calls[o].kind
    requires call.kind.VerifyCall? ==> call.change == c.calls[o].change && call.row == c.calls[o].row
    requires c.calls[o].pc.FailAt? ==> call.pc.FailAt?
    requires d == c.(sup := Abandon(c.sup, o), calls := c.calls[o := call])
    ensures Owned(d)
  {
    hide Threads, Regime, Counted, Abandon;
    OwnsOperation(c, o);
    AbandonThreads(c, o, call, d);
    AbandonRegime(c, o, call, d);
    AbandonCounted(c, o, d);
  }

  // ------------------------------------------------- every step

  /** The call moved to a later check; while selecting, it may have picked a row. */
  predicate Onward(c: Call, d: Call, selecting: bool) {
    && d.waiting == c.waiting && d.kind == c.kind && d.attempt == c.attempt && d.cancelled == c.cancelled
    && !Reaching(d.pc) && !Terminal(d.pc) && (!selecting ==> d.change == c.change && d.row == c.row)
  }

  lemma CheckOnward(m: Machine, c: Call, k: nat)
    ensures Onward(c, ToReconcile(m, c, k), false) && Onward(c, ToPostcondition(m, c, k), false)
    ensures Onward(c, ToInvariant(m, c, k), false)
  {
  }

  lemma RowCheckOnward(m: Machine, c: Call, k: nat)
    ensures Onward(c, ToRowCheck(m, c, k), false)
  {
    hide ToInvariant;
    CheckOnward(m, c, 0);
  }

  lemma ChosenOnward(m: Machine, c: Call, k: nat, row: Row)
    ensures Onward(c, Chosen(m, c, k, row), true)
  {
    hide ToRowCheck;
    RowCheckOnward(m, c.(pick := k, row := row, change := Candidate(c.attempt, row)), 0);
  }

  lemma SelectOnward(m: Machine, c: Call, k: nat)
    ensures Onward(c, ToSelect(m, c, k), true) && Onward(c, ToPrecondition(m, c, k), true)
  {
    hide Chosen;
    var rows := m.RowsFor(c.attempt.from, c.attempt.event);
    if 0 < |rows| { ChosenOnward(m, c, 0, rows[0]); }
    if k < |rows| { ChosenOnward(m, c, k, rows[k]); }
  }

  /** What a passed callback changes of a call, whatever the position. */
  lemma PassShape(m: Machine, c: Call)
    requires Invokable(c.pc) || c.pc.DeliverAt?
    ensures var d := OnPass(m, c);
      && d.waiting.None? && d.kind == c.kind && d.attempt == c.attempt && d.cancelled == c.cancelled
      && (c.pc.DeliverAt? ==> d.pc.IssueAt? && d.change == c.change)
      && (c.pc.IssueAt? ==> d.pc.AwaitAt? && d.change == c.change)
      && (!c.pc.DeliverAt? && !c.pc.IssueAt? ==> !Reaching(d.pc))
      && (!c.pc.SelectAt? && !c.pc.PreconditionAt? ==> d.change == c.change && d.row == c.row)
  {
    hide ToReconcile, ToPrecondition, Chosen, ToRowCheck, ToInvariant, ToPostcondition, ChangeAt;
    var d := c.(waiting := None, inbox := None, trace := c.trace + [Mark(c.pc, ChangeAt(m, c), true)]);
    match c.pc
    case ReconcileAt(k) => CheckOnward(m, d, k + 1);
    case PreconditionAt(k) => SelectOnward(m, d, k + 1);
    case SelectAt(k) =>
      var rows := m.RowsFor(c.attempt.from, c.attempt.event);
      if k < |rows| { ChosenOnward(m, d, k, rows[k]); }
    case RowCheckAt(k) => RowCheckOnward(m, d, k + 1);
    case InvariantAt(k) => CheckOnward(m, d, k + 1);
    case PostconditionAt(k) => CheckOnward(m, d, k + 1);
    case VerifyAt => CheckOnward(m, d, 0);
    case _ =>
  }

  /** What a failure changes of a call. */
  lemma FailShape(m: Machine, c: Call, completed: bool)
    requires Invokable(c.pc) || c.pc.DeliverAt? || c.pc.PrepareAt?
    ensures var d := OnFail(m, c, completed);
      && d.waiting.None? && d.kind == c.kind && d.attempt == c.attempt && d.cancelled == c.cancelled
      && (c.pc.SelectAt? && completed ==> !Reaching(d.pc) && !Terminal(d.pc))
      && (!(c.pc.SelectAt? && completed) ==> Terminal(d.pc) && d.change == c.change && d.row == c.row)
      && (c.kind.AdjudicateCall? || c.pc.SelectAt? || (d.pc.FailAt? && d.pc.change == c.change))
  {
    hide ToSelect, ChangeAt;
    if c.pc.SelectAt? && completed {
      var mark := Mark(c.pc, ChangeAt(m, c), false);
      SelectOnward(m, c.(waiting := None, inbox := None, trace := c.trace + [mark], overtaken := c.overtaken || c.cancelled), c.pc.k + 1);
    }
  }

  lemma LatchSettled(c: Sys, o: Option<nat>, change: Change, phase: Phase, cause: nat, uncertain: bool)
    requires Owned(c) && (o.Some? ==> o == c.sup.operation)
    ensures Settled(c.sup, Latch(c.m, c.sup, o, change, phase, cause, uncertain, c.now).0)
    ensures o.None? ==> Latch(c.m, c.sup, o, change, phase, cause, uncertain, c.now).0.mode == Faulted
    ensures o.None? ==>
      forall p | p in c.calls :: Latch(c.m, c.sup, o, change, phase, cause, uncertain, c.now).0.ops[p].revoked
  {
    forall p | p in c.calls ensures CallOwned(c, p) {}
  }

  /** The outcome of an admission respects ownership. */
  ghost predicate Admissible(c: Sys, r: (Sup, Admission), call: Call) {
    match r.1
    case Refused(_) => SameOwnership(c.sup, r.0) && r.0.attempt == c.sup.attempt
    case Begun(o, _) => Begins(c, r.0, o, call)
    case Exhausted(o, change, phase, uncertain) => Begins(c, r.0, o, call.(pc := FailAt(change, phase, uncertain)))
    case Expired => c.sup.pending.Some? && r.0 == Expire(c.m, c.sup, c.now)
  }

  lemma AdmittedOwned(c: Sys, r: (Sup, Admission), call: Call)
    requires Owned(c) && Admissible(c, r, call)
    ensures Owned(Admitted(c, r, call))
  {
    match r.1
    case Refused(_) =>
      FrameOwned(c, c.(sup := r.0));
      RefusalOwned(c.(sup := r.0));
    case Begun(o, _) => BeginOwned(c, r.0, o, call);
    case Exhausted(o, change, phase, uncertain) => BeginOwned(c, r.0, o, call.(pc := FailAt(change, phase, uncertain)));
    case Expired => ExpireOwned(c, Admitted(c, r, call));
  }

  lemma ExpireOwned(c: Sys, d: Sys)
    requires Owned(c) && c.sup.pending.Some?
    requires d == AddPub(c.(sup := Expire(c.m, c.sup, c.now)), Pub(Reporting(c.sup.operation), c.sup.fault.None?, JournalDue))
    ensures Owned(d)
  {
    var change := c.sup.pending.value.change;
    LatchSettled(c, None, change, VerifyPhase, VERIFICATION_TIMEOUT, true);
    var latched := Latch(c.m, c.sup, None, change, VerifyPhase, VERIFICATION_TIMEOUT, true, c.now).0;
    ReportOwned(c, Stamp(latched), d, d.pubs[c.nextId]);
  }

  /** What beginOperationLocked needs of its caller. */
  lemma BeginBegins(c: Sys, s: Sup, change: Change, phase: Phase, call: Call)
    requires !Occupied(c.sup) && c.sup.nextOperation < MAX_UINT64 && SameOwnership(c.sup, s)
    requires call.waiting.None? && !Reaching(call.pc) && (c.sup.nextOperation + 1 == MAX_UINT64 ==> call.pc.FailAt?)
    requires call.kind.IssueCall? ==> call.pc.FailAt? || (Current(s, call.attempt) && s.attempt == c.sup.attempt + 1)
    requires call.kind.VerifyCall? ==> call.change == change
    requires call.kind.AdjudicateCall? ==> s.revision < MAX_UINT64
    requires match call.kind
      case StartCall => s.fault.None? && s.pending.None?
      case IssueCall => s.fault.None? && s.pending.None?
      case VerifyCall => s.fault.None? && s.pending.Some? && call.change == s.pending.value.change && call.row == s.pending.value.row
      case AdjudicateCall(_, _, original, _) => s.fault == Some(original)
    ensures Begin(s, change, phase).nextOperation == c.sup.nextOperation + 1
    ensures Begins(c, Begin(s, change, phase), c.sup.nextOperation + 1, call)
  {
  }

  /** What the mode alone says about an idle Supervisor. */
  predicate Settling(s: Sup) {
    && (s.mode.Stopped? || s.mode.Ready? ==> s.fault.None? && s.pending.None? && s.nextOperation < MAX_UINT64)
    && (s.mode.AwaitingVerification? ==> s.fault.None? && s.pending.Some? && s.nextOperation < MAX_UINT64)
    && (s.mode.Faulted? ==> s.fault.Some?)
    && (s.pending.Some? ==> s.fault.None? && (s.mode.AwaitingVerification? || s.mode.Executing?))
  }

  lemma RegimeSettles(c: Sys)
    requires Regime(c)
    ensures Settling(c.sup)
  {
  }

  lemma StartAdmissible(c: Sys, call: Call)
    requires Settling(c.sup) && call.kind.StartCall? && call.waiting.None? && !Reaching(call.pc)
    ensures Admissible(c, AdmitStart(c.sup), call)
  {
    hide Begins, Begin;
    var s, r := c.sup, AdmitStart(c.sup);
    if s.mode.Stopped? && !Occupied(s) {
      var change := CurrentChange(s);
      if CountersExhausted(s) {
        BeginBegins(c, s, change, StartPhase, call.(pc := FailAt(change, StartPhase, false)));
        assert r.1 == Exhausted(s.nextOperation + 1, change, StartPhase, false);
      } else {
        BeginBegins(c, s, change, StartPhase, call);
        assert r.1.Begun?;
      }
    } else {
      assert r.0 == Stamp(s) && r.1.Refused?;
    }
  }

  lemma IssueAdmissible(c: Sys, event: Event, call: Call)
    requires Settling(c.sup) && call.kind.IssueCall? && call.waiting.None? && !Reaching(call.pc)
    requires var a := AdmitIssue(c.m, c.sup, event, c.now).1; a.Begun? ==> call.attempt == a.change
    ensures Admissible(c, AdmitIssue(c.m, c.sup, event, c.now), call)
  {
    hide Begins, Begin;
    var s, r := c.sup, AdmitIssue(c.m, c.sup, event, c.now);
    if s.mode.Ready? && !Occupied(s) && event in c.m.events {
      if s.attempt == MAX_UINT64 || CountersExhausted(s) {
        var change := CurrentChange(s).(event := event);
        BeginBegins(c, s, change, SelectionPhase, call.(pc := FailAt(change, SelectionPhase, false)));
        assert r.1 == Exhausted(s.nextOperation + 1, change, SelectionPhase, false);
      } else {
        var attempt := Inc64(s.attempt);
        var change := Change(s.exec, s.inc, attempt, s.revision, c.now, s.state, event, 0, s.state);
        BeginBegins(c, s.(attempt := attempt), change, PreconditionPhase, call);
        assert r.1.Begun?;
      }
    } else {
      assert r.0 == Stamp(s) && r.1.Refused?;
    }
  }

  lemma IssueCallShape(m: Machine, change: Change)
    ensures var call := ToPrecondition(m, NewCall(IssueCall, change), 0);
      && call.kind.IssueCall? && call.waiting.None? && call.inbox.None? && call.attempt == change
      && !Reaching(call.pc) && !call.pc.FailAt?
  {
  }

  lemma VerifyAdmissible(c: Sys, attempt: AttemptId, call: Call)
    requires Settling(c.sup) && call.kind.VerifyCall? && call.waiting.None? && !Reaching(call.pc)
    requires c.sup.pending.Some? ==> call.row == c.sup.pending.value.row
    requires var a := AdmitVerify(c.m, c.sup, attempt, c.now).1; a.Begun? || a.Exhausted? ==> call.change == a.change
    ensures Admissible(c, AdmitVerify(c.m, c.sup, attempt, c.now), call)
  {
    hide Begins, Begin;
    var s, r := c.sup, AdmitVerify(c.m, c.sup, attempt, c.now);
    if s.mode.AwaitingVerification? && !Occupied(s) && s.pending.value.change.Identifier() == attempt {
      if c.now < s.pending.value.deadline {
        var change := s.pending.value.change;
        if CountersExhausted(s) {
          BeginBegins(c, s, change, VerifyPhase, call.(pc := FailAt(change, VerifyPhase, true)));
          assert r.1 == Exhausted(s.nextOperation + 1, change, VerifyPhase, true);
        } else {
          BeginBegins(c, s, change, VerifyPhase, call);
          assert r.1.Begun?;
        }
      } else {
        assert r.1.Expired?;
      }
    } else {
      assert r.0 == Stamp(s) && r.1.Refused?;
    }
  }

  lemma AdjudicateAdmissible(c: Sys, decision: Decision, phase: Phase, call: Call)
    requires Settling(c.sup) && call.waiting.None? && !Reaching(call.pc)
    requires var a := AdmitAdjudicate(c.m, c.sup, decision, phase).1;
      a.Begun? ==> call.kind.AdjudicateCall? && c.sup.fault == Some(call.kind.original)
    ensures Admissible(c, AdmitAdjudicate(c.m, c.sup, decision, phase), call)
  {
    hide Begins, Begin;
    var s, r := c.sup, AdmitAdjudicate(c.m, c.sup, decision, phase);
    if r.1.Begun? {
      BeginBegins(c, s, r.1.change, phase, call);
    } else {
      assert r.0 == Stamp(s) && r.1.Refused?;
    }
  }

  /** The admission of a step and the call it would run. */
  function AdmissionOf(c: Sys, step: Step): ((Sup, Admission), Call)
    requires Admits(step)
  {
    match step
    case CallStart =>
      var r := AdmitStart(c.sup);
      (r, ToReconcile(c.m, NewCall(StartCall, ChangeOf(r.1)), 0))
    case CallIssue(event) =>
      var r := AdmitIssue(c.m, c.sup, event, c.now);
      (r, ToPrecondition(c.m, NewCall(IssueCall, ChangeOf(r.1)), 0))
    case CallVerify(attempt) =>
      var r := AdmitVerify(c.m, c.sup, attempt, c.now);
      (r, VerifyStart(c, r.1))
    case CallAdjudicate(decision, adjudicating) =>
      var phase := if adjudicating then AdjudicatePhase else RecoverPhase;
      var outcome := if adjudicating then decision else Retain;
      var r := AdmitAdjudicate(c.m, c.sup, outcome, phase);
      (r, AdjudicateStart(c, r.1, outcome, phase))
  }

  lemma AdmissionAdmissible(c: Sys, step: Step)
    requires Owned(c) && Admits(step)
    ensures Admissible(c, AdmissionOf(c, step).0, AdmissionOf(c, step).1)
    ensures ExecAdmit(c, step) == Admitted(c, AdmissionOf(c, step).0, AdmissionOf(c, step).1)
  {
    hide Threads, Regime, Counted, ToPrecondition, Admissible;
    RegimeSettles(c);
    var (r, call) := AdmissionOf(c, step);
    match step
    case CallStart => StartAdmissible(c, call);
    case CallIssue(event) =>
      IssueCallShape(c.m, ChangeOf(r.1));
      IssueAdmissible(c, event, call);
    case CallVerify(attempt) => VerifyAdmissible(c, attempt, call);
    case CallAdjudicate(decision, adjudicating) =>
      AdjudicateAdmissible(c, if adjudicating then decision else Retain, if adjudicating then AdjudicatePhase else RecoverPhase, call);
  }

  /** What the live call of `o` can rely on. */
  ghost predicate Standing(c: Sys, o: nat)
    requires o in c.calls
  {
    var s, call := c.sup, c.calls[o];
    && s.operation == Some(o) && o in s.ops
    && (s.ops[o].revoked ==> s.mode == Faulted && s.fault.Some? && s.pending.None?)
    && (!s.ops[o].revoked ==>
          && s.mode == Executing && (s.nextOperation == MAX_UINT64 ==> call.pc.FailAt?)
          && match call.kind
             case StartCall => s.fault.None? && s.pending.None?
             case IssueCall => s.fault.None? && s.pending.None?
             case VerifyCall => s.fault.None? && s.pending.Some? && call.change == s.pending.value.change && call.row == s.pending.value.row
             case AdjudicateCall(_, _, original, _) => s.fault == Some(original) && s.pending.None?)
  }

  lemma StandingOf(c: Sys, o: nat)
    requires Owned(c) && o in c.calls
    ensures Standing(c, o)
  {
    assert CallOwned(c, o);
  }

  lemma AwaitSettles(c: Sys, o: nat)
    requires o in c.calls && Standing(c, o) && c.calls[o].kind.IssueCall? && !c.calls[o].pc.FailAt?
    ensures Settled(c.sup, AwaitVerification(c.sup, o, c.calls[o].change, c.calls[o].row, c.cfg.timeout, c.now).0)
  {
  }

  lemma StampSettles(s: Sup, t: Sup)
    requires Settled(s, t)
    ensures Settled(s, Stamp(t))
  {
  }

  lemma LatchSettles(c: Sys, o: nat, change: Change, phase: Phase, cause: nat, uncertain: bool)
    requires o in c.calls && Standing(c, o)
    ensures Settled(c.sup, Stamp(Latch(c.m, c.sup, Some(o), change, phase, cause, uncertain, c.now).0))
  {
    var t := Latch(c.m, c.sup, Some(o), change, phase, cause, uncertain, c.now).0;
    assert Settled(c.sup, t);
    StampSettles(c.sup, t);
  }

  lemma CommitSettles(c: Sys, o: nat, issued: bool)
    requires o in c.calls && Standing(c, o) && !c.calls[o].kind.AdjudicateCall? && !c.calls[o].pc.FailAt?
    ensures Settled(c.sup, Commit(c.m, c.sup, o, c.calls[o].change, issued, c.now).0)
  {
    var s, change := c.sup, c.calls[o].change;
    if !Owns(s, o) {
      StampSettles(s, s);
    } else if s.revision == MAX_UINT64 {
      LatchSettles(c, o, change, CommitPhase, COUNTER_EXHAUSTED, issued);
    } else {
      StampSettles(s, s.(state := change.to, revision := Inc64(s.revision), pending := None, mode := Ready));
    }
  }

  lemma FinishSettles(c: Sys, o: nat)
    requires o in c.calls && Standing(c, o) && !c.calls[o].pc.FailAt?
    requires c.calls[o].kind.StartCall? || c.calls[o].kind.IssueCall?
    ensures Settled(c.sup, FinishReady(c.sup, o).0)
  {
  }

  lemma ResolveSettles(c: Sys, o: nat)
    requires o in c.calls && Standing(c, o) && c.calls[o].kind.AdjudicateCall? && !c.calls[o].pc.FailAt?
    ensures var k := c.calls[o].kind; Settled(c.sup, Resolve(c.sup, o, k.original, k.decision, k.target).0)
  {
    var s, k := c.sup, c.calls[o].kind;
    if !Owns(s, o) {
      StampSettles(s, s);
    } else {
      var moved := if k.decision.Retain? then s else s.(state := k.target, revision := Inc64(s.revision));
      StampSettles(s, moved.(fault := None, mode := Ready));
    }
  }

  lemma RestoreFaultSettles(c: Sys, o: nat)
    requires o in c.calls && Standing(c, o) && c.calls[o].kind.AdjudicateCall?
    ensures Settled(c.sup, RestoreFault(c.sup, o, c.calls[o].kind.original))
  {
  }

  // The kinds of calls a decision belongs to follow from the position alone.
  ghost predicate KindFits(call: Call) {
    && (call.pc.AwaitAt? ==> call.kind.IssueCall?)
    && (call.pc.PrepareAt? || call.pc.DeliverAt? ==> call.kind.IssueCall?)
    && (call.pc.CommitAt? ==> call.kind.IssueCall? || call.kind.VerifyCall?)
    && (call.pc.FinishAt? ==> call.kind.IssueCall? || call.kind.StartCall?)
    && (call.kind.VerifyCall? ==> !call.pc.SelectAt? && !call.pc.PreconditionAt?)
  }

  lemma AwaitOwned(c: Sys, o: nat)
    requires Owned(c) && At(c, o) && c.calls[o].pc.AwaitAt? && c.calls[o].kind.IssueCall?
    ensures Owned(DoAwait(c, o))
  {
    StandingOf(c, o);
    AwaitSettles(c, o);
    DecideOwned(c, o, DoAwait(c, o).sup, DoAwait(c, o), false);
  }

  lemma CommitOwned(c: Sys, o: nat)
    requires Owned(c) && At(c, o) && c.calls[o].pc.CommitAt? && !c.calls[o].kind.AdjudicateCall?
    ensures Owned(DoCommit(c, o))
  {
    StandingOf(c, o);
    CommitSettles(c, o, c.calls[o].kind.VerifyCall?);
    var d := DoCommit(c, o);
    DecideOwned(c, o, d.sup, d, d.pubs[c.nextId].durable);
  }

  lemma FinishOwned(c: Sys, o: nat)
    requires Owned(c) && At(c, o) && c.calls[o].pc.FinishAt? && (c.calls[o].kind.StartCall? || c.calls[o].kind.IssueCall?)
    ensures Owned(DoFinish(c, o))
  {
    StandingOf(c, o);
    FinishSettles(c, o);
    var d := DoFinish(c, o);
    DecideOwned(c, o, d.sup, d, d.pubs[c.nextId].durable);
  }

  lemma LatchOwned(c: Sys, o: nat, cause: nat)
    requires Owned(c) && At(c, o) && c.calls[o].pc.FailAt?
    ensures Owned(DoLatch(c, o, cause))
  {
    var pc, d := c.calls[o].pc, DoLatch(c, o, cause);
    StandingOf(c, o);
    LatchSettles(c, o, pc.change, pc.phase, cause, pc.uncertain);
    DecideOwned(c, o, d.sup, d, d.pubs[c.nextId].durable);
  }

  lemma ResolveOwned(c: Sys, o: nat)
    requires Owned(c) && At(c, o) && c.calls[o].pc.ResolveAt? && c.calls[o].kind.AdjudicateCall?
    ensures Owned(DoResolve(c, o))
  {
    StandingOf(c, o);
    ResolveSettles(c, o);
    var d := DoResolve(c, o);
    DecideOwned(c, o, d.sup, d, d.pubs[c.nextId].durable);
  }

  lemma RestoreFaultOwned(c: Sys, o: nat)
    requires Owned(c) && At(c, o) && c.calls[o].kind.AdjudicateCall?
    ensures Owned(DoRestoreFault(c, o))
  {
    StandingOf(c, o);
    RestoreFaultSettles(c, o);
    DecideOwned(c, o, DoRestoreFault(c, o).sup, DoRestoreFault(c, o), false);
  }

  lemma TripOwned(c: Sys, cause: nat)
    requires Owned(c)
    ensures Owned(DoTrip(c, cause))
  {
    var subject := TripSubject(c.sup);
    LatchSettled(c, None, subject.0, subject.1, cause, true);
    var t := Latch(c.m, c.sup, None, subject.0, subject.1, cause, true, c.now).0;
    StampSettles(c.sup, t);
    var d := DoTrip(c, cause);
    ReportOwned(c, Stamp(t), d, d.pubs[c.nextId]);
  }

  lemma TimerOwned(c: Sys, attempt: nat, version: nat)
    requires Owned(c)
    ensures Owned(DoTimer(c, attempt, version))
  {
    if TimerFired(c.m, c.sup, attempt, version, c.now).1 {
      ExpireOwned(c, DoTimer(c, attempt, version));
    }
  }

  lemma StampKeepsOwnership(s: Sup)
    ensures SameOwnership(s, Stamp(s))
  {
  }

  lemma CleanupOwned(c: Sys, k: nat, outcome: Outcome)
    requires Owned(c) && k in c.live && c.live[k].App? && !c.live[k].late
    ensures Owned(DoCleanup(c, k, outcome))
  {
    hide Owned, CallbackReturned, Deliver, SameOwnership, Stamp, OpOf;
    var app := c.live[k];
    StampKeepsOwnership(c.sup);
    if OpOf(c.sup, app.op).abandoned && !outcome.Passed? {
      LateOwned(c, k, DoCleanup(c, k, outcome));
    } else {
      EndAppOwned(c, k, outcome, DoCleanup(c, k, outcome));
    }
  }

  lemma EndAppOwned(c: Sys, k: nat, outcome: Outcome, d: Sys)
    requires Owned(c) && k in c.live && c.live[k].App? && !c.live[k].late
    requires d == c.(sup := CallbackReturned(c.sup, Some(c.live[k].op)), live := c.live - {k},
                     calls := Deliver(c, c.live[k].op, k, outcome))
    ensures Owned(d)
  {
    assert LiveOwned(c, k);
    NotLateUnreferenced(c, k);
    DeliverDelivers(c, c.live[k].op, k, outcome);
    EndOwned(c, k, d);
  }

  /** Only the call that owns callback `k` can be waiting for it. */
  lemma DeliverDelivers(c: Sys, o: nat, k: nat, outcome: Outcome)
    requires Threads(c) && k in c.live && c.sup.operation == Some(o)
    ensures Delivered(c, k, Deliver(c, o, k, outcome))
  {
    CallsAtOperation(c);
  }

  lemma JournalFinishOwned(c: Sys, k: nat, ok: bool)
    requires Owned(c) && k in c.live && c.live[k].JournalWrite?
    ensures Owned(DoJournalFinish(c, k, ok))
  {
    hide Owned, DoJournalFinish, Ended;
    JournalDelivers(c, k, ok);
    JournalUnreferenced(c, k);
    JournalEnds(c, k, ok);
    EndOwned(c, k, DoJournalFinish(c, k, ok));
  }

  lemma JournalUnreferenced(c: Sys, k: nat)
    requires Owned(c) && k in c.live && c.live[k].JournalWrite?
    ensures Unreferenced(c, k)
  {
    hide Threads, Regime, Counted;
    NotLateUnreferenced(c, k);
  }

  lemma JournalDelivers(c: Sys, k: nat, ok: bool)
    requires Owned(c) && k in c.live && c.live[k].JournalWrite?
    ensures Delivered(c, k, DoJournalFinish(c, k, ok).calls)
  {
    hide Threads, Regime, Counted, Release;
    var owner := c.live[k].owner;
    if owner.Some? && owner == c.sup.operation {
      DeliverDelivers(c, owner.value, k, if ok then Passed else Failed);
    } else {
      NobodyWaits(c, k);
    }
  }

  lemma JournalEnds(c: Sys, k: nat, ok: bool)
    requires k in c.live && c.live[k].JournalWrite? && Unreferenced(c, k)
    requires Delivered(c, k, DoJournalFinish(c, k, ok).calls)
    ensures Ended(c, k, DoJournalFinish(c, k, ok))
  {
    hide Unreferenced, Delivered, CallbackReturned;
  }

  lemma NobodyWaits(c: Sys, k: nat)
    requires Threads(c) && k in c.live
    requires match c.live[k]
      case App(_, _, _, late) => late
      case JournalWrite(owner, _, _, _) => owner.None? || owner != c.sup.operation
      case RecorderWrite(_) => true
    ensures forall o | o in c.calls :: c.calls[o].waiting != Some(k)
  {
    assert LiveOwned(c, k);
    forall o | o in c.calls ensures c.calls[o].waiting != Some(k) {
      assert CallOwned(c, o);
    }
  }

  lemma RecorderFinishOwned(c: Sys, k: nat)
    requires Owned(c) && k in c.live && c.live[k].RecorderWrite?
    ensures Owned(DoRecorderFinish(c, k))
  {
    assert LiveOwned(c, k);
    NotLateUnreferenced(c, k);
    NobodyWaits(c, k);
    EndOwned(c, k, DoRecorderFinish(c, k));
  }

  lemma ConsumeOwned(c: Sys, o: nat, call: Call)
    requires Owned(c) && o in c.calls && (Invokable(c.calls[o].pc) || c.calls[o].pc.DeliverAt?) && KindFits(c.calls[o])
    requires c.calls[o].inbox.Some? && c.calls[o].waiting.Some?
    requires call == OnPass(c.m, c.calls[o]) || call == OnFail(c.m, c.calls[o], true) || call == OnFail(c.m, c.calls[o], false)
    ensures Owned(c.(calls := c.calls[o := call]))
  {
    NothingOutstanding(c, o);
    PassShape(c.m, c.calls[o]);
    FailShape(c.m, c.calls[o], true);
    FailShape(c.m, c.calls[o], false);
    MoveOwned(c, o, call);
  }

  /** A call that fails or passes without having waited. */
  lemma SkipOwned(c: Sys, o: nat, call: Call)
    requires Owned(c) && At(c, o) && KindFits(c.calls[o])
    requires Invokable(c.calls[o].pc) || c.calls[o].pc.DeliverAt? || c.calls[o].pc.PrepareAt?
    requires call == OnFail(c.m, c.calls[o], false)
    ensures Owned(c.(calls := c.calls[o := call]))
  {
    NothingOutstanding(c, o);
    FailShape(c.m, c.calls[o], false);
    MoveOwned(c, o, call);
  }

  lemma DoInvokeOwned(c: Sys, o: nat)
    requires Owned(c) && At(c, o) && Invokable(c.calls[o].pc) && KindFits(c.calls[o])
    ensures Owned(DoInvoke(c, o))
  {
    var call := c.calls[o];
    if InvokeBegin(c.sup, o, ChangeAt(c.m, call), PhaseAt(call)).1 {
      InvokeOwned(c, o, ChangeAt(c.m, call), PhaseAt(call), DoInvoke(c, o));
    } else {
      SkipOwned(c, o, OnFail(c.m, call, false));
    }
  }

  lemma GiveUpOwned(c: Sys, o: nat)
    requires Owned(c) && o in c.calls && Invokable(c.calls[o].pc) && KindFits(c.calls[o])
    ensures Owned(DoGiveUp(c, o))
  {
    FailShape(c.m, c.calls[o], false);
    AbandonOwned(c, o, OnFail(c.m, c.calls[o], false), DoGiveUp(c, o));
  }

  lemma PrepareOwned(c: Sys, o: nat)
    requires Owned(c) && At(c, o) && c.calls[o].pc.PrepareAt? && c.calls[o].kind.IssueCall?
    ensures Owned(DoPrepare(c, o))
  {
    hide Owned, OnPass, OnFail, PrepareBegin, KindFits;
    var call := c.calls[o];
    assert KindFits(call) by { PreparerFits(call); }
    var (sup, ok) := PrepareBegin(c.sup, o, call.change, c.now);
    if ok {
      BeginPrepareOwned(c, o, c.(sup := sup));
      PreparedOwned(c.(sup := sup), o, if c.cfg.journaled then call.(pc := DeliverAt, inbox := None) else OnPass(c.m, call.(pc := DeliverAt)));
    } else {
      SkipOwned(c, o, OnFail(c.m, call, false));
    }
  }

  lemma PreparerFits(call: Call)
    requires call.pc.PrepareAt? && call.kind.IssueCall?
    ensures KindFits(call)
  {
  }

  lemma BeginPrepareOwned(c: Sys, o: nat, d: Sys)
    requires Owned(c) && At(c, o) && PrepareBegin(c.sup, o, c.calls[o].change, c.now).1
    requires d == c.(sup := PrepareBegin(c.sup, o, c.calls[o].change, c.now).0)
    ensures Owned(d)
  {
    hide Owned;
    RetargetOwned(c, o, d.sup.ops[o], d);
  }

  lemma PreparedOwned(c: Sys, o: nat, call: Call)
    requires Owned(c) && At(c, o) && c.calls[o].pc.PrepareAt? && c.calls[o].kind.IssueCall?
    requires call == c.calls[o].(pc := DeliverAt, inbox := None) || call == OnPass(c.m, c.calls[o].(pc := DeliverAt))
    ensures Owned(c.(calls := c.calls[o := call]))
  {
    hide Threads, Regime, Counted, OnPass;
    PassShape(c.m, c.calls[o].(pc := DeliverAt));
    NothingOutstanding(c, o);
    MoveOwned(c, o, call);
  }

  lemma DoPrepareAcquireOwned(c: Sys, o: nat)
    requires Owned(c) && At(c, o) && c.calls[o].pc.DeliverAt? && c.calls[o].kind.IssueCall?
    ensures Owned(DoPrepareAcquire(c, o))
  {
    if Acquire(c.sup, Journal, Some(o)).1 {
      PrepareAcquireOwned(c, o, DoPrepareAcquire(c, o));
    } else {
      SkipOwned(c, o, OnFail(c.m, c.calls[o], false));
    }
  }

  lemma PrepareTimeoutOwned(c: Sys, o: nat)
    requires Owned(c) && o in c.calls && c.calls[o].pc.DeliverAt? && c.calls[o].kind.IssueCall?
    ensures Owned(c.(calls := c.calls[o := OnFail(c.m, c.calls[o], false)]))
  {
    assert CallOwned(c, o);
    FailShape(c.m, c.calls[o], false);
    forall k | k in c.live && Outstanding(c.live[k], o) && c.live[k].App? ensures OpOf(c.sup, o).abandoned {
      assert LiveOwned(c, k);
    }
    MoveOwned(c, o, OnFail(c.m, c.calls[o], false));
  }

  lemma ContextFailureOwned(c: Sys, o: nat)
    requires Owned(c) && At(c, o)
    requires c.calls[o].pc.AwaitAt? || c.calls[o].pc.CommitAt? || c.calls[o].pc.FinishAt? || c.calls[o].pc.ResolveAt?
    ensures Owned(c.(calls := c.calls[o := OnContextFailure(c.calls[o])]))
  {
    NothingOutstanding(c, o);
    MoveOwned(c, o, OnContextFailure(c.calls[o]));
  }

  lemma StampedStageOwned(c: Sys, p: nat)
    requires Owned(c) && p in c.pubs
    ensures Owned(SetStage(c.(sup := Stamp(c.sup)), p, RecordDue(true)))
  {
    hide Owned, SetStage, Stamp, SameOwnership;
    StampKeepsOwnership(c.sup);
    FrameOwned(c, c.(sup := Stamp(c.sup)));
    StageOwned(c.(sup := Stamp(c.sup)), p, RecordDue(true));
  }

  lemma BorrowKeepsPubs(c: Sys, owner: Option<nat>, gate: Gate)
    ensures Borrow(c, owner, gate).pubs == c.pubs
  {
  }

  lemma PubJournalOwned(c: Sys, p: nat, expired: bool)
    requires Owned(c) && p in c.pubs
    ensures Owned(DoPubJournal(c, p, expired))
  {
    hide Owned, Acquire, SetStage, Borrow, Stamp, SameOwnership;
    var pub := c.pubs[p];
    if !pub.durable || !c.cfg.journaled {
      StageOwned(c, p, RecordDue(false));
    } else if expired || !Acquire(c.sup, Journal, pub.Owner()).1 {
      StampedStageOwned(c, p);
    } else {
      BorrowOwned(c, p, Journal, Borrow(c, pub.Owner(), Journal));
      BorrowKeepsPubs(c, pub.Owner(), Journal);
      StageOwned(Borrow(c, pub.Owner(), Journal), p, JournalPending(c.nextId));
    }
  }

  lemma PubJournalDoneOwned(c: Sys, p: nat, ok: bool)
    requires Owned(c) && p in c.pubs
    ensures Owned(DoPubJournalDone(c, p, ok))
  {
    hide Owned, SetStage, Stamp;
    StageOwned(c, p, RecordDue(false));
    StampedStageOwned(c, p);
  }

  lemma PubRecordOwned(c: Sys, p: nat)
    requires Owned(c) && p in c.pubs && c.pubs[p].stage.RecordDue?
    ensures Owned(DoPubRecord(c, p))
  {
    hide Owned, Acquire, SetStage, Borrow;
    var pub := c.pubs[p];
    if !c.cfg.recording || !Acquire(c.sup, Recorder, pub.Owner()).1 {
      StageOwned(c, p, AfterRecord(pub.stage.closing));
    } else {
      BorrowOwned(c, p, Recorder, Borrow(c, pub.Owner(), Recorder));
      BorrowKeepsPubs(c, pub.Owner(), Recorder);
      StageOwned(Borrow(c, pub.Owner(), Recorder), p, RecordPending(pub.stage.closing));
    }
  }

  lemma PubReturnOwned(c: Sys, p: nat)
    requires Owned(c) && p in c.pubs
    ensures Owned(DoPubReturn(c, p))
  {
    match c.pubs[p].kind
    case Refusal => DropPubOwned(c, p);
    case Returning(o) => OperationReturnedOwned(c, p, o, DoPubReturn(c, p));
    case Reporting(_) => ReportingReturnedOwned(c, p);
    case LateCause(k, o) =>
      assert PubOwned(c, p);
      DropPubOwned(c, p);
      forall q | q in c.pubs && q != p && c.pubs[q].kind.LateCause? ensures c.pubs[q].kind.callback != k {
        if c.pubs[q].kind.callback == k {
          SingleCast(c.pubs, Late, p, q);
        }
      }
      NobodyWaits(c, k);
      EndOwned(c.(pubs := c.pubs - {p}), k, DoPubReturn(c, p));
  }

  lemma BootOwned(c: Sys, s: Sup)
    requires c.calls == map[] && c.live == map[] && c.pubs == map[]
    requires s.operation.None? && s.ops == map[] && s.nextOperation == 0 && s.reporting == 0 && s.pending.None?
    requires !s.journalBusy && !s.recorderBusy && !s.journalRunning && !s.recorderRunning
    requires (s.mode == Stopped && s.fault.None?) || (s.mode == Faulted && s.fault.Some?)
    ensures Owned(c.(sup := s))
  {
    assert forall which :: Tagged(map[], which) == {};
    assert forall role :: Cast(map[], role) == {};
  }

  lemma AdmitStepOwned(c: Sys, step: Step)
    requires Owned(c) && Admits(step)
    ensures Owned(ExecAdmit(c, step))
  {
    hide Owned, Admissible, Admitted, AdmissionOf, ExecAdmit;
    AdmissionAdmissible(c, step);
    AdmittedOwned(c, AdmissionOf(c, step).0, AdmissionOf(c, step).1);
  }

  lemma MoveStepOwned(c: Sys, step: Step)
    requires Owned(c) && Moves(step) && CanMove(c, step) && KindFits(c.calls[step.op])
    ensures Owned(ExecMove(c, step))
  {
    hide Owned, OnPass, OnFail, DoInvoke, DoGiveUp, DoPrepare, DoPrepareAcquire;
    match step
    case InvokeFailFast(o) => SkipOwned(c, o, OnFail(c.m, c.calls[o], false));
    case Invoke(o) => DoInvokeOwned(c, o);
    case Consume(o) =>
      var call := DoConsume(c, o).calls[o];
      ConsumeOwned(c, o, call);
      FrameOwned(c.(calls := c.calls[o := call]), DoConsume(c, o));
    case GiveUp(o) => GiveUpOwned(c, o);
    case PrepareCall(o) => PrepareOwned(c, o);
    case PrepareAcquire(o) => DoPrepareAcquireOwned(c, o);
    case PrepareConsume(o) => ConsumeOwned(c, o, DoPrepareConsume(c, o).calls[o]);
    case PrepareTimeout(o) => PrepareTimeoutOwned(c, o);
    case ContextFailure(o) => ContextFailureOwned(c, o);
  }

  lemma DecideStepOwned(c: Sys, step: Step)
    requires Owned(c) && Decides(step) && CanDecide(c, step) && KindFits(c.calls[step.op])
    ensures Owned(ExecDecide(c, step))
  {
    hide Owned, DoAwait, DoCommit, DoFinish, DoLatch, DoResolve, DoRestoreFault;
    match step
    case AwaitCall(o) => AwaitOwned(c, o);
    case CommitCall(o) => CommitOwned(c, o);
    case FinishCall(o) => FinishOwned(c, o);
    case LatchCall(o, cause) => LatchOwned(c, o, cause);
    case ResolveCall(o) => ResolveOwned(c, o);
    case RestoreFaultCall(o) => RestoreFaultOwned(c, o);
  }

  lemma RunStepOwned(c: Sys, step: Step)
    requires Owned(c) && Runs(step) && CanRun(c, step)
    ensures Owned(ExecRun(c, step))
  {
    hide Owned, DoCleanup, DoJournalFinish, DoRecorderFinish;
    match step
    case Cleanup(k, outcome) => CleanupOwned(c, k, outcome);
    case JournalCapture(k) => KeepOwned(c, k, DoCapture(c, k).live[k], DoCapture(c, k));
    case JournalSave(k) => KeepOwned(c, k, DoSave(c, k).live[k], DoSave(c, k));
    case JournalFinish(k, ok) => JournalFinishOwned(c, k, ok);
    case RecorderFinish(k) => RecorderFinishOwned(c, k);
  }

  lemma PublishStepOwned(c: Sys, step: Step)
    requires Owned(c) && Publishes(step) && CanPublish(c, step)
    ensures Owned(ExecPublish(c, step))
  {
    hide Owned, DoPubJournal, DoPubJournalDone, DoPubRecord, DoPubReturn, SetStage;
    match step
    case PubJournal(p, expired) => PubJournalOwned(c, p, expired);
    case PubJournalDone(p, ok) => PubJournalDoneOwned(c, p, ok);
    case PubRecord(p) => PubRecordOwned(c, p);
    case PubProceed(p) => StageOwned(c, p, AfterRecord(c.pubs[p].stage.closing));
    case PubReturn(p) => PubReturnOwned(c, p);
  }

  lemma SignalStepOwned(c: Sys, step: Step)
    requires Owned(c) && Signals(step) && CanSignal(c, step)
    ensures Owned(ExecSignal(c, step))
  {
    hide Threads, Regime, Counted, DoTrip, DoTimer;
    match step
    case Tick(_) => FrameOwned(c, ExecSignal(c, step));
    case Cancel(o) => CancelOwned(c, o);
    case RefuseNilContext => FrameOwned(c, c.(sup := Stamp(c.sup))); RefusalOwned(c.(sup := Stamp(c.sup)));
    case TripCall(cause) => TripOwned(c, cause);
    case Timer(attempt, version) => TimerOwned(c, attempt, version);
  }

  /** Every step of the running system preserves ownership. */
  lemma StepOwned(c: Sys, step: Step)
    requires Owned(c) && Enabled(c, step) && !Reincarnates(step)
    requires forall o | o in c.calls :: KindFits(c.calls[o])
    ensures Owned(Exec(c, step))
  {
    hide Owned, KindFits, ExecAdmit, ExecMove, ExecDecide, ExecRun, ExecPublish, ExecSignal, ExecReincarnate;
    if Admits(step) {
      AdmitStepOwned(c, step);
    } else if Moves(step) {
      MoveStepOwned(c, step);
    } else if Decides(step) {
      DecideStepOwned(c, step);
    } else if Runs(step) {
      RunStepOwned(c, step);
    } else if Publishes(step) {
      PublishStepOwned(c, step);
    } else {
      SignalStepOwned(c, step);
    }
  }

  lemma CancelOwned(c: Sys, o: nat)
    requires Owned(c) && o in c.calls
    ensures Owned(c.(calls := c.calls[o := c.calls[o].(cancelled := true)]))
  {
    var d := c.(calls := c.calls[o := c.calls[o].(cancelled := true)]);
    forall q | q in d.calls ensures CallOwned(d, q) {
      assert CallOwned(c, q);
    }
    forall k | k in d.live ensures LiveOwned(d, k) {
      assert LiveOwned(c, k);
    }
    forall q | q in d.pubs ensures PubOwned(d, q) {
      assert PubOwned(c, q);
    }
  }
}
