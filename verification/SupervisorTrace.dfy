/**
 * What a call must have checked before it may commit, stated independently of
 * the program counter, and the proof that the sequential code follows it.
 */
module SupervisorTrace {
  import opened Basics
  import opened SupervisorTypes
  import opened SupervisorSpec
  import opened SupervisorSystem

  // ------------------------------------------------------- required traces

  function Reconciled(change: Change, n: nat): seq<Mark> {
    seq(n, i requires 0 <= i < n => Mark(ReconcileAt(i), change, true))
  }

  function Preconditions(attempt: Change, n: nat): seq<Mark> {
    seq(n, i requires 0 <= i < n => Mark(PreconditionAt(i), attempt, true))
  }

  /** The guards of the first `n` candidates, all declining. */
  function Declined(m: Machine, attempt: Change, n: nat): seq<Mark>
    requires n <= |m.RowsFor(attempt.from, attempt.event)|
  {
    var rows := m.RowsFor(attempt.from, attempt.event);
    seq(n, i requires 0 <= i < n => Mark(SelectAt(i), Candidate(attempt, rows[i]), false))
  }

  function RowChecks(change: Change, n: nat): seq<Mark> {
    seq(n, i requires 0 <= i < n => Mark(RowCheckAt(i), change, true))
  }

  function Invariants(change: Change, n: nat): seq<Mark> {
    seq(n, i requires 0 <= i < n => Mark(InvariantAt(i), change, true))
  }

  function Postconditions(change: Change, n: nat): seq<Mark> {
    seq(n, i requires 0 <= i < n => Mark(PostconditionAt(i), change, true))
  }

  /** Row `pick` is the first one not declined: every earlier row has a guard. */
  ghost predicate Eligible(m: Machine, attempt: Change, pick: nat) {
    var rows := m.RowsFor(attempt.from, attempt.event);
    pick < |rows| && forall i | 0 <= i < pick :: rows[i].guarded
  }

  /** Global preconditions, then the guards up to and including the selected row. */
  function Routing(m: Machine, attempt: Change, pick: nat): seq<Mark>
    requires pick < |m.RowsFor(attempt.from, attempt.event)|
  {
    var row := m.RowsFor(attempt.from, attempt.event)[pick];
    Preconditions(attempt, m.preconditions) + Declined(m, attempt, pick)
    + if row.guarded then [Mark(SelectAt(pick), Candidate(attempt, row), true)] else []
  }

  function Checked(m: Machine, attempt: Change, pick: nat): seq<Mark>
    requires pick < |m.RowsFor(attempt.from, attempt.event)|
  {
    var row := m.RowsFor(attempt.from, attempt.event)[pick];
    Routing(m, attempt, pick) + RowChecks(Candidate(attempt, row), row.checks)
    + Invariants(Candidate(attempt, row), m.invariants)
  }

  /** The complete trace of a logical row. */
  function Logical(m: Machine, attempt: Change, pick: nat): seq<Mark>
    requires pick < |m.RowsFor(attempt.from, attempt.event)|
  {
    Checked(m, attempt, pick) + Postconditions(Candidate(attempt, m.RowsFor(attempt.from, attempt.event)[pick]), m.postconditions)
  }

  /** An external row up to the completed Issue action. */
  function Issued(m: Machine, attempt: Change, pick: nat): seq<Mark>
    requires pick < |m.RowsFor(attempt.from, attempt.event)|
  {
    var change := Candidate(attempt, m.RowsFor(attempt.from, attempt.event)[pick]);
    Checked(m, attempt, pick) + [Mark(DeliverAt, change, true)] + [Mark(IssueAt, change, true)]
  }

  function Verified(m: Machine, attempt: Change, pick: nat): seq<Mark>
    requires pick < |m.RowsFor(attempt.from, attempt.event)|
  {
    var change := Candidate(attempt, m.RowsFor(attempt.from, attempt.event)[pick]);
    Issued(m, attempt, pick) + [Mark(VerifyAt, change, true)] + Invariants(change, m.invariants)
  }

  /** The complete trace of an external row. */
  function External(m: Machine, attempt: Change, pick: nat): seq<Mark>
    requires pick < |m.RowsFor(attempt.from, attempt.event)|
  {
    Verified(m, attempt, pick) + Postconditions(Candidate(attempt, m.RowsFor(attempt.from, attempt.event)[pick]), m.postconditions)
  }

  /** A commit that no mandatory check was bypassed for. */
  ghost predicate Justified(m: Machine, r: CommitRecord) {
    var attempt := Unselected(r.change);
    var rows := m.RowsFor(attempt.from, attempt.event);
    && Eligible(m, attempt, r.pick)
    && r.row == rows[r.pick] && r.change == Candidate(attempt, r.row)
    && r.trace == (if r.row.external then External(m, attempt, r.pick) else Logical(m, attempt, r.pick))
    && (r.row.external ==> r.admittedAt < r.deadline)
  }

  /** Every candidate row has a guard, and after all global preconditions passed every guard declined. */
  ghost predicate AllDeclined(m: Machine, attempt: Change, trace: seq<Mark>) {
    var rows := m.RowsFor(attempt.from, attempt.event);
    && (forall i | 0 <= i < |rows| :: rows[i].guarded)
    && trace == Preconditions(attempt, m.preconditions) + Declined(m, attempt, |rows|)
  }

  // ------------------------------------------- the calls' own bookkeeping

  /** The call has selected row `pick`. */
  ghost predicate Picked(m: Machine, c: Call) {
    && c.attempt == Unselected(c.change) && Eligible(m, c.attempt, c.pick)
    && c.row == m.RowsFor(c.attempt.from, c.attempt.event)[c.pick]
    && c.change == Candidate(c.attempt, c.row)
  }

  /** The program counter, the selection and the trace of a call agree. */
  ghost predicate Faithful(m: Machine, c: Call) {
    match c.kind
    case StartCall => Reconciling(m, c) || (c.pc.FinishAt? && c.trace == Reconciled(c.change, m.reconcilers)) || FailsOwn(c)
    case AdjudicateCall(_, _, _, _) =>
      Reconciling(m, c) || (c.pc.ResolveAt? && c.trace == Reconciled(c.change, m.reconcilers)) || c.pc.RestoreFaultAt?
    case IssueCall => c.attempt == Unselected(c.attempt) && FaithfulIssue(m, c)
    case VerifyCall =>
      (c.pc.FailAt? && c.pc.change == c.change) || (Picked(m, c) && c.row.external && c.admittedAt < c.deadline && FaithfulVerify(m, c))
  }

  ghost predicate Reconciling(m: Machine, c: Call) {
    c.pc.ReconcileAt? && c.pc.k < m.reconcilers && c.trace == Reconciled(c.change, c.pc.k)
  }

  ghost predicate FailsOwn(c: Call) {
    c.pc.FailAt? && c.pc.change.Identifier() == c.change.Identifier()
  }

  ghost predicate FaithfulIssue(m: Machine, c: Call) {
    var rows := m.RowsFor(c.attempt.from, c.attempt.event);
    match c.pc
    case PreconditionAt(k) => k < m.preconditions && c.change == c.attempt && c.trace == Preconditions(c.attempt, k)
    case SelectAt(k) =>
      && c.change == c.attempt && Eligible(m, c.attempt, k) && rows[k].guarded
      && c.trace == Preconditions(c.attempt, m.preconditions) + Declined(m, c.attempt, k)
    case RowCheckAt(k) => Picked(m, c) && k < c.row.checks && c.trace == Routing(m, c.attempt, c.pick) + RowChecks(c.change, k)
    case InvariantAt(k) =>
      && Picked(m, c) && k < m.invariants
      && c.trace == Routing(m, c.attempt, c.pick) + RowChecks(c.change, c.row.checks) + Invariants(c.change, k)
    case PostconditionAt(k) =>
      && Picked(m, c) && !c.row.external && k < m.postconditions
      && c.trace == Checked(m, c.attempt, c.pick) + Postconditions(c.change, k)
    case CommitAt => Picked(m, c) && !c.row.external && c.trace == Logical(m, c.attempt, c.pick)
    case PrepareAt => Picked(m, c) && c.row.external && c.trace == Checked(m, c.attempt, c.pick)
    case DeliverAt => Picked(m, c) && c.row.external && c.trace == Checked(m, c.attempt, c.pick)
    case IssueAt => Picked(m, c) && c.row.external && c.trace == Checked(m, c.attempt, c.pick) + [Mark(DeliverAt, c.change, true)]
    case AwaitAt => Picked(m, c) && c.row.external && c.trace == Issued(m, c.attempt, c.pick)
    case FinishAt => c.change == c.attempt && AllDeclined(m, c.attempt, c.trace)
    case FailAt(change, _, _) => FailsOwn(c) && c.change.Identifier() == c.attempt.Identifier()
    case _ => false
  }

  ghost predicate FaithfulVerify(m: Machine, c: Call)
    requires c.pick < |m.RowsFor(c.attempt.from, c.attempt.event)|
  {
    match c.pc
    case VerifyAt => c.trace == Issued(m, c.attempt, c.pick)
    case InvariantAt(k) =>
      && k < m.invariants
      && c.trace == Issued(m, c.attempt, c.pick) + [Mark(VerifyAt, c.change, true)] + Invariants(c.change, k)
    case PostconditionAt(k) => k < m.postconditions && c.trace == Verified(m, c.attempt, c.pick) + Postconditions(c.change, k)
    case CommitAt => c.trace == External(m, c.attempt, c.pick)
    case _ => false
  }

  // ------------------------------------------------------ preservation

  lemma ToReconcileFaithful(m: Machine, c: Call, k: nat)
    requires (c.kind.StartCall? || c.kind.AdjudicateCall?) && k <= m.reconcilers && c.trace == Reconciled(c.change, k)
    ensures Faithful(m, ToReconcile(m, c, k))
  {
  }

  lemma ToPostconditionFaithful(m: Machine, c: Call, k: nat)
    requires k <= m.postconditions && Picked(m, c)
    requires c.kind.IssueCall? || (c.kind.VerifyCall? && c.row.external && c.admittedAt < c.deadline)
    requires c.kind.IssueCall? ==> !c.row.external && c.trace == Checked(m, c.attempt, c.pick) + Postconditions(c.change, k)
    requires c.kind.VerifyCall? ==> c.trace == Verified(m, c.attempt, c.pick) + Postconditions(c.change, k)
    ensures Faithful(m, ToPostcondition(m, c, k))
  {
  }

  lemma ToInvariantFaithful(m: Machine, c: Call, k: nat)
    requires k <= m.invariants && Picked(m, c)
    requires c.kind.IssueCall? || (c.kind.VerifyCall? && c.row.external && c.admittedAt < c.deadline)
    requires c.kind.IssueCall? ==>
      c.trace == Routing(m, c.attempt, c.pick) + RowChecks(c.change, c.row.checks) + Invariants(c.change, k)
    requires c.kind.VerifyCall? ==>
      c.trace == Issued(m, c.attempt, c.pick) + [Mark(VerifyAt, c.change, true)] + Invariants(c.change, k)
    ensures Faithful(m, ToInvariant(m, c, k))
  {
    if k == m.invariants && !(c.kind.IssueCall? && c.row.external) {
      assert c.trace == c.trace + Postconditions(c.change, 0);
      ToPostconditionFaithful(m, c, 0);
    }
  }

  lemma ToRowCheckFaithful(m: Machine, c: Call, k: nat)
    requires c.kind.IssueCall? && Picked(m, c) && k <= c.row.checks
    requires c.trace == Routing(m, c.attempt, c.pick) + RowChecks(c.change, k)
    ensures Faithful(m, ToRowCheck(m, c, k))
  {
    if k == c.row.checks {
      assert c.trace == c.trace + Invariants(c.change, 0);
      ToInvariantFaithful(m, c, 0);
    }
  }

  lemma ChosenFaithful(m: Machine, c: Call, k: nat)
    requires c.kind.IssueCall? && c.attempt == Unselected(c.attempt) && Eligible(m, c.attempt, k)
    requires c.trace == Routing(m, c.attempt, k)
    ensures Faithful(m, Chosen(m, c, k, m.RowsFor(c.attempt.from, c.attempt.event)[k]))
  {
    var row := m.RowsFor(c.attempt.from, c.attempt.event)[k];
    assert c.trace == c.trace + RowChecks(Candidate(c.attempt, row), 0);
    ToRowCheckFaithful(m, c.(pick := k, row := row, change := Candidate(c.attempt, row)), 0);
  }

  lemma ToSelectFaithful(m: Machine, c: Call, k: nat)
    requires c.kind.IssueCall? && c.change == c.attempt == Unselected(c.attempt)
    requires k <= |m.RowsFor(c.attempt.from, c.attempt.event)|
    requires forall i | 0 <= i < k :: m.RowsFor(c.attempt.from, c.attempt.event)[i].guarded
    requires c.trace == Preconditions(c.attempt, m.preconditions) + Declined(m, c.attempt, k)
    ensures Faithful(m, ToSelect(m, c, k))
  {
    var rows := m.RowsFor(c.attempt.from, c.attempt.event);
    if k < |rows| && !rows[k].guarded {
      assert c.trace == Routing(m, c.attempt, k);
      ChosenFaithful(m, c, k);
    }
  }

  lemma ToPreconditionFaithful(m: Machine, c: Call, k: nat)
    requires c.kind.IssueCall? && c.change == c.attempt == Unselected(c.attempt)
    requires k <= m.preconditions && c.trace == Preconditions(c.attempt, k)
    ensures Faithful(m, ToPrecondition(m, c, k))
  {
    if k == m.preconditions {
      assert c.trace == c.trace + Declined(m, c.attempt, 0);
      ToSelectFaithful(m, c, 0);
    }
  }

  /** A callback that returned nil takes the call to the next required check. */
  lemma OnPassFaithful(m: Machine, c: Call)
    requires Faithful(m, c) && (Invokable(c.pc) || c.pc.DeliverAt?)
    ensures Faithful(m, OnPass(m, c))
  {
    if c.pc.ReconcileAt? {
      ReconcilePasses(m, c);
    } else if c.pc.PreconditionAt? || c.pc.SelectAt? || c.pc.RowCheckAt? {
      RoutingPasses(m, c);
    } else {
      ChecksPass(m, c);
    }
  }

  lemma ReconcilePasses(m: Machine, c: Call)
    requires Faithful(m, c) && c.pc.ReconcileAt?
    ensures Faithful(m, OnPass(m, c))
  {
    hide ToReconcile;
    var mark := Mark(c.pc, ChangeAt(m, c), true);
    var d := c.(waiting := None, inbox := None, trace := c.trace + [mark]);
    assert Reconciled(c.change, c.pc.k + 1) == Reconciled(c.change, c.pc.k) + [mark];
    ToReconcileFaithful(m, d, c.pc.k + 1);
  }

  lemma RoutingPasses(m: Machine, c: Call)
    requires Faithful(m, c) && (c.pc.PreconditionAt? || c.pc.SelectAt? || c.pc.RowCheckAt?)
    ensures Faithful(m, OnPass(m, c))
  {
    hide ToRowCheck, Chosen, ToPrecondition;
    var mark := Mark(c.pc, ChangeAt(m, c), true);
    var d := c.(waiting := None, inbox := None, trace := c.trace + [mark]);
    match c.pc
    case PreconditionAt(k) =>
      assert Preconditions(c.attempt, k + 1) == Preconditions(c.attempt, k) + [mark];
      ToPreconditionFaithful(m, d, k + 1);
    case SelectAt(k) =>
      assert d.trace == Routing(m, c.attempt, k);
      ChosenFaithful(m, d, k);
    case RowCheckAt(k) =>
      assert RowChecks(c.change, k + 1) == RowChecks(c.change, k) + [mark];
      assert d.trace == Routing(m, c.attempt, c.pick) + RowChecks(c.change, k + 1);
      ToRowCheckFaithful(m, d, k + 1);
  }

  lemma ChecksPass(m: Machine, c: Call)
    requires Faithful(m, c) && (Invokable(c.pc) || c.pc.DeliverAt?)
      && !(c.pc.ReconcileAt? || c.pc.PreconditionAt? || c.pc.SelectAt? || c.pc.RowCheckAt?)
    ensures Faithful(m, OnPass(m, c))
  {
    var mark := Mark(c.pc, ChangeAt(m, c), true);
    var d := c.(waiting := None, inbox := None, trace := c.trace + [mark]);
    match c.pc
    case InvariantAt(k) =>
      assert Invariants(c.change, k + 1) == Invariants(c.change, k) + [mark];
      InvariantExtends(m, d, k + 1);
    case PostconditionAt(k) =>
      assert Postconditions(c.change, k + 1) == Postconditions(c.change, k) + [mark];
      PostconditionExtends(m, d, k + 1);
    case VerifyAt =>
      assert d.trace == d.trace + Invariants(c.change, 0);
      ToInvariantFaithful(m, d, 0);
    case _ =>
  }

  lemma InvariantExtends(m: Machine, d: Call, k: nat)
    requires k <= m.invariants && Picked(m, d)
    requires d.kind.IssueCall? || (d.kind.VerifyCall? && d.row.external && d.admittedAt < d.deadline)
    requires k > 0 && Invariants(d.change, k) == Invariants(d.change, k - 1) + [Mark(InvariantAt(k - 1), d.change, true)]
    requires d.kind.IssueCall? ==>
      d.trace == Routing(m, d.attempt, d.pick) + RowChecks(d.change, d.row.checks) + Invariants(d.change, k - 1) + [Mark(InvariantAt(k - 1), d.change, true)]
    requires d.kind.VerifyCall? ==>
      d.trace == Issued(m, d.attempt, d.pick) + [Mark(VerifyAt, d.change, true)] + Invariants(d.change, k - 1) + [Mark(InvariantAt(k - 1), d.change, true)]
    ensures Faithful(m, ToInvariant(m, d, k))
  {
    if d.kind.IssueCall? {
      assert d.trace == Routing(m, d.attempt, d.pick) + RowChecks(d.change, d.row.checks) + Invariants(d.change, k);
    } else {
      assert d.trace == Issued(m, d.attempt, d.pick) + [Mark(VerifyAt, d.change, true)] + Invariants(d.change, k);
    }
    ToInvariantFaithful(m, d, k);
  }

  lemma PostconditionExtends(m: Machine, d: Call, k: nat)
    requires k <= m.postconditions && Picked(m, d)
    requires d.kind.IssueCall? || (d.kind.VerifyCall? && d.row.external && d.admittedAt < d.deadline)
    requires k > 0 && Postconditions(d.change, k) == Postconditions(d.change, k - 1) + [Mark(PostconditionAt(k - 1), d.change, true)]
    requires d.kind.IssueCall? ==> !d.row.external
    requires d.kind.IssueCall? ==>
      d.trace == Checked(m, d.attempt, d.pick) + Postconditions(d.change, k - 1) + [Mark(PostconditionAt(k - 1), d.change, true)]
    requires d.kind.VerifyCall? ==>
      d.trace == Verified(m, d.attempt, d.pick) + Postconditions(d.change, k - 1) + [Mark(PostconditionAt(k - 1), d.change, true)]
    ensures Faithful(m, ToPostcondition(m, d, k))
  {
    if d.kind.IssueCall? {
      assert d.trace == Checked(m, d.attempt, d.pick) + Postconditions(d.change, k);
    } else {
      assert d.trace == Verified(m, d.attempt, d.pick) + Postconditions(d.change, k);
    }
    ToPostconditionFaithful(m, d, k);
  }

  lemma DeclineFaithful(m: Machine, c: Call)
    requires Faithful(m, c) && c.pc.SelectAt? && c.kind.IssueCall?
    ensures Faithful(m, OnFail(m, c, true))
  {
    hide Faithful, ToSelect, Preconditions;
    var k := c.pc.k;
    var mark := Mark(c.pc, ChangeAt(m, c), false);
    SelectsFrom(m, c);
    assert Declined(m, c.attempt, k + 1) == Declined(m, c.attempt, k) + [mark];
    var d := c.(waiting := None, inbox := None, trace := c.trace + [mark], overtaken := c.overtaken || c.cancelled);
    assert d.trace == Preconditions(c.attempt, m.preconditions) + Declined(m, c.attempt, k + 1);
    ToSelectFaithful(m, d, k + 1);
  }

  /** A call asking a guard has asked every earlier one. */
  lemma SelectsFrom(m: Machine, c: Call)
    requires Faithful(m, c) && c.pc.SelectAt? && c.kind.IssueCall?
    ensures c.change == c.attempt == Unselected(c.attempt) && Eligible(m, c.attempt, c.pc.k)
    ensures m.RowsFor(c.attempt.from, c.attempt.event)[c.pc.k].guarded
    ensures c.trace == Preconditions(c.attempt, m.preconditions) + Declined(m, c.attempt, c.pc.k)
  {
    hide Preconditions, Declined, Eligible;
  }

  /** A failure either declines a guard or stops the call for good. */
  lemma OnFailFaithful(m: Machine, c: Call, completed: bool)
    requires Faithful(m, c) && (Invokable(c.pc) || c.pc.DeliverAt? || c.pc.PrepareAt?)
    ensures Faithful(m, OnFail(m, c, completed))
  {
    hide ToSelect, Preconditions, Declined, Reconciled, Routing, Checked, Issued, Verified, RowChecks, Invariants, Postconditions, AllDeclined, Eligible;
    if c.pc.SelectAt? && c.kind.IssueCall? && completed { DeclineFaithful(m, c); }
  }

  lemma OnContextFailureFaithful(m: Machine, c: Call)
    requires Faithful(m, c) && (c.pc.AwaitAt? || c.pc.CommitAt? || c.pc.FinishAt? || c.pc.ResolveAt?)
    ensures Faithful(m, OnContextFailure(c))
  {
  }

  /** A call that reached its commit has the complete trace behind it. */
  lemma CommitJustified(m: Machine, c: Call)
    requires Faithful(m, c) && c.pc.CommitAt?
    ensures Justified(m, CommitRecord(c.change, c.pick, c.row, c.trace, c.admittedAt, c.deadline))
    ensures c.row.external == c.kind.VerifyCall?
  {
  }
}
