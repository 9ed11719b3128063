/**
 One reconciliation pass (backend/src/application/reconcile-workflows.ts) with the
 store to itself. The payment tables and the membership tables are two stores;
 what the gateway or the verifier answers about a transaction is a parameter.
 */
module Reconciler {
  import opened Wrappers
  import opened MembershipContract
  import opened Chain
  import opened Registry
  import opened Tables
  import opened LibsqlStore

  /** A call that throws is logged and its workflow left as it is. */
  datatype Answer = Accepted | Refused | Undecided | Failed

  datatype Pass = Pass(now: int, staleWorkflowMs: int, answer: (TxId, Prepared) -> Answer)

  datatype Verdict = Confirmed | Rejected | Retried | Abandoned | Skipped

  datatype Totals = Totals(scanned: nat, confirmed: nat, rejected: nat, retried: nat, abandoned: nat)

  class Summary {
    var scanned: nat
    var confirmed: nat
    var rejected: nat
    var retried: nat
    var abandoned: nat

    constructor ()
      ensures All() == Totals(0, 0, 0, 0, 0)
    {
      scanned, confirmed, rejected, retried, abandoned := 0, 0, 0, 0, 0;
    }

    function All(): Totals
      reads this
    {
      Totals(scanned, confirmed, rejected, retried, abandoned)
    }
  }

  // ----- what a pass does to one workflow -------------------------------------

  function Age(w: Workflow, now: int): int {
    now - if w.submittedAt.Some? then w.submittedAt.value else now
  }

  /** What is to become of a workflow, were its claim to succeed. */
  function Intended(t: Tables, id: Id, w: Workflow, pass: Pass): Verdict {
    match GetPrepared(t, id, pass.now)
    case None => Abandoned
    case Some(p) =>
      match pass.answer(w.transactionId, p)
      case Accepted => Confirmed
      case Refused => Rejected
      case Undecided => if Age(w, pass.now) > pass.staleWorkflowMs then Abandoned else Retried
      case Failed => Skipped
  }

  function VerdictOf(t: Tables, id: Id, w: Workflow, pass: Pass): Verdict {
    var intended := Intended(t, id, w, pass);
    if intended in {Retried, Skipped} || Claimable(t, id) then intended else Skipped
  }

  function Settled(t: Tables, id: Id, w: Workflow, pass: Pass): Tables {
    match VerdictOf(t, id, w, pass)
    case Confirmed =>
      var claimed := Claim(t, id, CONFIRMED, pass.now, None);
      DeleteWorkflow(Finalize(claimed, id, t.prepared[id], w.transactionId).0, id)
    case Rejected => DeleteWorkflow(t, id)
    case Abandoned => DeleteWorkflow(t, id)
    case _ => t
  }

  function Add(s: Totals, v: Verdict): Totals {
    var t := s.(scanned := s.scanned + 1);
    match v
    case Confirmed => t.(confirmed := t.confirmed + 1)
    case Rejected => t.(rejected := t.rejected + 1)
    case Retried => t.(retried := t.retried + 1)
    case Abandoned => t.(abandoned := t.abandoned + 1)
    case Skipped => t
  }

  // ----- a whole pass ---------------------------------------------------------

  ghost predicate AreWorkflows(t: Tables, ids: seq<Id>) {
    forall i :: 0 <= i < |ids| ==> ids[i] in t.workflows
  }

  /** The tables after settling the ids in order, each as it was read from `start`. */
  ghost function SettledAll(start: Tables, ids: seq<Id>, pass: Pass): Tables
    requires AreWorkflows(start, ids)
  {
    if ids == [] then start
    else
      var n := |ids| - 1;
      assert AreWorkflows(start, ids[..n]);
      Settled(SettledAll(start, ids[..n], pass), ids[n], start.workflows[ids[n]], pass)
  }

  /** Each workflow judged by the tables the pass began with. */
  ghost function TotalsAfter(s: Totals, start: Tables, ids: seq<Id>, pass: Pass): Totals
    requires AreWorkflows(start, ids)
  {
    if ids == [] then s
    else
      var n := |ids| - 1;
      assert AreWorkflows(start, ids[..n]);
      Add(TotalsAfter(s, start, ids[..n], pass), VerdictOf(start, ids[n], start.workflows[ids[n]], pass))
  }

  class WorkflowReconciler {
    const batchSize: nat
    const staleWorkflowMs: int

    constructor (batchSize: nat, staleWorkflowMs: int)
      ensures this.batchSize == batchSize && this.staleWorkflowMs == staleWorkflowMs
    {
      this.batchSize, this.staleWorkflowMs := batchSize, staleWorkflowMs;
    }

    /** Payments first, then memberships. */
    method Run(payments: Store, memberships: Store, now: int, answer: (TxId, Prepared) -> Answer) returns (summary: Summary)
      requires payments != memberships
      modifies payments, memberships
      ensures fresh(summary)
      ensures var pass := Pass(now, staleWorkflowMs, answer);
              var p, m := old(payments.Contents()), old(memberships.Contents());
              && AreWorkflows(p, PendingIds(p, batchSize)) && AreWorkflows(m, PendingIds(m, batchSize))
              && payments.Contents() == SettledAll(p, PendingIds(p, batchSize), pass)
              && memberships.Contents() == SettledAll(m, PendingIds(m, batchSize), pass)
              && summary.All() ==
                 TotalsAfter(TotalsAfter(Totals(0, 0, 0, 0, 0), p, PendingIds(p, batchSize), pass), m, PendingIds(m, batchSize), pass)
    {
      summary := new Summary();
      var pass := Pass(now, staleWorkflowMs, answer);
      ReconcileAll(payments, pass, summary);
      ReconcileAll(memberships, pass, summary);
    }

    method ReconcileAll(store: Store, pass: Pass, summary: Summary)
      modifies store, summary
      ensures var start := old(store.Contents());
              var ids := PendingIds(start, batchSize);
              && AreWorkflows(start, ids)
              && store.Contents() == SettledAll(start, ids, pass)
              && summary.All() == TotalsAfter(old(summary.All()), start, ids, pass)
    {
      ghost var start := store.Contents();
      ghost var ids := PendingIds(start, batchSize);
      PendingAreDistinct(start, batchSize);
      var pending := store.Pending(batchSize);
      assert ids[..0] == [];
      for i := 0 to |pending|
        invariant store.Contents() == SettledAll(start, ids[..i], pass)
        invariant summary.All() == TotalsAfter(old(summary.All()), start, ids[..i], pass)
      {
        assert ids[..i + 1][..i] == ids[..i];
        JudgedAtStart(start, ids[..i], pass, ids[i]);
        summary.scanned := summary.scanned + 1;
        ReconcileOne(store, pending[i].0, pending[i].1, pass, summary);
      }
      assert ids[..|ids|] == ids;
    }

    method ReconcileOne(store: Store, id: Id, w: Workflow, pass: Pass, summary: Summary)
      requires summary.scanned > 0
      modifies store, summary
      ensures store.Contents() == Settled(old(store.Contents()), id, w, pass)
      ensures summary.All() == Add(old(summary.All()).(scanned := old(summary.scanned) - 1),
                                   VerdictOf(old(store.Contents()), id, w, pass))
    {
      var prepared := store.Prepared(id, pass.now);
      if prepared.None? {
        Abandon(store, id, pass, "prepared_missing", summary);
        return;
      }
      match pass.answer(w.transactionId, prepared.value) {
        case Undecided =>
          if Age(w, pass.now) > pass.staleWorkflowMs {
            Abandon(store, id, pass, "unconfirmed_timeout", summary);
          } else {
            summary.retried := summary.retried + 1;
          }
        case Refused =>
          var claimed := store.ClaimTerminal(id, REJECTED, pass.now, Some("RECONCILED_REJECTED"));
          if claimed.Some? {
            store.RemoveWorkflow(id);
            summary.rejected := summary.rejected + 1;
          }
        case Accepted =>
          var claimed := store.ClaimTerminal(id, CONFIRMED, pass.now, None);
          if claimed.Some? {
            var outcome := store.FinalizeRecord(id, prepared.value, w.transactionId);
            store.RemoveWorkflow(id);
            summary.confirmed := summary.confirmed + 1;
          }
        case Failed =>
      }
    }

    method Abandon(store: Store, id: Id, pass: Pass, reason: string, summary: Summary)
      modifies store, summary
      ensures store.Contents() == if Claimable(old(store.Contents()), id) then DeleteWorkflow(old(store.Contents()), id) else old(store.Contents())
      ensures summary.All() == old(summary.All()).(abandoned :=
                old(summary.abandoned) + if Claimable(old(store.Contents()), id) then 1 else 0)
    {
      var claimed := store.ClaimTerminal(id, REJECTED, pass.now, Some(reason));
      if claimed.Some? {
        store.RemoveWorkflow(id);
        summary.abandoned := summary.abandoned + 1;
      }
    }
  }

  // ----- what a pass means ----------------------------------------------------

  lemma {:induction false} PendingAreDistinct(t: Tables, limit: nat)
    ensures AreWorkflows(t, PendingIds(t, limit))
    ensures forall i, j :: 0 <= i < j < |PendingIds(t, limit)| ==> PendingIds(t, limit)[i] != PendingIds(t, limit)[j]
  {
    FirstIdsAre(SubmittedIds(t), limit);
  }

  /** Settling one workflow leaves the prepared records and workflows of all others. */
  lemma {:induction false} SettlesOnlyItself(t: Tables, id: Id, w: Workflow, pass: Pass, other: Id)
    requires other != id
    ensures var u := Settled(t, id, w, pass);
            && (other in u.workflows <==> other in t.workflows)
            && (other in t.workflows ==> u.workflows[other] == t.workflows[other])
            && (other in u.prepared <==> other in t.prepared)
            && (other in t.prepared ==> u.prepared[other] == t.prepared[other])
  {
  }

  lemma {:induction false} OthersUntouched(start: Tables, ids: seq<Id>, pass: Pass, other: Id)
    requires AreWorkflows(start, ids) && other !in ids
    ensures var u := SettledAll(start, ids, pass);
            && (other in u.workflows <==> other in start.workflows)
            && (other in start.workflows ==> u.workflows[other] == start.workflows[other])
            && (other in u.prepared <==> other in start.prepared)
            && (other in start.prepared ==> u.prepared[other] == start.prepared[other])
  {
    if ids != [] {
      var n := |ids| - 1;
      assert AreWorkflows(start, ids[..n]);
      OthersUntouched(start, ids[..n], pass, other);
      SettlesOnlyItself(SettledAll(start, ids[..n], pass), ids[n], start.workflows[ids[n]], pass, other);
    }
  }

  /** What the pass decides about a workflow does not depend on those before it. */
  lemma {:induction false} JudgedAtStart(start: Tables, ids: seq<Id>, pass: Pass, id: Id)
    requires AreWorkflows(start, ids) && id !in ids && id in start.workflows
    ensures VerdictOf(SettledAll(start, ids, pass), id, start.workflows[id], pass) ==
            VerdictOf(start, id, start.workflows[id], pass)
  {
    OthersUntouched(start, ids, pass, id);
  }

  /** A scanned workflow is left, and left as it was, exactly when it was retried or skipped. */
  lemma {:induction false} LeftExactlyWhen(start: Tables, ids: seq<Id>, pass: Pass, k: nat)
    requires AreWorkflows(start, ids) && k < |ids|
    requires forall i, j :: 0 <= i < j < |ids| ==> ids[i] != ids[j]
    ensures var u, id := SettledAll(start, ids, pass), ids[k];
            && (id in u.workflows <==> VerdictOf(start, id, start.workflows[id], pass) in {Retried, Skipped})
            && (id in u.workflows ==> u.workflows[id] == start.workflows[id])
  {
    var n := |ids| - 1;
    var front := ids[..n];
    assert AreWorkflows(start, front);
    var before := SettledAll(start, front, pass);
    if k < n {
      LeftExactlyWhen(start, front, pass, k);
      SettlesOnlyItself(before, ids[n], start.workflows[ids[n]], pass, ids[k]);
    } else {
      OthersUntouched(start, front, pass, ids[n]);
      JudgedAtStart(start, front, pass, ids[n]);
    }
  }

  /** How many of the workflows a pass neither settles nor counts. */
  ghost function SkippedIn(start: Tables, ids: seq<Id>, pass: Pass): nat
    requires AreWorkflows(start, ids)
  {
    if ids == [] then 0
    else
      var n := |ids| - 1;
      assert AreWorkflows(start, ids[..n]);
      SkippedIn(start, ids[..n], pass) + (if VerdictOf(start, ids[n], start.workflows[ids[n]], pass) == Skipped then 1 else 0)
  }

  function Settlements(t: Totals): nat {
    t.confirmed + t.rejected + t.retried + t.abandoned
  }

  lemma {:induction false} EveryWorkflowCounts(s: Totals, start: Tables, ids: seq<Id>, pass: Pass)
    requires AreWorkflows(start, ids)
    ensures var t := TotalsAfter(s, start, ids, pass);
            && t.scanned == s.scanned + |ids|
            && Settlements(t) + SkippedIn(start, ids, pass) == Settlements(s) + |ids|
    ensures SkippedIn(start, ids, pass) == 0 <==>
            forall i :: 0 <= i < |ids| ==> VerdictOf(start, ids[i], start.workflows[ids[i]], pass) != Skipped
  {
    if ids != [] {
      var n := |ids| - 1;
      assert AreWorkflows(start, ids[..n]);
      EveryWorkflowCounts(s, start, ids[..n], pass);
    }
  }

  /** No call about the workflow throws, and its row is not already claimed. */
  predicate Undisturbed(t: Tables, id: Id, w: Workflow, pass: Pass) {
    && (GetPrepared(t, id, pass.now).Some? ==> pass.answer(w.transactionId, t.prepared[id]) != Failed)
    && (Claimable(t, id) || Intended(t, id, w, pass) == Retried)
  }

  lemma {:induction false} UndisturbedIsSettled(t: Tables, id: Id, w: Workflow, pass: Pass)
    ensures VerdictOf(t, id, w, pass) != Skipped <==> Undisturbed(t, id, w, pass)
    ensures VerdictOf(t, id, w, pass) == Retried <==> AwaitsChain(t, id, w, pass)
  {
  }

  /** The prepared record is unexpired, the chain is undecided and the workflow is not stale. */
  predicate AwaitsChain(t: Tables, id: Id, w: Workflow, pass: Pass) {
    && GetPrepared(t, id, pass.now).Some?
    && pass.answer(w.transactionId, t.prepared[id]) == Undecided
    && Age(w, pass.now) <= pass.staleWorkflowMs
  }

  /**
   The counters of a pass add up, scanned being the sum of the rest, exactly when
   no call failed and no scanned row had its claim taken.
   */
  lemma {:induction false} PassAccounts(start: Tables, limit: nat, pass: Pass)
    ensures AreWorkflows(start, PendingIds(start, limit))
    ensures var ids := PendingIds(start, limit);
            var t := TotalsAfter(Totals(0, 0, 0, 0, 0), start, ids, pass);
            && t.scanned == |ids|
            && (t.scanned == Settlements(t) <==>
                forall i :: 0 <= i < |ids| ==> Undisturbed(start, ids[i], start.workflows[ids[i]], pass))
  {
    var ids := PendingIds(start, limit);
    PendingAreDistinct(start, limit);
    EveryWorkflowCounts(Totals(0, 0, 0, 0, 0), start, ids, pass);
    forall i | 0 <= i < |ids|
      ensures VerdictOf(start, ids[i], start.workflows[ids[i]], pass) != Skipped <==>
              Undisturbed(start, ids[i], start.workflows[ids[i]], pass)
    {
      UndisturbedIsSettled(start, ids[i], start.workflows[ids[i]], pass);
    }
  }

  /**
   Of the scanned workflows whose calls did not fail and whose claims were not
   taken, exactly those still waiting for the chain are left when the pass ends.
   */
  lemma {:induction false} OnlyWaitingIsLeft(start: Tables, limit: nat, pass: Pass, k: nat)
    requires k < |PendingIds(start, limit)|
    ensures AreWorkflows(start, PendingIds(start, limit))
    ensures var ids := PendingIds(start, limit);
            var id, w := ids[k], start.workflows[ids[k]];
            Undisturbed(start, id, w, pass) ==>
              (id in SettledAll(start, ids, pass).workflows <==> AwaitsChain(start, id, w, pass))
  {
    var ids := PendingIds(start, limit);
    PendingAreDistinct(start, limit);
    LeftExactlyWhen(start, ids, pass, k);
    UndisturbedIsSettled(start, ids[k], start.workflows[ids[k]], pass);
  }

  /**
   With an unexpired record and a chain that does not decide, a submitted workflow is
   left exactly as long as it is no older than the bound. One that was never marked
   as submitted counts as new.
   */
  lemma {:induction false} UndecidedIsLeftUntilStale(start: Tables, limit: nat, pass: Pass, k: nat)
    requires k < |PendingIds(start, limit)|
    requires var id := PendingIds(start, limit)[k];
             && id in start.prepared && start.prepared[id].expiresAt > pass.now && Claimable(start, id)
             && pass.answer(start.workflows[id].transactionId, start.prepared[id]) == Undecided
    ensures AreWorkflows(start, PendingIds(start, limit))
    ensures var ids := PendingIds(start, limit);
            var w, isLeft := start.workflows[ids[k]], ids[k] in SettledAll(start, ids, pass).workflows;
            && (forall t :: w.submittedAt == Some(t) ==> (isLeft <==> pass.now - t <= pass.staleWorkflowMs))
            && (w.submittedAt.None? ==> (isLeft <==> 0 <= pass.staleWorkflowMs))
  {
    OnlyWaitingIsLeft(start, limit, pass, k);
  }

  /** A pass takes no purchase away. */
  lemma {:induction false} PurchasesGrow(start: Tables, ids: seq<Id>, pass: Pass)
    requires AreWorkflows(start, ids)
    ensures start.purchases <= SettledAll(start, ids, pass).purchases
  {
    if ids != [] {
      var n := |ids| - 1;
      assert AreWorkflows(start, ids[..n]);
      PurchasesGrow(start, ids[..n], pass);
    }
  }

  /** The row is there, or one the table would not hold beside it. */
  predicate Recorded(t: Tables, row: Purchase) {
    row in t.purchases || Taken(t, row)
  }

  /** A confirmed purchase is on record when the pass ends. */
  lemma {:induction false} ConfirmedIsRecorded(start: Tables, ids: seq<Id>, pass: Pass, k: nat)
    requires AreWorkflows(start, ids) && k < |ids|
    requires forall i, j :: 0 <= i < j < |ids| ==> ids[i] != ids[j]
    requires VerdictOf(start, ids[k], start.workflows[ids[k]], pass) == Confirmed
    requires start.prepared[ids[k]].item.Post? || start.prepared[ids[k]].item.Membership?
    ensures var p, w := start.prepared[ids[k]], start.workflows[ids[k]];
            exists held ::
              && held in SettledAll(start, ids, pass).purchases && (held.item.Post? <==> p.item.Post?)
              && (held.transactionId == w.transactionId || (p.item.Post? && held.item == p.item && held.buyer == p.buyer))
  {
    ConfirmedStays(start, ids, pass, k);
    var t, row := SettledAll(start, ids, pass), Purchase(start.prepared[ids[k]].item, start.prepared[ids[k]].buyer, start.workflows[ids[k]].transactionId);
    var held :| held in t.purchases && (held == row || Conflicts(row, held));
  }

  lemma {:induction false} ConfirmedStays(start: Tables, ids: seq<Id>, pass: Pass, k: nat)
    requires AreWorkflows(start, ids) && k < |ids|
    requires forall i, j :: 0 <= i < j < |ids| ==> ids[i] != ids[j]
    requires VerdictOf(start, ids[k], start.workflows[ids[k]], pass) == Confirmed
    requires start.prepared[ids[k]].item.Post? || start.prepared[ids[k]].item.Membership?
    ensures var p := start.prepared[ids[k]];
            Recorded(SettledAll(start, ids, pass), Purchase(p.item, p.buyer, start.workflows[ids[k]].transactionId))
  {
    var n := |ids| - 1;
    var front, id := ids[..n], ids[k];
    assert AreWorkflows(start, front);
    var before := SettledAll(start, front, pass);
    var row := Purchase(start.prepared[id].item, start.prepared[id].buyer, start.workflows[id].transactionId);
    if k < n {
      ConfirmedStays(start, front, pass, k);
      var after := Settled(before, ids[n], start.workflows[ids[n]], pass);
      assert before.purchases <= after.purchases;
      StaysRecorded(before, after, row);
    } else {
      JudgedAtStart(start, front, pass, id);
      OthersUntouched(start, front, pass, id);
      InsertRecords(before, row);
    }
  }

  lemma {:induction false} StaysRecorded(t: Tables, u: Tables, row: Purchase)
    requires t.purchases <= u.purchases && Recorded(t, row)
    ensures Recorded(u, row)
  {
  }

  lemma {:induction false} InsertRecords(t: Tables, row: Purchase)
    ensures Recorded(Insert(t, row).0, row)
  {
  }

  /**
   The prepared record is read with its expiry, so a payment the chain accepted
   is recorded by the pass exactly when its record is still there and unexpired.
   Otherwise its workflow is deleted and it buys nothing.
   */
  lemma {:induction false} AcceptedIsRecordedUnlessExpired(t: Tables, id: Id, w: Workflow, pass: Pass, p: Prepared)
    requires Claimable(t, id) && (id in t.prepared ==> t.prepared[id] == p)
    requires pass.answer(w.transactionId, p) == Accepted && (p.item.Post? || p.item.Membership?)
    requires !Recorded(t, Purchase(p.item, p.buyer, w.transactionId))
    ensures var u, row := Settled(t, id, w, pass), Purchase(p.item, p.buyer, w.transactionId);
            && id !in u.workflows
            && (Recorded(u, row) <==> id in t.prepared && p.expiresAt > pass.now)
            && (!Recorded(u, row) ==> u.purchases == t.purchases)
  {
    var row := Purchase(p.item, p.buyer, w.transactionId);
    InsertRecords(Claim(t, id, CONFIRMED, pass.now, None), row);
  }
}
