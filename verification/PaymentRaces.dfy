/**
 How a prepared record leaves the store while handlers and reconcilers
 interleave, and the interleaving that loses an accepted payment.
 */
module PaymentRaces {
  import opened Wrappers
  import opened MembershipContract
  import opened Chain
  import opened Registry
  import opened Tables
  import opened Protocol
  import opened ProtocolProofs
  import opened RegistryRuns
  import opened RegistryRaces

  // ----- how a record leaves --------------------------------------------------

  /** Some handler is about to delete the record, having been told its transaction was refused. */
  predicate AboutToDrop(a: System, id: Id) {
    exists pid :: pid in a.processes && a.processes[pid] == DroppingPrepared(id)
  }

  /** The record was finalized: what it buys is held, unless the post is gone. */
  predicate Settled(s: Shared, p: Prepared) {
    p in s.reported && (BuysARow(p) ==> HasPurchase(s.tables, p.item, p.buyer) || IsDeleted(s, p.item))
  }

  lemma {:induction false} FinalizeSettles(s: Shared, id: Id, p: Prepared, transactionId: TxId, other: Id)
    requires SharedInv(s) && Issued(s, id, p, transactionId) && transactionId in s.accepted
    requires other in s.tables.prepared
    ensures var t := WithFinalized(s, id, p, transactionId);
            if other in t.tables.prepared then t.tables.prepared[other] == s.tables.prepared[other]
            else Settled(t, s.tables.prepared[other])
  {
    FinalizeKeeps(s, id, p, transactionId);
    FinalizedPlaces(s, id, p, transactionId);
  }

  lemma {:induction false} MoveLeaves(s: Shared, process: Process, t: Shared, next: Option<Process>, id: Id)
    requires SharedInv(s) && Knows(s, process) && ProcessStep(s, process, t, next) && id in s.tables.prepared
    ensures
      || (id in t.tables.prepared && t.tables.prepared[id] == s.tables.prepared[id])
      || Settled(t, s.tables.prepared[id]) || process == DroppingPrepared(id)
  {
    if process.Finalizing? {
      FinalizeSettles(s, process.id, process.p, process.transactionId, id);
    } else if AboutToFinalize(process).Some? {
      FinalizeSettles(s, process.queue[0].id, process.phase.p, process.queue[0].workflow.transactionId, id);
    } else if process != DroppingPrepared(id) {
      OthersKeepRecords(s, process, t, next, id);
    }
  }

  lemma {:induction false} OthersKeepRecords(s: Shared, process: Process, t: Shared, next: Option<Process>, id: Id)
    requires ProcessStep(s, process, t, next) && AboutToFinalize(process).None? && process != DroppingPrepared(id)
    requires id in s.tables.prepared
    ensures id in t.tables.prepared && t.tables.prepared[id] == s.tables.prepared[id]
  {
  }

  lemma {:induction false} WorldLeaves(s: Shared, t: Shared, id: Id)
    requires SharedInv(s) && WorldStep(s, t) && id in s.tables.prepared
    ensures
      || (id in t.tables.prepared && t.tables.prepared[id] == s.tables.prepared[id])
      || s.tables.prepared[id].expiresAt <= s.now
  {
  }

  /**
   A step takes a record from the store only by finalizing it, because it has
   expired, or by a handler that was told the transaction was refused.
   */
  lemma {:induction false} RecordLeaves(a: System, b: System, id: Id)
    requires ProtocolProofs.Inv(a) && Step(a, b) && id in a.shared.tables.prepared
    ensures
      || (id in b.shared.tables.prepared && b.shared.tables.prepared[id] == a.shared.tables.prepared[id])
      || Settled(b.shared, a.shared.tables.prepared[id])
      || AboutToDrop(a, id) || a.shared.tables.prepared[id].expiresAt <= a.shared.now
  {
    if pid: Pid, next :| pid in a.processes && ProcessStep(a.shared, a.processes[pid], b.shared, next) &&
                         b.processes == Continue(a.processes, pid, next) {
      MoveLeaves(a.shared, a.processes[pid], b.shared, next, id);
    } else if b.processes == a.processes && WorldStep(a.shared, b.shared) {
      WorldLeaves(a.shared, b.shared, id);
    }
  }

  lemma {:induction false} SettledStays(a: System, b: System, p: Prepared)
    requires ProtocolProofs.Inv(a) && Step(a, b) && Settled(a.shared, p)
    ensures Settled(b.shared, p)
  {
    StepKeeps(a, b);
  }

  /** The record is still there to be finalized, or has been. */
  predicate NotLost(s: Shared, id: Id, p: Prepared) {
    (id in s.tables.prepared && s.tables.prepared[id] == p) || Settled(s, p)
  }

  lemma {:induction false} StepDoesNotLose(a: System, b: System, id: Id, p: Prepared)
    requires ProtocolProofs.Inv(a) && Step(a, b) && NotLost(a.shared, id, p)
    requires !AboutToDrop(a, id) && a.shared.now < p.expiresAt
    ensures NotLost(b.shared, id, p)
  {
    if Settled(a.shared, p) {
      SettledStays(a, b, p);
    } else {
      RecordLeaves(a, b, id);
    }
  }

  /** Nobody is about to drop the record from the n-th state to before the m-th, and it does not expire. */
  ghost predicate Undropped(run: seq<System>, n: nat, m: nat, id: Id, p: Prepared)
    requires n <= m < |run|
  {
    forall i :: n <= i < m ==> !AboutToDrop(run[i], id) && run[i].shared.now < p.expiresAt
  }

  /**
   In every interleaving: as long as no handler drops it and it has not expired,
   a prepared purchase is still there to be finalized, or the buyer has it.
   */
  lemma {:induction false} UndroppedIsNotLost(run: seq<System>, n: nat, m: nat, id: Id, p: Prepared)
    requires IsRun(run) && n <= m < |run| && Undropped(run, n, m, id, p) && NotLost(run[n].shared, id, p)
    ensures NotLost(run[m].shared, id, p)
    decreases m
  {
    if n < m {
      UndroppedBefore(run, n, m, id, p);
      UndroppedIsNotLost(run, n, m - 1, id, p);
      NextDoesNotLose(run, m, id, p);
    }
  }

  lemma {:induction false} UndroppedBefore(run: seq<System>, n: nat, m: nat, id: Id, p: Prepared)
    requires n < m < |run| && Undropped(run, n, m, id, p)
    ensures Undropped(run, n, m - 1, id, p) && !AboutToDrop(run[m - 1], id) && run[m - 1].shared.now < p.expiresAt
  {
  }

  lemma {:induction false} NextDoesNotLose(run: seq<System>, m: nat, id: Id, p: Prepared)
    requires IsRun(run) && 0 < m < |run| && NotLost(run[m - 1].shared, id, p)
    requires !AboutToDrop(run[m - 1], id) && run[m - 1].shared.now < p.expiresAt
    ensures NotLost(run[m].shared, id, p)
  {
    GoodStep(run, m);
    StepDoesNotLose(run[m - 1], run[m], id, p);
  }

  lemma {:induction false} GoodStep(run: seq<System>, m: nat)
    requires IsRun(run) && 0 < m < |run|
    ensures ProtocolProofs.Inv(run[m - 1]) && Step(run[m - 1], run[m])
  {
    RunKeeps(run, m - 1);
    RunSteps(run, m);
  }

  // ----- a refused second submission ------------------------------------------

  const PAID: TxId := 7

  function Purchasing(postId: nat, buyer: Key): Prepared {
    Prepared(Post(postId), buyer, PAID, 1)
  }

  /** The record is prepared, its transaction not yet accepted, and two handlers are about to submit it. */
  ghost predicate TwoSubmit(a: System, p: Prepared) {
    && a.shared == START.shared.(tables := NO_ROWS.(prepared := map[1 := p]), issued := map[1 := p])
    && a.processes == map[0 := Submitting(1, p), 1 := Submitting(1, p)]
  }

  lemma {:induction false} Moves(a: System, pid: Pid, t: Shared, next: Option<Process>) returns (b: System)
    requires pid in a.processes && ProcessStep(a.shared, a.processes[pid], t, next)
    ensures b == System(t, Continue(a.processes, pid, next)) && Later(a, b)
  {
    b := System(t, Continue(a.processes, pid, next));
    LaterStep(a, b);
  }

  lemma {:induction false} HandlerSubmits(a: System, pid: Pid, p: Prepared) returns (b: System)
    requires pid !in a.processes && GetPrepared(a.shared.tables, 1, a.shared.now) == Some(p) && p.item.Post?
    requires 1 !in a.shared.tables.workflows
    ensures Later(a, b) && b == System(a.shared, a.processes[pid := Submitting(1, p)])
  {
    var one := System(a.shared, a.processes[pid := Fetching(PaymentRoute, 1, p.buyer)]);
    assert IsFresh(Fetching(PaymentRoute, 1, p.buyer));
    LaterStep(a, one);
    var two := Moves(one, pid, a.shared, Some(Looking(1, p)));
    b := Moves(two, pid, a.shared, Some(Submitting(1, p)));
    LaterThen(a, one, two);
    LaterThen(a, two, b);
    assert b.processes == a.processes[pid := Submitting(1, p)];
  }

  lemma {:induction false} BothSubmit(p: Prepared) returns (a: System)
    requires p.item.Post? && p.expiresAt > 0
    ensures Later(START, a) && TwoSubmit(a, p)
  {
    var t := START.shared.(tables := NO_ROWS.(prepared := map[1 := p]), issued := map[1 := p]);
    var prepared := System(t, map[]);
    assert MayIssue(START.shared, 1, p) && WorldStep(START.shared, t);
    LaterStep(START, prepared);
    var one := HandlerSubmits(prepared, 0, p);
    a := HandlerSubmits(one, 1, p);
    LaterThen(START, prepared, one);
    LaterThen(START, one, a);
  }

  /** The first handler parks the transaction as submitted, and the chain accepts it. */
  lemma {:induction false} FirstParks(a: System, p: Prepared) returns (b: System)
    requires TwoSubmit(a, p)
    ensures Later(a, b) && p.template in b.shared.accepted && b.processes == map[1 := Submitting(1, p)]
    ensures b.shared.tables.prepared == map[1 := p] && b.shared.tables.purchases == {}
    ensures b.shared.tables.workflows.Keys == {1}
  {
    var one := Moves(a, 0, a.shared, Some(Parking(1, p, p.template)));
    var two := Moves(one, 0, WithSaved(a.shared, 1, SUBMITTED, p.template), None);
    var s := two.shared;
    b := System(s.(accepted := s.accepted + {p.template}, order := s.order + [p.template]), two.processes);
    assert WorldStep(s, b.shared);
    LaterStep(two, b);
    LaterThen(a, one, two);
    LaterThen(a, two, b);
  }

  /** The second handler is told its submission is refused, and deletes workflow and record. */
  lemma {:induction false} SecondDrops(a: System, p: Prepared) returns (b: System)
    requires a.processes == map[1 := Submitting(1, p)]
    ensures Later(a, b) && b.processes == map[]
    ensures b.shared == a.shared.(tables := DeletePrepared(DeleteWorkflow(a.shared.tables, 1), 1))
  {
    var one := Moves(a, 1, a.shared, Some(Dropping(1)));
    var two := Moves(one, 1, a.shared.(tables := DeleteWorkflow(a.shared.tables, 1)), Some(DroppingPrepared(1)));
    b := Moves(two, 1, two.shared.(tables := DeletePrepared(two.shared.tables, 1)), None);
    LaterThen(a, one, two);
    LaterThen(a, two, b);
  }

  /**
   The condition is needed: two handlers submit one payment, the chain accepts
   it, the second submission is refused, and the payment is accepted with
   neither a record, nor a workflow, nor a purchase, nor anyone at work on it.
   */
  lemma {:induction false} RefusedResubmitLosesPayment(postId: nat, buyer: Key) returns (end: System)
    ensures Later(START, end) && PAID in end.shared.accepted && end.processes == map[]
    ensures end.shared.tables.prepared == map[] && end.shared.tables.workflows == map[] && end.shared.tables.purchases == {}
  {
    var p := Purchasing(postId, buyer);
    var submitting := BothSubmit(p);
    var parked := FirstParks(submitting, p);
    end := SecondDrops(parked, p);
    LaterThen(START, submitting, parked);
    LaterThen(START, parked, end);
  }

  // ----- a handler that stops -------------------------------------------------

  lemma {:induction false} WorldMoves(a: System, t: Shared) returns (b: System)
    requires WorldStep(a.shared, t)
    ensures b == System(t, a.processes) && Later(a, b)
  {
    b := System(t, a.processes);
    LaterStep(a, b);
  }

  lemma {:induction false} Stops(a: System, pid: Pid) returns (b: System)
    requires pid in a.processes
    ensures b == System(a.shared, a.processes - {pid}) && Later(a, b)
  {
    b := System(a.shared, a.processes - {pid});
    LaterStep(a, b);
  }

  /** The record is prepared, and one handler is about to submit its transaction. */
  lemma {:induction false} OneSubmits(p: Prepared) returns (a: System)
    requires p.item.Post? && p.expiresAt > 0
    ensures Later(START, a) && a.processes == map[0 := Submitting(1, p)]
    ensures a.shared == START.shared.(tables := NO_ROWS.(prepared := map[1 := p]), issued := map[1 := p])
  {
    var t := START.shared.(tables := NO_ROWS.(prepared := map[1 := p]), issued := map[1 := p]);
    assert MayIssue(START.shared, 1, p);
    var prepared := WorldMoves(START, t);
    a := HandlerSubmits(prepared, 0, p);
    LaterThen(START, prepared, a);
  }

  /** The gateway says accepted, the handler stops before it marks that, the record expires and is pruned. */
  lemma {:induction false} StopsUnmarked(a: System, p: Prepared) returns (b: System)
    requires p.item.Post? && p.expiresAt == 1 && a.processes == map[0 := Submitting(1, p)]
    requires a.shared == START.shared.(tables := NO_ROWS.(prepared := map[1 := p]), issued := map[1 := p])
    ensures Later(a, b) && p.template in b.shared.accepted && b.processes == map[]
    ensures b.shared.tables == NO_ROWS
  {
    var s := a.shared;
    var accepted := s.(accepted := {p.template}, order := [p.template]);
    assert s.accepted + {p.template} == {p.template} && s.order + [p.template] == [p.template];
    var one := WorldMoves(a, accepted);
    var two := Moves(one, 0, accepted, Some(Marking(1, p, p.template)));
    var three := Stops(two, 0);
    assert three.processes == map[];
    var late := accepted.(now := 1);
    var four := WorldMoves(three, late);
    var pruned := late.(tables := PrunePrepared(late.tables, 1));
    b := WorldMoves(four, pruned);
    assert PrunePrepared(late.tables, 1).prepared == map[];
    LaterThen(a, one, two);
    LaterThen(a, two, three);
    LaterThen(a, three, four);
    LaterThen(a, four, b);
  }

  /**
   Expiry loses a payment too: the chain accepts it, its handler stops before it
   marks the workflow, and the record expires with nothing on record to go by.
   */
  lemma {:induction false} StoppedHandlerLosesPayment(postId: nat, buyer: Key) returns (end: System)
    ensures Later(START, end) && PAID in end.shared.accepted && end.processes == map[]
    ensures end.shared.tables.prepared == map[] && end.shared.tables.workflows == map[] && end.shared.tables.purchases == {}
  {
    var p := Purchasing(postId, buyer);
    var submitting := OneSubmits(p);
    end := StopsUnmarked(submitting, p);
    LaterThen(START, submitting, end);
  }

  // ----- a reconciler whose call throws ---------------------------------------

  /** The transaction is parked as submitted and then accepted; nobody is at work. */
  ghost predicate ParkedAndAccepted(a: System, p: Prepared) {
    && a.processes == map[] && a.shared.now == 0 && a.shared.accepted == {p.template}
    && a.shared.tables ==
       NO_ROWS.(prepared := map[1 := p], workflows := map[1 := Workflow(SUBMITTED, p.template, None, Some(0), None)])
  }

  lemma {:induction false} ParksAlone(p: Prepared) returns (a: System)
    requires p.item.Post? && p.expiresAt > 0
    ensures Later(START, a) && ParkedAndAccepted(a, p)
  {
    var submitting := OneSubmits(p);
    var s := submitting.shared;
    var parking := Moves(submitting, 0, s, Some(Parking(1, p, p.template)));
    var parked := Moves(parking, 0, WithSaved(s, 1, SUBMITTED, p.template), None);
    var u := parked.shared;
    a := WorldMoves(parked, u.(accepted := u.accepted + {p.template}, order := u.order + [p.template]));
    LaterThen(START, submitting, parking);
    LaterThen(START, parking, parked);
    LaterThen(START, parked, a);
  }

  /** A reconciler claims the workflow as confirmed. */
  lemma {:induction false} ReconcilerClaims(a: System, p: Prepared) returns (b: System)
    requires ParkedAndAccepted(a, p) && p.expiresAt > 0
    ensures Later(a, b) && b.processes.Keys == {0} && b.processes[0].Reconciling? && |b.processes[0].queue| == 1
    ensures b.shared.tables == Claim(a.shared.tables, 1, CONFIRMED, 0, None) && b.shared.accepted == a.shared.accepted
  {
    var s := a.shared;
    var started := System(s, a.processes[0 := Starting(1)]);
    assert IsFresh(Starting(1));
    LaterStep(a, started);
    FirstIdsAre(SubmittedIds(s.tables), 1);
    var queue := ReadPending(s, 1);
    assert 1 in SubmittedIds(s.tables) && |queue| == 1 && queue[0] == Seen(1, s.tables.workflows[1]);
    var fetching := Moves(started, 0, s, Some(Reconciling(0, queue, Fetch)));
    var asking := Moves(fetching, 0, s, Some(Reconciling(0, queue, Ask(p))));
    var claiming := Moves(asking, 0, s, Some(Reconciling(0, queue, ToClaim(Confirm, Some(p)))));
    var lifetime := Lifetime(1, RowsOf(s, 1));
    b := Moves(claiming, 0, WithClaim(s, 1, Confirm, 0), Some(Reconciling(0, queue, ToFinalize(p, lifetime))));
    LaterThen(a, started, fetching);
    LaterThen(a, fetching, asking);
    LaterThen(a, asking, claiming);
    LaterThen(a, claiming, b);
  }

  /**
   A reconciler that claims an accepted payment and whose next call throws leaves it
   unrecorded, and no reconciler takes it up again: it is no longer pending.
   */
  lemma {:induction false} FailedFinalizeIsNotRetried(postId: nat, buyer: Key) returns (end: System)
    ensures Later(START, end) && PAID in end.shared.accepted && end.processes == map[]
    ensures end.shared.tables.purchases == {} && end.shared.tables.workflows.Keys == {1}
    ensures forall limit :: PendingIds(end.shared.tables, limit) == []
  {
    var p := Purchasing(postId, buyer);
    var parked := ParksAlone(p);
    var claimed := ReconcilerClaims(parked, p);
    var passed := System(claimed.shared, claimed.processes[0 := PassedOver(claimed.processes[0])]);
    LaterStep(claimed, passed);
    end := Moves(passed, 0, passed.shared, None);
    LaterThen(START, parked, claimed);
    LaterThen(START, claimed, passed);
    LaterThen(START, passed, end);
    assert SubmittedIds(end.shared.tables) == {};
  }
}
