/** What every interleaving of handlers and reconcilers keeps. */
module ProtocolProofs {
  import opened Wrappers
  import opened MembershipContract
  import opened Chain
  import opened Registry
  import opened Tables
  import opened Protocol

  // ----- the invariant --------------------------------------------------------

  /** The record was issued under this id, and this is its transaction. */
  predicate Issued(s: Shared, id: Id, p: Prepared, transactionId: TxId) {
    id in s.issued && s.issued[id] == p && transactionId == p.template
  }

  /** The workflow carries the transaction of the record issued under its id. */
  predicate GoodWorkflow(s: Shared, id: Id, w: Workflow) {
    && id in s.issued && w.transactionId == s.issued[id].template
    && (w.state == CONFIRMED ==> w.transactionId in s.accepted)
  }

  /** The row is what some issued record asked for, paid by its accepted transaction. */
  ghost predicate GoodPurchase(s: Shared, row: Purchase) {
    && row.transactionId in s.accepted
    && exists id :: id in s.issued && s.issued[id].item == row.item && s.issued[id].buyer == row.buyer
                    && s.issued[id].template == row.transactionId
  }

  predicate HasPurchase(t: Tables, item: Item, buyer: Key) {
    exists row :: row in t.purchases && row.item == item && row.buyer == buyer
  }

  predicate IsDeleted(s: Shared, item: Item) {
    item.Post? && item.postId in s.deletedPosts
  }

  predicate BuysARow(p: Prepared) {
    p.item.Post? || p.item.Membership?
  }

  ghost predicate RecordsInv(s: Shared) {
    && (forall id :: id in s.tables.prepared ==> id in s.issued && s.issued[id] == s.tables.prepared[id])
    && (forall id :: id in s.tables.workflows ==> GoodWorkflow(s, id, s.tables.workflows[id]))
    && (forall id, other :: id in s.issued && other in s.issued && s.issued[id].template == s.issued[other].template ==>
          s.issued[id].item == s.issued[other].item && s.issued[id].buyer == s.issued[other].buyer)
  }

  ghost predicate PurchasesInv(s: Shared) {
    && (forall row :: row in s.tables.purchases ==> GoodPurchase(s, row))
    && (forall a, b :: a in s.tables.purchases && b in s.tables.purchases && a != b ==> !Conflicts(a, b))
    && (forall p :: p in s.reported && BuysARow(p) ==> HasPurchase(s.tables, p.item, p.buyer) || IsDeleted(s, p.item))
  }

  ghost predicate ClaimsInv(s: Shared) {
    && (forall l :: l in s.claimed ==> l.number <= RowsOf(s, l.id))
    && (forall id :: id in s.tables.workflows ==>
          RowsOf(s, id) > 0 && (s.tables.workflows[id].finalizedAt.None? <==> Lifetime(id, RowsOf(s, id)) !in s.claimed))
    && (forall i :: 0 <= i < |s.tally| ==> s.tally[i] in s.claimed)
    && (forall i, j :: 0 <= i < j < |s.tally| ==> s.tally[i] != s.tally[j])
  }

  ghost predicate SharedInv(s: Shared) {
    RecordsInv(s) && PurchasesInv(s) && ClaimsInv(s)
  }

  /** What a process knows, which no other process can take from it. */
  ghost predicate Knows(s: Shared, process: Process) {
    match process
    case Fetching(_, _, _) => true
    case Looking(id, p) => Issued(s, id, p, p.template) && p.item.Post?
    case Asking(id, p, transactionId) => Issued(s, id, p, transactionId)
    case Submitting(id, p) => Issued(s, id, p, p.template)
    case Verifying(id, p, transactionId) => Issued(s, id, p, transactionId) && transactionId in s.accepted
    case Parking(id, p, transactionId) => Issued(s, id, p, transactionId)
    case Dropping(_) => true
    case DroppingPrepared(_) => true
    case Marking(id, p, transactionId) => Issued(s, id, p, transactionId) && transactionId in s.accepted
    case Finalizing(id, p, transactionId) => Issued(s, id, p, transactionId) && transactionId in s.accepted
    case MarkingAfter(id, p, transactionId) => Issued(s, id, p, transactionId) && transactionId in s.accepted
    case Clearing(_) => true
    case Starting(_) => true
    case Reconciling(_, queue, phase) =>
      && (forall i :: 0 <= i < |queue| ==> queue[i].id in s.issued && queue[i].workflow.transactionId == s.issued[queue[i].id].template)
      && (phase != Fetch ==> queue != [])
      && (match phase
          case Fetch => true
          case Ask(p) => Issued(s, queue[0].id, p, queue[0].workflow.transactionId)
          case ToClaim(terminal, record) =>
            && (record.Some? <==> terminal == Confirm)
            && (record.Some? ==>
                  && Issued(s, queue[0].id, record.value, queue[0].workflow.transactionId)
                  && queue[0].workflow.transactionId in s.accepted)
          case ToFinalize(p, _) =>
            Issued(s, queue[0].id, p, queue[0].workflow.transactionId) && queue[0].workflow.transactionId in s.accepted
          case ToClear(_) => true)
  }

  /** The row lifetime a reconciler has claimed and not yet counted. */
  function Held(process: Process): Option<Lifetime> {
    if process.Reconciling? then
      match process.phase
      case ToFinalize(_, lifetime) => Some(lifetime)
      case ToClear(lifetime) => Some(lifetime)
      case _ => None
    else None
  }

  ghost predicate HoldsInv(a: System) {
    && (forall pid :: pid in a.processes && Held(a.processes[pid]).Some? ==>
          Held(a.processes[pid]).value in a.shared.claimed && Held(a.processes[pid]).value !in a.shared.tally)
    && (forall pid, other :: pid in a.processes && other in a.processes && pid != other && Held(a.processes[pid]).Some? ==>
          Held(a.processes[pid]) != Held(a.processes[other]))
  }

  ghost predicate Inv(a: System) {
    && SharedInv(a.shared)
    && (forall pid :: pid in a.processes ==> Knows(a.shared, a.processes[pid]))
    && HoldsInv(a)
  }

  // ----- knowledge is stable --------------------------------------------------

  /** What is issued, accepted, claimed, counted, reported or deleted stays so. */
  ghost predicate Grows(s: Shared, t: Shared) {
    && s.accepted <= t.accepted && s.now <= t.now && s.claimed <= t.claimed && s.tally <= t.tally
    && s.reported <= t.reported && s.deletedPosts <= t.deletedPosts && s.order <= t.order
    && (forall id :: id in s.issued ==> id in t.issued && t.issued[id] == s.issued[id])
  }

  lemma {:induction false} KnowsStays(s: Shared, t: Shared, process: Process)
    requires Grows(s, t) && Knows(s, process)
    ensures Knows(t, process)
  {
  }

  lemma {:induction false} GoodPurchaseStays(s: Shared, t: Shared, row: Purchase)
    requires Grows(s, t) && GoodPurchase(s, row)
    ensures GoodPurchase(t, row)
  {
    var id :| id in s.issued && s.issued[id].item == row.item && s.issued[id].buyer == row.buyer
              && s.issued[id].template == row.transactionId;
    assert id in t.issued && t.issued[id] == s.issued[id];
  }

  // ----- each call keeps the shared invariant ---------------------------------

  lemma {:induction false} PurchasesStay(s: Shared, t: Shared)
    requires PurchasesInv(s) && Grows(s, t)
    requires t.tables.purchases == s.tables.purchases && t.reported == s.reported
    ensures PurchasesInv(t)
  {
    forall row | row in t.tables.purchases
      ensures GoodPurchase(t, row)
    {
      GoodPurchaseStays(s, t, row);
    }
  }

  lemma {:induction false} SaveKeeps(s: Shared, id: Id, state: WorkflowState, transactionId: TxId)
    requires SharedInv(s) && id in s.issued && transactionId == s.issued[id].template
    requires state == CONFIRMED ==> transactionId in s.accepted
    ensures SharedInv(WithSaved(s, id, state, transactionId)) && Grows(s, WithSaved(s, id, state, transactionId))
  {
    SavedRecords(s, id, state, transactionId);
    SavedClaims(s, id, state, transactionId);
    PurchasesStay(s, WithSaved(s, id, state, transactionId));
  }

  lemma {:induction false} SavedRecords(s: Shared, id: Id, state: WorkflowState, transactionId: TxId)
    requires RecordsInv(s) && id in s.issued && transactionId == s.issued[id].template
    requires state == CONFIRMED ==> transactionId in s.accepted
    ensures RecordsInv(WithSaved(s, id, state, transactionId))
  {
  }

  lemma {:induction false} SavedClaims(s: Shared, id: Id, state: WorkflowState, transactionId: TxId)
    requires ClaimsInv(s)
    ensures ClaimsInv(WithSaved(s, id, state, transactionId))
  {
    var t := WithSaved(s, id, state, transactionId);
    assert id !in s.tables.workflows ==> Lifetime(id, RowsOf(s, id) + 1) !in s.claimed;
  }

  lemma {:induction false} DeleteWorkflowKeeps(s: Shared, id: Id)
    requires SharedInv(s)
    ensures SharedInv(s.(tables := DeleteWorkflow(s.tables, id))) && Grows(s, s.(tables := DeleteWorkflow(s.tables, id)))
  {
    var t := s.(tables := DeleteWorkflow(s.tables, id));
    FewerWorkflows(s, t);
    PurchasesStay(s, t);
  }

  lemma {:induction false} FewerWorkflows(s: Shared, t: Shared)
    requires RecordsInv(s) && ClaimsInv(s)
    requires t == s.(tables := s.tables.(workflows := t.tables.workflows))
    requires forall id :: id in t.tables.workflows ==> id in s.tables.workflows && t.tables.workflows[id] == s.tables.workflows[id]
    ensures RecordsInv(t) && ClaimsInv(t)
  {
    assert forall id :: RowsOf(t, id) == RowsOf(s, id);
  }

  lemma {:induction false} SamePlaces(s: Shared, t: Shared)
    requires ClaimsInv(s) && t.tables.workflows == s.tables.workflows && t.rows == s.rows
    requires t.claimed == s.claimed && t.tally == s.tally
    ensures ClaimsInv(t)
  {
    assert forall id :: RowsOf(t, id) == RowsOf(s, id);
  }

  lemma {:induction false} FewerPrepared(s: Shared, t: Shared)
    requires RecordsInv(s) && t.issued == s.issued && s.accepted <= t.accepted
    requires t.tables.workflows == s.tables.workflows
    requires forall id :: id in t.tables.prepared ==> id in s.tables.prepared && t.tables.prepared[id] == s.tables.prepared[id]
    ensures RecordsInv(t)
  {
  }

  /** Nothing but prepared records goes, the clock, or the chain moves. */
  lemma {:induction false} QuietKeeps(s: Shared, t: Shared)
    requires SharedInv(s) && Grows(s, t) && t.issued == s.issued
    requires t == s.(tables := s.tables.(prepared := t.tables.prepared), accepted := t.accepted, now := t.now, order := t.order)
    requires forall id :: id in t.tables.prepared ==> id in s.tables.prepared && t.tables.prepared[id] == s.tables.prepared[id]
    ensures SharedInv(t)
  {
    FewerPrepared(s, t);
    SamePlaces(s, t);
    PurchasesStay(s, t);
  }

  lemma {:induction false} ClaimKeeps(s: Shared, id: Id, terminal: Terminal, now: int)
    requires SharedInv(s) && id in s.issued
    requires terminal == Confirm ==> s.issued[id].template in s.accepted
    ensures SharedInv(WithClaim(s, id, terminal, now)) && Grows(s, WithClaim(s, id, terminal, now))
  {
    ClaimedRecords(s, id, terminal, now);
    ClaimedClaims(s, id, terminal, now);
    PurchasesStay(s, WithClaim(s, id, terminal, now));
  }

  lemma {:induction false} ClaimedRecords(s: Shared, id: Id, terminal: Terminal, now: int)
    requires RecordsInv(s) && id in s.issued && (terminal == Confirm ==> s.issued[id].template in s.accepted)
    ensures RecordsInv(WithClaim(s, id, terminal, now))
  {
  }

  lemma {:induction false} ClaimedClaims(s: Shared, id: Id, terminal: Terminal, now: int)
    requires ClaimsInv(s)
    ensures ClaimsInv(WithClaim(s, id, terminal, now))
  {
    assert forall other :: RowsOf(WithClaim(s, id, terminal, now), other) == RowsOf(s, other);
  }

  // ----- finalizing -----------------------------------------------------------

  /** A conflicting row is the same purchase: the transaction is the same, and so is what it buys. */
  lemma {:induction false} ConflictIsSamePurchase(s: Shared, id: Id, p: Prepared, other: Purchase)
    requires RecordsInv(s) && Issued(s, id, p, p.template) && GoodPurchase(s, other)
    requires Conflicts(Purchase(p.item, p.buyer, p.template), other)
    ensures other.item == p.item && other.buyer == p.buyer
  {
    var source :| source in s.issued && s.issued[source].item == other.item && s.issued[source].buyer == other.buyer
                  && s.issued[source].template == other.transactionId;
  }

  lemma {:induction false} InsertKeeps(s: Shared, id: Id, p: Prepared)
    requires RecordsInv(s) && PurchasesInv(s) && Issued(s, id, p, p.template) && p.template in s.accepted && BuysARow(p)
    ensures PurchasesInv(WithFinalized(s, id, p, p.template))
  {
    var t, row := WithFinalized(s, id, p, p.template), Purchase(p.item, p.buyer, p.template);
    assert t.tables.purchases == if Taken(s.tables, row) then s.tables.purchases else s.tables.purchases + {row};
    if Taken(s.tables, row) {
      var other :| other in s.tables.purchases && Conflicts(row, other);
      ConflictIsSamePurchase(s, id, p, other);
      assert other in t.tables.purchases;
    } else {
      assert row in t.tables.purchases;
    }
    assert HasPurchase(t.tables, p.item, p.buyer);
    forall a | a in t.tables.purchases
      ensures GoodPurchase(t, a)
    {
      if a in s.tables.purchases {
        GoodPurchaseStays(s, t, a);
      }
    }
    forall q | q in t.reported && BuysARow(q)
      ensures HasPurchase(t.tables, q.item, q.buyer) || IsDeleted(t, q.item)
    {
      if q != p && HasPurchase(s.tables, q.item, q.buyer) {
        var held :| held in s.tables.purchases && held.item == q.item && held.buyer == q.buyer;
        assert held in t.tables.purchases;
      }
    }
  }

  lemma {:induction false} FinalizeKeeps(s: Shared, id: Id, p: Prepared, transactionId: TxId)
    requires SharedInv(s) && Issued(s, id, p, transactionId) && transactionId in s.accepted
    ensures SharedInv(WithFinalized(s, id, p, transactionId)) && Grows(s, WithFinalized(s, id, p, transactionId))
  {
    var t := WithFinalized(s, id, p, transactionId);
    FinalizedPlaces(s, id, p, transactionId);
    SamePlaces(s, t);
    FewerPrepared(s, t);
    if BuysARow(p) {
      InsertKeeps(s, id, p);
    } else {
      var same := t.(reported := s.reported);
      PurchasesStay(s, same);
      NoRowReported(same, t, p);
    }
  }

  lemma {:induction false} FinalizedPlaces(s: Shared, id: Id, p: Prepared, transactionId: TxId)
    ensures var t := WithFinalized(s, id, p, transactionId);
            t.tables.workflows == s.tables.workflows && t.tables.prepared == s.tables.prepared - {id}
    ensures !BuysARow(p) ==> WithFinalized(s, id, p, transactionId).tables.purchases == s.tables.purchases
  {
  }

  lemma {:induction false} NoRowReported(s: Shared, t: Shared, p: Prepared)
    requires PurchasesInv(s) && !BuysARow(p) && t == s.(reported := s.reported + {p})
    ensures PurchasesInv(t)
  {
    forall row | row in t.tables.purchases
      ensures GoodPurchase(t, row)
    {
      GoodPurchaseStays(s, t, row);
    }
  }

  // ----- the world ------------------------------------------------------------

  lemma {:induction false} IssueKeeps(s: Shared, id: Id, p: Prepared)
    requires SharedInv(s) && MayIssue(s, id, p)
    ensures var t := s.(tables := s.tables.(prepared := s.tables.prepared[id := p]), issued := s.issued[id := p]);
            SharedInv(t) && Grows(s, t)
  {
    var t := s.(tables := s.tables.(prepared := s.tables.prepared[id := p]), issued := s.issued[id := p]);
    IssuedRecords(s, id, p);
    SamePlaces(s, t);
    PurchasesStay(s, t);
  }

  lemma {:induction false} IssuedRecords(s: Shared, id: Id, p: Prepared)
    requires RecordsInv(s) && MayIssue(s, id, p)
    ensures RecordsInv(s.(tables := s.tables.(prepared := s.tables.prepared[id := p]), issued := s.issued[id := p]))
  {
  }

  lemma {:induction false} DropKeeps(s: Shared, postId: nat)
    requires SharedInv(s)
    ensures var t := s.(tables := DropPost(s.tables, postId), deletedPosts := s.deletedPosts + {postId});
            SharedInv(t) && Grows(s, t)
  {
    var t := s.(tables := DropPost(s.tables, postId), deletedPosts := s.deletedPosts + {postId});
    assert RecordsInv(t);
    SamePlaces(s, t);
    forall row | row in t.tables.purchases
      ensures GoodPurchase(t, row)
    {
      GoodPurchaseStays(s, t, row);
    }
    forall p | p in t.reported && BuysARow(p)
      ensures HasPurchase(t.tables, p.item, p.buyer) || IsDeleted(t, p.item)
    {
      if !IsDeleted(t, p.item) {
        var row :| row in s.tables.purchases && row.item == p.item && row.buyer == p.buyer;
        assert row in t.tables.purchases;
      }
    }
  }

  lemma {:induction false} WorldKeeps(s: Shared, t: Shared)
    requires SharedInv(s) && WorldStep(s, t)
    ensures SharedInv(t) && Grows(s, t)
  {
    if id: Id, p :| MayIssue(s, id, p) && t == s.(tables := s.tables.(prepared := s.tables.prepared[id := p]), issued := s.issued[id := p]) {
      IssueKeeps(s, id, p);
    } else if postId: nat :| t == s.(tables := DropPost(s.tables, postId), deletedPosts := s.deletedPosts + {postId}) {
      DropKeeps(s, postId);
    } else {
      QuietKeeps(s, t);
    }
  }

  // ----- handlers -------------------------------------------------------------

  /** The calls that only read or ask. */
  predicate OnlyReads(process: Process) {
    process.Fetching? || process.Looking? || process.Asking? || process.Submitting? || process.Verifying?
  }

  lemma {:induction false} ReadersKnow(s: Shared, process: Process, t: Shared, next: Option<Process>)
    requires RecordsInv(s) && Knows(s, process) && OnlyReads(process) && HandlerStep(s, process, t, next)
    ensures t == s && (next.Some? ==> Knows(s, next.value) && Held(next.value).None?)
  {
    if process.Looking? && process.id in s.tables.workflows {
      assert GoodWorkflow(s, process.id, s.tables.workflows[process.id]);
    }
  }

  lemma {:induction false} WritersKnow(s: Shared, process: Process, t: Shared, next: Option<Process>)
    requires Knows(s, process) && !OnlyReads(process) && !process.Starting? && !process.Reconciling?
    requires HandlerStep(s, process, t, next)
    ensures t.claimed == s.claimed && t.tally == s.tally && t.issued == s.issued && t.accepted == s.accepted
    ensures next.Some? ==> Knows(t, next.value) && Held(next.value).None?
  {
  }

  lemma {:induction false} WritersKeep(s: Shared, process: Process, t: Shared, next: Option<Process>)
    requires SharedInv(s) && Knows(s, process) && !OnlyReads(process) && !process.Starting? && !process.Reconciling?
    requires HandlerStep(s, process, t, next)
    ensures SharedInv(t) && Grows(s, t)
  {
    match process
    case Parking(id, p, transactionId) => SaveKeeps(s, id, SUBMITTED, transactionId);
    case Dropping(id) => DeleteWorkflowKeeps(s, id);
    case DroppingPrepared(id) => QuietKeeps(s, t);
    case Marking(id, p, transactionId) => SaveKeeps(s, id, CONFIRMED, transactionId);
    case Finalizing(id, p, transactionId) => FinalizeKeeps(s, id, p, transactionId);
    case MarkingAfter(id, p, transactionId) => SaveKeeps(s, id, CONFIRMED, transactionId);
    case Clearing(id) => DeleteWorkflowKeeps(s, id);
  }

  lemma {:induction false} HandlerKeeps(s: Shared, process: Process, t: Shared, next: Option<Process>)
    requires SharedInv(s) && Knows(s, process) && !process.Starting? && !process.Reconciling?
    requires HandlerStep(s, process, t, next)
    ensures SharedInv(t) && Grows(s, t)
    ensures next.Some? ==> Knows(t, next.value)
  {
    if OnlyReads(process) {
      ReadersKnow(s, process, t, next);
    } else {
      WritersKnow(s, process, t, next);
      WritersKeep(s, process, t, next);
    }
  }

  // ----- reconcilers ----------------------------------------------------------

  lemma {:induction false} PendingIsKnown(s: Shared, limit: nat)
    requires SharedInv(s)
    ensures Knows(s, Reconciling(s.now, ReadPending(s, limit), Fetch))
  {
    var ids := PendingIds(s.tables, limit);
    FirstIdsAre(SubmittedIds(s.tables), limit);
    forall i | 0 <= i < |ids|
      ensures GoodWorkflow(s, ids[i], s.tables.workflows[ids[i]])
    {
      assert ids[i] in SubmittedIds(s.tables);
    }
  }

  /** A reconciler's step on the head of its queue, seen from what it knows. */
  lemma {:induction false} ReconcilerKnows(s: Shared, process: Process, t: Shared, next: Option<Process>)
    requires RecordsInv(s) && Knows(s, process) && process.Reconciling? && process.queue != []
    requires ReconcilerStep(s, process, t, next)
    requires t.issued == s.issued && t.accepted == s.accepted
    ensures next.Some? ==> Knows(t, next.value)
  {
  }

  lemma {:induction false} ReconcilerWrites(s: Shared, process: Process, t: Shared, next: Option<Process>)
    requires SharedInv(s) && Knows(s, process) && process.Reconciling? && process.queue != []
    requires ReconcilerStep(s, process, t, next)
    requires Held(process).Some? ==> Held(process).value in s.claimed && Held(process).value !in s.tally
    ensures SharedInv(t) && Grows(s, t) && t.issued == s.issued && t.accepted == s.accepted
  {
    var id, transactionId := process.queue[0].id, process.queue[0].workflow.transactionId;
    match process.phase
    case Fetch =>
    case Ask(p) =>
    case ToClaim(terminal, record) => ClaimKeeps(s, id, terminal, process.now);
    case ToFinalize(p, lifetime) => FinalizeKeeps(s, id, p, transactionId);
    case ToClear(lifetime) => ClearKeeps(s, id, lifetime);
  }

  lemma {:induction false} ReconcilerKeeps(s: Shared, process: Process, t: Shared, next: Option<Process>)
    requires SharedInv(s) && Knows(s, process)
    requires process.Starting? || (process.Reconciling? && process.queue != [])
    requires ReconcilerStep(s, process, t, next)
    requires Held(process).Some? ==> Held(process).value in s.claimed && Held(process).value !in s.tally
    ensures SharedInv(t) && Grows(s, t)
    ensures next.Some? ==> Knows(t, next.value)
  {
    if process.Starting? {
      PendingIsKnown(s, process.limit);
    } else {
      ReconcilerWrites(s, process, t, next);
      ReconcilerKnows(s, process, t, next);
    }
  }

  lemma {:induction false} ClearKeeps(s: Shared, id: Id, lifetime: Lifetime)
    requires SharedInv(s) && lifetime in s.claimed && lifetime !in s.tally
    ensures var t := s.(tables := DeleteWorkflow(s.tables, id), tally := s.tally + [lifetime]);
            SharedInv(t) && Grows(s, t)
  {
    DeleteWorkflowKeeps(s, id);
    var u := s.(tables := DeleteWorkflow(s.tables, id));
    var t := u.(tally := s.tally + [lifetime]);
    FewerPrepared(u, t);
    TalliedClaims(u, lifetime);
    PurchasesStay(u, t);
  }

  lemma {:induction false} TalliedClaims(s: Shared, lifetime: Lifetime)
    requires ClaimsInv(s) && lifetime in s.claimed && lifetime !in s.tally
    ensures ClaimsInv(s.(tally := s.tally + [lifetime]))
  {
    var t := s.(tally := s.tally + [lifetime]);
    assert forall other :: RowsOf(t, other) == RowsOf(s, other);
  }

  /** What a reconciler holds after its step it held before, or has just claimed. */
  lemma {:induction false} HeldMoves(s: Shared, process: Process, t: Shared, next: Option<Process>)
    requires SharedInv(s) && ProcessStep(s, process, t, next)
    requires Held(process).Some? ==> Held(process).value in s.claimed && Held(process).value !in s.tally
    ensures next.Some? && Held(next.value).Some? ==>
              && Held(next.value).value in t.claimed && Held(next.value).value !in t.tally
              && (Held(next.value) == Held(process) || Held(next.value).value !in s.claimed)
    ensures forall l :: l in t.tally ==> l in s.tally || Held(process) == Some(l)
  {
    if process.Reconciling? && process.queue != [] {
      QueueHeldMoves(s, process, t, next);
    } else if !process.Starting? && !process.Reconciling? {
      HandlersHoldNothing(s, process, t, next);
    }
  }

  lemma {:induction false} HandlersHoldNothing(s: Shared, process: Process, t: Shared, next: Option<Process>)
    requires !process.Starting? && !process.Reconciling? && HandlerStep(s, process, t, next)
    ensures t.tally == s.tally && t.claimed == s.claimed && (next.Some? ==> Held(next.value).None?)
  {
  }

  lemma {:induction false} QueueHeldMoves(s: Shared, process: Process, t: Shared, next: Option<Process>)
    requires ClaimsInv(s) && process.Reconciling? && process.queue != [] && ReconcilerStep(s, process, t, next)
    requires Held(process).Some? ==> Held(process).value in s.claimed && Held(process).value !in s.tally
    ensures next.Some? && Held(next.value).Some? ==>
              && Held(next.value).value in t.claimed && Held(next.value).value !in t.tally
              && (Held(next.value) == Held(process) || Held(next.value).value !in s.claimed)
    ensures forall l :: l in t.tally ==> l in s.tally || Held(process) == Some(l)
  {
  }

  lemma {:induction false} ProcessKeeps(s: Shared, process: Process, t: Shared, next: Option<Process>)
    requires SharedInv(s) && Knows(s, process) && ProcessStep(s, process, t, next)
    requires Held(process).Some? ==> Held(process).value in s.claimed && Held(process).value !in s.tally
    ensures SharedInv(t) && Grows(s, t)
    ensures next.Some? ==> Knows(t, next.value)
  {
    if process.Starting? || (process.Reconciling? && process.queue != []) {
      ReconcilerKeeps(s, process, t, next);
    } else if !process.Reconciling? {
      HandlerKeeps(s, process, t, next);
    }
  }

  // ----- every run ------------------------------------------------------------

  lemma {:induction false} MoveKeepsHolds(a: System, b: System, pid: Pid, next: Option<Process>)
    requires Inv(a) && pid in a.processes && ProcessStep(a.shared, a.processes[pid], b.shared, next)
    requires b.processes == Continue(a.processes, pid, next) && Grows(a.shared, b.shared)
    ensures HoldsInv(b)
  {
    HeldMoves(a.shared, a.processes[pid], b.shared, next);
  }

  lemma {:induction false} MoveKeeps(a: System, b: System, pid: Pid, next: Option<Process>)
    requires Inv(a) && pid in a.processes && ProcessStep(a.shared, a.processes[pid], b.shared, next)
    requires b.processes == Continue(a.processes, pid, next)
    ensures Inv(b) && Grows(a.shared, b.shared)
  {
    ProcessKeeps(a.shared, a.processes[pid], b.shared, next);
    MoveKeepsHolds(a, b, pid, next);
    OthersKnow(a, b);
  }

  lemma {:induction false} StepKeeps(a: System, b: System)
    requires Inv(a) && Step(a, b)
    ensures Inv(b) && Grows(a.shared, b.shared)
  {
    if pid: Pid, next :| pid in a.processes && ProcessStep(a.shared, a.processes[pid], b.shared, next) &&
                         b.processes == Continue(a.processes, pid, next) {
      MoveKeeps(a, b, pid, next);
    } else if b.processes == a.processes && WorldStep(a.shared, b.shared) {
      WorldKeeps(a.shared, b.shared);
      OthersKnow(a, b);
    } else {
      QuietMoveKeeps(a, b);
    }
  }

  /** A process that starts, stops or passes a workflow over touches nothing, and claims nothing. */
  lemma {:induction false} QuietMoveKeeps(a: System, b: System)
    requires Inv(a) && b.shared == a.shared
    requires forall pid :: pid in b.processes ==>
               || (pid in a.processes && b.processes[pid] == a.processes[pid])
               || IsFresh(b.processes[pid])
               || (pid in a.processes && a.processes[pid].Reconciling? && a.processes[pid].queue != []
                   && b.processes[pid] == PassedOver(a.processes[pid]))
    ensures Inv(b) && Grows(a.shared, b.shared)
  {
    forall pid | pid in b.processes
      ensures Knows(b.shared, b.processes[pid])
      ensures Held(b.processes[pid]).Some? ==> pid in a.processes && b.processes[pid] == a.processes[pid]
    {
      if pid in a.processes && a.processes[pid].Reconciling? && a.processes[pid].queue != [] {
        PassedOverKnows(a.shared, a.processes[pid]);
      }
    }
  }

  lemma {:induction false} PassedOverKnows(s: Shared, process: Process)
    requires Knows(s, process) && process.Reconciling? && process.queue != []
    ensures Knows(s, PassedOver(process)) && Held(PassedOver(process)).None?
  {
  }

  lemma {:induction false} OthersKnow(a: System, b: System)
    requires Inv(a) && Grows(a.shared, b.shared)
    ensures forall pid :: pid in a.processes ==> Knows(b.shared, a.processes[pid])
  {
    forall pid | pid in a.processes
      ensures Knows(b.shared, a.processes[pid])
    {
      KnowsStays(a.shared, b.shared, a.processes[pid]);
    }
  }

  lemma {:induction false} RunKeeps(run: seq<System>, n: nat)
    requires IsRun(run) && n < |run|
    ensures Inv(run[n])
  {
    if n > 0 {
      RunKeeps(run, n - 1);
      assert Step(run[n - 1], run[n - 1 + 1]);
      StepKeeps(run[n - 1], run[n]);
    }
  }

  /**
   In every reachable state, whatever the interleaving: each purchase row carries
   the item and buyer of a record the server prepared and that record's
   transaction, which the chain accepted; no two rows share a transaction, or a
   post and its buyer; and a confirmed workflow names an accepted transaction.
   */
  lemma {:induction false} PurchasesAreReal(run: seq<System>, n: nat)
    requires IsRun(run) && n < |run|
    ensures var s := run[n].shared;
            && (forall row :: row in s.tables.purchases ==> GoodPurchase(s, row))
            && (forall a, b :: a in s.tables.purchases && b in s.tables.purchases && a != b ==>
                  && (a.item.Post? && b.item.Post? ==>
                        a.transactionId != b.transactionId && (a.item.postId != b.item.postId || a.buyer != b.buyer))
                  && (!a.item.Post? && !b.item.Post? ==> a.transactionId != b.transactionId))
            && (forall id :: id in s.tables.workflows && s.tables.workflows[id].state == CONFIRMED ==>
                  s.tables.workflows[id].transactionId in s.accepted)
  {
    RunKeeps(run, n);
    var s := run[n].shared;
    forall a, b | a in s.tables.purchases && b in s.tables.purchases && a != b
      ensures !Conflicts(a, b)
    {
    }
    forall id | id in s.tables.workflows && s.tables.workflows[id].state == CONFIRMED
      ensures s.tables.workflows[id].transactionId in s.accepted
    {
      assert GoodWorkflow(s, id, s.tables.workflows[id]);
    }
  }

  /** Whoever finalizes a purchase, and even if it answers duplicate, the buyer has it until the post is deleted. */
  lemma {:induction false} FinalizedIsOwned(run: seq<System>, n: nat, p: Prepared)
    requires IsRun(run) && n < |run| && p in run[n].shared.reported && BuysARow(p)
    ensures HasPurchase(run[n].shared.tables, p.item, p.buyer) || IsDeleted(run[n].shared, p.item)
  {
    RunKeeps(run, n);
  }

  /** How often reconcilers counted a row's lifetime as confirmed, rejected or abandoned. */
  function Counted(tally: seq<Lifetime>, l: Lifetime): nat {
    if tally == [] then 0 else Counted(tally[1..], l) + (if tally[0] == l then 1 else 0)
  }

  lemma {:induction false} CountedOnce(tally: seq<Lifetime>, l: Lifetime)
    requires forall i, j :: 0 <= i < j < |tally| ==> tally[i] != tally[j]
    ensures Counted(tally, l) <= 1 && (Counted(tally, l) == 1 ==> l in tally)
  {
    if tally != [] {
      CountedOnce(tally[1..], l);
      assert forall i :: 0 <= i < |tally| - 1 ==> tally[1..][i] == tally[i + 1];
      assert tally[0] !in tally[1..];
    }
  }

  /** However many reconcilers race, all their counters together count a row's lifetime at most once. */
  lemma {:induction false} SettledOnce(run: seq<System>, n: nat, l: Lifetime)
    requires IsRun(run) && n < |run|
    ensures Counted(run[n].shared.tally, l) <= 1
  {
    RunKeeps(run, n);
    CountedOnce(run[n].shared.tally, l);
  }

  /** Once claimed, a row is never claimable again, whatever is saved over it. */
  lemma {:induction false} ClaimedOnce(run: seq<System>, n: nat, id: Id)
    requires IsRun(run) && n < |run|
    ensures Claimable(run[n].shared.tables, id) ==> Lifetime(id, RowsOf(run[n].shared, id)) !in run[n].shared.claimed
  {
    RunKeeps(run, n);
  }
}
