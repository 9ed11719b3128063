/**
 Finalize handlers and reconcilers interleaving over one store
 (backend/src/app.ts, backend/src/application/reconcile-workflows.ts). Every
 store call and every question to the chain is one atomic step; a process may
 also stop at any point, as one does when a call throws. The chain is the set of
 accepted transaction ids, which only grows, and the clock never runs back.
 */
module Protocol {
  import opened Wrappers
  import opened MembershipContract
  import opened Chain
  import opened Registry
  import opened Tables

  const STALE_WORKFLOW_MS := 24 * 60 * 60 * 1_000

  type Pid = nat

  /** The n-th row that an id has had in the workflow table. */
  datatype Lifetime = Lifetime(id: Id, number: nat)

  /**
   What all processes share. The fields from `issued` on record history: records
   ever prepared, rows ever inserted, claimed and counted as settled, purchases
   reported to a buyer, posts deleted, the order in which transactions were
   accepted, and for each creator the record whose finalizing last wrote the price
   of the current covenant.
   */
  datatype Shared = Shared(
    tables: Tables, accepted: set<TxId>, now: int,
    issued: map<Id, Prepared>, rows: map<Id, nat>, claimed: set<Lifetime>, tally: seq<Lifetime>,
    reported: set<Prepared>, deletedPosts: set<nat>, order: seq<TxId>, written: map<Key, Prepared>)

  /** One finalize route for each kind of record. */
  datatype Route = PaymentRoute | PurchaseRoute | OfferRoute | PriceRoute | CancelRoute

  datatype Terminal = Confirm | Reject | Abandon(reason: string)

  datatype Phase =
    | Fetch
    | Ask(p: Prepared)
    | ToClaim(terminal: Terminal, record: Option<Prepared>)
    | ToFinalize(p: Prepared, lifetime: Lifetime)
    | ToClear(lifetime: Lifetime)

  datatype Seen = Seen(id: Id, workflow: Workflow)

  /** Where a process stands; each constructor is about to make one call. */
  datatype Process =
    | Fetching(route: Route, id: Id, session: Key)
    | Looking(id: Id, p: Prepared)
    | Asking(id: Id, p: Prepared, transactionId: TxId)
    | Submitting(id: Id, p: Prepared)
    | Verifying(id: Id, p: Prepared, transactionId: TxId)
    | Parking(id: Id, p: Prepared, transactionId: TxId)
    | Dropping(id: Id)
    | DroppingPrepared(id: Id)
    | Marking(id: Id, p: Prepared, transactionId: TxId)
    | Finalizing(id: Id, p: Prepared, transactionId: TxId)
    | MarkingAfter(id: Id, p: Prepared, transactionId: TxId)
    | Clearing(id: Id)
    | Starting(limit: nat)
    | Reconciling(now: int, queue: seq<Seen>, phase: Phase)

  // ----- effects of one call --------------------------------------------------

  function RowsOf(s: Shared, id: Id): nat {
    if id in s.rows then s.rows[id] else 0
  }

  function WithSaved(s: Shared, id: Id, state: WorkflowState, transactionId: TxId): Shared {
    s.(tables := SaveWorkflow(s.tables, id, state, transactionId, s.now),
       rows := if id in s.tables.workflows then s.rows else s.rows[id := RowsOf(s, id) + 1])
  }

  function WithClaim(s: Shared, id: Id, t: Terminal, now: int): Shared {
    s.(tables := Claim(s.tables, id, if t == Confirm then CONFIRMED else REJECTED, now, RejectionOf(t)),
       claimed := if Claimable(s.tables, id) then s.claimed + {Lifetime(id, RowsOf(s, id))} else s.claimed)
  }

  function RejectionOf(t: Terminal): Option<string> {
    match t
    case Confirm => None
    case Reject => Some("RECONCILED_REJECTED")
    case Abandon(reason) => Some(reason)
  }

  /** The record's finalizing writes the price of the creator's current row. */
  predicate WritesPrice(r: Registry, item: Item) {
    match item
    case Offer(creator, id, _) => Upserts(r, creator, id)
    case PriceUpdate(creator, id, _) => Holds(r, creator, id)
    case _ => false
  }

  function WithFinalized(s: Shared, id: Id, p: Prepared, transactionId: TxId): Shared {
    s.(tables := Finalize(s.tables, id, p, transactionId).0, reported := s.reported + {p},
       written := if WritesPrice(s.tables.registry, p.item) then s.written[p.item.creator := p] else s.written)
  }

  // ----- handlers -------------------------------------------------------------

  predicate Admits(route: Route, p: Prepared, session: Key) {
    match p.item
    case Post(_) => route == PaymentRoute && p.buyer == session
    case Membership(_, _) => route == PurchaseRoute && p.buyer == session
    case Offer(creator, _, _) => route == OfferRoute && creator == session
    case PriceUpdate(creator, _, _) => route == PriceRoute && creator == session
    case Cancel(creator, _) => route == CancelRoute && creator == session
  }

  /** Where a settled submission leads, by what was prepared. */
  function OnAccepted(id: Id, p: Prepared, transactionId: TxId): Process {
    match p.item
    case Post(_) => Marking(id, p, transactionId)
    case Membership(_, _) => Verifying(id, p, transactionId)
    case _ => Finalizing(id, p, transactionId)
  }

  function OnFinalized(id: Id, p: Prepared, transactionId: TxId): Process {
    match p.item
    case Post(_) => Clearing(id)
    case PriceUpdate(_, _, _) => Clearing(id)
    case Cancel(_, _) => Clearing(id)
    case _ => MarkingAfter(id, p, transactionId)
  }

  /** The gateway can say accepted only of an accepted transaction. */
  predicate AfterAsking(s: Shared, id: Id, p: Prepared, transactionId: TxId, next: Option<Process>) {
    || next == Some(Parking(id, p, transactionId))
    || (transactionId in s.accepted && next == Some(OnAccepted(id, p, transactionId)))
  }

  /** `None` is a process that has answered. */
  ghost predicate HandlerStep(s: Shared, process: Process, t: Shared, next: Option<Process>)
    requires !process.Starting? && !process.Reconciling?
  {
    match process
    case Fetching(route, id, session) =>
      t == s && (
        match GetPrepared(s.tables, id, s.now)
        case Some(p) =>
          if !Admits(route, p, session) then next == None
          else next == Some(if route == PaymentRoute then Looking(id, p) else Submitting(id, p))
        case None => next == None)
    case Looking(id, p) =>
      t == s && next == Some(
        if id !in s.tables.workflows then Submitting(id, p)
        else if s.tables.workflows[id].state == CONFIRMED then OnAccepted(id, p, s.tables.workflows[id].transactionId)
        else Asking(id, p, s.tables.workflows[id].transactionId))
    case Asking(id, p, transactionId) => t == s && AfterAsking(s, id, p, transactionId, next)
    case Submitting(id, p) =>
      t == s && (next == Some(Dropping(id)) || AfterAsking(s, id, p, p.template, next))
    case Verifying(id, p, transactionId) =>
      t == s && (next == Some(Dropping(id)) || next == Some(Finalizing(id, p, transactionId)))
    case Parking(id, p, transactionId) => t == WithSaved(s, id, SUBMITTED, transactionId) && next == None
    case Dropping(id) => t == s.(tables := DeleteWorkflow(s.tables, id)) && next == Some(DroppingPrepared(id))
    case DroppingPrepared(id) => t == s.(tables := DeletePrepared(s.tables, id)) && next == None
    case Marking(id, p, transactionId) =>
      t == WithSaved(s, id, CONFIRMED, transactionId) && next == Some(Finalizing(id, p, transactionId))
    case Finalizing(id, p, transactionId) =>
      t == WithFinalized(s, id, p, transactionId) && next == Some(OnFinalized(id, p, transactionId))
    case MarkingAfter(id, p, transactionId) =>
      t == WithSaved(s, id, CONFIRMED, transactionId) && next == Some(Clearing(id))
    case Clearing(id) => t == s.(tables := DeleteWorkflow(s.tables, id)) && next == None
  }

  // ----- reconcilers ----------------------------------------------------------

  function Age(w: Workflow, now: int): int {
    if w.submittedAt.Some? then now - w.submittedAt.value else 0
  }

  function ReadPending(s: Shared, limit: nat): (r: seq<Seen>)
    ensures |r| == |PendingIds(s.tables, limit)|
  {
    var ids := PendingIds(s.tables, limit);
    FirstIdsAre(SubmittedIds(s.tables), limit);
    seq(|ids|, i requires 0 <= i < |ids| => Seen(ids[i], s.tables.workflows[ids[i]]))
  }

  ghost predicate ReconcilerStep(s: Shared, process: Process, t: Shared, next: Option<Process>)
    requires process.Starting? || (process.Reconciling? && process.queue != [])
  {
    match process
    case Starting(limit) => t == s && next == Some(Reconciling(s.now, ReadPending(s, limit), Fetch))
    case Reconciling(now, queue, phase) =>
      var id, w := queue[0].id, queue[0].workflow;
      var onward := Some(Reconciling(now, queue[1..], Fetch));
      match phase
      case Fetch =>
        t == s && next == Some(Reconciling(now, queue,
          match GetPrepared(s.tables, id, now)
          case None => ToClaim(Abandon("prepared_missing"), None)
          case Some(p) => Ask(p)))
      case Ask(p) =>
        t == s && (
          || (w.transactionId in s.accepted && next == Some(Reconciling(now, queue, ToClaim(Confirm, Some(p)))))
          || next == Some(Reconciling(now, queue, ToClaim(Reject, None)))
          || next == if Age(w, now) > STALE_WORKFLOW_MS
                     then Some(Reconciling(now, queue, ToClaim(Abandon("unconfirmed_timeout"), None))) else onward)
      case ToClaim(terminal, record) =>
        && t == WithClaim(s, id, terminal, now)
        && next == if !Claimable(s.tables, id) then onward
                   else
                     var lifetime := Lifetime(id, RowsOf(s, id));
                     Some(Reconciling(now, queue, if record.Some? then ToFinalize(record.value, lifetime) else ToClear(lifetime)))
      case ToFinalize(p, lifetime) =>
        t == WithFinalized(s, id, p, w.transactionId) && next == Some(Reconciling(now, queue, ToClear(lifetime)))
      case ToClear(lifetime) =>
        t == s.(tables := DeleteWorkflow(s.tables, id), tally := s.tally + [lifetime]) && next == onward
  }

  ghost predicate ProcessStep(s: Shared, process: Process, t: Shared, next: Option<Process>) {
    if process.Starting? || (process.Reconciling? && process.queue != []) then ReconcilerStep(s, process, t, next)
    else if process.Reconciling? then t == s && next == None
    else HandlerStep(s, process, t, next)
  }

  // ----- the world around them ------------------------------------------------

  /** Equal templates are the same transaction, so they buy the same thing for the same buyer. */
  ghost predicate MayIssue(s: Shared, id: Id, p: Prepared) {
    && id !in s.issued
    && forall other :: other in s.issued && s.issued[other].template == p.template ==>
         s.issued[other].item == p.item && s.issued[other].buyer == p.buyer
  }

  ghost predicate WorldStep(s: Shared, t: Shared) {
    || (exists txid: TxId :: txid !in s.accepted &&
          t == s.(accepted := s.accepted + {txid}, order := s.order + [txid]))
    || (exists now :: now >= s.now && t == s.(now := now))
    || (exists now :: now <= s.now && t == s.(tables := PrunePrepared(s.tables, now)))
    || (exists id: Id, p :: MayIssue(s, id, p) &&
          t == s.(tables := s.tables.(prepared := s.tables.prepared[id := p]), issued := s.issued[id := p]))
    || (exists postId: nat :: t == s.(tables := DropPost(s.tables, postId), deletedPosts := s.deletedPosts + {postId}))
  }

  datatype System = System(shared: Shared, processes: map<Pid, Process>)

  predicate IsFresh(process: Process) {
    process.Fetching? || process.Starting?
  }

  function Continue(processes: map<Pid, Process>, pid: Pid, next: Option<Process>): map<Pid, Process> {
    if next.Some? then processes[pid := next.value] else processes - {pid}
  }

  /** A reconciler's call throws: the workflow is left where it stands, and the next one is taken up. */
  function PassedOver(process: Process): Process
    requires process.Reconciling? && process.queue != []
  {
    Reconciling(process.now, process.queue[1..], Fetch)
  }

  /** One step of the system: a process moves, starts, stops or passes a workflow over, or the world moves. */
  ghost predicate Step(a: System, b: System) {
    || (exists pid: Pid, next :: pid in a.processes && ProcessStep(a.shared, a.processes[pid], b.shared, next) &&
          b.processes == Continue(a.processes, pid, next))
    || (exists pid: Pid, process :: pid !in a.processes && IsFresh(process) &&
          b == System(a.shared, a.processes[pid := process]))
    || (exists pid: Pid :: pid in a.processes && b == System(a.shared, a.processes - {pid}))
    || (exists pid: Pid :: pid in a.processes && a.processes[pid].Reconciling? && a.processes[pid].queue != [] &&
          b == System(a.shared, a.processes[pid := PassedOver(a.processes[pid])]))
    || (b.processes == a.processes && WorldStep(a.shared, b.shared))
  }

  const START := System(Shared(NO_ROWS, {}, 0, map[], map[], {}, [], {}, {}, [], map[]), map[])

  ghost predicate IsRun(run: seq<System>) {
    run != [] && run[0] == START && forall i :: 0 <= i < |run| - 1 ==> Step(run[i], run[i + 1])
  }
}
