/**
 When the registry stays consistent while handlers and reconcilers interleave,
 and the interleaving in which it does not.
 */
module RegistryRaces {
  import opened Wrappers
  import opened MembershipContract
  import opened Chain
  import opened Registry
  import opened Tables
  import opened Protocol
  import opened ProtocolProofs
  import opened RegistryRuns

  /** The record a process is about to finalize. */
  function AboutToFinalize(process: Process): Option<Prepared> {
    match process
    case Finalizing(_, p, _) => Some(p)
    case Reconciling(_, queue, ToFinalize(p, _)) => if queue != [] then Some(p) else None
    case _ => None
  }

  function ChangeOf(item: Item): Option<Change> {
    match item
    case Offer(creator, id, price) => Some(OfferChange(creator, id, price))
    case PriceUpdate(creator, id, price) => Some(PriceChange(creator, id, price))
    case Cancel(creator, id) => Some(Cancellation(creator, id))
    case _ => None
  }

  function Changed(r: Registry, p: Prepared): Registry {
    if ChangeOf(p.item).Some? then Apply(r, ChangeOf(p.item).value) else r
  }

  /** Finalizing applies the record's change; nothing else touches the registry. */
  lemma {:induction false} ProcessChanges(s: Shared, process: Process, t: Shared, next: Option<Process>)
    requires ProcessStep(s, process, t, next)
    ensures t.tables.registry ==
            if AboutToFinalize(process).Some? then Changed(s.tables.registry, AboutToFinalize(process).value)
            else s.tables.registry
  {
    if AboutToFinalize(process).None? {
      RegistryRests(s, process, t, next);
    }
  }

  // ----- the exact condition --------------------------------------------------

  /** The process would write an offer whose covenant id the history already has. */
  ghost predicate WouldReuse(r: Registry, process: Process) {
    var p := AboutToFinalize(process);
    p.Some? && ChangeOf(p.value.item).Some? && Collides(r, ChangeOf(p.value.item).value)
  }

  /** A process that would reuse an id makes this step. */
  ghost predicate Reuses(a: System, b: System) {
    exists pid: Pid, next ::
      && pid in a.processes && WouldReuse(a.shared.tables.registry, a.processes[pid])
      && ProcessStep(a.shared, a.processes[pid], b.shared, next)
      && b.processes == Continue(a.processes, pid, next)
  }

  lemma {:induction false} ChangedKeeps(r: Registry, p: Prepared, id: CovenantId)
    requires Consistent(r)
    ensures Consistent(Changed(r, p)) <==> !(ChangeOf(p.item).Some? && Collides(r, ChangeOf(p.item).value))
    ensures Consistent(Changed(r, p)) && IsCanceled(r, id) ==> IsCanceled(Changed(r, p), id)
  {
    match p.item
    case Offer(creator, covenantId, price) =>
      OfferKeepsConsistent(r, creator, covenantId, price);
    case PriceUpdate(creator, covenantId, price) =>
      ChangeKeeps(r, PriceChange(creator, covenantId, price), id);
    case Cancel(creator, covenantId) =>
      ChangeKeeps(r, Cancellation(creator, covenantId), id);
    case _ =>
  }

  lemma {:induction false} StepKeepsConsistent(a: System, b: System, id: CovenantId)
    requires Step(a, b) && Consistent(a.shared.tables.registry)
    ensures Consistent(b.shared.tables.registry) <==> !Reuses(a, b)
    ensures Consistent(b.shared.tables.registry) && IsCanceled(a.shared.tables.registry, id) ==>
              IsCanceled(b.shared.tables.registry, id)
  {
    forall pid: Pid, next | pid in a.processes && ProcessStep(a.shared, a.processes[pid], b.shared, next)
                            && b.processes == Continue(a.processes, pid, next)
      ensures Consistent(b.shared.tables.registry) <==> !WouldReuse(a.shared.tables.registry, a.processes[pid])
      ensures Consistent(b.shared.tables.registry) && IsCanceled(a.shared.tables.registry, id) ==>
                IsCanceled(b.shared.tables.registry, id)
    {
      MoveChanges(a.shared, a.processes[pid], b.shared, next, id);
    }
    if b.processes == a.processes && WorldStep(a.shared, b.shared) {
      WorldRests(a.shared, b.shared);
    }
  }

  lemma {:induction false} MoveChanges(s: Shared, process: Process, t: Shared, next: Option<Process>, id: CovenantId)
    requires ProcessStep(s, process, t, next) && Consistent(s.tables.registry)
    ensures Consistent(t.tables.registry) <==> !WouldReuse(s.tables.registry, process)
    ensures Consistent(t.tables.registry) && IsCanceled(s.tables.registry, id) ==> IsCanceled(t.tables.registry, id)
  {
    ProcessChanges(s, process, t, next);
    if AboutToFinalize(process).Some? {
      ChangedKeeps(s.tables.registry, AboutToFinalize(process).value, id);
    }
  }

  /** No step up to the m-th writes an offer whose id is already in the history. */
  ghost predicate Orderly(run: seq<System>, m: nat)
    requires m < |run|
  {
    forall i :: 0 <= i < m ==> !Reuses(run[i], run[i + 1])
  }

  lemma {:induction false} OrderlyKeeps(run: seq<System>, n: nat, m: nat, id: CovenantId)
    requires IsRun(run) && n <= m < |run| && Orderly(run, m)
    ensures Consistent(run[m].shared.tables.registry)
    ensures IsCanceled(run[n].shared.tables.registry, id) ==> IsCanceled(run[m].shared.tables.registry, id)
    decreases m
  {
    if m > 0 {
      assert Orderly(run, m - 1) && Step(run[m - 1], run[m - 1 + 1]) && !Reuses(run[m - 1], run[m - 1 + 1]);
      OrderlyKeeps(run, if n < m then n else m - 1, m - 1, id);
      StepKeepsConsistent(run[m - 1], run[m], id);
    }
  }

  /**
   In every interleaving: the registry is consistent in all states up to the m-th
   exactly when no process finalized an offer, while its creator had no active
   covenant, whose id the history already had.
   */
  lemma {:induction false} ConsistentExactlyWhenOrderly(run: seq<System>, m: nat)
    requires IsRun(run) && m < |run|
    ensures (forall i :: 0 <= i <= m ==> Consistent(run[i].shared.tables.registry)) <==> Orderly(run, m)
  {
    var any := CovenantId(Outpoint(0, 0), []);
    if Orderly(run, m) {
      forall i | 0 <= i <= m
        ensures Consistent(run[i].shared.tables.registry)
      {
        assert Orderly(run, i);
        OrderlyKeeps(run, i, i, any);
      }
    }
    if forall i :: 0 <= i <= m ==> Consistent(run[i].shared.tables.registry) {
      forall i | 0 <= i < m
        ensures !Reuses(run[i], run[i + 1])
      {
        assert Step(run[i], run[i + 1]);
        StepKeepsConsistent(run[i], run[i + 1], any);
      }
    }
  }

  lemma {:induction false} OrderlyNeverReactivates(run: seq<System>, n: nat, m: nat, id: CovenantId, creator: Key)
    requires IsRun(run) && n <= m < |run| && Orderly(run, m)
    requires IsCanceled(run[n].shared.tables.registry, id)
    ensures IsCanceled(run[m].shared.tables.registry, id) && !Holds(run[m].shared.tables.registry, creator, id)
  {
    OrderlyKeeps(run, n, m, id);
  }

  /** An id written again belongs to a cancelled covenant, which becomes current and active. */
  lemma {:induction false} CollisionRevives(r: Registry, c: Change)
    requires Consistent(r) && Collides(r, c)
    ensures IsCanceled(r, c.covenantId) && Holds(Apply(r, c), c.creator, c.covenantId)
  {
    assert r.history[c.covenantId].active ==> Holds(r, r.history[c.covenantId].creator, c.covenantId);
  }

  lemma {:induction false} ReuseRevives(a: System, b: System) returns (id: CovenantId, creator: Key)
    requires Consistent(a.shared.tables.registry) && Reuses(a, b)
    ensures IsCanceled(a.shared.tables.registry, id) && Holds(b.shared.tables.registry, creator, id)
  {
    var pid: Pid, next :|
      && pid in a.processes && WouldReuse(a.shared.tables.registry, a.processes[pid])
      && ProcessStep(a.shared, a.processes[pid], b.shared, next)
      && b.processes == Continue(a.processes, pid, next);
    ProcessChanges(a.shared, a.processes[pid], b.shared, next);
    var change := ChangeOf(AboutToFinalize(a.processes[pid]).value.item).value;
    CollisionRevives(a.shared.tables.registry, change);
    id, creator := change.covenantId, change.creator;
  }

  /** Up to the m-th state, nobody holds a covenant that was cancelled before. */
  ghost predicate NeverReactivates(run: seq<System>, m: nat)
    requires m < |run|
  {
    forall n, k, id, creator :: 0 <= n <= k <= m ==>
      !(IsCanceled(run[n].shared.tables.registry, id) && Holds(run[k].shared.tables.registry, creator, id))
  }

  lemma {:induction false} ReactivatesUnlessOrderly(run: seq<System>, j: nat, m: nat)
    requires IsRun(run) && j <= m < |run| && NeverReactivates(run, m)
    ensures Orderly(run, j)
  {
    if j > 0 {
      ReactivatesUnlessOrderly(run, j - 1, m);
      OrderlyKeeps(run, j - 1, j - 1, CovenantId(Outpoint(0, 0), []));
      assert !Reuses(run[j - 1], run[j]) by {
        if Reuses(run[j - 1], run[j]) {
          var id, creator := ReuseRevives(run[j - 1], run[j]);
        }
      }
    }
  }

  /**
   In every interleaving: a cancelled covenant is never active again exactly
   when no process finalized an offer, while its creator had no active covenant,
   whose id the history already had.
   */
  lemma {:induction false} NeverReactivatesExactlyWhenOrderly(run: seq<System>, m: nat)
    requires IsRun(run) && m < |run|
    ensures NeverReactivates(run, m) <==> Orderly(run, m)
  {
    if Orderly(run, m) {
      forall n, k, id, creator | 0 <= n <= k <= m && IsCanceled(run[n].shared.tables.registry, id)
        ensures !Holds(run[k].shared.tables.registry, creator, id)
      {
        assert Orderly(run, k);
        OrderlyNeverReactivates(run, n, k, id, creator);
      }
    }
    if NeverReactivates(run, m) {
      ReactivatesUnlessOrderly(run, m, m);
    }
  }

  // ----- two handlers, one offer ----------------------------------------------

  /** `b` is some state at or after `a`. */
  ghost predicate Later(a: System, b: System) {
    exists run :: Walks(run, a, b)
  }

  ghost predicate Walks(run: seq<System>, a: System, b: System) {
    && run != [] && run[0] == a && run[|run| - 1] == b
    && forall i :: 0 <= i < |run| - 1 ==> Step(run[i], run[i + 1])
  }

  lemma {:induction false} LaterStep(a: System, b: System)
    requires Step(a, b)
    ensures Later(a, b)
  {
    assert Walks([a, b], a, b);
  }

  lemma {:induction false} LaterThen(a: System, b: System, c: System)
    requires Later(a, b) && Later(b, c)
    ensures Later(a, c)
  {
    var first, second :| Walks(first, a, b) && Walks(second, b, c);
    var both := first + second[1..];
    forall i | 0 <= i < |both| - 1
      ensures Step(both[i], both[i + 1])
    {
      if i < |first| - 1 {
        assert Step(first[i], first[i + 1]);
      } else {
        var j := i - (|first| - 1);
        assert both[i] == second[j] && both[i + 1] == second[j + 1];
      }
    }
    assert Walks(both, a, c);
  }

  /** A record is prepared and its transaction accepted. */
  lemma {:induction false} Prepare(a: System, id: Id, p: Prepared) returns (b: System)
    requires MayIssue(a.shared, id, p) && p.template !in a.shared.accepted
    ensures Later(a, b) && b.processes == a.processes
    ensures b.shared == a.shared.(
      tables := a.shared.tables.(prepared := a.shared.tables.prepared[id := p]), issued := a.shared.issued[id := p],
      accepted := a.shared.accepted + {p.template}, order := a.shared.order + [p.template])
  {
    var s := a.shared;
    var t := s.(tables := s.tables.(prepared := s.tables.prepared[id := p]), issued := s.issued[id := p]);
    var middle := System(t, a.processes);
    b := System(t.(accepted := t.accepted + {p.template}, order := t.order + [p.template]), a.processes);
    assert WorldStep(s, t);
    LaterStep(a, middle);
    assert WorldStep(t, b.shared);
    LaterStep(middle, b);
    LaterThen(a, middle, b);
  }

  predicate ForCreator(p: Prepared, creator: Key) {
    (p.item.Offer? || p.item.PriceUpdate? || p.item.Cancel?) && p.item.creator == creator
  }

  function RouteFor(item: Item): Route {
    match item
    case Post(_) => PaymentRoute
    case Membership(_, _) => PurchaseRoute
    case Offer(_, _, _) => OfferRoute
    case PriceUpdate(_, _, _) => PriceRoute
    case Cancel(_, _) => CancelRoute
  }

  /** A handler reads the record, submits it and is about to finalize it. */
  lemma {:induction false} HandlerArrives(a: System, pid: Pid, id: Id, p: Prepared, creator: Key) returns (b: System)
    requires pid !in a.processes && GetPrepared(a.shared.tables, id, a.shared.now) == Some(p) && ForCreator(p, creator)
    requires p.template in a.shared.accepted
    ensures Later(a, b) && b == System(a.shared, a.processes[pid := Finalizing(id, p, p.template)])
  {
    var one := System(a.shared, a.processes[pid := Fetching(RouteFor(p.item), id, creator)]);
    var two := System(a.shared, a.processes[pid := Submitting(id, p)]);
    b := System(a.shared, a.processes[pid := Finalizing(id, p, p.template)]);
    assert IsFresh(Fetching(RouteFor(p.item), id, creator));
    LaterStep(a, one);
    assert ProcessStep(one.shared, one.processes[pid], two.shared, Some(Submitting(id, p)));
    assert two.processes == Continue(one.processes, pid, Some(Submitting(id, p)));
    LaterStep(one, two);
    assert ProcessStep(two.shared, two.processes[pid], b.shared, Some(Finalizing(id, p, p.template)));
    assert b.processes == Continue(two.processes, pid, Some(Finalizing(id, p, p.template)));
    LaterStep(two, b);
    LaterThen(a, one, two);
    LaterThen(a, two, b);
  }

  lemma {:induction false} HandlerFinalizes(a: System, pid: Pid, p: Prepared) returns (b: System)
    requires pid in a.processes && a.processes[pid].Finalizing? && a.processes[pid].p == p
    ensures Later(a, b) && b.shared.tables.registry == Changed(a.shared.tables.registry, p)
    ensures b.shared.issued == a.shared.issued && b.shared.accepted == a.shared.accepted && b.shared.now == a.shared.now
    ensures b.shared.order == a.shared.order
    ensures b.shared.tables.prepared == a.shared.tables.prepared - {a.processes[pid].id}
    ensures b.shared.written ==
            if WritesPrice(a.shared.tables.registry, p.item) then a.shared.written[p.item.creator := p] else a.shared.written
    ensures b.processes.Keys == a.processes.Keys
    ensures forall other :: other in a.processes && other != pid ==> b.processes[other] == a.processes[other]
  {
    var process := a.processes[pid];
    var next := OnFinalized(process.id, p, process.transactionId);
    b := System(WithFinalized(a.shared, process.id, p, process.transactionId), Continue(a.processes, pid, Some(next)));
    assert ProcessStep(a.shared, process, b.shared, Some(next));
    ProcessChanges(a.shared, process, b.shared, Some(next));
    LaterStep(a, b);
  }

  function OfferRecord(creator: Key, id: CovenantId, price: int, template: TxId): Prepared {
    Prepared(Offer(creator, id, price), creator, template, 1)
  }

  function CancelRecord(creator: Key, id: CovenantId, template: TxId): Prepared {
    Prepared(Item.Cancel(creator, id), creator, template, 1)
  }

  ghost predicate Waits(a: System, pid: Pid, p: Prepared) {
    pid in a.processes && a.processes[pid].Finalizing? && a.processes[pid].p == p
  }

  /** Four records, and five handlers about to finalize them, two of them the first. */
  ghost predicate AllWait(a: System, creator: Key, first: CovenantId, second: CovenantId, price: int) {
    && a.shared.tables.registry == EMPTY_REGISTRY
    && Waits(a, 0, OfferRecord(creator, first, price, 1)) && Waits(a, 1, CancelRecord(creator, first, 2))
    && Waits(a, 2, OfferRecord(creator, second, price, 3)) && Waits(a, 3, CancelRecord(creator, second, 4))
    && Waits(a, 4, OfferRecord(creator, first, price, 1))
  }

  ghost predicate FourPrepared(a: System, creator: Key, first: CovenantId, second: CovenantId, price: int) {
    var s := a.shared;
    && s.tables.registry == EMPTY_REGISTRY && s.now == 0 && a.processes == map[]
    && GetPrepared(s.tables, 1, 0) == Some(OfferRecord(creator, first, price, 1))
    && GetPrepared(s.tables, 2, 0) == Some(CancelRecord(creator, first, 2))
    && GetPrepared(s.tables, 3, 0) == Some(OfferRecord(creator, second, price, 3))
    && GetPrepared(s.tables, 4, 0) == Some(CancelRecord(creator, second, 4))
    && 1 in s.accepted && 2 in s.accepted && 3 in s.accepted && 4 in s.accepted
  }

  lemma {:induction false} PrepareFour(creator: Key, first: CovenantId, second: CovenantId, price: int) returns (a: System)
    ensures Later(START, a) && FourPrepared(a, creator, first, second, price)
  {
    var two := PrepareTwo(START, 1, OfferRecord(creator, first, price, 1), 2, CancelRecord(creator, first, 2));
    a := PrepareTwo(two, 3, OfferRecord(creator, second, price, 3), 4, CancelRecord(creator, second, 4));
    LaterThen(START, two, a);
  }

  lemma {:induction false} PrepareTwo(a: System, id: Id, p: Prepared, other: Id, q: Prepared) returns (b: System)
    requires MayIssue(a.shared, id, p) && p.template !in a.shared.accepted && other !in a.shared.issued && id != other
    requires forall known :: known in a.shared.issued ==> a.shared.issued[known].template != q.template
    requires p.template != q.template && q.template !in a.shared.accepted
    ensures Later(a, b) && b.processes == a.processes && b.shared.now == a.shared.now
    ensures b.shared.tables == a.shared.tables.(prepared := a.shared.tables.prepared[id := p][other := q])
    ensures b.shared.issued == a.shared.issued[id := p][other := q]
    ensures b.shared.accepted == a.shared.accepted + {p.template} + {q.template}
  {
    var one := Prepare(a, id, p);
    b := Prepare(one, other, q);
    LaterThen(a, one, b);
  }

  lemma {:induction false} HandlersArrive(a: System, creator: Key, first: CovenantId, second: CovenantId, price: int)
    returns (b: System)
    requires FourPrepared(a, creator, first, second, price)
    ensures Later(a, b) && AllWait(b, creator, first, second, price)
  {
    var one := HandlerArrives(a, 0, 1, OfferRecord(creator, first, price, 1), creator);
    var two := HandlerArrives(one, 1, 2, CancelRecord(creator, first, 2), creator);
    var three := HandlerArrives(two, 2, 3, OfferRecord(creator, second, price, 3), creator);
    var four := HandlerArrives(three, 3, 4, CancelRecord(creator, second, 4), creator);
    b := HandlerArrives(four, 4, 1, OfferRecord(creator, first, price, 1), creator);
    LaterThen(a, one, two);
    LaterThen(a, two, three);
    LaterThen(a, three, four);
    LaterThen(a, four, b);
  }

  /** Offer, cancel, offer and cancel again, and then the handler that was left behind. */
  lemma {:induction false} HandlersFinalize(a: System, creator: Key, first: CovenantId, second: CovenantId, price: int)
    returns (canceled: System, end: System)
    requires AllWait(a, creator, first, second, price)
    ensures Later(a, canceled) && Later(canceled, end)
    ensures canceled.shared.tables.registry ==
            Apply(Apply(EMPTY_REGISTRY, OfferChange(creator, first, price)), Cancellation(creator, first))
    ensures end.shared.tables.registry ==
            Offered(After(EMPTY_REGISTRY, [
              OfferChange(creator, first, price), Cancellation(creator, first),
              OfferChange(creator, second, price), Cancellation(creator, second)]), creator, first, price).0
  {
    var one := HandlerFinalizes(a, 0, OfferRecord(creator, first, price, 1));
    canceled := HandlerFinalizes(one, 1, CancelRecord(creator, first, 2));
    var three := HandlerFinalizes(canceled, 2, OfferRecord(creator, second, price, 3));
    var four := HandlerFinalizes(three, 3, CancelRecord(creator, second, 4));
    end := HandlerFinalizes(four, 4, OfferRecord(creator, first, price, 1));
    LaterThen(a, one, canceled);
    LaterThen(canceled, three, four);
    LaterThen(canceled, four, end);
    AfterFour(EMPTY_REGISTRY, OfferChange(creator, first, price), Cancellation(creator, first),
              OfferChange(creator, second, price), Cancellation(creator, second));
  }

  lemma {:induction false} CanceledAfterCancel(creator: Key, id: CovenantId, price: int)
    ensures IsCanceled(Apply(Apply(EMPTY_REGISTRY, OfferChange(creator, id, price)), Cancellation(creator, id)), id)
  {
    assert Holds(Apply(EMPTY_REGISTRY, OfferChange(creator, id, price)), creator, id);
  }

  /**
   The condition is needed: two handlers read one offer record, one finalizes it
   before its cancellation and the other after the next offer is over, and the
   cancelled covenant is active again.
   */
  lemma {:induction false} LateHandlerReactivates(creator: Key, first: CovenantId, second: CovenantId, price: int)
    returns (canceled: System, end: System)
    requires first != second
    ensures Later(START, canceled) && Later(canceled, end)
    ensures IsCanceled(canceled.shared.tables.registry, first)
    ensures Holds(end.shared.tables.registry, creator, first) && !Consistent(end.shared.tables.registry)
  {
    var prepared := PrepareFour(creator, first, second, price);
    var waiting := HandlersArrive(prepared, creator, first, second, price);
    canceled, end := HandlersFinalize(waiting, creator, first, second, price);
    LaterThen(START, prepared, waiting);
    LaterThen(START, waiting, canceled);
    CanceledAfterCancel(creator, first, price);
    ReusedIdReactivates(creator, first, second, price);
  }
}
