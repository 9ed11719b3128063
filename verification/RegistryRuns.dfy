/** The registry follows the chain in every interleaving. */
module RegistryRuns {
  import opened Wrappers
  import opened MembershipContract
  import opened Chain
  import opened Registry
  import opened Tables
  import opened Protocol
  import opened ProtocolProofs

  /** What an accepted transaction can do to a covenant. */
  datatype Fact =
    | Started(creator: Key, covenantId: CovenantId)
    | Priced(creator: Key, covenantId: CovenantId, priceSompi: int)
    | Ended(creator: Key, covenantId: CovenantId)

  predicate Shows(item: Item, fact: Fact) {
    match fact
    case Started(creator, id) => item.Offer? && item.creator == creator && item.covenantId == id
    case Priced(creator, id, price) => item == Offer(creator, id, price) || item == PriceUpdate(creator, id, price)
    case Ended(creator, id) => item == Item.Cancel(creator, id)
  }

  /** A prepared record did this, and its transaction was accepted. */
  ghost predicate Happened(s: Shared, fact: Fact) {
    exists id :: id in s.issued && s.issued[id].template in s.accepted && Shows(s.issued[id].item, fact)
  }

  ghost predicate CurrentBacked(s: Shared, creator: Key, row: CovenantRow) {
    && Happened(s, Started(creator, row.covenantId))
    && Happened(s, Priced(creator, row.covenantId, row.priceSompi))
    && (!row.active ==> Happened(s, Ended(creator, row.covenantId)))
  }

  ghost predicate HistoryBacked(s: Shared, id: CovenantId, row: HistoryRow) {
    && Happened(s, Started(row.creator, id))
    && Happened(s, Priced(row.creator, id, row.priceSompi))
    && (!row.active ==> Happened(s, Ended(row.creator, id)))
  }

  ghost predicate Backed(s: Shared) {
    var r := s.tables.registry;
    && (forall creator :: creator in r.current ==> CurrentBacked(s, creator, r.current[creator]))
    && (forall id :: id in r.history ==> HistoryBacked(s, id, r.history[id]))
  }

  lemma {:induction false} HappenedStays(s: Shared, t: Shared)
    requires Grows(s, t)
    ensures forall fact :: Happened(s, fact) ==> Happened(t, fact)
  {
    forall fact | Happened(s, fact)
      ensures Happened(t, fact)
    {
      var id :| id in s.issued && s.issued[id].template in s.accepted && Shows(s.issued[id].item, fact);
      assert id in t.issued && t.issued[id] == s.issued[id];
    }
  }

  lemma {:induction false} HappensNow(s: Shared, id: Id, fact: Fact)
    requires id in s.issued && s.issued[id].template in s.accepted && Shows(s.issued[id].item, fact)
    ensures Happened(s, fact)
  {
  }

  lemma {:induction false} BackedStays(s: Shared, t: Shared)
    requires Backed(s) && Grows(s, t) && t.tables.registry == s.tables.registry
    ensures Backed(t)
  {
    HappenedStays(s, t);
  }

  lemma {:induction false} OfferBacks(s: Shared, creator: Key, id: CovenantId, price: int)
    requires Backed(s) && Happened(s, Started(creator, id)) && Happened(s, Priced(creator, id, price))
    ensures Backed(s.(tables := s.tables.(registry := Offered(s.tables.registry, creator, id, price).0)))
  {
    SameFacts(s, Offered(s.tables.registry, creator, id, price).0);
  }

  lemma {:induction false} UpdateBacks(s: Shared, creator: Key, id: CovenantId, price: int)
    requires Backed(s) && Happened(s, Priced(creator, id, price))
    ensures Backed(s.(tables := s.tables.(registry := Repriced(s.tables.registry, creator, id, price).0)))
  {
    SameFacts(s, Repriced(s.tables.registry, creator, id, price).0);
  }

  lemma {:induction false} CancelBacks(s: Shared, creator: Key, id: CovenantId)
    requires Backed(s) && Happened(s, Ended(creator, id))
    ensures Backed(s.(tables := s.tables.(registry := Canceled(s.tables.registry, creator, id).0)))
  {
    SameFacts(s, Canceled(s.tables.registry, creator, id).0);
  }

  lemma {:induction false} SameFacts(s: Shared, r: Registry)
    ensures forall fact :: Happened(s, fact) <==> Happened(s.(tables := s.tables.(registry := r)), fact)
  {
    var t := s.(tables := s.tables.(registry := r));
    assert t.issued == s.issued && t.accepted == s.accepted;
  }

  lemma {:induction false} FinalizeBacks(s: Shared, id: Id, p: Prepared, transactionId: TxId)
    requires Backed(s) && Issued(s, id, p, transactionId) && transactionId in s.accepted
    ensures Backed(WithFinalized(s, id, p, transactionId))
  {
    var t := WithFinalized(s, id, p, transactionId);
    var before := s.(tables := t.tables.(registry := s.tables.registry), reported := t.reported, written := t.written);
    BackedStays(s, before);
    match p.item
    case Post(_) =>
    case Membership(_, _) =>
    case Offer(creator, covenantId, price) =>
      HappensNow(before, id, Started(creator, covenantId));
      HappensNow(before, id, Priced(creator, covenantId, price));
      OfferBacks(before, creator, covenantId, price);
    case PriceUpdate(creator, covenantId, price) =>
      HappensNow(before, id, Priced(creator, covenantId, price));
      UpdateBacks(before, creator, covenantId, price);
    case Cancel(creator, covenantId) =>
      HappensNow(before, id, Ended(creator, covenantId));
      CancelBacks(before, creator, covenantId);
  }

  /** Only finalizing touches the registry. */
  lemma {:induction false} ProcessBacks(s: Shared, process: Process, t: Shared, next: Option<Process>)
    requires Backed(s) && Grows(s, t) && Knows(s, process) && ProcessStep(s, process, t, next)
    ensures Backed(t)
  {
    if process.Finalizing? {
      FinalizeBacks(s, process.id, process.p, process.transactionId);
    } else if process.Reconciling? && process.queue != [] && process.phase.ToFinalize? {
      FinalizeBacks(s, process.queue[0].id, process.phase.p, process.queue[0].workflow.transactionId);
    } else {
      RegistryRests(s, process, t, next);
      BackedStays(s, t);
    }
  }

  lemma {:induction false} RegistryRests(s: Shared, process: Process, t: Shared, next: Option<Process>)
    requires ProcessStep(s, process, t, next) && !process.Finalizing?
    requires !(process.Reconciling? && process.queue != [] && process.phase.ToFinalize?)
    ensures t.tables.registry == s.tables.registry
  {
  }

  lemma {:induction false} WorldRests(s: Shared, t: Shared)
    requires WorldStep(s, t)
    ensures t.tables.registry == s.tables.registry
  {
  }

  lemma {:induction false} StepBacks(a: System, b: System)
    requires Inv(a) && Backed(a.shared) && Step(a, b)
    ensures Backed(b.shared)
  {
    StepKeeps(a, b);
    if pid: Pid, next :| pid in a.processes && ProcessStep(a.shared, a.processes[pid], b.shared, next) &&
                         b.processes == Continue(a.processes, pid, next) {
      ProcessBacks(a.shared, a.processes[pid], b.shared, next);
    } else if b.processes == a.processes && WorldStep(a.shared, b.shared) {
      WorldRests(a.shared, b.shared);
      BackedStays(a.shared, b.shared);
    }
  }

  lemma {:induction false} RunBacks(run: seq<System>, n: nat)
    requires IsRun(run) && n < |run|
    ensures Backed(run[n].shared)
  {
    if n == 0 {
      StartBacked();
    } else {
      RunBacks(run, n - 1);
      RunKeeps(run, n - 1);
      RunSteps(run, n);
      StepBacks(run[n - 1], run[n]);
    }
  }

  lemma {:induction false} StartBacked()
    ensures Backed(START.shared)
  {
  }

  lemma {:induction false} RunSteps(run: seq<System>, n: nat)
    requires IsRun(run) && 0 < n < |run|
    ensures Step(run[n - 1], run[n])
  {
    assert Step(run[n - 1], run[n - 1 + 1]);
  }

  /**
   In every interleaving, each registry row stands at the price of an accepted
   offer or price update of that very covenant, by the creator whose accepted
   offer started it, and is cancelled only because a cancellation was accepted.
   */
  lemma {:induction false} RegistryFollowsChain(run: seq<System>, n: nat)
    requires IsRun(run) && n < |run|
    ensures var s := run[n].shared;
            var r := s.tables.registry;
            && (forall creator :: creator in r.current ==>
                  var row := r.current[creator];
                  && Happened(s, Started(creator, row.covenantId))
                  && Happened(s, Priced(creator, row.covenantId, row.priceSompi))
                  && (!row.active ==> Happened(s, Ended(creator, row.covenantId))))
            && (forall id :: id in r.history ==>
                  Happened(s, Started(r.history[id].creator, id)) &&
                  (!r.history[id].active ==> Happened(s, Ended(r.history[id].creator, id))))
  {
    RunBacks(run, n);
  }
}
