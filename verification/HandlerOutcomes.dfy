/** What one finalize handler does to the tables when nothing comes in between. */
module HandlerOutcomes {
  import opened Wrappers
  import opened MembershipContract
  import opened Chain
  import opened Registry
  import opened Tables
  import opened Protocol
  import opened ProtocolProofs
  import opened RegistryRaces
  import opened ProtocolSessions

  /** The shared state and one process, None once it has answered. */
  datatype Moment = Moment(shared: Shared, process: Option<Process>)

  /** The process makes its steps one after another, and nobody else makes any. */
  ghost predicate Alone(run: seq<Moment>) {
    run != [] && forall i :: 0 <= i < |run| - 1 ==>
      run[i].process.Some? && ProcessStep(run[i].shared, run[i].process.value, run[i + 1].shared, run[i + 1].process)
  }

  // ----- the outcomes ---------------------------------------------------------

  /** A payment on record as confirmed is finalized without asking again. */
  ghost predicate IsConfirmed(s: Shared, id: Id, p: Prepared) {
    p.item.Post? && id in s.tables.workflows && s.tables.workflows[id].state == CONFIRMED
  }

  /** The workflow is on record as submitted, since now unless it was before, and claimed as before. */
  ghost predicate Parked(s: Shared, t: Shared, id: Id, p: Prepared) {
    && id in t.tables.workflows && !IsConfirmed(s, id, p)
    && t.tables == s.tables.(workflows := s.tables.workflows[id := t.tables.workflows[id]])
    && var w, had := t.tables.workflows[id], id in s.tables.workflows;
       && w.state == SUBMITTED && w.transactionId == p.template && w.rejection == None
       && w.submittedAt == (if had && s.tables.workflows[id].submittedAt.Some? then s.tables.workflows[id].submittedAt else Some(s.now))
       && w.finalizedAt == (if had then s.tables.workflows[id].finalizedAt else None)
  }

  /** Record and workflow are gone, and nothing else; a payment had no workflow then. */
  ghost predicate Dropped(s: Shared, t: Shared, id: Id, p: Prepared) {
    && t.tables == s.tables.(workflows := s.tables.workflows - {id}, prepared := s.tables.prepared - {id})
    && (p.item.Post? ==> id !in s.tables.workflows)
  }

  /**
   Record and workflow are gone, and what was paid for is there: the purchase's row,
   or the registry's change. Price updates and cancellations never had a row inserted.
   */
  ghost predicate Finalized(s: Shared, t: Shared, id: Id, p: Prepared) {
    && p.template in s.accepted && t.reported == s.reported + {p}
    && (p.item.PriceUpdate? || p.item.Cancel? ==> t.rows == s.rows)
    && t.tables.workflows == s.tables.workflows - {id} && t.tables.prepared == s.tables.prepared - {id}
    && (if p.item.Post? || p.item.Membership? then
          && HasPurchase(t.tables, p.item, p.buyer) && t.tables.registry == s.tables.registry
          && s.tables.purchases <= t.tables.purchases <= s.tables.purchases + {Purchase(p.item, p.buyer, p.template)}
        else
          && t.tables.purchases == s.tables.purchases
          && t.tables.registry == Changed(s.tables.registry, p))
  }

  // ----- on the way -----------------------------------------------------------

  function AfterFinalizing(s: Shared, id: Id, p: Prepared): Shared {
    WithFinalized(if p.item.Post? then WithSaved(s, id, CONFIRMED, p.template) else s, id, p, p.template)
  }

  /** What the handler has done so far, by where it stands. */
  ghost predicate Reached(s: Shared, id: Id, p: Prepared, u: Shared, process: Process) {
    match process
    case Looking(i, q) => i == id && q == p && u == s && p.item.Post?
    case Asking(i, q, txid) => i == id && q == p && u == s && txid == p.template && !IsConfirmed(s, id, p)
    case Submitting(i, q) => i == id && q == p && u == s && (p.item.Post? ==> id !in s.tables.workflows)
    case Verifying(i, q, txid) => i == id && q == p && u == s && txid == p.template && txid in s.accepted && p.item.Membership?
    case Parking(i, q, txid) => i == id && q == p && u == s && txid == p.template && !IsConfirmed(s, id, p)
    case Dropping(i) => i == id && u == s && (p.item.Post? ==> id !in s.tables.workflows)
    case DroppingPrepared(i) =>
      i == id && u == s.(tables := DeleteWorkflow(s.tables, id)) && (p.item.Post? ==> id !in s.tables.workflows)
    case Marking(i, q, txid) => i == id && q == p && u == s && txid == p.template && txid in s.accepted && p.item.Post?
    case Finalizing(i, q, txid) =>
      && i == id && q == p && txid == p.template && txid in s.accepted
      && u == if p.item.Post? then WithSaved(s, id, CONFIRMED, p.template) else s
    case MarkingAfter(i, q, txid) =>
      && i == id && q == p && txid == p.template && txid in s.accepted && u == AfterFinalizing(s, id, p)
      && (p.item.Offer? || p.item.Membership?)
    case Clearing(i) =>
      && i == id && p.template in s.accepted
      && (u == AfterFinalizing(s, id, p)
          || ((p.item.Offer? || p.item.Membership?) && u == WithSaved(AfterFinalizing(s, id, p), id, CONFIRMED, p.template)))
    case _ => false
  }

  /** The record the handler is at. */
  ghost predicate AtRecord(s: Shared, id: Id, p: Prepared) {
    SharedInv(s) && id in s.issued && s.issued[id] == p
  }

  lemma {:induction false} ReadersReach(s: Shared, id: Id, p: Prepared, u: Shared, process: Process, t: Shared, next: Option<Process>)
    requires AtRecord(s, id, p) && Reached(s, id, p, u, process) && OnlyReads(process) && ProcessStep(u, process, t, next)
    ensures next.Some? && Reached(s, id, p, t, next.value)
  {
    if process.Looking? && id in s.tables.workflows {
      assert GoodWorkflow(s, id, s.tables.workflows[id]);
    }
  }

  lemma {:induction false} WritersReach(s: Shared, id: Id, p: Prepared, u: Shared, process: Process, t: Shared, next: Option<Process>)
    requires AtRecord(s, id, p) && Reached(s, id, p, u, process) && !OnlyReads(process) && ProcessStep(u, process, t, next)
    requires next.Some?
    ensures Reached(s, id, p, t, next.value)
  {
  }

  lemma {:induction false} ParksOrDrops(s: Shared, id: Id, p: Prepared, u: Shared, process: Process, t: Shared)
    requires AtRecord(s, id, p) && Reached(s, id, p, u, process) && ProcessStep(u, process, t, None) && !process.Clearing?
    ensures Parked(s, t, id, p) || Dropped(s, t, id, p)
  {
    if process.Parking? {
      assert t == WithSaved(s, id, SUBMITTED, p.template);
    }
  }

  lemma {:induction false} ClearsFinalized(s: Shared, id: Id, p: Prepared, u: Shared, t: Shared)
    requires AtRecord(s, id, p) && Reached(s, id, p, u, Clearing(id)) && ProcessStep(u, Clearing(id), t, None)
    ensures Finalized(s, t, id, p)
  {
    var marked := if p.item.Post? then WithSaved(s, id, CONFIRMED, p.template) else s;
    if p.item.Post? {
      SaveKeeps(s, id, CONFIRMED, p.template);
    }
    MarkedIs(s, id, p, marked);
    FinalizedRows(marked, id, p);
    FinalizedPlaces(marked, id, p, p.template);
    ClearedIs(s, id, p, marked, WithFinalized(marked, id, p, p.template), u, t);
    assert p.item.PriceUpdate? || p.item.Cancel? ==> u.rows == s.rows;
  }

  lemma {:induction false} MarkedIs(s: Shared, id: Id, p: Prepared, marked: Shared)
    requires marked == if p.item.Post? then WithSaved(s, id, CONFIRMED, p.template) else s
    ensures marked.tables == s.tables.(workflows := marked.tables.workflows)
    ensures marked.tables.workflows - {id} == s.tables.workflows - {id}
    ensures marked.issued == s.issued && marked.accepted == s.accepted && marked.reported == s.reported
  {
  }

  lemma {:induction false} ClearedIs(s: Shared, id: Id, p: Prepared, marked: Shared, after: Shared, u: Shared, t: Shared)
    requires marked.tables.workflows - {id} == s.tables.workflows - {id} && marked.reported == s.reported
    requires after == WithFinalized(marked, id, p, p.template)
    requires after.tables.workflows == marked.tables.workflows
    requires u == after || u == WithSaved(after, id, CONFIRMED, p.template)
    requires t == u.(tables := DeleteWorkflow(u.tables, id))
    ensures t.tables == after.tables.(workflows := s.tables.workflows - {id}) && t.reported == s.reported + {p}
  {
    assert u.tables == after.tables.(workflows := u.tables.workflows) && u.reported == after.reported;
    assert u.tables.workflows - {id} == after.tables.workflows - {id};
  }

  lemma {:induction false} FinalizedRows(s: Shared, id: Id, p: Prepared)
    requires SharedInv(s) && Issued(s, id, p, p.template)
    ensures var t := WithFinalized(s, id, p, p.template).tables;
            if BuysARow(p) then
              && HasPurchase(t, p.item, p.buyer) && t.registry == s.tables.registry
              && s.tables.purchases <= t.purchases <= s.tables.purchases + {Purchase(p.item, p.buyer, p.template)}
            else t.purchases == s.tables.purchases && t.registry == Changed(s.tables.registry, p)
  {
    if BuysARow(p) {
      var row := Purchase(p.item, p.buyer, p.template);
      InsertedRow(s, id, p, row);
      assert WithFinalized(s, id, p, p.template).tables.purchases == Insert(s.tables, row).0.purchases;
    }
  }

  lemma {:induction false} InsertedRow(s: Shared, id: Id, p: Prepared, row: Purchase)
    requires SharedInv(s) && Issued(s, id, p, p.template) && row == Purchase(p.item, p.buyer, p.template)
    ensures var t := Insert(s.tables, row).0;
            HasPurchase(t, p.item, p.buyer) && s.tables.purchases <= t.purchases <= s.tables.purchases + {row}
  {
    var t := Insert(s.tables, row).0;
    if Taken(s.tables, row) {
      var other :| other in s.tables.purchases && Conflicts(row, other);
      ConflictIsSamePurchase(s, id, p, other);
      assert other in t.purchases;
    } else {
      assert row in t.purchases;
    }
  }

  // ----- the whole handler ----------------------------------------------------

  lemma {:induction false} AloneSteps(run: seq<Moment>, n: nat)
    requires Alone(run) && n + 1 < |run|
    ensures run[n].process.Some?
    ensures ProcessStep(run[n].shared, run[n].process.value, run[n + 1].shared, run[n + 1].process)
  {
  }

  lemma {:induction false} ReachedAlong(run: seq<Moment>, n: nat, s: Shared, id: Id, p: Prepared)
    requires Alone(run) && 0 < n < |run| && run[n].process.Some? && AtRecord(s, id, p)
    requires run[1].process.Some? && Reached(s, id, p, run[1].shared, run[1].process.value)
    ensures Reached(s, id, p, run[n].shared, run[n].process.value)
  {
    if n > 1 {
      AloneSteps(run, n - 1);
      ReachedAlong(run, n - 1, s, id, p);
      var u, process := run[n - 1].shared, run[n - 1].process.value;
      if OnlyReads(process) {
        ReadersReach(s, id, p, u, process, run[n].shared, run[n].process);
      } else {
        WritersReach(s, id, p, u, process, run[n].shared, run[n].process);
      }
    }
  }

  lemma {:induction false} LastStepEnds(run: seq<Moment>, s: Shared, id: Id, p: Prepared)
    requires Alone(run) && |run| > 2 && run[|run| - 1].process.None? && AtRecord(s, id, p)
    requires run[1].process.Some? && Reached(s, id, p, run[1].shared, run[1].process.value)
    ensures var t := run[|run| - 1].shared;
            Parked(s, t, id, p) || Dropped(s, t, id, p) || Finalized(s, t, id, p)
  {
    var n := |run| - 2;
    AloneSteps(run, n);
    ReachedAlong(run, n, s, id, p);
    var u, process, t := run[n].shared, run[n].process.value, run[n + 1].shared;
    if OnlyReads(process) {
      ReadersReach(s, id, p, u, process, t, None);
    } else if process.Clearing? {
      ClearsFinalized(s, id, p, u, t);
    } else {
      ParksOrDrops(s, id, p, u, process, t);
    }
  }

  lemma {:induction false} ReadsRecord(s: Shared, route: Route, id: Id, session: Key, t: Shared, next: Option<Process>)
    requires SharedInv(s) && ProcessStep(s, Fetching(route, id, session), t, next) && next.Some?
    ensures id in s.issued && Reached(s, id, s.issued[id], t, next.value)
  {
  }

  /**
   A handler that nothing interrupts is turned away, and then changes nothing, or,
   with an unexpired record of its kind and session, parks the workflow, drops it
   with the record, or finalizes, as it always does a payment on record as
   confirmed: and does nothing to any other record.
   */
  lemma {:induction false} HandlerEnds(run: seq<Moment>, route: Route, id: Id, session: Key)
    requires Alone(run) && SharedInv(run[0].shared)
    requires run[0].process == Some(Fetching(route, id, session)) && run[|run| - 1].process.None?
    ensures var s, t := run[0].shared, run[|run| - 1].shared;
            if id in s.tables.prepared && s.now < s.issued[id].expiresAt
               && BelongsTo(s.issued[id], session) && IsRouteOf(route, s.issued[id].item)
            then
              Parked(s, t, id, s.issued[id]) || Dropped(s, t, id, s.issued[id]) || Finalized(s, t, id, s.issued[id])
            else t == s
  {
    var s := run[0].shared;
    AloneSteps(run, 0);
    FetchAnswers(s, route, id, session, run[1].shared, run[1].process);
    if run[1].process.Some? {
      ReadsRecord(s, route, id, session, run[1].shared, run[1].process);
      LastStepEnds(run, s, id, s.issued[id]);
    } else {
      EndedIsLast(run, 1);
    }
  }

  lemma {:induction false} EndedIsLast(run: seq<Moment>, n: nat)
    requires Alone(run) && n < |run| && run[n].process.None?
    ensures n == |run| - 1
  {
  }

  // ----- every outcome does happen --------------------------------------------

  /** The run so far, from this moment to that. */
  ghost predicate Leads(run: seq<Moment>, first: Moment, last: Moment) {
    Alone(run) && run[0] == first && run[|run| - 1] == last
  }

  lemma {:induction false} Begins(m: Moment) returns (run: seq<Moment>)
    ensures Leads(run, m, m)
  {
    run := [m];
  }

  lemma {:induction false} GoesOn(run: seq<Moment>, first: Moment, last: Moment, t: Shared, next: Option<Process>)
    returns (longer: seq<Moment>)
    requires Leads(run, first, last) && last.process.Some? && ProcessStep(last.shared, last.process.value, t, next)
    ensures Leads(longer, first, Moment(t, next))
  {
    longer := run + [Moment(t, next)];
    forall i | 0 <= i < |longer| - 1
      ensures longer[i].process.Some?
      ensures ProcessStep(longer[i].shared, longer[i].process.value, longer[i + 1].shared, longer[i + 1].process)
    {
      if i < |run| - 1 {
        AloneSteps(run, i);
        assert longer[i] == run[i] && longer[i + 1] == run[i + 1];
      } else {
        assert longer[i] == last;
      }
    }
  }

  /** The session may finalize the record. */
  ghost predicate MayFinalize(s: Shared, route: Route, id: Id, session: Key) {
    && SharedInv(s) && id in s.tables.prepared && s.now < s.issued[id].expiresAt
    && BelongsTo(s.issued[id], session) && IsRouteOf(route, s.issued[id].item)
  }

  /** The handler with its record read, and for a payment its workflow looked up. */
  lemma {:induction false} Arrives(s: Shared, route: Route, id: Id, session: Key) returns (run: seq<Moment>, process: Process)
    requires MayFinalize(s, route, id, session)
    ensures Leads(run, Moment(s, Some(Fetching(route, id, session))), Moment(s, Some(process)))
    ensures var p := s.issued[id];
            process == if p.item.Post? && id in s.tables.workflows then
                         (if IsConfirmed(s, id, p) then Marking(id, p, p.template) else Asking(id, p, p.template))
                       else Submitting(id, p)
  {
    var p, first := s.issued[id], Moment(s, Some(Fetching(route, id, session)));
    assert s.tables.prepared[id] == p;
    run := Begins(first);
    if p.item.Post? {
      run := GoesOn(run, first, first, s, Some(Looking(id, p)));
      if id in s.tables.workflows {
        assert GoodWorkflow(s, id, s.tables.workflows[id]);
        process := if IsConfirmed(s, id, p) then Marking(id, p, p.template) else Asking(id, p, p.template);
      } else {
        process := Submitting(id, p);
      }
      run := GoesOn(run, first, Moment(s, Some(Looking(id, p))), s, Some(process));
    } else {
      process := Submitting(id, p);
      run := GoesOn(run, first, first, s, Some(process));
    }
  }

  /** Unless it is on record as confirmed, a submission may be parked. */
  lemma {:induction false} CanPark(s: Shared, route: Route, id: Id, session: Key) returns (run: seq<Moment>, t: Shared)
    requires MayFinalize(s, route, id, session) && !IsConfirmed(s, id, s.issued[id])
    ensures Leads(run, Moment(s, Some(Fetching(route, id, session))), Moment(t, None)) && Parked(s, t, id, s.issued[id])
  {
    var p, first := s.issued[id], Moment(s, Some(Fetching(route, id, session)));
    var process: Process;
    run, process := Arrives(s, route, id, session);
    run := GoesOn(run, first, Moment(s, Some(process)), s, Some(Parking(id, p, p.template)));
    t := WithSaved(s, id, SUBMITTED, p.template);
    run := GoesOn(run, first, Moment(s, Some(Parking(id, p, p.template))), t, None);
    ParksOrDrops(s, id, p, s, Parking(id, p, p.template), t);
  }

  /** A submission may be refused, but a payment only if it has no workflow. */
  lemma {:induction false} CanDrop(s: Shared, route: Route, id: Id, session: Key) returns (run: seq<Moment>, t: Shared)
    requires MayFinalize(s, route, id, session) && (s.issued[id].item.Post? ==> id !in s.tables.workflows)
    ensures Leads(run, Moment(s, Some(Fetching(route, id, session))), Moment(t, None)) && Dropped(s, t, id, s.issued[id])
  {
    var p, first := s.issued[id], Moment(s, Some(Fetching(route, id, session)));
    var process: Process;
    run, process := Arrives(s, route, id, session);
    run := GoesOn(run, first, Moment(s, Some(process)), s, Some(Dropping(id)));
    var u := s.(tables := DeleteWorkflow(s.tables, id));
    run := GoesOn(run, first, Moment(s, Some(Dropping(id))), u, Some(DroppingPrepared(id)));
    t := u.(tables := DeletePrepared(u.tables, id));
    run := GoesOn(run, first, Moment(u, Some(DroppingPrepared(id))), t, None);
  }

  lemma {:induction false} Clears(run: seq<Moment>, first: Moment, s: Shared, id: Id, p: Prepared, u: Shared)
    returns (longer: seq<Moment>, t: Shared)
    requires Leads(run, first, Moment(u, Some(Clearing(id)))) && AtRecord(s, id, p) && Reached(s, id, p, u, Clearing(id))
    ensures Leads(longer, first, Moment(t, None)) && Finalized(s, t, id, p)
  {
    t := u.(tables := DeleteWorkflow(u.tables, id));
    longer := GoesOn(run, first, Moment(u, Some(Clearing(id))), t, None);
    ClearsFinalized(s, id, p, u, t);
  }

  /** Once its transaction is accepted, a record may be finalized. */
  lemma {:induction false} CanFinalize(s: Shared, route: Route, id: Id, session: Key) returns (run: seq<Moment>, t: Shared)
    requires MayFinalize(s, route, id, session) && s.issued[id].template in s.accepted
    ensures Leads(run, Moment(s, Some(Fetching(route, id, session))), Moment(t, None)) && Finalized(s, t, id, s.issued[id])
  {
    var p, first := s.issued[id], Moment(s, Some(Fetching(route, id, session)));
    var process: Process;
    run, process := Arrives(s, route, id, session);
    if !process.Marking? {
      var accepted := OnAccepted(id, p, p.template);
      run := GoesOn(run, first, Moment(s, Some(process)), s, Some(accepted));
      process := accepted;
    }
    var marked := s;
    if p.item.Post? {
      marked := WithSaved(s, id, CONFIRMED, p.template);
      run := GoesOn(run, first, Moment(s, Some(process)), marked, Some(Finalizing(id, p, p.template)));
    } else if p.item.Membership? {
      run := GoesOn(run, first, Moment(s, Some(process)), s, Some(Finalizing(id, p, p.template)));
    }
    run, t := Finalizes(run, first, s, id, p, marked);
  }

  lemma {:induction false} Finalizes(run: seq<Moment>, first: Moment, s: Shared, id: Id, p: Prepared, marked: Shared)
    returns (longer: seq<Moment>, t: Shared)
    requires AtRecord(s, id, p) && Reached(s, id, p, marked, Finalizing(id, p, p.template))
    requires Leads(run, first, Moment(marked, Some(Finalizing(id, p, p.template))))
    ensures Leads(longer, first, Moment(t, None)) && Finalized(s, t, id, p)
  {
    var u, next := WithFinalized(marked, id, p, p.template), OnFinalized(id, p, p.template);
    longer := GoesOn(run, first, Moment(marked, Some(Finalizing(id, p, p.template))), u, Some(next));
    if next.MarkingAfter? {
      var again := WithSaved(u, id, CONFIRMED, p.template);
      longer := GoesOn(longer, first, Moment(u, Some(next)), again, Some(Clearing(id)));
      u := again;
    }
    longer, t := Clears(longer, first, s, id, p, u);
  }
}
