/**
 Which price the registry shows while handlers and reconcilers interleave, when
 it is the price the chain accepted last, and what follows for the live minter.
 */
module PriceRuns {
  import opened Wrappers
  import opened MembershipContract
  import opened Chain
  import opened Ledger
  import opened LedgerRuns
  import opened LedgerPrices
  import opened Registry
  import opened Tables
  import opened Protocol
  import opened ProtocolProofs
  import opened RegistryRuns
  import opened RegistryRaces

  /** The record sets this price for this covenant. */
  predicate Sets(item: Item, id: CovenantId, price: int) {
    (item.Offer? || item.PriceUpdate?) && item.covenantId == id && item.priceSompi == price
  }

  /** The k-th accepted transaction is an issued offer or update of the covenant at this price. */
  ghost predicate SetAt(s: Shared, k: nat, id: CovenantId, price: int) {
    k < |s.order| && exists rec :: rec in s.issued && s.issued[rec].template == s.order[k] && Sets(s.issued[rec].item, id, price)
  }

  ghost predicate LastSetAt(s: Shared, k: nat, id: CovenantId, price: int) {
    SetAt(s, k, id, price) && forall j, other :: k < j < |s.order| ==> !SetAt(s, j, id, other)
  }

  /** The price of the covenant's offer or update that the chain accepted last. */
  ghost predicate AcceptedLast(s: Shared, id: CovenantId, price: int) {
    exists k :: LastSetAt(s, k, id, price)
  }

  /** An offer or update of the same covenant, at another price, was accepted after this one and is the last. */
  ghost predicate Overtaken(s: Shared, p: Prepared) {
    (p.item.Offer? || p.item.PriceUpdate?) && exists i, k, price ::
      0 <= i < k && i < |s.order| && s.order[i] == p.template
      && LastSetAt(s, k, p.item.covenantId, price) && price != p.item.priceSompi
  }

  // ----- what every run keeps -------------------------------------------------

  ghost predicate OrderInv(s: Shared) {
    && (forall txid :: txid in s.accepted <==> txid in s.order)
    && (forall i, j :: 0 <= i < j < |s.order| ==> s.order[i] != s.order[j])
  }

  /** The row's price is the record's, which was issued and accepted. */
  ghost predicate WroteRow(s: Shared, p: Prepared, creator: Key, row: CovenantRow) {
    && Sets(p.item, row.covenantId, row.priceSompi) && p.item.creator == creator && p.template in s.accepted
    && exists id :: id in s.issued && s.issued[id] == p
  }

  ghost predicate WrittenInv(s: Shared) {
    forall creator :: creator in s.tables.registry.current ==>
      creator in s.written && WroteRow(s, s.written[creator], creator, s.tables.registry.current[creator])
  }

  lemma {:induction false} WroteStays(s: Shared, t: Shared, p: Prepared, creator: Key, row: CovenantRow)
    requires Grows(s, t) && WroteRow(s, p, creator, row)
    ensures WroteRow(t, p, creator, row)
  {
    var id :| id in s.issued && s.issued[id] == p;
    assert id in t.issued && t.issued[id] == p;
  }

  lemma {:induction false} WrittenStays(s: Shared, t: Shared)
    requires WrittenInv(s) && Grows(s, t) && t.tables.registry == s.tables.registry && t.written == s.written
    ensures WrittenInv(t)
  {
    forall creator | creator in t.tables.registry.current
      ensures WroteRow(t, t.written[creator], creator, t.tables.registry.current[creator])
    {
      WroteStays(s, t, s.written[creator], creator, s.tables.registry.current[creator]);
    }
  }

  /** Of the other creators' rows a change touches none; the creator's keeps price and id unless it writes them. */
  lemma {:induction false} ChangedRow(r: Registry, p: Prepared, creator: Key)
    requires creator in Changed(r, p).current
    ensures WritesPrice(r, p.item) && creator == p.item.creator ==>
              Sets(p.item, Changed(r, p).current[creator].covenantId, Changed(r, p).current[creator].priceSompi)
    ensures !(WritesPrice(r, p.item) && creator == p.item.creator) ==>
              && creator in r.current
              && Changed(r, p).current[creator].covenantId == r.current[creator].covenantId
              && Changed(r, p).current[creator].priceSompi == r.current[creator].priceSompi
  {
  }

  lemma {:induction false} FinalizeWrites(s: Shared, id: Id, p: Prepared, transactionId: TxId)
    requires WrittenInv(s) && Issued(s, id, p, transactionId) && transactionId in s.accepted
    requires Grows(s, WithFinalized(s, id, p, transactionId))
    requires WithFinalized(s, id, p, transactionId).tables.registry == Changed(s.tables.registry, p)
    ensures WrittenInv(WithFinalized(s, id, p, transactionId))
  {
    var t := WithFinalized(s, id, p, transactionId);
    forall creator | creator in t.tables.registry.current
      ensures creator in t.written && WroteRow(t, t.written[creator], creator, t.tables.registry.current[creator])
    {
      ChangedRow(s.tables.registry, p, creator);
      if WritesPrice(s.tables.registry, p.item) && creator == p.item.creator {
        assert t.issued[id] == p;
      } else {
        WroteStays(s, t, s.written[creator], creator, s.tables.registry.current[creator]);
      }
    }
  }

  /** Only finalizing touches the registry and what wrote it; no process accepts. */
  lemma {:induction false} ProcessRests(s: Shared, process: Process, t: Shared, next: Option<Process>)
    requires ProcessStep(s, process, t, next)
    ensures t.order == s.order && t.accepted == s.accepted
    ensures AboutToFinalize(process).None? ==> t.written == s.written
  {
  }

  lemma {:induction false} ProcessWrites(s: Shared, process: Process, t: Shared, next: Option<Process>)
    requires WrittenInv(s) && Grows(s, t) && Knows(s, process) && ProcessStep(s, process, t, next)
    ensures WrittenInv(t)
  {
    ProcessChanges(s, process, t, next);
    ProcessRests(s, process, t, next);
    if process.Finalizing? {
      FinalizeWrites(s, process.id, process.p, process.transactionId);
    } else if AboutToFinalize(process).Some? {
      FinalizeWrites(s, process.queue[0].id, process.phase.p, process.queue[0].workflow.transactionId);
    } else {
      WrittenStays(s, t);
    }
  }

  lemma {:induction false} WorldKeepsOrder(s: Shared, t: Shared)
    requires OrderInv(s) && WorldStep(s, t)
    ensures OrderInv(t) && t.tables.registry == s.tables.registry && t.written == s.written
  {
  }

  /** The protocol's own invariant with the two about prices. */
  ghost predicate PriceInv(a: System) {
    ProtocolProofs.Inv(a) && OrderInv(a.shared) && WrittenInv(a.shared)
  }

  lemma {:induction false} MoveKeepsPrices(a: System, b: System, pid: Pid, next: Option<Process>)
    requires PriceInv(a) && pid in a.processes && ProcessStep(a.shared, a.processes[pid], b.shared, next)
    requires ProtocolProofs.Inv(b) && Grows(a.shared, b.shared)
    ensures PriceInv(b)
  {
    ProcessRests(a.shared, a.processes[pid], b.shared, next);
    ProcessWrites(a.shared, a.processes[pid], b.shared, next);
  }

  lemma {:induction false} StepKeepsPrices(a: System, b: System)
    requires PriceInv(a) && Protocol.Step(a, b)
    ensures PriceInv(b) && Grows(a.shared, b.shared)
  {
    StepKeeps(a, b);
    if pid: Pid, next :| pid in a.processes && ProcessStep(a.shared, a.processes[pid], b.shared, next) &&
                         b.processes == Continue(a.processes, pid, next) {
      MoveKeepsPrices(a, b, pid, next);
    } else if b.processes == a.processes && WorldStep(a.shared, b.shared) {
      WorldKeepsOrder(a.shared, b.shared);
      WrittenStays(a.shared, b.shared);
    }
  }

  lemma {:induction false} StartPrices()
    ensures OrderInv(START.shared) && WrittenInv(START.shared)
  {
  }

  lemma {:induction false} RunKeepsPrices(run: seq<System>, n: nat)
    requires Protocol.IsRun(run) && n < |run|
    ensures PriceInv(run[n])
  {
    if n == 0 {
      RunKeeps(run, 0);
      StartPrices();
    } else {
      RunKeepsPrices(run, n - 1);
      RegistryRuns.RunSteps(run, n);
      StepKeepsPrices(run[n - 1], run[n]);
    }
  }

  // ----- when the row shows the price accepted last ---------------------------

  /** One transaction sets one price. */
  lemma {:induction false} OnePriceAt(s: Shared, k: nat, id: CovenantId, price: int, other: int)
    requires RecordsInv(s) && SetAt(s, k, id, price) && SetAt(s, k, id, other)
    ensures price == other
  {
    var a :| a in s.issued && s.issued[a].template == s.order[k] && Sets(s.issued[a].item, id, price);
    var b :| b in s.issued && s.issued[b].template == s.order[k] && Sets(s.issued[b].item, id, other);
  }

  lemma {:induction false} OneLastPrice(s: Shared, id: CovenantId, price: int, other: int)
    requires RecordsInv(s) && AcceptedLast(s, id, price) && AcceptedLast(s, id, other)
    ensures price == other
  {
    var j, k :| LastSetAt(s, j, id, price) && LastSetAt(s, k, id, other);
    assert j == k;
    OnePriceAt(s, k, id, price, other);
  }

  /** From a place where a price was set on, some place is the last. */
  lemma {:induction false} SomePlaceIsLast(s: Shared, i: nat, id: CovenantId, price: int) returns (k: nat, last: int)
    requires SetAt(s, i, id, price)
    ensures i <= k && LastSetAt(s, k, id, last)
    decreases |s.order| - i
  {
    if j, other :| i < j < |s.order| && SetAt(s, j, id, other) {
      k, last := SomePlaceIsLast(s, j, id, other);
    } else {
      k, last := i, price;
    }
  }

  lemma {:induction false} WrittenShowsLast(s: Shared, p: Prepared, creator: Key, row: CovenantRow)
    requires RecordsInv(s) && OrderInv(s) && WroteRow(s, p, creator, row)
    ensures AcceptedLast(s, row.covenantId, row.priceSompi) <==> !Overtaken(s, p)
  {
    var i :| 0 <= i < |s.order| && s.order[i] == p.template;
    var rec :| rec in s.issued && s.issued[rec] == p;
    assert SetAt(s, i, row.covenantId, row.priceSompi);
    var k, last := SomePlaceIsLast(s, i, row.covenantId, row.priceSompi);
    assert AcceptedLast(s, row.covenantId, last);
    if k == i {
      OnePriceAt(s, i, row.covenantId, last, row.priceSompi);
    }
    if AcceptedLast(s, row.covenantId, row.priceSompi) {
      OneLastPrice(s, row.covenantId, row.priceSompi, last);
      forall j, m, price | 0 <= j < m && j < |s.order| && s.order[j] == p.template && LastSetAt(s, m, row.covenantId, price)
        ensures price == row.priceSompi
      {
        assert AcceptedLast(s, row.covenantId, price);
        OneLastPrice(s, row.covenantId, price, row.priceSompi);
      }
    }
  }

  /**
   In every state of every interleaving, a creator's row shows the price the chain
   accepted last for its covenant exactly when the record that wrote it was not
   overtaken: no offer or update at another price, accepted after it, is the last.
   */
  lemma {:induction false} RowShowsLastPrice(run: seq<System>, n: nat, creator: Key)
    requires Protocol.IsRun(run) && n < |run| && creator in run[n].shared.tables.registry.current
    ensures var s, row := run[n].shared, run[n].shared.tables.registry.current[creator];
            && creator in s.written && Sets(s.written[creator].item, row.covenantId, row.priceSompi)
            && (AcceptedLast(s, row.covenantId, row.priceSompi) <==> !Overtaken(s, s.written[creator]))
  {
    RunKeepsPrices(run, n);
    var s := run[n].shared;
    WrittenShowsLast(s, s.written[creator], creator, s.tables.registry.current[creator]);
  }

  // ----- every step that writes -----------------------------------------------

  /** The i-th step finalizes a record that writes its creator's row. */
  ghost predicate WritesAt(run: seq<System>, i: nat, p: Prepared)
    requires i + 1 < |run|
  {
    var a, b := run[i], run[i + 1];
    && (p.item.Offer? || p.item.PriceUpdate?)
    && exists pid: Pid, next ::
         && pid in a.processes && AboutToFinalize(a.processes[pid]) == Some(p)
         && WritesPrice(a.shared.tables.registry, p.item)
         && ProcessStep(a.shared, a.processes[pid], b.shared, next)
         && b.processes == Continue(a.processes, pid, next)
  }

  /** Whenever a row is written up to the m-th state, it then shows the price accepted last. */
  ghost predicate WritesLastPrices(run: seq<System>, m: nat)
    requires m < |run|
  {
    forall i, p :: 0 <= i < m && WritesAt(run, i, p) ==>
      AcceptedLast(run[i + 1].shared, p.item.covenantId, p.item.priceSompi)
  }

  /** Whenever a row is written up to the m-th state, the record finalized is not overtaken. */
  ghost predicate FinalizesInTime(run: seq<System>, m: nat)
    requires m < |run|
  {
    forall i, p :: 0 <= i < m && WritesAt(run, i, p) ==> !Overtaken(run[i].shared, p)
  }

  /** A writing step puts the record's price into the row, and leaves the chain as it was. */
  lemma {:induction false} WriteWrites(run: seq<System>, i: nat, p: Prepared)
    requires Protocol.IsRun(run) && i + 1 < |run| && WritesAt(run, i, p)
    ensures var s := run[i + 1].shared;
            && p.item.creator in s.tables.registry.current && s.written[p.item.creator] == p
            && s.tables.registry.current[p.item.creator] == CovenantRow(p.item.covenantId, p.item.priceSompi, true)
            && s.order == run[i].shared.order && s.issued == run[i].shared.issued
  {
    var a, b := run[i], run[i + 1];
    var pid: Pid, next :|
      && pid in a.processes && AboutToFinalize(a.processes[pid]) == Some(p)
      && WritesPrice(a.shared.tables.registry, p.item)
      && ProcessStep(a.shared, a.processes[pid], b.shared, next)
      && b.processes == Continue(a.processes, pid, next);
    ProcessChanges(a.shared, a.processes[pid], b.shared, next);
    RunKeepsPrices(run, i + 1);
  }

  lemma {:induction false} SameOvertaken(s: Shared, t: Shared, p: Prepared)
    requires s.order == t.order && s.issued == t.issued
    ensures Overtaken(s, p) <==> Overtaken(t, p)
  {
    forall k: nat, id, price
      ensures SetAt(s, k, id, price) <==> SetAt(t, k, id, price)
    {
    }
    forall k: nat, id, price
      ensures LastSetAt(s, k, id, price) <==> LastSetAt(t, k, id, price)
    {
    }
  }

  lemma {:induction false} WriteShowsLast(run: seq<System>, i: nat, p: Prepared)
    requires Protocol.IsRun(run) && i + 1 < |run| && WritesAt(run, i, p)
    ensures AcceptedLast(run[i + 1].shared, p.item.covenantId, p.item.priceSompi) <==> !Overtaken(run[i].shared, p)
  {
    WriteWrites(run, i, p);
    RowShowsLastPrice(run, i + 1, p.item.creator);
    SameOvertaken(run[i].shared, run[i + 1].shared, p);
  }

  /**
   In every interleaving: each finalizing of an offer or price update that writes
   the row leaves it at the price accepted last for that covenant exactly when
   none of them finalizes a record that another price, accepted later, overtook.
   */
  lemma {:induction false} LastPricesExactlyWhenInTime(run: seq<System>, m: nat)
    requires Protocol.IsRun(run) && m < |run|
    ensures WritesLastPrices(run, m) <==> FinalizesInTime(run, m)
  {
    forall i, p | 0 <= i < m && WritesAt(run, i, p)
      ensures AcceptedLast(run[i + 1].shared, p.item.covenantId, p.item.priceSompi) <==> !Overtaken(run[i].shared, p)
    {
      WriteShowsLast(run, i, p);
    }
  }

  // ----- two handlers, one update ---------------------------------------------

  function UpdateRecord(creator: Key, id: CovenantId, price: int, template: TxId): Prepared {
    Prepared(PriceUpdate(creator, id, price), creator, template, 1)
  }

  /** An offer and an update of it are prepared and accepted, and nothing else. */
  ghost predicate OfferAndUpdate(s: Shared, creator: Key, id: CovenantId, offered: int, first: int) {
    && s.now == 0 && s.accepted == {1, 2} && s.order == [1, 2]
    && s.issued == map[1 := OfferRecord(creator, id, offered, 1), 2 := UpdateRecord(creator, id, first, 2)]
  }

  lemma {:induction false} PrepareOfferAndUpdate(creator: Key, id: CovenantId, offered: int, first: int) returns (a: System)
    ensures Later(START, a) && OfferAndUpdate(a.shared, creator, id, offered, first) && a.processes == map[]
    ensures a.shared.tables.registry == EMPTY_REGISTRY
    ensures GetPrepared(a.shared.tables, 1, 0) == Some(OfferRecord(creator, id, offered, 1))
    ensures GetPrepared(a.shared.tables, 2, 0) == Some(UpdateRecord(creator, id, first, 2))
  {
    var one := Prepare(START, 1, OfferRecord(creator, id, offered, 1));
    a := Prepare(one, 2, UpdateRecord(creator, id, first, 2));
    LaterThen(START, one, a);
  }

  /** The offer and the first update are finalized; another handler still holds the update. */
  ghost predicate FirstFinalized(a: System, creator: Key, id: CovenantId, offered: int, first: int) {
    && OfferAndUpdate(a.shared, creator, id, offered, first) && Waits(a, 2, UpdateRecord(creator, id, first, 2))
    && 3 !in a.processes && Holds(a.shared.tables.registry, creator, id)
    && a.shared.tables.registry.current[creator].priceSompi == first
  }

  lemma {:induction false} FinalizeFirst(creator: Key, id: CovenantId, offered: int, first: int) returns (a: System)
    ensures Later(START, a) && FirstFinalized(a, creator, id, offered, first)
  {
    var ready := PrepareOfferAndUpdate(creator, id, offered, first);
    var one := HandlerArrives(ready, 0, 1, OfferRecord(creator, id, offered, 1), creator);
    var two := HandlerArrives(one, 1, 2, UpdateRecord(creator, id, first, 2), creator);
    var three := HandlerArrives(two, 2, 2, UpdateRecord(creator, id, first, 2), creator);
    var four := HandlerFinalizes(three, 0, OfferRecord(creator, id, offered, 1));
    a := HandlerFinalizes(four, 1, UpdateRecord(creator, id, first, 2));
    LaterThen(START, ready, one);
    LaterThen(START, one, two);
    LaterThen(START, two, three);
    LaterThen(START, three, four);
    LaterThen(START, four, a);
  }

  /** The second update is prepared, accepted and finalized, and then the first once more. */
  lemma {:induction false} FinalizeSecond(a: System, creator: Key, id: CovenantId, offered: int, first: int, second: int)
    returns (b: System)
    requires FirstFinalized(a, creator, id, offered, first)
    ensures Later(a, b) && Holds(b.shared.tables.registry, creator, id)
    ensures b.shared.tables.registry.current[creator].priceSompi == first
    ensures b.shared.order == [1, 2, 3] && 3 in b.shared.issued && b.shared.issued[3] == UpdateRecord(creator, id, second, 3)
  {
    var one := Prepare(a, 3, UpdateRecord(creator, id, second, 3));
    var two := HandlerArrives(one, 3, 3, UpdateRecord(creator, id, second, 3), creator);
    var three := HandlerFinalizes(two, 3, UpdateRecord(creator, id, second, 3));
    b := HandlerFinalizes(three, 2, UpdateRecord(creator, id, first, 2));
    LaterThen(a, one, two);
    LaterThen(a, two, three);
    LaterThen(a, three, b);
  }

  lemma {:induction false} LaterKeepsPrices(a: System)
    requires Later(START, a)
    ensures PriceInv(a)
  {
    var run :| Walks(run, START, a);
    RunKeepsPrices(run, |run| - 1);
  }

  /**
   The price accepted last need not stand: two handlers read one update, one
   finalizes it, a second update is accepted and finalized, and then the other
   handler finalizes the first update again.
   */
  lemma {:induction false} LateUpdateStands(creator: Key, id: CovenantId, offered: int, first: int, second: int)
    returns (early: System, end: System)
    requires first != second
    ensures Later(START, early) && Later(early, end)
    ensures Holds(early.shared.tables.registry, creator, id)
    ensures early.shared.tables.registry.current[creator].priceSompi == first && 3 !in early.shared.accepted
    ensures Holds(end.shared.tables.registry, creator, id)
    ensures end.shared.tables.registry.current[creator].priceSompi == first
    ensures AcceptedLast(end.shared, id, second) && !AcceptedLast(end.shared, id, first)
  {
    early := FinalizeFirst(creator, id, offered, first);
    end := FinalizeSecond(early, creator, id, offered, first, second);
    LaterThen(START, early, end);
    LaterKeepsPrices(end);
    var s := end.shared;
    assert s.issued[3].template == s.order[2] && Sets(s.issued[3].item, id, second);
    assert SetAt(s, 2, id, second);
    assert LastSetAt(s, 2, id, second);
    if AcceptedLast(s, id, first) {
      OneLastPrice(s, id, first, second);
    }
  }

  // ----- the row and the live minter ------------------------------------------

  /**
   The server's view of the chain is the chain, and every offer and update of the
   covenant there is one it prepared, at the price it prepared.
   */
  ghost predicate Follows(s: Shared, l: Ledger, family: CovenantId)
    requires LogIsAccepted(l)
  {
    && s.order == l.log
    && forall k, price :: 0 <= k < |l.log| ==> (SetAt(s, k, family, price) <==> PriceSetBy(l, l.log[k], family) == Some(price))
  }

  lemma {:induction false} LastPriceIs(s: Shared, l: Ledger, family: CovenantId, n: nat, price: int)
    requires LogIsAccepted(l) && Follows(s, l, family) && n <= |l.log|
    requires forall j, other :: n <= j < |l.log| ==> !SetAt(s, j, family, other)
    requires LastPrice(l, family, n) == Some(price)
    ensures AcceptedLast(s, family, price)
    decreases n
  {
    var k := n - 1;
    var here := PriceSetBy(l, l.log[k], family);
    if here.Some? {
      assert SetAt(s, k, family, here.value);
      assert LastSetAt(s, k, family, price);
    } else {
      forall other
        ensures !SetAt(s, k, family, other)
      {
        assert SetAt(s, k, family, other) <==> PriceSetBy(l, l.log[k], family) == Some(other);
      }
      LastPriceIs(s, l, family, k, price);
    }
  }

  /**
   In every interleaving over a reachable chain, a creator's row names the live
   minter of its covenant exactly when the record that wrote it was not overtaken.
   */
  lemma {:induction false} RowNamesLiveMinter(
    run: seq<System>, n: nat, l: Ledger, family: CovenantId, creator: Key, platform: Key, at: Outpoint)
    requires Protocol.IsRun(run) && n < |run|
    requires Reachable(l) && IsOffer(family, creator, platform) && SoleMinter(l, family, at)
    requires LogIsAccepted(l) && Follows(run[n].shared, l, family)
    requires Holds(run[n].shared.tables.registry, creator, family)
    ensures OutputAt(l, at).script.PayToCovenant? && creator in run[n].shared.written
    ensures OutputAt(l, at).script.state ==
              MinterState(creator, platform, run[n].shared.tables.registry.current[creator].priceSompi)
            <==> !Overtaken(run[n].shared, run[n].shared.written[creator])
  {
    var s := run[n].shared;
    var row := s.tables.registry.current[creator];
    var price := OutputAt(l, at).script.state.priceSompi;
    LiveMinterHasLastPrice(l, family, creator, platform, at);
    LastPriceIs(s, l, family, |l.log|, price);
    RowShowsLastPrice(run, n, creator);
    RunKeepsPrices(run, n);
    if AcceptedLast(s, family, row.priceSompi) {
      OneLastPrice(s, family, price, row.priceSompi);
    }
  }
}
