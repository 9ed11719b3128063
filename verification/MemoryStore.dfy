/**
 The in-memory form of the store (backend/src/memory-store.ts), and exactly where
 it and the database store part.
 */
module MemoryStore {
  import opened Wrappers
  import opened MembershipContract
  import opened Chain
  import opened Registry
  import opened Tables

  // ----- what its calls do ----------------------------------------------------

  /** The whole row is replaced; only the first submission time is kept. */
  function Saved(t: Tables, id: Id, state: WorkflowState, transactionId: TxId, now: int): Tables {
    var submittedAt :=
      if id in t.workflows && t.workflows[id].submittedAt.Some? then t.workflows[id].submittedAt else Some(now);
    t.(workflows := t.workflows[id := Workflow(state, transactionId, None, submittedAt, None)])
  }

  predicate HeldByAny(r: Registry, id: CovenantId) {
    exists creator :: creator in r.current && r.current[creator].covenantId == id
  }

  function Written(r: Registry, creator: Key, id: CovenantId, price: int, active: bool): Registry {
    Registry(r.current[creator := CovenantRow(id, price, active)], r.history[id := HistoryRow(creator, price, active)])
  }

  function MemoryOffered(r: Registry, creator: Key, id: CovenantId, price: int): (Registry, Outcome) {
    if creator in r.current && !r.current[creator].active then
      if id in r.history then (r, DUPLICATE) else (Written(r, creator, id, price, true), CREATED)
    else
      if creator in r.current || HeldByAny(r, id) then (r, DUPLICATE) else (Written(r, creator, id, price, true), CREATED)
  }

  /** There is no look at the status. */
  function MemoryRepriced(r: Registry, creator: Key, id: CovenantId, price: int): (Registry, Outcome) {
    if creator !in r.current || r.current[creator].covenantId != id then (r, DUPLICATE)
    else (Written(r, creator, id, price, true), CREATED)
  }

  function MemoryCanceled(r: Registry, creator: Key, id: CovenantId): (Registry, Outcome) {
    if !Holds(r, creator, id) then (r, DUPLICATE)
    else (Written(r, creator, id, r.current[creator].priceSompi, false), CREATED)
  }

  // ----- the store, updated in place ------------------------------------------

  class Store {
    var prepared: map<Id, Prepared>
    var workflows: map<Id, Workflow>
    var purchases: map<(nat, Key), TxId>
    var current: map<Key, CovenantRow>
    var history: map<CovenantId, HistoryRow>

    /** The post purchases as rows of the table. */
    function Rows(): set<Purchase>
      reads this
    {
      set key | key in purchases :: Purchase(Post(key.0), key.1, purchases[key])
    }

    function Contents(): Tables
      reads this
    {
      Tables(prepared, workflows, Rows(), Covenants())
    }

    function Covenants(): Registry
      reads this
    {
      Registry(current, history)
    }

    constructor ()
      ensures Contents() == NO_ROWS
    {
      prepared, workflows, purchases, current, history := map[], map[], map[], map[], map[];
    }

    method PutWorkflow(id: Id, state: WorkflowState, transactionId: TxId, now: int)
      modifies this
      ensures Contents() == Saved(old(Contents()), id, state, transactionId, now)
    {
      var submittedAt := Some(now);
      if id in workflows && workflows[id].submittedAt.Some? {
        submittedAt := workflows[id].submittedAt;
      }
      workflows := workflows[id := Workflow(state, transactionId, None, submittedAt, None)];
    }

    method ClaimTerminal(id: Id, state: WorkflowState, now: int, rejection: Option<string>) returns (claimed: Option<int>)
      modifies this
      ensures claimed == if Claimable(old(Contents()), id) then Some(now) else None
      ensures Contents() == Claim(old(Contents()), id, state, now, rejection)
    {
      if id !in workflows || workflows[id].finalizedAt.Some? {
        return None;
      }
      workflows := workflows[id := workflows[id].(state := state, rejection := rejection, finalizedAt := Some(now))];
      claimed := Some(now);
    }

    /** Agrees with the table's two uniqueness constraints. */
    method CreatePurchase(postId: nat, buyer: Key, transactionId: TxId) returns (outcome: Outcome)
      modifies this
      ensures (Contents(), outcome) == Insert(old(Contents()), Purchase(Post(postId), buyer, transactionId))
    {
      ghost var row := Purchase(Post(postId), buyer, transactionId);
      if (exists key :: key in purchases && purchases[key] == transactionId) || (postId, buyer) in purchases {
        ghost var key :| key in purchases && (purchases[key] == transactionId || key == (postId, buyer));
        assert Purchase(Post(key.0), key.1, purchases[key]) in Rows();
        assert Taken(Contents(), row);
        return DUPLICATE;
      }
      assert !Taken(Contents(), row);
      purchases := purchases[(postId, buyer) := transactionId];
      assert Rows() == old(Rows()) + {row};
      outcome := CREATED;
    }

    method FinalizePurchase(id: Id, postId: nat, buyer: Key, transactionId: TxId) returns (outcome: Outcome)
      modifies this
      ensures var (t, o) := Insert(old(Contents()), Purchase(Post(postId), buyer, transactionId));
              Contents() == DeletePrepared(t, id) && outcome == o
    {
      outcome := CreatePurchase(postId, buyer, transactionId);
      prepared := prepared - {id};
    }

    method FinalizeOffer(id: Id, creator: Key, covenantId: CovenantId, price: int) returns (outcome: Outcome)
      modifies this
      ensures (Covenants(), outcome) == MemoryOffered(old(Covenants()), creator, covenantId, price)
      ensures Contents() == DeletePrepared(old(Contents()), id).(registry := Covenants())
    {
      var canceled := creator in current && !current[creator].active;
      var taken :=
        if canceled then covenantId in history
        else creator in current || exists other :: other in current && current[other].covenantId == covenantId;
      if !taken {
        current := current[creator := CovenantRow(covenantId, price, true)];
        history := history[covenantId := HistoryRow(creator, price, true)];
      }
      prepared := prepared - {id};
      outcome := if taken then DUPLICATE else CREATED;
    }

    method FinalizePriceUpdate(id: Id, creator: Key, covenantId: CovenantId, price: int) returns (outcome: Outcome)
      modifies this
      ensures (Covenants(), outcome) == MemoryRepriced(old(Covenants()), creator, covenantId, price)
      ensures Contents() == DeletePrepared(old(Contents()), id).(registry := Covenants())
    {
      if creator !in current || current[creator].covenantId != covenantId {
        prepared := prepared - {id};
        return DUPLICATE;
      }
      current := current[creator := CovenantRow(covenantId, price, true)];
      history := history[covenantId := HistoryRow(creator, price, true)];
      prepared := prepared - {id};
      outcome := CREATED;
    }

    method FinalizeCancellation(id: Id, creator: Key, covenantId: CovenantId) returns (outcome: Outcome)
      modifies this
      ensures (Covenants(), outcome) == MemoryCanceled(old(Covenants()), creator, covenantId)
      ensures Contents() == DeletePrepared(old(Contents()), id).(registry := Covenants())
    {
      if creator !in current || current[creator].covenantId != covenantId || !current[creator].active {
        prepared := prepared - {id};
        return DUPLICATE;
      }
      var price := current[creator].priceSompi;
      current := current[creator := CovenantRow(covenantId, price, false)];
      history := history[covenantId := HistoryRow(creator, price, false)];
      prepared := prepared - {id};
      outcome := CREATED;
    }
  }

  // ----- where the two stores agree -------------------------------------------

  /** Saving a workflow is the same in both exactly when no terminal mark is there to lose. */
  lemma {:induction false} SavesAgree(t: Tables, id: Id, state: WorkflowState, transactionId: TxId, now: int)
    ensures Saved(t, id, state, transactionId, now) == SaveWorkflow(t, id, state, transactionId, now)
            <==> (id in t.workflows ==> t.workflows[id].finalizedAt.None?)
  {
    var a, b := Saved(t, id, state, transactionId, now), SaveWorkflow(t, id, state, transactionId, now);
    assert a.workflows[id].finalizedAt == b.workflows[id].finalizedAt <==> (id in t.workflows ==> t.workflows[id].finalizedAt.None?);
    assert a == b <==> a.workflows[id] == b.workflows[id];
  }

  /** A save between two claims lets the second one succeed in memory, never in the database. */
  lemma {:induction false} SaveReopens(
    t: Tables, id: Id, first: WorkflowState, saved: WorkflowState, transactionId: TxId, now: int, rejection: Option<string>)
    requires Claimable(t, id)
    ensures Claimable(Saved(Claim(t, id, first, now, rejection), id, saved, transactionId, now), id)
    ensures !Claimable(SaveWorkflow(Claim(t, id, first, now, rejection), id, saved, transactionId, now), id)
  {
    assert Claim(t, id, first, now, rejection).workflows[id].finalizedAt == Some(now);
  }

  /** On a consistent registry the stores finalize an offer alike exactly unless its id is reused. */
  lemma {:induction false} OffersAgree(r: Registry, creator: Key, id: CovenantId, price: int)
    requires Consistent(r)
    ensures MemoryOffered(r, creator, id, price) == Offered(r, creator, id, price)
            <==> !(Upserts(r, creator, id) && id in r.history)
  {
    if HeldByAny(r, id) {
      var holder :| holder in r.current && r.current[holder].covenantId == id;
      assert id in r.history;
    }
    if Upserts(r, creator, id) && id in r.history {
      assert Offered(r, creator, id, price).0.current[creator].active;
      assert creator in r.current ==> MemoryOffered(r, creator, id, price).0.current[creator] == r.current[creator];
    }
  }

  /** A price update is alike exactly unless it would bring a cancelled covenant back, as in memory it does. */
  lemma {:induction false} UpdatesAgree(r: Registry, creator: Key, id: CovenantId, price: int)
    requires Consistent(r)
    ensures MemoryRepriced(r, creator, id, price) == Repriced(r, creator, id, price)
            <==> !(creator in r.current && r.current[creator] == CovenantRow(id, r.current[creator].priceSompi, false))
    ensures MemoryRepriced(r, creator, id, price) != Repriced(r, creator, id, price) ==>
              IsCanceled(r, id) && Holds(MemoryRepriced(r, creator, id, price).0, creator, id)
  {
    if Holds(r, creator, id) {
      assert r.history[id].creator == creator;
    }
  }

  /** Cancellations are always alike. */
  lemma {:induction false} CancellationsAgree(r: Registry, creator: Key, id: CovenantId)
    requires Consistent(r)
    ensures MemoryCanceled(r, creator, id) == Canceled(r, creator, id)
  {
    if Holds(r, creator, id) {
      assert r.history[id] == HistoryRow(creator, r.current[creator].priceSompi, true);
    }
  }
}
