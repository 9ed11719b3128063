/**
 What each call of the store does to its tables (backend/src/libsql-store.ts).
 Payments and memberships keep their rows in tables of their own; as ids are
 random and never shared, one set of tables stands for both here.
 */
module Tables {
  import opened Wrappers
  import opened MembershipContract
  import opened Chain
  import opened Registry

  type Id = nat

  datatype Item =
    | Post(postId: nat)
    | Membership(creator: Key, covenantId: CovenantId)
    | Offer(creator: Key, covenantId: CovenantId, priceSompi: int)
    | PriceUpdate(creator: Key, covenantId: CovenantId, priceSompi: int)
    | Cancel(creator: Key, covenantId: CovenantId)

  /**
   What the server prepared. `template` is the id its transaction will have: ids
   do not depend on signatures.
   */
  datatype Prepared = Prepared(item: Item, buyer: Key, template: TxId, expiresAt: int)

  datatype WorkflowState = SUBMITTED | CONFIRMED | REJECTED

  datatype Workflow = Workflow(
    state: WorkflowState, transactionId: TxId, rejection: Option<string>, submittedAt: Option<int>, finalizedAt: Option<int>)

  datatype Purchase = Purchase(item: Item, buyer: Key, transactionId: TxId)

  datatype Tables = Tables(
    prepared: map<Id, Prepared>, workflows: map<Id, Workflow>, purchases: set<Purchase>, registry: Registry)

  const NO_ROWS := Tables(map[], map[], {}, EMPTY_REGISTRY)

  // ----- prepared records -----------------------------------------------------

  function GetPrepared(t: Tables, id: Id, now: int): Option<Prepared> {
    if id in t.prepared && t.prepared[id].expiresAt > now then Some(t.prepared[id]) else None
  }

  function DeletePrepared(t: Tables, id: Id): Tables {
    t.(prepared := t.prepared - {id})
  }

  function PrunePrepared(t: Tables, now: int): Tables {
    t.(prepared := map id | id in t.prepared && t.prepared[id].expiresAt > now :: t.prepared[id])
  }

  // ----- workflows ------------------------------------------------------------

  /** An upsert that keeps the first submission time and the terminal mark. */
  function SaveWorkflow(t: Tables, id: Id, state: WorkflowState, transactionId: TxId, now: int): Tables {
    var row :=
      if id in t.workflows then
        t.workflows[id].(state := state, transactionId := transactionId, rejection := None,
                         submittedAt := if t.workflows[id].submittedAt.Some? then t.workflows[id].submittedAt else Some(now))
      else Workflow(state, transactionId, None, Some(now), None);
    t.(workflows := t.workflows[id := row])
  }

  function DeleteWorkflow(t: Tables, id: Id): Tables {
    t.(workflows := t.workflows - {id})
  }

  predicate Claimable(t: Tables, id: Id) {
    id in t.workflows && t.workflows[id].finalizedAt.None?
  }

  /** The first terminal claim on a row wins; the rest change nothing. */
  function Claim(t: Tables, id: Id, state: WorkflowState, now: int, rejection: Option<string>): Tables {
    if Claimable(t, id) then
      t.(workflows := t.workflows[id := t.workflows[id].(state := state, rejection := rejection, finalizedAt := Some(now))])
    else t
  }

  function Least(ids: set<Id>): (r: Id)
    requires ids != {}
    ensures r in ids && forall id :: id in ids ==> r <= id
  {
    LeastExists(ids);
    var m :| m in ids && forall id :: id in ids ==> m <= id;
    m
  }

  lemma {:induction false} LeastExists(ids: set<Id>)
    requires ids != {}
    ensures exists m :: m in ids && forall id :: id in ids ==> m <= id
  {
    var m := LeastOf(ids);
  }

  lemma {:induction false} LeastOf(ids: set<Id>) returns (m: Id)
    requires ids != {}
    ensures m in ids && forall id :: id in ids ==> m <= id
  {
    m :| m in ids;
    var rest := ids - {m};
    assert forall id :: id in ids ==> id == m || id in rest;
    if rest != {} {
      var other := LeastOf(rest);
      if other < m {
        m := other;
      }
    }
  }

  /** At most `limit` of the ids, smallest first. */
  function FirstIds(ids: set<Id>, limit: nat): (r: seq<Id>)
    ensures |r| <= limit
  {
    if ids == {} || limit == 0 then [] else [Least(ids)] + FirstIds(ids - {Least(ids)}, limit - 1)
  }

  function SubmittedIds(t: Tables): set<Id> {
    set id | id in t.workflows && t.workflows[id].state == SUBMITTED
  }

  function PendingIds(t: Tables, limit: nat): seq<Id> {
    FirstIds(SubmittedIds(t), limit)
  }

  lemma {:induction false} FirstIdsAre(ids: set<Id>, limit: nat)
    ensures var r := FirstIds(ids, limit);
            && (forall i :: 0 <= i < |r| ==> r[i] in ids)
            && (forall i, j :: 0 <= i < j < |r| ==> r[i] < r[j])
            && (|r| < limit ==> forall id :: id in ids ==> id in r)
            && (forall id, i :: id in ids && id !in r && 0 <= i < |r| ==> r[i] < id)
    decreases limit
  {
    if ids != {} && limit > 0 {
      FirstIdsAre(ids - {Least(ids)}, limit - 1);
    }
  }

  /** What is pending: workflows on record as submitted, smallest ids first, and all of them if fewer than the limit. */
  lemma {:induction false} PendingAre(t: Tables, limit: nat)
    ensures var r := PendingIds(t, limit);
            && |r| <= limit
            && (forall i :: 0 <= i < |r| ==> r[i] in t.workflows && t.workflows[r[i]].state == SUBMITTED)
            && (forall i, j :: 0 <= i < j < |r| ==> r[i] < r[j])
            && (forall id :: id in t.workflows && t.workflows[id].state == SUBMITTED && id !in r ==>
                  |r| == limit && forall i :: 0 <= i < |r| ==> r[i] < id)
  {
    var r := PendingIds(t, limit);
    FirstIdsAre(SubmittedIds(t), limit);
    forall i | 0 <= i < |r|
      ensures r[i] in t.workflows && t.workflows[r[i]].state == SUBMITTED
    {
      assert r[i] in SubmittedIds(t);
    }
    forall id | id in t.workflows && t.workflows[id].state == SUBMITTED
      ensures id in SubmittedIds(t)
    {
    }
  }

  // ----- purchases ------------------------------------------------------------

  /** Two rows one of the tables would not hold together. */
  predicate Conflicts(a: Purchase, b: Purchase) {
    && a.item.Post? == b.item.Post?
    && (a.transactionId == b.transactionId || (a.item.Post? && a.item == b.item && a.buyer == b.buyer))
  }

  predicate Taken(t: Tables, row: Purchase) {
    exists other :: other in t.purchases && Conflicts(row, other)
  }

  function Insert(t: Tables, row: Purchase): (Tables, Outcome) {
    if Taken(t, row) then (t, DUPLICATE) else (t.(purchases := t.purchases + {row}), CREATED)
  }

  /** `deletePost`, as far as its purchases go. */
  function DropPost(t: Tables, postId: nat): Tables {
    t.(purchases := set row | row in t.purchases && row.item != Post(postId))
  }

  // ----- finalizing -----------------------------------------------------------

  /** The store call that finalizes a prepared record, by what was prepared. */
  function Finalize(t: Tables, id: Id, p: Prepared, transactionId: TxId): (Tables, Outcome) {
    var (changed, outcome) :=
      match p.item
      case Post(_) => Insert(t, Purchase(p.item, p.buyer, transactionId))
      case Membership(_, _) => Insert(t, Purchase(p.item, p.buyer, transactionId))
      case Offer(creator, covenantId, price) => InRegistry(t, Offered(t.registry, creator, covenantId, price))
      case PriceUpdate(creator, covenantId, price) => InRegistry(t, Repriced(t.registry, creator, covenantId, price))
      case Cancel(creator, covenantId) => InRegistry(t, Canceled(t.registry, creator, covenantId));
    (DeletePrepared(changed, id), outcome)
  }

  function InRegistry(t: Tables, result: (Registry, Outcome)): (Tables, Outcome) {
    (t.(registry := result.0), result.1)
  }
}
