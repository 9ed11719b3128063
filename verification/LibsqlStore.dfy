/** The store itself: every call updates the tables in place as Tables says. */
module LibsqlStore {
  import opened Wrappers
  import opened MembershipContract
  import opened Chain
  import opened Registry
  import opened Tables

  class Store {
    var prepared: map<Id, Prepared>
    var workflows: map<Id, Workflow>
    var purchases: set<Purchase>
    var current: map<Key, CovenantRow>
    var history: map<CovenantId, HistoryRow>

    function Contents(): Tables
      reads this
    {
      Tables(prepared, workflows, purchases, Registry(current, history))
    }

    constructor ()
      ensures Contents() == NO_ROWS
    {
      prepared, workflows, purchases, current, history := map[], map[], {}, map[], map[];
    }

    method SavePrepared(id: Id, p: Prepared) returns (r: Result<()>)
      modifies this
      ensures r.Ok? <==> id !in old(prepared)
      ensures Contents() == if r.Ok? then old(Contents()).(prepared := old(prepared)[id := p]) else old(Contents())
    {
      if id in prepared {
        return Err("UNIQUE constraint failed");
      }
      prepared := prepared[id := p];
      r := Ok(());
    }

    method Prepared(id: Id, now: int) returns (r: Option<Prepared>)
      ensures r == GetPrepared(Contents(), id, now)
      ensures r.Some? <==> id in prepared && now < prepared[id].expiresAt
      ensures r.Some? ==> r.value == prepared[id]
    {
      r := if id in prepared && prepared[id].expiresAt > now then Some(prepared[id]) else None;
    }

    method RemovePrepared(id: Id)
      modifies this
      ensures Contents() == DeletePrepared(old(Contents()), id)
    {
      prepared := prepared - {id};
    }

    method Prune(now: int)
      modifies this
      ensures Contents() == PrunePrepared(old(Contents()), now)
      ensures forall id :: id in prepared <==> id in old(prepared) && now < old(prepared)[id].expiresAt
      ensures forall id :: id in prepared ==> prepared[id] == old(prepared)[id]
    {
      prepared := map id | id in prepared && prepared[id].expiresAt > now :: prepared[id];
    }

    method PutWorkflow(id: Id, state: WorkflowState, transactionId: TxId, now: int)
      modifies this
      ensures Contents() == SaveWorkflow(old(Contents()), id, state, transactionId, now)
    {
      var submittedAt, finalizedAt := Some(now), None;
      if id in workflows {
        finalizedAt := workflows[id].finalizedAt;
        if workflows[id].submittedAt.Some? {
          submittedAt := workflows[id].submittedAt;
        }
      }
      workflows := workflows[id := Workflow(state, transactionId, None, submittedAt, finalizedAt)];
    }

    method WorkflowOf(id: Id) returns (r: Option<Workflow>)
      ensures r == if id in workflows then Some(workflows[id]) else None
    {
      r := if id in workflows then Some(workflows[id]) else None;
    }

    method RemoveWorkflow(id: Id)
      modifies this
      ensures Contents() == DeleteWorkflow(old(Contents()), id)
    {
      workflows := workflows - {id};
    }

    /** The terminal claim: the time of the claim if this call made it. */
    method ClaimTerminal(id: Id, state: WorkflowState, now: int, rejection: Option<string>) returns (claimed: Option<int>)
      modifies this
      ensures claimed == if Claimable(old(Contents()), id) then Some(now) else None
      ensures Contents() == Claim(old(Contents()), id, state, now, rejection)
    {
      if id !in workflows || workflows[id].finalizedAt.Some? {
        return None;
      }
      workflows := workflows[id := workflows[id].(state := state, rejection := rejection, finalizedAt := Some(now))];
      claimed := Some(now);
    }

    /** Unresolved workflows as they are now, smallest id first. */
    method Pending(limit: nat) returns (r: seq<(Id, Workflow)>)
      ensures |r| == |PendingIds(Contents(), limit)|
      ensures forall i :: 0 <= i < |r| ==>
                r[i].0 == PendingIds(Contents(), limit)[i] && r[i].0 in workflows && r[i].1 == workflows[r[i].0]
    {
      r := [];
      var left := SubmittedIds(Contents());
      while left != {} && |r| < limit
        invariant |r| <= limit && left <= SubmittedIds(Contents())
        invariant forall i :: 0 <= i < |r| ==> r[i].0 in workflows && r[i].1 == workflows[r[i].0]
        invariant PendingIds(Contents(), limit) == seq(|r|, i requires 0 <= i < |r| => r[i].0) + FirstIds(left, limit - |r|)
        decreases left
      {
        var id := Least(left);
        r := r + [(id, workflows[id])];
        left := left - {id};
      }
    }

    method InsertPurchase(row: Purchase) returns (outcome: Outcome)
      modifies this
      ensures (Contents(), outcome) == Insert(old(Contents()), row)
    {
      if exists other :: other in purchases && Conflicts(row, other) {
        return DUPLICATE;
      }
      purchases := purchases + {row};
      outcome := CREATED;
    }

    /** Insert, then drop the prepared record whatever the outcome. */
    method FinalizePurchase(id: Id, row: Purchase) returns (outcome: Outcome)
      modifies this
      ensures var (t, o) := Insert(old(Contents()), row);
              Contents() == DeletePrepared(t, id) && outcome == o
    {
      outcome := InsertPurchase(row);
      RemovePrepared(id);
    }

    /** `deletePost` of a post that is there, as far as its purchases go. */
    method DeletePost(postId: nat)
      modifies this
      ensures Contents() == DropPost(old(Contents()), postId)
      ensures forall row :: row in purchases <==> row in old(purchases) && !(row.item.Post? && row.item.postId == postId)
    {
      purchases := set row | row in purchases && row.item != Post(postId);
    }

    method FinalizeOffer(id: Id, creator: Key, covenantId: CovenantId, price: int) returns (outcome: Outcome)
      modifies this
      ensures var (t, o) := InRegistry(old(Contents()), Offered(old(Contents()).registry, creator, covenantId, price));
              Contents() == DeletePrepared(t, id) && outcome == o
    {
      if creator in current && current[creator].active {
        RemovePrepared(id);
        return DUPLICATE;
      }
      if exists other :: other in current && other != creator && current[other].covenantId == covenantId {
        RemovePrepared(id);
        return DUPLICATE;
      }
      current := current[creator := CovenantRow(covenantId, price, true)];
      if covenantId in history {
        RemovePrepared(id);
        return DUPLICATE;
      }
      history := history[covenantId := HistoryRow(creator, price, true)];
      RemovePrepared(id);
      outcome := CREATED;
    }

    method FinalizePriceUpdate(id: Id, creator: Key, covenantId: CovenantId, price: int) returns (outcome: Outcome)
      modifies this
      ensures var (t, o) := InRegistry(old(Contents()), Repriced(old(Contents()).registry, creator, covenantId, price));
              Contents() == DeletePrepared(t, id) && outcome == o
    {
      if !(creator in current && current[creator].covenantId == covenantId && current[creator].active) {
        RemovePrepared(id);
        return DUPLICATE;
      }
      current := current[creator := current[creator].(priceSompi := price)];
      if covenantId in history && history[covenantId].creator == creator {
        history := history[covenantId := HistoryRow(creator, price, true)];
      }
      RemovePrepared(id);
      outcome := CREATED;
    }

    method FinalizeCancellation(id: Id, creator: Key, covenantId: CovenantId) returns (outcome: Outcome)
      modifies this
      ensures var (t, o) := InRegistry(old(Contents()), Canceled(old(Contents()).registry, creator, covenantId));
              Contents() == DeletePrepared(t, id) && outcome == o
    {
      if !(creator in current && current[creator].covenantId == covenantId && current[creator].active) {
        RemovePrepared(id);
        return DUPLICATE;
      }
      current := current[creator := current[creator].(active := false)];
      if covenantId in history && history[covenantId].creator == creator {
        history := history[covenantId := history[covenantId].(active := false)];
      }
      RemovePrepared(id);
      outcome := CREATED;
    }

    /** Which of the four the callers choose, by what was prepared. */
    method FinalizeRecord(id: Id, p: Prepared, transactionId: TxId) returns (outcome: Outcome)
      modifies this
      ensures (Contents(), outcome) == Finalize(old(Contents()), id, p, transactionId)
    {
      match p.item {
        case Post(_) => outcome := FinalizePurchase(id, Purchase(p.item, p.buyer, transactionId));
        case Membership(_, _) => outcome := FinalizePurchase(id, Purchase(p.item, p.buyer, transactionId));
        case Offer(creator, covenantId, price) => outcome := FinalizeOffer(id, creator, covenantId, price);
        case PriceUpdate(creator, covenantId, price) => outcome := FinalizePriceUpdate(id, creator, covenantId, price);
        case Cancel(creator, covenantId) => outcome := FinalizeCancellation(id, creator, covenantId);
      }
    }
  }
}
