/**
 The covenant registry: each creator's current covenant and the history of all
 of them (backend/src/libsql-store.ts, creator_covenants and
 creator_covenant_history).
 */
module Registry {
  import opened MembershipContract
  import opened Chain

  datatype Outcome = CREATED | DUPLICATE

  datatype CovenantRow = CovenantRow(covenantId: CovenantId, priceSompi: int, active: bool)

  datatype HistoryRow = HistoryRow(creator: Key, priceSompi: int, active: bool)

  /** Keyed by creator, and by covenant id, as the tables' constraints are. */
  datatype Registry = Registry(current: map<Key, CovenantRow>, history: map<CovenantId, HistoryRow>)

  const EMPTY_REGISTRY := Registry(map[], map[])

  predicate HasActive(r: Registry, creator: Key) {
    creator in r.current && r.current[creator].active
  }

  /** Another creator's current row holds the id, which the column keeps unique. */
  predicate HeldByOther(r: Registry, creator: Key, id: CovenantId) {
    exists other :: other in r.current && other != creator && r.current[other].covenantId == id
  }

  /** The current row is written. */
  predicate Upserts(r: Registry, creator: Key, id: CovenantId) {
    !HasActive(r, creator) && !HeldByOther(r, creator, id)
  }

  /** The row for the creator, and the history row unless the id is already there. */
  function Offered(r: Registry, creator: Key, id: CovenantId, price: int): (Registry, Outcome) {
    if !Upserts(r, creator, id) then (r, DUPLICATE)
    else
      var current := r.current[creator := CovenantRow(id, price, true)];
      if id in r.history then (Registry(current, r.history), DUPLICATE)
      else (Registry(current, r.history[id := HistoryRow(creator, price, true)]), CREATED)
  }

  /** The creator's current covenant is this one and is not cancelled. */
  predicate Holds(r: Registry, creator: Key, id: CovenantId) {
    HasActive(r, creator) && r.current[creator].covenantId == id
  }

  /** The history row an update of this creator's covenant reaches, if any. */
  function UpdateHistory(r: Registry, creator: Key, id: CovenantId, row: HistoryRow): map<CovenantId, HistoryRow> {
    if id in r.history && r.history[id].creator == creator then r.history[id := row] else r.history
  }

  function Repriced(r: Registry, creator: Key, id: CovenantId, price: int): (Registry, Outcome) {
    if !Holds(r, creator, id) then (r, DUPLICATE)
    else
      (Registry(r.current[creator := CovenantRow(id, price, true)],
                UpdateHistory(r, creator, id, HistoryRow(creator, price, true))), CREATED)
  }

  function Canceled(r: Registry, creator: Key, id: CovenantId): (Registry, Outcome) {
    if !Holds(r, creator, id) then (r, DUPLICATE)
    else
      var price := r.current[creator].priceSompi;
      (Registry(r.current[creator := CovenantRow(id, price, false)],
                if id in r.history && r.history[id].creator == creator
                then r.history[id := r.history[id].(active := false)] else r.history), CREATED)
  }

  // ----- what the registry keeps ----------------------------------------------

  /** Current rows are in the history as they are, and every active covenant is current. */
  ghost predicate Consistent(r: Registry) {
    && (forall creator :: creator in r.current ==>
          var row := r.current[creator];
          row.covenantId in r.history && r.history[row.covenantId] == HistoryRow(creator, row.priceSompi, row.active))
    && (forall id :: id in r.history && r.history[id].active ==> Holds(r, r.history[id].creator, id))
  }

  /** A creator's active covenants number at most one. */
  lemma {:induction false} OneActiveEach(r: Registry, id: CovenantId, other: CovenantId)
    requires Consistent(r) && id in r.history && other in r.history
    requires r.history[id].active && r.history[other].active && r.history[id].creator == r.history[other].creator
    ensures id == other
  {
    assert Holds(r, r.history[id].creator, id);
    assert Holds(r, r.history[other].creator, other);
  }

  /**
   Finalizing an offer keeps the registry consistent exactly unless the current
   row is written while the history already has the id.
   */
  lemma {:induction false} OfferKeepsConsistent(r: Registry, creator: Key, id: CovenantId, price: int)
    requires Consistent(r)
    ensures Consistent(Offered(r, creator, id, price).0) <==> !(Upserts(r, creator, id) && id in r.history)
  {
    var next := Offered(r, creator, id, price).0;
    if Upserts(r, creator, id) {
      if id in r.history {
        CollisionBreaks(r, creator, id, price);
      } else {
        forall other | other in r.history && next.history[other].active
          ensures Holds(next, next.history[other].creator, other)
        {
          assert Holds(r, r.history[other].creator, other);
        }
      }
    }
  }

  lemma {:induction false} CollisionBreaks(r: Registry, creator: Key, id: CovenantId, price: int)
    requires Consistent(r) && Upserts(r, creator, id) && id in r.history
    ensures !Consistent(Offered(r, creator, id, price).0)
  {
    var next := Offered(r, creator, id, price).0;
    assert next.current[creator] == CovenantRow(id, price, true);
    assert r.history[id].active ==> Holds(r, r.history[id].creator, id);
  }

  lemma {:induction false} UpdateKeepsConsistent(r: Registry, creator: Key, id: CovenantId, price: int)
    requires Consistent(r)
    ensures Consistent(Repriced(r, creator, id, price).0)
  {
    var next := Repriced(r, creator, id, price).0;
    if Holds(r, creator, id) {
      assert r.history[id].creator == creator;
      forall other | other in next.history && next.history[other].active
        ensures Holds(next, next.history[other].creator, other)
      {
        assert other != id ==> Holds(r, r.history[other].creator, other);
      }
    }
  }

  lemma {:induction false} CancelKeepsConsistent(r: Registry, creator: Key, id: CovenantId)
    requires Consistent(r)
    ensures Consistent(Canceled(r, creator, id).0)
    ensures Canceled(r, creator, id).1 == CREATED ==>
              id in Canceled(r, creator, id).0.history && !Canceled(r, creator, id).0.history[id].active
  {
    var next := Canceled(r, creator, id).0;
    if Holds(r, creator, id) {
      assert r.history[id].creator == creator;
      forall other | other in next.history && next.history[other].active
        ensures Holds(next, next.history[other].creator, other)
      {
        assert Holds(r, r.history[other].creator, other);
      }
    }
  }

  // ----- runs -----------------------------------------------------------------

  datatype Change =
    | OfferChange(creator: Key, covenantId: CovenantId, priceSompi: int)
    | PriceChange(creator: Key, covenantId: CovenantId, priceSompi: int)
    | Cancellation(creator: Key, covenantId: CovenantId)

  function Apply(r: Registry, c: Change): Registry {
    match c
    case OfferChange(creator, id, price) => Offered(r, creator, id, price).0
    case PriceChange(creator, id, price) => Repriced(r, creator, id, price).0
    case Cancellation(creator, id) => Canceled(r, creator, id).0
  }

  function After(r: Registry, changes: seq<Change>): Registry {
    if changes == [] then r else Apply(After(r, changes[..|changes| - 1]), changes[|changes| - 1])
  }

  predicate Collides(r: Registry, c: Change) {
    c.OfferChange? && Upserts(r, c.creator, c.covenantId) && c.covenantId in r.history
  }

  /** No offer that is written reuses a covenant id, as ids from fresh outpoints never do. */
  ghost predicate Fresh(r: Registry, changes: seq<Change>) {
    forall i :: 0 <= i < |changes| ==> !Collides(After(r, changes[..i]), changes[i])
  }

  /** A covenant once cancelled is in the history as cancelled. */
  predicate IsCanceled(r: Registry, id: CovenantId) {
    id in r.history && !r.history[id].active
  }

  lemma {:induction false} ChangeKeeps(r: Registry, c: Change, id: CovenantId)
    requires Consistent(r) && !Collides(r, c)
    ensures Consistent(Apply(r, c))
    ensures IsCanceled(r, id) ==> IsCanceled(Apply(r, c), id)
    ensures id in r.history ==> id in Apply(r, c).history && Apply(r, c).history[id].creator == r.history[id].creator
  {
    match c
    case OfferChange(creator, covenantId, price) => OfferKeepsConsistent(r, creator, covenantId, price);
    case PriceChange(creator, covenantId, price) => UpdateKeepsConsistent(r, creator, covenantId, price);
    case Cancellation(creator, covenantId) => CancelKeepsConsistent(r, creator, covenantId);
  }

  lemma {:induction false} RunsKeep(r: Registry, changes: seq<Change>, n: nat, m: nat, id: CovenantId)
    requires Consistent(r) && Fresh(r, changes) && n <= m <= |changes|
    ensures Consistent(After(r, changes[..m]))
    ensures IsCanceled(After(r, changes[..n]), id) ==> IsCanceled(After(r, changes[..m]), id)
    decreases m
  {
    if m > 0 {
      RunsKeep(r, changes, if n < m then n else m - 1, m - 1, id);
      assert changes[..m][..m - 1] == changes[..m - 1];
      ChangeKeeps(After(r, changes[..m - 1]), changes[m - 1], id);
    } else {
      assert changes[..0] == [];
    }
  }

  /**
   Over every run of offers, price updates and cancellations without reused ids:
   current and history agree, and a cancelled covenant is never active again.
   */
  lemma {:induction false} CanceledStaysCanceled(changes: seq<Change>, n: nat, m: nat, id: CovenantId)
    requires Fresh(EMPTY_REGISTRY, changes) && n <= m <= |changes|
    requires IsCanceled(After(EMPTY_REGISTRY, changes[..n]), id)
    ensures var r := After(EMPTY_REGISTRY, changes[..m]);
            Consistent(r) && IsCanceled(r, id) && forall creator :: !Holds(r, creator, id)
  {
    RunsKeep(EMPTY_REGISTRY, changes, n, m, id);
  }

  /** A reused id brings a cancelled covenant back: the row is written although the answer is DUPLICATE. */
  lemma {:induction false} ReusedIdReactivates(creator: Key, first: CovenantId, second: CovenantId, price: int)
    requires first != second
    ensures var before := After(EMPTY_REGISTRY, [
              OfferChange(creator, first, price), Cancellation(creator, first),
              OfferChange(creator, second, price), Cancellation(creator, second)]);
            && Consistent(before) && IsCanceled(before, first)
            && Offered(before, creator, first, price).1 == DUPLICATE
            && Holds(Offered(before, creator, first, price).0, creator, first)
            && !Consistent(Offered(before, creator, first, price).0)
  {
    var a, b := OfferChange(creator, first, price), Cancellation(creator, first);
    var c, d := OfferChange(creator, second, price), Cancellation(creator, second);
    AfterFour(EMPTY_REGISTRY, a, b, c, d);
    var r1 := Apply(EMPTY_REGISTRY, a);
    var r2 := Apply(r1, b);
    var r3 := Apply(r2, c);
    var before := Apply(r3, d);
    ChangeKeeps(EMPTY_REGISTRY, a, first);
    ChangeKeeps(r1, b, first);
    ChangeKeeps(r2, c, first);
    ChangeKeeps(r3, d, first);
    assert Holds(r1, creator, first);
    assert IsCanceled(r2, first) && second !in r2.history;
    assert Upserts(r2, creator, second);
    assert Holds(r3, creator, second);
    assert before.current[creator] == CovenantRow(second, price, false);
    assert Upserts(before, creator, first);
    CollisionBreaks(before, creator, first, price);
  }

  lemma {:induction false} AfterFour(r: Registry, a: Change, b: Change, c: Change, d: Change)
    ensures After(r, [a, b, c, d]) == Apply(Apply(Apply(Apply(r, a), b), c), d)
  {
    assert [a, b, c, d][..3] == [a, b, c] && [a, b, c][..2] == [a, b] && [a, b][..1] == [a] && [a][..0] == [];
    assert After(r, [a]) == Apply(r, a);
    assert After(r, [a, b]) == Apply(Apply(r, a), b);
    assert After(r, [a, b, c]) == Apply(Apply(Apply(r, a), b), c);
  }
}
