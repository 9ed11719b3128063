/** Whom a finalize handler serves: only the session the record belongs to, in every interleaving. */
module ProtocolSessions {
  import opened Wrappers
  import opened MembershipContract
  import opened Chain
  import opened Registry
  import opened Tables
  import opened Protocol
  import opened ProtocolProofs
  import opened RegistryRuns

  /** Posts and memberships belong to their buyer, everything else to its creator. */
  ghost predicate BelongsTo(p: Prepared, session: Key) {
    session == if p.item.Post? || p.item.Membership? then p.buyer else p.item.creator
  }

  ghost predicate IsRouteOf(route: Route, item: Item) {
    && (route.PaymentRoute? <==> item.Post?) && (route.PurchaseRoute? <==> item.Membership?)
    && (route.OfferRoute? <==> item.Offer?) && (route.PriceRoute? <==> item.PriceUpdate?)
    && (route.CancelRoute? <==> item.Cancel?)
  }

  /** A handler that has read its record. */
  predicate Serves(process: Process, id: Id) {
    !process.Starting? && !process.Reconciling? && !process.Fetching? && process.id == id
  }

  /** The process read the record in the m-th state for this session, and has been at it since. */
  ghost predicate AskedAt(run: seq<System>, m: nat, n: nat, pid: Pid, id: Id, route: Route, session: Key)
    requires n < |run|
  {
    && m < n && pid in run[m].processes && run[m].processes[pid] == Fetching(route, id, session)
    && forall k :: m < k <= n ==> pid in run[k].processes && Serves(run[k].processes[pid], id)
  }

  // ----- reading the record ---------------------------------------------------

  /**
   A handler goes on exactly with an unexpired record that belongs to its session
   and is of its kind. Any other ends it, and reading changes nothing either way.
   */
  lemma {:induction false} FetchAnswers(s: Shared, route: Route, id: Id, session: Key, t: Shared, next: Option<Process>)
    requires SharedInv(s) && ProcessStep(s, Fetching(route, id, session), t, next)
    ensures t == s
    ensures next.Some? <==>
            && id in s.tables.prepared && s.now < s.issued[id].expiresAt
            && BelongsTo(s.issued[id], session) && IsRouteOf(route, s.issued[id].item)
    ensures next.Some? ==> Serves(next.value, id)
  {
    if id in s.tables.prepared {
      assert s.issued[id] == s.tables.prepared[id];
    }
  }

  // ----- every run ------------------------------------------------------------

  /** The process is about to read a record that belongs to its session. */
  ghost predicate FetchesOwn(s: Shared, process: Process, id: Id) {
    && process.Fetching? && process.id == id && OwnedThrough(s, id, process.route, process.session)
  }

  ghost predicate OwnedThrough(s: Shared, id: Id, route: Route, session: Key) {
    id in s.issued && BelongsTo(s.issued[id], session) && IsRouteOf(route, s.issued[id].item)
  }

  /** Where a serving process was before a step: as it was, or at the record it then read. */
  lemma {:induction false} ServedBefore(a: System, b: System, pid: Pid, id: Id)
    requires ProtocolProofs.Inv(a) && Step(a, b) && pid in b.processes && Serves(b.processes[pid], id)
    ensures pid in a.processes && (Serves(a.processes[pid], id) || FetchesOwn(a.shared, a.processes[pid], id))
  {
    if mover: Pid, next :| mover in a.processes && ProcessStep(a.shared, a.processes[mover], b.shared, next)
                           && b.processes == Continue(a.processes, mover, next) {
      if mover == pid {
        MovedBefore(a.shared, a.processes[pid], b.shared, b.processes[pid], id);
      }
    }
  }

  lemma {:induction false} MovedBefore(s: Shared, process: Process, t: Shared, next: Process, id: Id)
    requires SharedInv(s) && ProcessStep(s, process, t, Some(next)) && Serves(next, id)
    ensures Serves(process, id) || FetchesOwn(s, process, id)
  {
    if process.Fetching? {
      FetchAnswers(s, process.route, process.id, process.session, t, Some(next));
    }
  }

  lemma {:induction false} AskedStill(run: seq<System>, m: nat, n: nat, pid: Pid, id: Id, route: Route, session: Key)
    requires 0 < n < |run| && AskedAt(run, m, n - 1, pid, id, route, session)
    requires pid in run[n].processes && Serves(run[n].processes[pid], id)
    ensures AskedAt(run, m, n, pid, id, route, session)
  {
  }

  lemma {:induction false} AskedJustNow(run: seq<System>, n: nat, pid: Pid, id: Id, route: Route, session: Key)
    requires 0 < n < |run| && pid in run[n - 1].processes && run[n - 1].processes[pid] == Fetching(route, id, session)
    requires pid in run[n].processes && Serves(run[n].processes[pid], id)
    ensures AskedAt(run, n - 1, n, pid, id, route, session)
  {
  }

  /** What a serving process was one state before. */
  lemma {:induction false} Before(run: seq<System>, n: nat, pid: Pid, id: Id) returns (before: Process)
    requires IsRun(run) && n < |run| && pid in run[n].processes && Serves(run[n].processes[pid], id)
    ensures n > 0 && pid in run[n - 1].processes && run[n - 1].processes[pid] == before
    ensures Grows(run[n - 1].shared, run[n].shared)
    ensures Serves(before, id) || FetchesOwn(run[n - 1].shared, before, id)
  {
    assert n > 0;
    RunKeeps(run, n - 1);
    RunSteps(run, n);
    StepKeeps(run[n - 1], run[n]);
    ServedBefore(run[n - 1], run[n], pid, id);
    before := run[n - 1].processes[pid];
  }

  lemma {:induction false} OwnedStays(s: Shared, t: Shared, id: Id, route: Route, session: Key)
    requires Grows(s, t) && OwnedThrough(s, id, route, session)
    ensures OwnedThrough(t, id, route, session)
  {
  }

  /** All of that at once. */
  ghost predicate ServedFor(run: seq<System>, m: nat, n: nat, pid: Pid, id: Id, route: Route, session: Key)
    requires n < |run|
  {
    AskedAt(run, m, n, pid, id, route, session) && OwnedThrough(run[n].shared, id, route, session)
  }

  lemma {:induction false} ServedStill(run: seq<System>, m: nat, n: nat, pid: Pid, id: Id, route: Route, session: Key)
    requires 0 < n < |run| && ServedFor(run, m, n - 1, pid, id, route, session) && Grows(run[n - 1].shared, run[n].shared)
    requires pid in run[n].processes && Serves(run[n].processes[pid], id)
    ensures ServedFor(run, m, n, pid, id, route, session)
  {
    AskedStill(run, m, n, pid, id, route, session);
    OwnedStays(run[n - 1].shared, run[n].shared, id, route, session);
  }

  lemma {:induction false} ServedSinceNow(run: seq<System>, n: nat, pid: Pid, id: Id, before: Process)
    requires 0 < n < |run| && pid in run[n - 1].processes && run[n - 1].processes[pid] == before
    requires FetchesOwn(run[n - 1].shared, before, id) && Grows(run[n - 1].shared, run[n].shared)
    requires pid in run[n].processes && Serves(run[n].processes[pid], id)
    ensures ServedFor(run, n - 1, n, pid, id, before.route, before.session)
  {
    AskedJustNow(run, n, pid, id, before.route, before.session);
    OwnedStays(run[n - 1].shared, run[n].shared, id, before.route, before.session);
  }

  ghost predicate ServesAt(run: seq<System>, n: nat, pid: Pid, id: Id)
    requires n < |run|
  {
    pid in run[n].processes && Serves(run[n].processes[pid], id)
  }

  /** One state before, it served already or was about to read its record. */
  ghost predicate ComesFrom(run: seq<System>, n: nat, pid: Pid, id: Id)
    requires n < |run|
  {
    && n > 0 && pid in run[n - 1].processes && Grows(run[n - 1].shared, run[n].shared)
    && (Serves(run[n - 1].processes[pid], id) || FetchesOwn(run[n - 1].shared, run[n - 1].processes[pid], id))
  }

  lemma {:induction false} SessionOf(run: seq<System>, n: nat, pid: Pid, id: Id) returns (m: nat, route: Route, session: Key)
    requires n < |run| && ServesAt(run, n, pid, id)
    requires forall k :: 0 <= k < |run| && ServesAt(run, k, pid, id) ==> ComesFrom(run, k, pid, id)
    ensures ServedFor(run, m, n, pid, id, route, session)
    decreases n
  {
    assert ComesFrom(run, n, pid, id);
    var before := run[n - 1].processes[pid];
    if Serves(before, id) {
      m, route, session := SessionOf(run, n - 1, pid, id);
      ServedStill(run, m, n, pid, id, route, session);
    } else {
      ServedSinceNow(run, n, pid, id, before);
      m, route, session := n - 1, before.route, before.session;
    }
  }

  /**
   In every interleaving, whatever a handler does to a record, its workflow or what
   it buys, it does for the session that asked for it through the record's own
   route, and that session is the record's buyer or creator.
   */
  lemma {:induction false} HandlersServeTheirSession(run: seq<System>, n: nat, pid: Pid, id: Id)
    returns (m: nat, route: Route, session: Key)
    requires IsRun(run) && n < |run| && pid in run[n].processes && Serves(run[n].processes[pid], id)
    ensures AskedAt(run, m, n, pid, id, route, session)
    ensures id in run[n].shared.issued
    ensures BelongsTo(run[n].shared.issued[id], session) && IsRouteOf(route, run[n].shared.issued[id].item)
  {
    forall k | 0 <= k < |run| && ServesAt(run, k, pid, id)
      ensures ComesFrom(run, k, pid, id)
    {
      var before := Before(run, k, pid, id);
    }
    m, route, session := SessionOf(run, n, pid, id);
  }

  /**
   In every interleaving, a handler asked for by a session the record does not
   belong to stays where it is until it ends, and its ending changes nothing.
   */
  lemma {:induction false} ForeignSessionsDoNothing(run: seq<System>, n: nat, pid: Pid, id: Id, route: Route, session: Key)
    requires IsRun(run) && n + 1 < |run| && pid in run[n].processes && run[n].processes[pid] == Fetching(route, id, session)
    requires id !in run[n].shared.issued || !BelongsTo(run[n].shared.issued[id], session)
    ensures pid in run[n + 1].processes ==> run[n + 1].processes[pid] == run[n].processes[pid]
    ensures pid !in run[n + 1].processes ==> run[n + 1].shared == run[n].shared
  {
    var a, b := run[n], run[n + 1];
    RunKeeps(run, n);
    RunSteps(run, n + 1);
    if mover: Pid, next :| mover in a.processes && ProcessStep(a.shared, a.processes[mover], b.shared, next)
                           && b.processes == Continue(a.processes, mover, next) {
      if mover == pid {
        FetchAnswers(a.shared, route, id, session, b.shared, next);
      }
    }
  }
}
