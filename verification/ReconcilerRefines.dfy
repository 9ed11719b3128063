/**
 A reconciler whose calls nothing interrupts does, call by call, what one pass does
 as a whole: Protocol's steps come to Reconciler's verdicts.
 */
module ReconcilerRefines {
  import opened Wrappers
  import opened MembershipContract
  import opened Chain
  import opened Registry
  import opened Tables
  import opened Protocol
  import opened HandlerOutcomes
  import R = Reconciler

  /** A pass at this time to which the chain gives this answer. */
  function PassWith(now: int, answer: R.Answer): R.Pass {
    R.Pass(now, STALE_WORKFLOW_MS, (transactionId: TxId, p: Prepared) => answer)
  }

  /** The tables after settling the workflows in order, each by the answer it got. */
  ghost function SettledBy(t: Tables, queue: seq<Seen>, now: int, answers: seq<R.Answer>): Tables
    requires |answers| == |queue|
  {
    if queue == [] then t
    else
      var n := |queue| - 1;
      R.Settled(SettledBy(t, queue[..n], now, answers[..n]), queue[n].id, queue[n].workflow, PassWith(now, answers[n]))
  }

  /** How many of them are settled, and so counted. */
  ghost function CountedBy(t: Tables, queue: seq<Seen>, now: int, answers: seq<R.Answer>): nat
    requires |answers| == |queue|
  {
    if queue == [] then 0
    else
      var n := |queue| - 1;
      var before := SettledBy(t, queue[..n], now, answers[..n]);
      CountedBy(t, queue[..n], now, answers[..n])
      + if Settles(R.VerdictOf(before, queue[n].id, queue[n].workflow, PassWith(now, answers[n]))) then 1 else 0
  }

  /** Only of an accepted transaction does the chain say so. */
  ghost predicate Truthful(accepted: set<TxId>, queue: seq<Seen>, answers: seq<R.Answer>)
    requires |answers| == |queue|
  {
    forall i :: 0 <= i < |queue| && answers[i] == R.Accepted ==> queue[i].workflow.transactionId in accepted
  }

  // ----- one workflow ---------------------------------------------------------

  /** How the claim to come was decided. */
  ghost predicate Decided(s: Shared, seen: Seen, now: int, terminal: Terminal, record: Option<Prepared>) {
    var p := GetPrepared(s.tables, seen.id, now);
    match terminal
    case Confirm => p.Some? && record == p && seen.workflow.transactionId in s.accepted
    case Reject => p.Some? && record == None
    case Abandon(_) =>
      record == None && (p.None? || Age(seen.workflow, now) > STALE_WORKFLOW_MS)
  }

  /** What has been done about the head of the queue, which was taken up in s. */
  ghost predicate HeadReached(s: Shared, seen: Seen, now: int, u: Shared, phase: Phase) {
    match phase
    case Fetch => u == s
    case Ask(p) => u == s && GetPrepared(s.tables, seen.id, now) == Some(p)
    case ToClaim(terminal, record) => u == s && Decided(s, seen, now, terminal, record)
    case ToFinalize(p, lifetime) =>
      && Claimable(s.tables, seen.id) && Decided(s, seen, now, Confirm, Some(p)) && u == WithClaim(s, seen.id, Confirm, now)
    case ToClear(lifetime) =>
      && Claimable(s.tables, seen.id)
      && ((exists p :: Decided(s, seen, now, Confirm, Some(p))
                       && u == WithFinalized(WithClaim(s, seen.id, Confirm, now), seen.id, p, seen.workflow.transactionId))
          || (exists terminal :: terminal != Confirm && Decided(s, seen, now, terminal, None)
                                 && u == WithClaim(s, seen.id, terminal, now)))
  }

  /** The verdicts that settle a workflow, and are counted. */
  predicate Settles(verdict: R.Verdict) {
    verdict in {R.Confirmed, R.Rejected, R.Abandoned}
  }

  ghost predicate HeadSettled(s: Shared, seen: Seen, now: int, t: Shared, answer: R.Answer) {
    && t.tables == R.Settled(s.tables, seen.id, seen.workflow, PassWith(now, answer))
    && (answer == R.Accepted ==> seen.workflow.transactionId in s.accepted)
    && t.accepted == s.accepted
    && |t.tally| == |s.tally| + if Settles(R.VerdictOf(s.tables, seen.id, seen.workflow, PassWith(now, answer))) then 1 else 0
  }

  /** What a claim leaves on the row: the outcome and the time, and why, if it was not confirmed. */
  lemma {:induction false} ClaimMarks(s: Shared, id: Id, terminal: Terminal, now: int)
    requires Claimable(s.tables, id)
    ensures var row, w := WithClaim(s, id, terminal, now).tables.workflows, s.tables.workflows[id];
            row == s.tables.workflows[id :=
              match terminal
              case Confirm => Workflow(CONFIRMED, w.transactionId, None, w.submittedAt, Some(now))
              case Reject => Workflow(REJECTED, w.transactionId, Some("RECONCILED_REJECTED"), w.submittedAt, Some(now))
              case Abandon(reason) => Workflow(REJECTED, w.transactionId, Some(reason), w.submittedAt, Some(now))]
  {
  }

  lemma {:induction false} SameAge(w: Workflow, now: int)
    ensures R.Age(w, now) == Age(w, now)
  {
  }

  /** The head's phases follow each other. */
  lemma {:induction false} HeadGoesOn(s: Shared, process: Process, u: Shared, t: Shared, next: Process)
    requires process.Reconciling? && process.queue != [] && ProcessStep(u, process, t, Some(next))
    requires HeadReached(s, process.queue[0], process.now, u, process.phase)
    requires next.Reconciling? && next.queue == process.queue
    ensures next.now == process.now && HeadReached(s, process.queue[0], process.now, t, next.phase)
    ensures t.accepted == u.accepted
  {
    assert process.queue[1..] != process.queue;
  }

  /** Where the head is left as it is: still undecided, or claimed by another. */
  lemma {:induction false} HeadIsLeft(s: Shared, process: Process, u: Shared, t: Shared, next: Process)
    returns (answer: R.Answer)
    requires process.Reconciling? && process.queue != [] && ProcessStep(u, process, t, Some(next))
    requires HeadReached(s, process.queue[0], process.now, u, process.phase)
    requires process.phase.Ask? || process.phase.ToClaim?
    requires next == Reconciling(process.now, process.queue[1..], Fetch)
    ensures HeadSettled(s, process.queue[0], process.now, t, answer)
  {
    var seen, now := process.queue[0], process.now;
    SameAge(seen.workflow, now);
    if process.phase.Ask? {
      answer := R.Undecided;
    } else {
      answer := if process.phase.terminal == Confirm then R.Accepted else if process.phase.terminal == Reject then R.Refused else R.Undecided;
    }
  }

  lemma {:induction false} ConfirmedIsSettled(s: Shared, seen: Seen, now: int, p: Prepared)
    requires Claimable(s.tables, seen.id) && Decided(s, seen, now, Confirm, Some(p))
    ensures var u := WithFinalized(WithClaim(s, seen.id, Confirm, now), seen.id, p, seen.workflow.transactionId);
            DeleteWorkflow(u.tables, seen.id) == R.Settled(s.tables, seen.id, seen.workflow, PassWith(now, R.Accepted))
    ensures Settles(R.VerdictOf(s.tables, seen.id, seen.workflow, PassWith(now, R.Accepted)))
  {
  }

  lemma {:induction false} OthersAreSettled(s: Shared, seen: Seen, now: int, terminal: Terminal)
    requires Claimable(s.tables, seen.id) && terminal != Confirm && Decided(s, seen, now, terminal, None)
    ensures DeleteWorkflow(WithClaim(s, seen.id, terminal, now).tables, seen.id) ==
            R.Settled(s.tables, seen.id, seen.workflow, PassWith(now, if terminal == Reject then R.Refused else R.Undecided))
    ensures Settles(R.VerdictOf(s.tables, seen.id, seen.workflow, PassWith(now, if terminal == Reject then R.Refused else R.Undecided)))
  {
    SameAge(seen.workflow, now);
    var t := WithClaim(s, seen.id, terminal, now).tables;
    assert t.workflows - {seen.id} == s.tables.workflows - {seen.id};
  }

  lemma {:induction false} HeadIsCleared(s: Shared, process: Process, u: Shared, t: Shared, next: Process)
    returns (answer: R.Answer)
    requires process.Reconciling? && process.queue != [] && ProcessStep(u, process, t, Some(next))
    requires HeadReached(s, process.queue[0], process.now, u, process.phase) && process.phase.ToClear?
    requires next == Reconciling(process.now, process.queue[1..], Fetch)
    ensures HeadSettled(s, process.queue[0], process.now, t, answer)
  {
    var seen, now := process.queue[0], process.now;
    if p :| Decided(s, seen, now, Confirm, Some(p))
            && u == WithFinalized(WithClaim(s, seen.id, Confirm, now), seen.id, p, seen.workflow.transactionId) {
      ConfirmedIsSettled(s, seen, now, p);
      answer := R.Accepted;
    } else {
      var terminal :| terminal != Confirm && Decided(s, seen, now, terminal, None) && u == WithClaim(s, seen.id, terminal, now);
      OthersAreSettled(s, seen, now, terminal);
      answer := if terminal == Reject then R.Refused else R.Undecided;
    }
  }

  // ----- the whole pass -------------------------------------------------------

  /** The first k workflows are settled, by these answers, and the next is being seen to. */
  ghost predicate PassReached(
    s: Shared, queue: seq<Seen>, now: int, k: nat, answers: seq<R.Answer>, base: Shared, u: Shared, process: Process)
  {
    && k <= |queue| && |answers| == k && process.Reconciling? && process.now == now && process.queue == queue[k..]
    && base.tables == SettledBy(s.tables, queue[..k], now, answers) && base.accepted == s.accepted
    && |base.tally| == |s.tally| + CountedBy(s.tables, queue[..k], now, answers)
    && Truthful(s.accepted, queue[..k], answers)
    && (if k < |queue| then HeadReached(base, queue[k], now, u, process.phase) else u == base)
  }

  lemma {:induction false} SettledNext(t: Tables, queue: seq<Seen>, now: int, k: nat, answers: seq<R.Answer>, answer: R.Answer)
    requires k < |queue| && |answers| == k
    ensures SettledBy(t, queue[..k + 1], now, answers + [answer]) ==
            R.Settled(SettledBy(t, queue[..k], now, answers), queue[k].id, queue[k].workflow, PassWith(now, answer))
    ensures CountedBy(t, queue[..k + 1], now, answers + [answer]) ==
            CountedBy(t, queue[..k], now, answers)
            + if Settles(R.VerdictOf(SettledBy(t, queue[..k], now, answers), queue[k].id, queue[k].workflow, PassWith(now, answer)))
              then 1 else 0
  {
    assert queue[..k + 1][..k] == queue[..k] && (answers + [answer])[..k] == answers;
  }

  lemma {:induction false} HeadEnds(
    s: Shared, queue: seq<Seen>, now: int, k: nat, answers: seq<R.Answer>, base: Shared, answer: R.Answer, t: Shared, next: Process)
    requires k < |queue| && |answers| == k && base.tables == SettledBy(s.tables, queue[..k], now, answers)
    requires base.accepted == s.accepted && Truthful(s.accepted, queue[..k], answers)
    requires |base.tally| == |s.tally| + CountedBy(s.tables, queue[..k], now, answers)
    requires HeadSettled(base, queue[k], now, t, answer) && next == Reconciling(now, queue[k + 1..], Fetch)
    ensures PassReached(s, queue, now, k + 1, answers + [answer], t, t, next)
  {
    SettledNext(s.tables, queue, now, k, answers, answer);
  }

  lemma {:induction false} PassGoesOn(
    s: Shared, queue: seq<Seen>, now: int, k: nat, answers: seq<R.Answer>, base: Shared, u: Shared, process: Process,
    t: Shared, next: Process)
    returns (k': nat, answers': seq<R.Answer>, base': Shared)
    requires PassReached(s, queue, now, k, answers, base, u, process) && ProcessStep(u, process, t, Some(next))
    ensures PassReached(s, queue, now, k', answers', base', t, next)
  {
    k', answers', base' := k, answers, base;
    assert process.queue != [] && process.queue[0] == queue[k];
    if next.Reconciling? && next.queue == process.queue {
      HeadGoesOn(base, process, u, t, next);
    } else {
      assert process.queue[1..] == queue[k + 1..];
      var answer: R.Answer;
      if process.phase.ToClear? {
        answer := HeadIsCleared(base, process, u, t, next);
      } else {
        answer := HeadIsLeft(base, process, u, t, next);
      }
      HeadEnds(s, queue, now, k, answers, base, answer, t, next);
      k', answers', base' := k + 1, answers + [answer], t;
    }
  }

  lemma {:induction false} PassAlong(run: seq<Moment>, n: nat, queue: seq<Seen>, now: int)
    returns (k: nat, answers: seq<R.Answer>, base: Shared)
    requires Alone(run) && 0 < n < |run| && run[n].process.Some?
    requires run[1].process == Some(Reconciling(now, queue, Fetch))
    ensures PassReached(run[1].shared, queue, now, k, answers, base, run[n].shared, run[n].process.value)
  {
    if n == 1 {
      k, answers, base := 0, [], run[1].shared;
    } else {
      AloneSteps(run, n - 1);
      var k0, answers0, base0 := PassAlong(run, n - 1, queue, now);
      k, answers, base := PassGoesOn(run[1].shared, queue, now, k0, answers0, base0, run[n - 1].shared, run[n - 1].process.value,
                                     run[n].shared, run[n].process.value);
    }
  }

  /**
   A reconciler that nothing interrupts leaves the tables as one pass over the
   pending workflows as they were would, for some answers of the chain that are
   true, and counts the workflows it settled.
   */
  lemma {:induction false} AlonePassSettles(run: seq<Moment>, limit: nat) returns (answers: seq<R.Answer>)
    requires Alone(run) && run[0].process == Some(Starting(limit)) && run[|run| - 1].process.None?
    ensures var s, t := run[0].shared, run[|run| - 1].shared;
            var queue, ids := ReadPending(s, limit), PendingIds(s.tables, limit);
            && |queue| == |ids|
            && (forall i :: 0 <= i < |ids| ==> ids[i] in s.tables.workflows && queue[i] == Seen(ids[i], s.tables.workflows[ids[i]]))
            && |answers| == |queue| && Truthful(s.accepted, queue, answers)
            && t.tables == SettledBy(s.tables, queue, s.now, answers)
            && |t.tally| == |s.tally| + CountedBy(s.tables, queue, s.now, answers)
  {
    var s := run[0].shared;
    var queue := ReadPending(s, limit);
    AloneSteps(run, 0);
    var n := |run| - 2;
    AloneSteps(run, n);
    var k, reached, base := PassAlong(run, n, queue, s.now);
    PassEnds(s, queue, s.now, k, reached, base, run[n].shared, run[n].process.value, run[n + 1].shared);
    FirstIdsAre(SubmittedIds(s.tables), limit);
    answers := reached;
  }

  lemma {:induction false} PassEnds(
    s: Shared, queue: seq<Seen>, now: int, k: nat, answers: seq<R.Answer>, base: Shared, u: Shared, process: Process, t: Shared)
    requires PassReached(s, queue, now, k, answers, base, u, process) && ProcessStep(u, process, t, None)
    ensures k == |queue| && t.tables == SettledBy(s.tables, queue, now, answers) && Truthful(s.accepted, queue, answers)
    ensures |t.tally| == |s.tally| + CountedBy(s.tables, queue, now, answers)
  {
    assert process.queue == [];
    assert k == |queue| && queue[..k] == queue;
  }

  // ----- and that is the pass -------------------------------------------------

  lemma {:induction false} SameAnswerSettles(t: Tables, id: Id, w: Workflow, pass: R.Pass, other: R.Pass)
    requires pass.now == other.now && pass.staleWorkflowMs == other.staleWorkflowMs
    requires id in t.prepared ==> pass.answer(w.transactionId, t.prepared[id]) == other.answer(w.transactionId, t.prepared[id])
    ensures R.Settled(t, id, w, pass) == R.Settled(t, id, w, other)
  {
  }

  /** Answers that depend on transaction and record alone make it the pass Reconciler runs. */
  lemma {:induction false} SettledByIsThePass(start: Tables, queue: seq<Seen>, ids: seq<Id>, pass: R.Pass, answers: seq<R.Answer>)
    requires |answers| == |queue| == |ids| && pass.staleWorkflowMs == 86_400_000
    requires R.AreWorkflows(start, ids) && forall i :: 0 <= i < |ids| ==> queue[i] == Seen(ids[i], start.workflows[ids[i]])
    requires forall i, j :: 0 <= i < j < |ids| ==> ids[i] != ids[j]
    requires forall i :: 0 <= i < |ids| && ids[i] in start.prepared ==>
               answers[i] == pass.answer(start.workflows[ids[i]].transactionId, start.prepared[ids[i]])
    ensures SettledBy(start, queue, pass.now, answers) == R.SettledAll(start, ids, pass)
  {
    if ids != [] {
      var n := |ids| - 1;
      assert R.AreWorkflows(start, ids[..n]);
      SettledByIsThePass(start, queue[..n], ids[..n], pass, answers[..n]);
      var t := R.SettledAll(start, ids[..n], pass);
      R.OthersUntouched(start, ids[..n], pass, ids[n]);
      SameAnswerSettles(t, ids[n], start.workflows[ids[n]], PassWith(pass.now, answers[n]), pass);
    }
  }

  // ----- and every pass does happen -------------------------------------------

  lemma {:induction false} ClaimHappens(
    run: seq<Moment>, first: Moment, s: Shared, now: int, queue: seq<Seen>, terminal: Terminal, record: Option<Prepared>)
    returns (longer: seq<Moment>, t: Shared)
    requires queue != [] && Decided(s, queue[0], now, terminal, record)
    requires Leads(run, first, Moment(s, Some(Reconciling(now, queue, ToClaim(terminal, record)))))
    ensures Leads(longer, first, Moment(t, Some(Reconciling(now, queue[1..], Fetch))))
    ensures HeadSettled(s, queue[0], now, t, if terminal == Confirm then R.Accepted else if terminal == Reject then R.Refused else R.Undecided)
  {
    var seen, id := queue[0], queue[0].id;
    var u := WithClaim(s, id, terminal, now);
    var claiming := Moment(s, Some(Reconciling(now, queue, ToClaim(terminal, record))));
    var onward := Some(Reconciling(now, queue[1..], Fetch));
    SameAge(seen.workflow, now);
    if !Claimable(s.tables, id) {
      t := u;
      longer := GoesOn(run, first, claiming, t, onward);
    } else {
      var lifetime := Lifetime(id, RowsOf(s, id));
      if record.Some? {
        var finalizing := Moment(u, Some(Reconciling(now, queue, ToFinalize(record.value, lifetime))));
        longer := GoesOn(run, first, claiming, u, finalizing.process);
        u := WithFinalized(u, id, record.value, seen.workflow.transactionId);
        longer := GoesOn(longer, first, finalizing, u, Some(Reconciling(now, queue, ToClear(lifetime))));
        ConfirmedIsSettled(s, seen, now, record.value);
      } else {
        longer := GoesOn(run, first, claiming, u, Some(Reconciling(now, queue, ToClear(lifetime))));
        OthersAreSettled(s, seen, now, terminal);
      }
      t := u.(tables := DeleteWorkflow(u.tables, id), tally := u.tally + [lifetime]);
      longer := GoesOn(longer, first, Moment(u, Some(Reconciling(now, queue, ToClear(lifetime)))), t, onward);
    }
  }

  /** Any answer the chain can truly give about the head settles it so. */
  lemma {:induction false} HeadHappens(run: seq<Moment>, first: Moment, s: Shared, now: int, queue: seq<Seen>, answer: R.Answer)
    returns (longer: seq<Moment>, t: Shared)
    requires queue != [] && answer != R.Failed && (answer == R.Accepted ==> queue[0].workflow.transactionId in s.accepted)
    requires Leads(run, first, Moment(s, Some(Reconciling(now, queue, Fetch))))
    ensures Leads(longer, first, Moment(t, Some(Reconciling(now, queue[1..], Fetch)))) && t.accepted == s.accepted
    ensures t.tables == R.Settled(s.tables, queue[0].id, queue[0].workflow, PassWith(now, answer))
  {
    var seen, record := queue[0], GetPrepared(s.tables, queue[0].id, now);
    var fetching := Moment(s, Some(Reconciling(now, queue, Fetch)));
    if record.None? {
      longer := GoesOn(run, first, fetching, s, Some(Reconciling(now, queue, ToClaim(Abandon("prepared_missing"), None))));
      longer, t := ClaimHappens(longer, first, s, now, queue, Abandon("prepared_missing"), None);
    } else {
      var asking := Moment(s, Some(Reconciling(now, queue, Ask(record.value))));
      longer := GoesOn(run, first, fetching, s, asking.process);
      SameAge(seen.workflow, now);
      if answer == R.Undecided && Age(seen.workflow, now) <= STALE_WORKFLOW_MS {
        t := s;
        longer := GoesOn(longer, first, asking, s, Some(Reconciling(now, queue[1..], Fetch)));
      } else {
        var terminal := if answer == R.Accepted then Confirm else if answer == R.Refused then Reject else Abandon("unconfirmed_timeout");
        var claimed := if answer == R.Accepted then record else None;
        longer := GoesOn(longer, first, asking, s, Some(Reconciling(now, queue, ToClaim(terminal, claimed))));
        longer, t := ClaimHappens(longer, first, s, now, queue, terminal, claimed);
      }
    }
  }

  lemma {:induction false} HeadsHappen(
    run: seq<Moment>, first: Moment, s: Shared, now: int, queue: seq<Seen>, answers: seq<R.Answer>, k: nat)
    returns (longer: seq<Moment>, t: Shared)
    requires |answers| == |queue| && k <= |queue| && Truthful(s.accepted, queue, answers)
    requires forall i :: 0 <= i < |answers| ==> answers[i] != R.Failed
    requires Leads(run, first, Moment(s, Some(Reconciling(now, queue, Fetch))))
    ensures Leads(longer, first, Moment(t, Some(Reconciling(now, queue[k..], Fetch)))) && t.accepted == s.accepted
    ensures t.tables == SettledBy(s.tables, queue[..k], now, answers[..k])
  {
    if k == 0 {
      longer, t := run, s;
      assert queue[0..] == queue;
    } else {
      longer, t := HeadsHappen(run, first, s, now, queue, answers, k - 1);
      var rest := queue[k - 1..];
      assert rest[0] == queue[k - 1] && rest[1..] == queue[k..];
      SettledNext(s.tables, queue, now, k - 1, answers[..k - 1], answers[k - 1]);
      assert answers[..k] == answers[..k - 1] + [answers[k - 1]];
      longer, t := HeadHappens(longer, first, t, now, rest, answers[k - 1]);
    }
  }

  /** Whatever the chain truly answers, a reconciler that nothing interrupts can make the pass with these answers. */
  lemma {:induction false} EveryPassHappens(s: Shared, limit: nat, answers: seq<R.Answer>) returns (run: seq<Moment>, t: Shared)
    requires |answers| == |ReadPending(s, limit)| && Truthful(s.accepted, ReadPending(s, limit), answers)
    requires forall i :: 0 <= i < |answers| ==> answers[i] != R.Failed
    ensures Leads(run, Moment(s, Some(Starting(limit))), Moment(t, None))
    ensures t.tables == SettledBy(s.tables, ReadPending(s, limit), s.now, answers)
  {
    var queue, first := ReadPending(s, limit), Moment(s, Some(Starting(limit)));
    run := Begins(first);
    run := GoesOn(run, first, first, s, Some(Reconciling(s.now, queue, Fetch)));
    run, t := HeadsHappen(run, first, s, s.now, queue, answers, |queue|);
    assert queue[|queue|..] == [] && queue[..|queue|] == queue && answers[..|queue|] == answers;
    run := GoesOn(run, first, Moment(t, Some(Reconciling(s.now, [], Fetch))), t, None);
  }
}
