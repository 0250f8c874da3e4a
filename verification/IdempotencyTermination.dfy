/** Every request ends within a bounded number of its own steps. */
module IdempotencyTermination {
  import opened Texts
  import opened Idempotency
  import opened IdempotencyResults

  /** The most steps a request can still take, counting the end of a body as one step. */
  function StepsLeft(pc: Pc): nat {
    match pc
    case FirstFind => PROCESSING_WAIT_RETRIES + 4
    case Insert => PROCESSING_WAIT_RETRIES + 3
    case SecondFind(_) => PROCESSING_WAIT_RETRIES + 2
    case Running(_) => 3
    case Saving(_, _) => 2
    case Deleting(_) => 1
    case Waiting(_, left) => left + 1
    case Replaying(_, _) => 1
    case FallbackRun => 1
    case DirectRun => 1
    case Done(_) => 0
  }

  lemma ResolveBound(rec: Record, req: Request)
    ensures StepsLeft(Resolve(rec, req)) <= PROCESSING_WAIT_RETRIES + 1
  {
  }

  lemma PollBound(rows: map<Text, Record>, rec: Text, left: nat, req: Request)
    requires left > 0
    ensures StepsLeft(Poll(rows, rec, left, req)) < left + 1
  {
  }

  lemma QueryProgress(s: State, r: nat, asOf: nat, found: Option<Text>, newId: Text)
    requires QueryAllowed(s, r, asOf, found, newId)
    ensures r in DoQuery(s, r, asOf, found, newId).procs
    ensures StepsLeft(DoQuery(s, r, asOf, found, newId).procs[r].pc) < StepsLeft(s.procs[r].pc)
  {
    hide NewRecord, CompletedRecord, Resolve, Poll;
    var req := s.procs[r].req;
    if (s.procs[r].pc.FirstFind? || s.procs[r].pc.SecondFind?) && found.Some? {
      ResolveBound(s.rows[found.value], req);
    } else if s.procs[r].pc.Waiting? {
      PollBound(s.rows, s.procs[r].pc.rec, s.procs[r].pc.left, req);
    }
  }

  /** A request's own step either leaves it where it is or brings it nearer to its end; other steps do not move it. */
  lemma StepProgress(s: State, a: Action, r: nat)
    requires r in s.procs
    ensures r in Next(s, a).procs
    ensures Next(s, a).procs[r].pc != s.procs[r].pc ==>
      Actor(a) == Some(r) && StepsLeft(Next(s, a).procs[r].pc) < StepsLeft(s.procs[r].pc)
  {
    Frame(s, a, r);
    if Actor(a) == Some(r) {
      match a
      case Query(_, asOf, found, newId) =>
        hide QueryAllowed, DoQuery;
        if QueryAllowed(s, r, asOf, found, newId) {
          QueryProgress(s, r, asOf, found, newId);
        }
      case RunEnds(_, outcome) =>
        hide DoRunEnds;
        RunEndsStep(s, r, outcome);
      case ReplayEnds(_, present) =>
        hide DoReplayEnds;
        ReplayEndsStep(s, r, present);
      case Fault(_) =>
        hide DoFault;
        FaultStep(s, r);
      case Crash(_) =>
        hide DoCrash;
        CrashStep(s, r);
      case _ =>
    }
  }

  /** How often `r` moved along a schedule. */
  function Moves(s: State, schedule: seq<Action>, r: nat): nat
    decreases |schedule|
  {
    if schedule == [] then 0
    else
      var t := Next(s, schedule[0]);
      (if r in s.procs && r in t.procs && t.procs[r].pc != s.procs[r].pc then 1 else 0) + Moves(t, schedule[1..], r)
  }

  /** Under any schedule a request moves at most 24 times: two lookups, an insert, 20 polls and a replay. */
  lemma {:induction false} MovesBounded(s: State, schedule: seq<Action>, r: nat)
    requires r in s.procs
    ensures r in Run(s, schedule).procs
    ensures Moves(s, schedule, r) + StepsLeft(Run(s, schedule).procs[r].pc) <= StepsLeft(s.procs[r].pc)
    ensures s.procs[r].pc.FirstFind? ==> Moves(s, schedule, r) <= 24
    ensures s.procs[r].pc.Waiting? ==> Moves(s, schedule, r) <= s.procs[r].pc.left + 1
    decreases |schedule|
  {
    if schedule != [] {
      StepProgress(s, schedule[0], r);
      MovesBounded(Next(s, schedule[0]), schedule[1..], r);
    }
  }

  // ----- No request is ever stuck -----

  lemma LookupAnswer(rows: map<Text, Record>, scope: Scope, asOf: nat) returns (found: Option<Text>)
    ensures IsActiveRecord(rows, scope, asOf, found)
  {
    if id :| id in rows && ActiveFor(rows[id], scope, asOf) {
      found := Some(id);
    } else {
      found := None;
    }
  }

  lemma ConflictAnswer(rows: map<Text, Record>, scope: Scope) returns (found: Option<Text>)
    ensures IsConflict(rows, scope, found)
  {
    if id :| id in rows && rows[id].scope == scope {
      found := Some(id);
    } else {
      found := None;
    }
  }

  /** An answer of the database to a lookup of `r`. */
  lemma LookupAnswered(s: State, r: nat) returns (a: Action)
    requires r in s.procs && s.procs[r].req.scope.Some? && s.procs[r].since <= s.clock
    requires s.procs[r].pc.FirstFind? || s.procs[r].pc.SecondFind?
    ensures a.Query? && a.r == r && QueryAllowed(s, r, a.asOf, a.found, a.newId)
  {
    hide IsActiveRecord;
    var found := LookupAnswer(s.rows, s.procs[r].req.scope.value, s.clock);
    a := Query(r, s.clock, found, []);
  }

  lemma InsertAnswered(s: State, r: nat) returns (a: Action)
    requires r in s.procs && s.procs[r].req.scope.Some? && s.procs[r].since <= s.clock && s.procs[r].pc.Insert?
    ensures a.Query? && a.r == r && QueryAllowed(s, r, a.asOf, a.found, a.newId)
  {
    hide IsConflict;
    var found := ConflictAnswer(s.rows, s.procs[r].req.scope.value);
    var newId := UnusedText(s.used);
    a := Query(r, s.clock, found, newId);
  }

  /** The save, the delete or a poll. */
  lemma WriteOrPollAnswered(s: State, r: nat) returns (a: Action)
    requires r in s.procs && s.procs[r].since <= s.clock
    requires match s.procs[r].pc
      case Saving(rec, _) => rec in s.rows
      case Deleting(rec) => rec in s.rows
      case Waiting(_, left) => left > 0
      case _ => false
    ensures a.Query? && a.r == r && QueryAllowed(s, r, a.asOf, a.found, a.newId)
  {
    a := Query(r, s.clock, None, []);
  }

  /** What the invariant says about a request that waits for the database. */
  lemma CallPossible(s: State, r: nat)
    requires Inv(s) && r in s.procs
    ensures s.procs[r].since <= s.clock
    ensures match s.procs[r].pc
      case FirstFind => s.procs[r].req.scope.Some?
      case SecondFind(_) => s.procs[r].req.scope.Some?
      case Insert => s.procs[r].req.scope.Some?
      case Saving(rec, _) => rec in s.rows
      case Deleting(rec) => rec in s.rows
      case Waiting(_, left) => left > 0
      case _ => true
  {
    assert ProcOk(s, r);
  }

  predicate WaitsForStore(pc: Pc) {
    pc.FirstFind? || pc.SecondFind? || pc.Insert? || pc.Saving? || pc.Deleting? || pc.Waiting?
  }

  /** Every call that waits for the idempotency table can be answered. */
  lemma StoreAnswers(s: State, r: nat) returns (a: Action)
    requires Inv(s) && r in s.procs && WaitsForStore(s.procs[r].pc)
    ensures a.Query? && a.r == r && QueryAllowed(s, r, a.asOf, a.found, a.newId)
  {
    hide QueryAllowed, Inv;
    CallPossible(s, r);
    if s.procs[r].pc.FirstFind? || s.procs[r].pc.SecondFind? {
      a := LookupAnswered(s, r);
    } else if s.procs[r].pc.Insert? {
      a := InsertAnswered(s, r);
    } else {
      a := WriteOrPollAnswered(s, r);
    }
  }

  lemma BodyEnds(s: State, r: nat) returns (a: Action)
    requires r in s.procs && !s.procs[r].pc.Done? && !WaitsForStore(s.procs[r].pc)
    ensures Actor(a) == Some(r) && (a.RunEnds? || a.ReplayEnds?)
    ensures r in Next(s, a).procs && StepsLeft(Next(s, a).procs[r].pc) < StepsLeft(s.procs[r].pc)
  {
    hide DoQuery, QueryAllowed, Admission, ReadId;
    a := if s.procs[r].pc.Replaying? then ReplayEnds(r, true) else RunEnds(r, Some([]));
  }

  /** In every reachable state a request in flight has a step that brings it nearer to its end, without any failure. */
  lemma NeverStuck(s: State, r: nat) returns (a: Action)
    requires Inv(s) && r in s.procs && !s.procs[r].pc.Done?
    ensures Actor(a) == Some(r) && (a.Query? || a.RunEnds? || a.ReplayEnds?)
    ensures r in Next(s, a).procs && StepsLeft(Next(s, a).procs[r].pc) < StepsLeft(s.procs[r].pc)
  {
    hide Inv, QueryAllowed, DoQuery, StepsLeft;
    if WaitsForStore(s.procs[r].pc) {
      a := StoreAnswers(s, r);
      QueryProgress(s, r, a.asOf, a.found, a.newId);
    } else {
      a := BodyEnds(s, r);
    }
  }

  // ----- The polling loop -----

  /** The machine's polls of `id`, one per database snapshot. */
  function PollAll(snapshots: seq<map<Text, Record>>, pc: Pc, req: Request): Pc
    decreases |snapshots|
  {
    if snapshots == [] || !pc.Waiting? || pc.left == 0 then pc
    else PollAll(snapshots[1..], Poll(snapshots[0], pc.rec, pc.left, req), req)
  }

  /** `resolveExistingRecord` after the wait. */
  function AfterWait(completed: Option<Record>, req: Request): Pc {
    if completed.None? then Done(Failed(InProgress))
    else if completed.value.requestHash != req.requestHash then Done(Failed(PayloadMismatch))
    else Replaying(completed.value.id, completed.value.responseBody)
  }

  /** Poll `i` is the first that finds the row COMPLETED, and every poll before it finds the row. */
  predicate CompletedAt(snapshots: seq<map<Text, Record>>, id: Text, i: nat) {
    && i < |snapshots| && id in snapshots[i] && snapshots[i][id].status == Completed
    && forall j :: 0 <= j < i ==> id in snapshots[j] && snapshots[j][id].status == Processing
  }

  /** Poll `i` is the first that does not find the row, and no poll before it finds it COMPLETED. */
  predicate GoneAt(snapshots: seq<map<Text, Record>>, id: Text, i: nat) {
    && i < |snapshots| && id !in snapshots[i]
    && forall j :: 0 <= j < i ==> id in snapshots[j] && snapshots[j][id].status == Processing
  }

  /** `waitForCompletion`: `snapshots[i]` is the table at the i-th poll. */
  method WaitForCompletion(snapshots: seq<map<Text, Record>>, id: Text, ghost req: Request)
    returns (completed: Option<Record>, waitedMs: nat)
    requires |snapshots| == PROCESSING_WAIT_RETRIES
    requires forall i :: 0 <= i < |snapshots| && id in snapshots[i] ==> snapshots[i][id].id == id
    ensures completed.Some? <==> exists i: nat :: CompletedAt(snapshots, id, i)
    ensures forall i: nat :: CompletedAt(snapshots, id, i) ==>
      completed == Some(snapshots[i][id]) && waitedMs == 100 * (i + 1)
    ensures forall i: nat :: GoneAt(snapshots, id, i) ==> waitedMs == 100 * (i + 1)
    ensures waitedMs == 2000 || exists i: nat :: CompletedAt(snapshots, id, i) || GoneAt(snapshots, id, i)
    ensures waitedMs <= 2000
    ensures PollAll(snapshots, Waiting(id, PROCESSING_WAIT_RETRIES), req) == AfterWait(completed, req)
  {
    completed := None;
    waitedMs := 0;
    for attempt := 0 to PROCESSING_WAIT_RETRIES
      invariant waitedMs == attempt * PROCESSING_WAIT_MS && completed.None?
      invariant forall j :: 0 <= j < attempt ==> id in snapshots[j] && snapshots[j][id].status == Processing
      invariant attempt < PROCESSING_WAIT_RETRIES ==>
        PollAll(snapshots, Waiting(id, PROCESSING_WAIT_RETRIES), req) ==
        PollAll(snapshots[attempt..], Waiting(id, PROCESSING_WAIT_RETRIES - attempt), req)
      invariant attempt == PROCESSING_WAIT_RETRIES ==>
        PollAll(snapshots, Waiting(id, PROCESSING_WAIT_RETRIES), req) == Done(Failed(InProgress))
    {
      waitedMs := waitedMs + PROCESSING_WAIT_MS;
      assert snapshots[attempt..][0] == snapshots[attempt] && snapshots[attempt..][1..] == snapshots[attempt + 1..];
      if id !in snapshots[attempt] {
        assert GoneAt(snapshots, id, attempt);
        return;
      }
      var latest := snapshots[attempt][id];
      if latest.status == Completed {
        completed := Some(latest);
        assert CompletedAt(snapshots, id, attempt);
        return;
      }
    }
  }
}
