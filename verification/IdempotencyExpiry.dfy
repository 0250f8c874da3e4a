/** When exactly a key protects: which requests are replayed, which run unprotected, and when `run` starts again. */
module IdempotencyExpiry {
  import opened Texts
  import opened JsonPrinter
  import opened Canonical
  import opened IdempotencyKeys
  import opened Idempotency
  import opened IdempotencyResults

  // ----- Which answers of the database start a run -----

  /** A second lookup runs unprotected exactly when the row that blocked the insert has expired by then or, that row
      being gone, no other row of the scope is active; a row that is gone was deleted by its failed owner. */
  lemma FallbackIff(s: State, r: nat, asOf: nat, found: Option<Text>, newId: Text)
    requires Inv(s) && QueryAllowed(s, r, asOf, found, newId) && s.procs[r].pc.SecondFind?
    ensures r in Next(s, Query(r, asOf, found, newId)).procs
    ensures var b := s.procs[r].pc.blocker;
      Next(s, Query(r, asOf, found, newId)).procs[r].pc == FallbackRun <==>
        if b in s.rows then s.rows[b].expiresAt <= asOf
        else forall id :: id in s.rows ==> !ActiveFor(s.rows[id], s.procs[r].req.scope.value, asOf)
    ensures var b := s.procs[r].pc.blocker;
      b !in s.rows ==>
        b in s.deleted && s.deleted[b].creator in s.procs && s.procs[s.deleted[b].creator].pc == Done(Failed(RunFailed))
  {
    assert ProcOk(s, r);
    var b := s.procs[r].pc.blocker;
    if b !in s.rows {
      assert DeletedOk(s, b);
    }
    SecondFindLeads(s, r, asOf, found, newId);
    hide RowOk, ProcOk, DeletedOk, DoQuery, Next;
    if found.Some? && b in s.rows {
      assert found.value == b;
    }
  }

  lemma SecondFindLeads(s: State, r: nat, asOf: nat, found: Option<Text>, newId: Text)
    requires QueryAllowed(s, r, asOf, found, newId) && s.procs[r].pc.SecondFind?
    ensures r in Next(s, Query(r, asOf, found, newId)).procs
    ensures Next(s, Query(r, asOf, found, newId)).procs[r].pc == FallbackRun <==> found.None?
  {
    hide IsActiveRecord;
  }

  /** The guards of the two calls that start a run in scope `k`: an insert with no row of the scope, and a second
      lookup whose blocking row is not active any more. */
  predicate StartsRun(s: State, a: Action, k: Scope) {
    && a.Query? && QueryAllowed(s, a.r, a.asOf, a.found, a.newId) && InScope(s, a.r, k)
    && match s.procs[a.r].pc
       case Insert => forall id :: id in s.rows ==> s.rows[id].scope != k
       case SecondFind(b) =>
         if b in s.rows then s.rows[b].expiresAt <= a.asOf
         else forall id :: id in s.rows ==> !ActiveFor(s.rows[id], k, a.asOf)
       case _ => false
  }

  lemma InsertLeads(s: State, r: nat, asOf: nat, found: Option<Text>, newId: Text)
    requires QueryAllowed(s, r, asOf, found, newId) && s.procs[r].pc.Insert?
    ensures DoQuery(s, r, asOf, found, newId).runs == if found.None? then s.runs + [r] else s.runs
    ensures found.None? <==> forall id :: id in s.rows ==> s.rows[id].scope != s.procs[r].req.scope.value
  {
  }

  lemma SecondFindRuns(s: State, r: nat, asOf: nat, found: Option<Text>, newId: Text)
    requires Inv(s) && QueryAllowed(s, r, asOf, found, newId) && s.procs[r].pc.SecondFind?
    ensures DoQuery(s, r, asOf, found, newId).runs == if found.None? then s.runs + [r] else s.runs
    ensures found.None? <==> StartsRun(s, Query(r, asOf, found, newId), s.procs[r].req.scope.value)
  {
    FallbackIff(s, r, asOf, found, newId);
    SecondFindLeads(s, r, asOf, found, newId);
    assert DoQuery(s, r, asOf, found, newId).runs == if found.None? then s.runs + [r] else s.runs by {
      hide Inv, IsActiveRecord;
    }
  }

  /** A step starts a run in the scope exactly when its guard holds, and it is the run of its request. */
  lemma StartIff(s: State, a: Action, k: Scope)
    requires Inv(s)
    ensures StartsRun(s, a, k) ==> Next(s, a).runs == s.runs + [a.r]
    ensures Next(s, a).runs != s.runs ==>
      || StartsRun(s, a, k)
      || (Next(s, a).runs == s.runs + [Actor(a).value] && Actor(a).Some? && !InScope(Next(s, a), Actor(a).value, k))
  {
    hide Inv, DoQuery, Admission, HashPayload, DoFault, DoRunEnds, DoReplayEnds, DoCrash, IsActiveRecord, IsConflict;
    match a
    case Arrive(r, key, userId, verb, path, payload, field) =>
      AdmissionAdmissible(s.clock, key, userId, verb, path, payload, field);
    case Query(r, asOf, found, newId) =>
      if QueryAllowed(s, r, asOf, found, newId) {
        QueryStarts(s, r, asOf, found, newId, k);
      }
    case Fault(r) => if r in s.procs { FaultStep(s, r); }
    case RunEnds(r, outcome) => if r in s.procs { RunEndsStep(s, r, outcome); }
    case ReplayEnds(r, present) => if r in s.procs { ReplayEndsStep(s, r, present); }
    case Crash(r) => if r in s.procs { CrashStep(s, r); }
    case _ =>
  }

  lemma QueryStarts(s: State, r: nat, asOf: nat, found: Option<Text>, newId: Text, k: Scope)
    requires Inv(s) && QueryAllowed(s, r, asOf, found, newId)
    ensures var t := DoQuery(s, r, asOf, found, newId);
      if StartsRun(s, Query(r, asOf, found, newId), k) then t.runs == s.runs + [r]
      else t.runs == s.runs || (t.runs == s.runs + [r] && !InScope(t, r, k))
  {
    QueryStep(s, r, asOf, found, newId);
    if s.procs[r].pc.Insert? {
      InsertLeads(s, r, asOf, found, newId);
    } else if s.procs[r].pc.SecondFind? {
      SecondFindRuns(s, r, asOf, found, newId);
    }
    hide DoQuery, Inv, IsActiveRecord, IsConflict;
  }

  // ----- Exactly when a scope runs more than once -----

  predicate HasRun(s: State, k: Scope) { exists i :: 0 <= i < |s.runs| && InScope(s, s.runs[i], k) }

  predicate RunsTwice(s: State, k: Scope) {
    exists i, j :: 0 <= i < j < |s.runs| && InScope(s, s.runs[i], k) && InScope(s, s.runs[j], k)
  }

  /** Somewhere along the schedule a start guard holds although the scope has run before. */
  predicate RunsAgain(s: State, schedule: seq<Action>, k: Scope)
    decreases |schedule|
  {
    schedule != []
    && ((HasRun(s, k) && StartsRun(s, schedule[0], k)) || RunsAgain(Next(s, schedule[0]), schedule[1..], k))
  }

  lemma ScopesStay(s: State, a: Action, k: Scope)
    ensures forall r :: InScope(s, r, k) ==> InScope(Next(s, a), r, k)
    ensures forall r :: r in s.procs && InScope(Next(s, a), r, k) ==> InScope(s, r, k)
  {
    hide Next;
    forall r | r in s.procs ensures InScope(s, r, k) <==> InScope(Next(s, a), r, k) {
      Frame(s, a, r);
    }
  }

  lemma RunsGrow(s: State, a: Action)
    requires Inv(s)
    ensures Next(s, a).runs == s.runs || exists r :: Next(s, a).runs == s.runs + [r]
  {
    hide Inv, Next;
    StartIff(s, a, Scope([], [], [], []));
  }

  lemma KnownRuns(s: State)
    requires Inv(s)
    ensures forall i :: 0 <= i < |s.runs| ==> s.runs[i] in s.procs
  {
  }

  /** One step makes the second run exactly when the scope had run and the guard holds. */
  lemma SecondRunStep(s: State, a: Action, k: Scope)
    requires Inv(s)
    ensures RunsTwice(Next(s, a), k) <==> RunsTwice(s, k) || (HasRun(s, k) && StartsRun(s, a, k))
  {
    hide Inv, Next, StartsRun;
    var t := Next(s, a);
    StartIff(s, a, k);
    ScopesStay(s, a, k);
    KnownRuns(s);
    RunsGrow(s, a);
    assert forall i :: 0 <= i < |s.runs| ==> t.runs[i] == s.runs[i];
    if StartsRun(s, a, k) {
      StarterInScope(s, a, k);
    }
    SecondRunCount(s, t, if Actor(a).Some? then Actor(a).value else 0, k, StartsRun(s, a, k));
  }

  lemma StarterInScope(s: State, a: Action, k: Scope)
    requires StartsRun(s, a, k)
    ensures InScope(s, a.r, k) && Actor(a) == Some(a.r)
  {
  }

  lemma SecondRunCount(s: State, t: State, r: nat, k: Scope, starts: bool)
    requires t.runs == s.runs || t.runs == s.runs + [r]
    requires forall q :: InScope(s, q, k) ==> InScope(t, q, k)
    requires forall i :: 0 <= i < |s.runs| ==> (InScope(t, s.runs[i], k) ==> InScope(s, s.runs[i], k))
    requires starts ==> t.runs == s.runs + [r] && InScope(t, r, k)
    requires !starts ==> t.runs == s.runs || !InScope(t, r, k)
    ensures RunsTwice(t, k) <==> RunsTwice(s, k) || (HasRun(s, k) && starts)
  {
    hide InScope;
    if RunsTwice(t, k) {
      var i, j :| 0 <= i < j < |t.runs| && InScope(t, t.runs[i], k) && InScope(t, t.runs[j], k);
      assert t.runs[i] == s.runs[i] && InScope(s, s.runs[i], k);
      if j < |s.runs| {
        assert t.runs[j] == s.runs[j] && InScope(s, s.runs[j], k);
      }
    }
    if RunsTwice(s, k) {
      var i, j :| 0 <= i < j < |s.runs| && InScope(s, s.runs[i], k) && InScope(s, s.runs[j], k);
      assert t.runs[i] == s.runs[i] && t.runs[j] == s.runs[j];
    } else if HasRun(s, k) && starts {
      var i :| 0 <= i < |s.runs| && InScope(s, s.runs[i], k);
      assert t.runs[i] == s.runs[i] && t.runs[|s.runs|] == r;
    }
  }

  /** `run` starts more than once for a scope if and only if, after it had started, some insert of the scope finds no
      row or some second lookup finds its blocking row expired or gone. */
  lemma {:induction false} RunsTwiceIff(s: State, schedule: seq<Action>, k: Scope)
    requires Inv(s)
    ensures RunsTwice(Run(s, schedule), k) <==> RunsTwice(s, k) || RunsAgain(s, schedule, k)
    decreases |schedule|
  {
    if schedule != [] {
      NextKeepsInv(s, schedule[0]);
      SecondRunStep(s, schedule[0], k);
      RunsTwiceIff(Next(s, schedule[0]), schedule[1..], k);
    }
  }

  /** The same from the start. */
  lemma AtMostOneRunIff(schedule: seq<Action>, k: Scope)
    ensures RunsTwice(Run(Init(), schedule), k) <==> RunsAgain(Init(), schedule, k)
  {
    RunsTwiceIff(Init(), schedule, k);
  }

  // ----- A key whose run has completed -----

  /** `id` is the COMPLETED record of the scope that `r` asks in. */
  ghost predicate Asks(s: State, id: Text, r: nat) {
    id in s.rows && s.rows[id].status == Completed && InScope(s, r, s.rows[id].scope)
  }

  /** A request that looked after the record had expired, and so never finds it. */
  ghost predicate Late(s: State, id: Text, r: nat) {
    && Asks(s, id, r)
    && match s.procs[r].pc
       case FirstFind => s.rows[id].expiresAt <= s.procs[r].since
       case Insert => s.rows[id].expiresAt <= s.procs[r].since
       case SecondFind(b) => b == id && s.rows[id].expiresAt <= s.procs[r].since
       case FallbackRun => true
       case Done(Answered(_, via)) => via == AsFallback
       case Done(Failed(_)) => true
       case _ => false
  }

  /** A request with the hash of the record that found it in time. */
  ghost predicate InTime(s: State, id: Text, r: nat) {
    && Asks(s, id, r) && r !in s.runs && s.rows[id].requestHash == s.procs[r].req.requestHash
    && match s.procs[r].pc
       case Replaying(rec, body) => rec == id && body == s.rows[id].responseBody
       case Done(Answered(value, via)) => via == AsReplay(id)
       case Done(Failed(error)) => error == NotFound || error == Crashed
       case _ => false
  }

  /** The one row of a scope is what a lookup finds, exactly while it is active. */
  lemma OnlyRow(s: State, id: Text, k: Scope, asOf: nat, found: Option<Text>)
    requires Inv(s) && id in s.rows && s.rows[id].scope == k && IsActiveRecord(s.rows, k, asOf, found)
    ensures found == if asOf < s.rows[id].expiresAt then Some(id) else None
    ensures s.rows[id].id == id
  {
    assert RowOk(s, id);
    assert OneRowPerScope(s.rows);
    hide Inv, RowOk;
    assert ActiveFor(s.rows[id], k, asOf) <==> asOf < s.rows[id].expiresAt;
  }

  lemma OnlyConflict(s: State, id: Text, k: Scope, found: Option<Text>)
    requires Inv(s) && id in s.rows && s.rows[id].scope == k && IsConflict(s.rows, k, found)
    ensures found == Some(id)
  {
  }

  /** Steps of others leave the record, and what the request asks for. */
  lemma OthersLeave(s: State, a: Action, id: Text, r: nat)
    requires Inv(s) && Asks(s, id, r)
    ensures Asks(Next(s, a), id, r) && Next(s, a).rows[id] == s.rows[id] && Next(s, a).procs[r].req == s.procs[r].req
    ensures Actor(a) != Some(r) ==> Next(s, a).procs[r] == s.procs[r] && (r in Next(s, a).runs <==> r in s.runs)
  {
    hide Inv, Next;
    OnlyOwnerChangesRow(s, a, id);
    Frame(s, a, r);
  }

  lemma LateCall(s: State, id: Text, r: nat, asOf: nat, found: Option<Text>, newId: Text)
    requires Inv(s) && Late(s, id, r) && QueryAllowed(s, r, asOf, found, newId)
    ensures r in DoQuery(s, r, asOf, found, newId).procs
    ensures var p := DoQuery(s, r, asOf, found, newId).procs[r];
      match s.procs[r].pc
      case FirstFind => p.pc == Insert && p.since == s.clock
      case Insert => p.pc == SecondFind(id) && p.since == s.clock
      case _ => p.pc == FallbackRun
    ensures s.rows[id].expiresAt <= s.clock
  {
    var k := s.rows[id].scope;
    if s.procs[r].pc.Insert? {
      OnlyConflict(s, id, k, found);
    } else {
      OnlyRow(s, id, k, asOf, found);
    }
    hide Inv, IsActiveRecord, IsConflict;
  }

  lemma LateStep(s: State, a: Action, id: Text, r: nat)
    requires Inv(s) && Late(s, id, r)
    ensures Late(Next(s, a), id, r)
  {
    OthersLeave(s, a, id, r);
    if Actor(a) == Some(r) {
      hide Inv, QueryAllowed, DoQuery, Admission;
      if a.Query? && QueryAllowed(s, r, a.asOf, a.found, a.newId) {
        LateCall(s, id, r, a.asOf, a.found, a.newId);
      }
    } else {
      hide Next, Inv;
    }
  }

  lemma InTimeStep(s: State, a: Action, id: Text, r: nat)
    requires Inv(s) && InTime(s, id, r)
    ensures InTime(Next(s, a), id, r)
  {
    OthersLeave(s, a, id, r);
    if Actor(a) == Some(r) {
      ActorStep(s, a, r);
      hide Inv, DoQuery, Admission, IsActiveRecord, IsConflict, ReadId;
      assert !(a.Query? && QueryAllowed(s, r, a.asOf, a.found, a.newId));
    } else {
      hide Next, Inv;
    }
  }

  lemma {:induction false} LateRun(s: State, schedule: seq<Action>, id: Text, r: nat)
    requires Inv(s) && Late(s, id, r)
    ensures Late(Run(s, schedule), id, r)
    decreases |schedule|
  {
    if schedule != [] {
      hide Late, Inv, Next;
      NextKeepsInv(s, schedule[0]);
      LateStep(s, schedule[0], id, r);
      LateRun(Next(s, schedule[0]), schedule[1..], id, r);
    }
  }

  lemma {:induction false} InTimeRun(s: State, schedule: seq<Action>, id: Text, r: nat)
    requires Inv(s) && InTime(s, id, r)
    ensures InTime(Run(s, schedule), id, r)
    decreases |schedule|
  {
    if schedule != [] {
      hide InTime, Inv, Next;
      NextKeepsInv(s, schedule[0]);
      InTimeStep(s, schedule[0], id, r);
      InTimeRun(Next(s, schedule[0]), schedule[1..], id, r);
    }
  }

  /** The identifier that a COMPLETED record stores is what its owner was answered with. */
  lemma StoredIdentifier(s: State, id: Text, r: nat)
    requires Inv(s) && InTime(s, id, r) && s.procs[r].pc.Done? && s.procs[r].pc.answer.Answered?
    ensures s.rows[id].creator in s.procs
    ensures s.procs[s.rows[id].creator].pc == Done(Answered(s.procs[r].pc.answer.value, AsOwner(id)))
  {
    hide Inv;
    AnswerIsOwnersResult(s, r);
  }

  /** What the first lookup of a request does to a key that has a COMPLETED record. */
  lemma FirstLookup(s: State, id: Text, r: nat, asOf: nat, found: Option<Text>, newId: Text)
    requires Inv(s) && Asks(s, id, r) && s.procs[r].pc == FirstFind && QueryAllowed(s, r, asOf, found, newId)
    requires s.rows[id].requestHash == s.procs[r].req.requestHash
    ensures var t := Next(s, Query(r, asOf, found, newId));
      if asOf < s.rows[id].expiresAt then InTime(t, id, r) else Late(t, id, r)
  {
    assert ProcOk(s, r);
    OnlyRow(s, id, s.rows[id].scope, asOf, found);
    hide Inv, IsActiveRecord, IsConflict;
  }

  /** Whether a request of equal payload is replayed or runs unprotected is decided by the time of its first lookup:
      if it is answered at all, it gets the stored identifier if that time is before the expiry of the record, and
      the result of a run of its own otherwise. */
  lemma CompletedKeyIff(
    s: State, id: Text, r: nat, asOf: nat, found: Option<Text>, newId: Text, schedule: seq<Action>)
    requires Inv(s) && Asks(s, id, r) && s.procs[r].pc == FirstFind && QueryAllowed(s, r, asOf, found, newId)
    requires s.rows[id].requestHash == s.procs[r].req.requestHash
    requires var t := Run(Next(s, Query(r, asOf, found, newId)), schedule);
      r in t.procs && t.procs[r].pc.Done? && t.procs[r].pc.answer.Answered?
    ensures var t := Run(Next(s, Query(r, asOf, found, newId)), schedule);
      && (t.procs[r].pc.answer.via == AsReplay(id) <==> asOf < s.rows[id].expiresAt)
      && (t.procs[r].pc.answer.via == AsFallback <==> s.rows[id].expiresAt <= asOf)
      && (r in t.runs <==> s.rows[id].expiresAt <= asOf)
      && (asOf < s.rows[id].expiresAt ==>
            && id in t.rows && t.rows[id].creator in t.procs
            && t.procs[t.rows[id].creator].pc == Done(Answered(t.procs[r].pc.answer.value, AsOwner(id))))
  {
    var first := Next(s, Query(r, asOf, found, newId));
    hide Inv, Next, Run, QueryAllowed;
    FirstLookup(s, id, r, asOf, found, newId);
    NextKeepsInv(s, Query(r, asOf, found, newId));
    RunKeepsInv(first, schedule);
    var t := Run(first, schedule);
    if asOf < s.rows[id].expiresAt {
      InTimeRun(first, schedule, id, r);
      StoredIdentifier(t, id, r);
    } else {
      LateRun(first, schedule, id, r);
      FallbackAnswerRan(t, r);
    }
  }

  lemma FallbackAnswerRan(s: State, r: nat)
    requires Inv(s) && r in s.procs && s.procs[r].pc.Done? && s.procs[r].pc.answer.Answered?
    requires s.procs[r].pc.answer.via == AsFallback
    ensures r in s.runs
  {
    assert ProcOk(s, r);
  }

  /** Once a COMPLETED record has expired, its key protects nobody: whatever the schedule, a new request of the scope
      that is answered is answered by an unprotected run. */
  lemma ExpiredKeyRunsUnprotected(s: State, schedule: seq<Action>, id: Text, r: nat)
    requires Inv(s) && id in s.rows && s.rows[id].status == Completed && s.rows[id].expiresAt <= s.clock
    requires r !in s.procs && InScope(Run(s, schedule), r, s.rows[id].scope)
    ensures var t := Run(s, schedule);
      && Late(t, id, r)
      && (t.procs[r].pc.Done? && t.procs[r].pc.answer.Answered? ==>
            t.procs[r].pc.answer.via == AsFallback && r in t.runs)
  {
    hide Inv, Next, Run;
    LateFromStart(s, schedule, id, r);
    RunKeepsInv(s, schedule);
    var t := Run(s, schedule);
    if t.procs[r].pc.Done? && t.procs[r].pc.answer.Answered? {
      FallbackAnswerRan(t, r);
    }
  }

  lemma {:induction false} LateFromStart(s: State, schedule: seq<Action>, id: Text, r: nat)
    requires Inv(s) && id in s.rows && s.rows[id].status == Completed && s.rows[id].expiresAt <= s.clock
    requires r !in s.procs && InScope(Run(s, schedule), r, s.rows[id].scope)
    ensures Late(Run(s, schedule), id, r)
    decreases |schedule|
  {
    var t := Next(s, schedule[0]);
    hide Inv, Next;
    NextKeepsInv(s, schedule[0]);
    OnlyOwnerChangesRow(s, schedule[0], id);
    ClockGrows(s, schedule[0]);
    if r in t.procs {
      NewcomerWaits(s, schedule[0], r);
      ScopeFixed(t, schedule[1..], r);
      LateRun(t, schedule[1..], id, r);
    } else {
      LateFromStart(t, schedule[1..], id, r);
    }
  }

  lemma ClockGrows(s: State, a: Action)
    ensures s.clock <= Next(s, a).clock
  {
    if Actor(a).Some? && Actor(a).value in s.procs {
      ActorStep(s, a, Actor(a).value);
      hide Next;
    } else {
      hide DoQuery, DoFault, DoRunEnds, DoReplayEnds, DoCrash, Admission, IsActiveRecord, IsConflict;
    }
  }

  /** A new request waits for its first lookup, unless it has no scope. */
  lemma NewcomerWaits(s: State, a: Action, r: nat)
    requires Inv(s) && r !in s.procs && r in Next(s, a).procs
    ensures var t := Next(s, a);
      t.procs[r].req.scope.Some? ==> t.procs[r].pc == FirstFind && t.procs[r].since == s.clock && r !in t.runs
  {
    hide Next, Inv, Admission;
    Newcomer(s, a, r);
    NotRunYet(s, r);
    AdmittedWaits(s.clock, a.key, a.userId, a.verb, a.path, a.payload, a.field);
  }

  lemma NotRunYet(s: State, r: nat)
    requires Inv(s) && r !in s.procs
    ensures r !in s.runs
  {
  }

  lemma AdmittedWaits(
    now: nat, key: Option<Text>, userId: Text, verb: Text, path: Text, payload: Payload, field: Text)
    ensures var p := Admission(now, key, userId, verb, path, payload, field);
      p.since == now && (p.req.scope.Some? ==> p.pc == FirstFind)
  {
    hide HashPayload, NormalizeKey;
  }

  lemma {:induction false} ScopeFixed(s: State, schedule: seq<Action>, r: nat)
    requires r in s.procs
    ensures r in Run(s, schedule).procs && Run(s, schedule).procs[r].req == s.procs[r].req
    decreases |schedule|
  {
    if schedule != [] {
      hide Next;
      Frame(s, schedule[0], r);
      ScopeFixed(Next(s, schedule[0]), schedule[1..], r);
    }
  }

  // ----- A live key -----

  /** Every lookup of `r` along the schedule happens before `time`. */
  predicate LooksBefore(schedule: seq<Action>, r: nat, time: nat) {
    forall i :: 0 <= i < |schedule| && schedule[i].Query? && schedule[i].r == r ==> schedule[i].asOf < time
  }

  /** `r` asks for what the creator of the COMPLETED record `id` asked for. */
  ghost predicate SameRequest(s: State, id: Text, r: nat) {
    && id in s.rows && s.rows[id].status == Completed && s.rows[id].creator in s.procs
    && r in s.procs && s.procs[r].req.scope == Some(s.rows[id].scope)
    && s.procs[r].req.requestHash == s.rows[id].requestHash
    && s.procs[r].req.field == s.procs[s.rows[id].creator].req.field
  }

  /** Where such a request can be, having looked only in time. */
  ghost predicate Protected(s: State, id: Text, r: nat) {
    SameRequest(s, id, r) ==>
      && r !in s.runs
      && (s.procs[r].pc == FirstFind || s.procs[r].pc == Done(Failed(StoreFailed)) || InTime(s, id, r))
  }

  lemma CreatorKnown(s: State, id: Text)
    requires Inv(s) && id in s.rows
    ensures s.rows[id].creator in s.procs
  {
    assert RowOk(s, id);
  }

  lemma SameRequestBefore(s: State, a: Action, id: Text, r: nat)
    requires Inv(s) && id in s.rows && s.rows[id].status == Completed && r in s.procs
    ensures SameRequest(Next(s, a), id, r) <==> SameRequest(s, id, r)
  {
    hide Inv, Next;
    CreatorKnown(s, id);
    OnlyOwnerChangesRow(s, a, id);
    Frame(s, a, r);
    Frame(s, a, s.rows[id].creator);
  }

  lemma WaitingStep(s: State, a: Action, id: Text, r: nat)
    requires Inv(s) && SameRequest(s, id, r) && s.procs[r].pc == FirstFind && r !in s.runs && Actor(a) == Some(r)
    requires a.Query? ==> a.asOf < s.rows[id].expiresAt
    ensures Protected(Next(s, a), id, r)
  {
    if a.Query? && QueryAllowed(s, r, a.asOf, a.found, a.newId) {
      FirstLookup(s, id, r, a.asOf, a.found, a.newId);
      hide Next, Inv;
    } else if a.Crash? {
      OthersLeave(s, a, id, r);
      hide Inv;
    } else {
      hide Inv, QueryAllowed, DoQuery, Admission;
    }
  }

  lemma ProtectedStep(s: State, a: Action, id: Text, r: nat)
    requires Inv(s) && id in s.rows && s.rows[id].status == Completed && Protected(s, id, r)
    requires a.Query? && a.r == r ==> a.asOf < s.rows[id].expiresAt
    ensures id in Next(s, a).rows && Next(s, a).rows[id] == s.rows[id] && Protected(Next(s, a), id, r)
  {
    hide Inv, Next;
    OnlyOwnerChangesRow(s, a, id);
    if r !in s.procs {
      if r in Next(s, a).procs {
        NewcomerWaits(s, a, r);
      }
    } else if SameRequest(s, id, r) {
      SameRequestBefore(s, a, id, r);
      if InTime(s, id, r) {
        InTimeStep(s, a, id, r);
      } else if Actor(a) == Some(r) && s.procs[r].pc == FirstFind {
        WaitingStep(s, a, id, r);
      } else if Actor(a) == Some(r) {
        FailedStays(s, a, r);
      } else {
        Frame(s, a, r);
      }
    } else {
      SameRequestBefore(s, a, id, r);
    }
  }

  lemma FailedStays(s: State, a: Action, r: nat)
    requires r in s.procs && s.procs[r].pc.Done?
    ensures r in Next(s, a).procs && Next(s, a).procs[r].pc == s.procs[r].pc
    ensures r in Next(s, a).runs <==> r in s.runs
  {
    Frame(s, a, r);
    if Actor(a) == Some(r) {
      hide DoQuery, Admission, IsActiveRecord, IsConflict;
    }
  }

  /** What makes a request fail in these ways. */
  lemma FailureStep(s: State, a: Action, r: nat)
    requires r in Next(s, a).procs && (r in s.procs ==> Next(s, a).procs[r].pc != s.procs[r].pc)
    ensures Next(s, a).procs[r].pc == Done(Failed(StoreFailed)) ==> a == Fault(r)
    ensures Next(s, a).procs[r].pc == Done(Failed(Crashed)) ==> a == Crash(r)
    ensures Next(s, a).procs[r].pc == Done(Failed(NotFound)) ==>
      && a.ReplayEnds? && a.r == r && r in s.procs && s.procs[r].pc.Replaying?
      && (!a.present || ReadId(s.procs[r].pc.body, s.procs[r].req.field) == None)
  {
    if r in s.procs {
      Frame(s, a, r);
      if Actor(a) == Some(r) {
        ActorFailures(s, a, r);
      }
    } else {
      hide Next, Admission;
      Newcomer(s, a, r);
      AdmissionAdmissible(s.clock, a.key, a.userId, a.verb, a.path, a.payload, a.field);
    }
  }

  lemma ActorFailures(s: State, a: Action, r: nat)
    requires r in s.procs && Actor(a) == Some(r) && r in Next(s, a).procs && Next(s, a).procs[r].pc != s.procs[r].pc
    ensures Next(s, a).procs[r].pc == Done(Failed(StoreFailed)) ==> a == Fault(r)
    ensures Next(s, a).procs[r].pc == Done(Failed(Crashed)) ==> a == Crash(r)
    ensures Next(s, a).procs[r].pc == Done(Failed(NotFound)) ==>
      a.ReplayEnds? && s.procs[r].pc.Replaying?
        && (!a.present || ReadId(s.procs[r].pc.body, s.procs[r].req.field) == None)
  {
    hide ReadId, DoQuery, QueryAllowed, DoFault, DoRunEnds, DoReplayEnds, DoCrash, Admission;
    match a
    case Query(_, asOf, found, newId) =>
      if QueryAllowed(s, r, asOf, found, newId) {
        QueryFailures(s, r, asOf, found, newId);
      }
    case Fault(_) => FaultFailures(s, r);
    case RunEnds(_, outcome) => RunFailures(s, r, outcome);
    case ReplayEnds(_, present) => ReplayFailures(s, r, present);
    case Crash(_) => CrashFailures(s, r);
    case Arrive(_, _, _, _, _, _, _) =>
  }

  lemma FaultFailures(s: State, r: nat)
    requires r in s.procs
    ensures r in DoFault(s, r).procs
    ensures var pc := DoFault(s, r).procs[r].pc;
      pc.Done? ==> pc == s.procs[r].pc || pc == Done(Failed(StoreFailed))
  {
  }

  lemma CrashFailures(s: State, r: nat)
    requires r in s.procs
    ensures r in DoCrash(s, r).procs
    ensures DoCrash(s, r).procs[r].pc == s.procs[r].pc || DoCrash(s, r).procs[r].pc == Done(Failed(Crashed))
  {
  }

  lemma RunFailures(s: State, r: nat, outcome: Option<Text>)
    requires r in s.procs
    ensures r in DoRunEnds(s, r, outcome).procs
    ensures var pc := DoRunEnds(s, r, outcome).procs[r].pc;
      pc.Done? && pc.answer.Failed? ==> pc == s.procs[r].pc || pc.answer.error == RunFailed
  {
  }

  lemma ReplayFailures(s: State, r: nat, present: bool)
    requires r in s.procs
    ensures r in DoReplayEnds(s, r, present).procs
    ensures var next, pc := DoReplayEnds(s, r, present).procs[r].pc, s.procs[r].pc;
      next.Done? && next.answer.Failed? && next != pc ==>
        next.answer.error == NotFound && pc.Replaying? && (!present || ReadId(pc.body, s.procs[r].req.field) == None)
  {
    hide ReadId;
  }

  lemma QueryFailures(s: State, r: nat, asOf: nat, found: Option<Text>, newId: Text)
    requires QueryAllowed(s, r, asOf, found, newId)
    ensures r in DoQuery(s, r, asOf, found, newId).procs
    ensures var pc := DoQuery(s, r, asOf, found, newId).procs[r].pc;
      pc.Done? && pc.answer.Failed? ==>
        pc.answer.error == PayloadMismatch || pc.answer.error == InProgress || pc.answer.error == RunFailed
  {
    hide IsActiveRecord, IsConflict, NewRecord, CompletedRecord;
    match s.procs[r].pc
    case FirstFind =>
    case Insert =>
    case SecondFind(_) =>
    case Saving(_, _) =>
    case Deleting(_) =>
    case Waiting(_, _) =>
  }

  /** The stored body of a COMPLETED record can be read by a request for the same thing. */
  lemma BodyIsRead(s: State, id: Text, r: nat)
    requires Inv(s) && SameRequest(s, id, r) && InTime(s, id, r) && s.procs[r].pc.Replaying?
    ensures ReadId(s.procs[r].pc.body, s.procs[r].req.field).Some?
  {
    assert RowOk(s, id);
    var owner := s.procs[s.rows[id].creator];
    ReadBack(owner.req.field, owner.pc.answer.value, s.procs[r].req.field);
  }

  lemma NotFoundStep(s: State, a: Action, id: Text, r: nat)
    requires Inv(s) && id in s.rows && s.rows[id].status == Completed && Protected(s, id, r)
    requires r in Next(s, a).procs && (r in s.procs ==> Next(s, a).procs[r].pc != s.procs[r].pc)
    requires SameRequest(Next(s, a), id, r) && Next(s, a).procs[r].pc == Done(Failed(NotFound))
    ensures a == ReplayEnds(r, false)
  {
    hide Inv, Next, ReadId;
    FailureStep(s, a, r);
    SameRequestBefore(s, a, id, r);
    BodyIsRead(s, id, r);
  }

  lemma {:induction false} SameRequestLater(s: State, schedule: seq<Action>, id: Text, r: nat)
    requires Inv(s) && id in s.rows && s.rows[id].status == Completed && r in s.procs
    ensures SameRequest(Run(s, schedule), id, r) <==> SameRequest(s, id, r)
    ensures id in Run(s, schedule).rows && Run(s, schedule).rows[id] == s.rows[id]
    decreases |schedule|
  {
    if schedule != [] {
      hide Inv, Next, SameRequest;
      NextKeepsInv(s, schedule[0]);
      SameRequestBefore(s, schedule[0], id, r);
      OnlyOwnerChangesRow(s, schedule[0], id);
      Frame(s, schedule[0], r);
      SameRequestLater(Next(s, schedule[0]), schedule[1..], id, r);
    }
  }

  lemma {:induction false} ProtectedRun(s: State, schedule: seq<Action>, id: Text, r: nat)
    requires Inv(s) && id in s.rows && s.rows[id].status == Completed && Protected(s, id, r)
    requires LooksBefore(schedule, r, s.rows[id].expiresAt)
    ensures Protected(Run(s, schedule), id, r)
    decreases |schedule|
  {
    if schedule != [] {
      hide Inv, Next, Protected;
      NextKeepsInv(s, schedule[0]);
      ProtectedStep(s, schedule[0], id, r);
      ProtectedRun(Next(s, schedule[0]), schedule[1..], id, r);
    }
  }

  /** Where `r` stands at the end of a schedule it came to by a step of the schedule. */
  predicate Caused(schedule: seq<Action>, r: nat, pc: Pc) {
    && (pc == Done(Failed(StoreFailed)) ==> Fault(r) in schedule)
    && (pc == Done(Failed(Crashed)) ==> Crash(r) in schedule)
    && (pc == Done(Failed(NotFound)) ==> ReplayEnds(r, false) in schedule)
  }

  lemma {:induction false} FailureCaused(s: State, schedule: seq<Action>, id: Text, r: nat)
    requires Inv(s) && id in s.rows && s.rows[id].status == Completed && Protected(s, id, r)
    requires LooksBefore(schedule, r, s.rows[id].expiresAt) && SameRequest(Run(s, schedule), id, r)
    requires r in s.procs ==> s.procs[r].pc != Run(s, schedule).procs[r].pc
    ensures Caused(schedule, r, Run(s, schedule).procs[r].pc)
    decreases |schedule|
  {
    hide Inv, Next, Protected, SameRequest;
    if schedule == [] {
      Asking(s, id, r);
    } else {
      var a, t := schedule[0], Next(s, schedule[0]);
      NextKeepsInv(s, a);
      ProtectedStep(s, a, id, r);
      Asking(Run(t, schedule[1..]), id, r);
      var pc := Run(t, schedule[1..]).procs[r].pc;
      if r in t.procs && t.procs[r].pc == pc {
        FailureStep(s, a, r);
        SameRequestLater(t, schedule[1..], id, r);
        if pc == Done(Failed(NotFound)) {
          NotFoundStep(s, a, id, r);
        }
      } else {
        FailureCaused(t, schedule[1..], id, r);
      }
    }
  }

  lemma Asking(s: State, id: Text, r: nat)
    requires SameRequest(s, id, r)
    ensures r in s.procs
  {
  }

  /** A new request for what a COMPLETED record stores, which looks only before the record expires, never runs: it is
      answered with the stored identifier, or fails because its lookup failed, it crashed, or the row was not found. */
  lemma LiveKeyReplays(s: State, schedule: seq<Action>, id: Text, r: nat)
    requires Inv(s) && id in s.rows && s.rows[id].status == Completed && r !in s.procs
    requires LooksBefore(schedule, r, s.rows[id].expiresAt) && SameRequest(Run(s, schedule), id, r)
    ensures var t := Run(s, schedule);
      && r !in t.runs
      && match t.procs[r].pc
         case FirstFind => true
         case Replaying(rec, _) => rec == id
         case Done(Answered(value, via)) =>
           via == AsReplay(id) && t.procs[t.rows[id].creator].pc == Done(Answered(value, AsOwner(id)))
         case Done(Failed(error)) =>
           || (error == StoreFailed && Fault(r) in schedule)
           || (error == Crashed && Crash(r) in schedule)
           || (error == NotFound && ReplayEnds(r, false) in schedule)
         case _ => false
  {
    hide Inv, Run, Next, Protected, LooksBefore;
    NotArrived(s, id, r);
    ProtectedRun(s, schedule, id, r);
    FailureCaused(s, schedule, id, r);
    RunKeepsInv(s, schedule);
    ProtectedOutcome(Run(s, schedule), id, r);
  }

  lemma NotArrived(s: State, id: Text, r: nat)
    requires r !in s.procs
    ensures Protected(s, id, r)
  {
  }

  lemma ProtectedOutcome(t: State, id: Text, r: nat)
    requires Inv(t) && Protected(t, id, r) && SameRequest(t, id, r)
    ensures r !in t.runs
    ensures match t.procs[r].pc
      case FirstFind => true
      case Replaying(rec, _) => rec == id
      case Done(Answered(value, via)) =>
        via == AsReplay(id) && t.procs[t.rows[id].creator].pc == Done(Answered(value, AsOwner(id)))
      case Done(Failed(error)) => error == StoreFailed || error == Crashed || error == NotFound
      case _ => false
  {
    hide Inv;
    if t.procs[r].pc.Done? && t.procs[r].pc.answer.Answered? {
      StoredIdentifier(t, id, r);
    }
  }
}
