/** Schedules in which one key is answered with two different identifiers. */
module IdempotencyWitnesses {
  import opened Texts
  import opened IdempotencyKeys
  import opened Idempotency
  import opened IdempotencyResults

  /** A schedule and the state it leads to. */
  datatype Trace = Trace(schedule: seq<Action>, state: State)

  ghost predicate Valid(t: Trace) { Run(Init(), t.schedule) == t.state }

  /** What a client sends: the same in every arrival below. */
  datatype Call = Call(key: Option<Text>, userId: Text, verb: Text, path: Text, payload: Payload, field: Text)

  function ArriveOf(r: nat, c: Call): Action { Arrive(r, c.key, c.userId, c.verb, c.path, c.payload, c.field) }

  function RequestOf(c: Call): Request { Admission(0, c.key, c.userId, c.verb, c.path, c.payload, c.field).req }

  predicate Keyed(c: Call) { NormalizeKey(c.key).Key? }

  lemma ArriveStep(s: State, r: nat, c: Call)
    requires r !in s.procs && Keyed(c)
    ensures RequestOf(c).scope.Some?
    ensures Next(s, ArriveOf(r, c)) == s.(procs := s.procs[r := Proc(RequestOf(c), FirstFind, s.clock)])
  {
    hide DoQuery, QueryAllowed, HashPayload, NormalizeKey;
  }

  /** The next step of a trace. */
  lemma Step(t: Trace, a: Action, s: State) returns (u: Trace)
    requires Valid(t) && Next(t.state, a) == s
    ensures Valid(u) && u.state == s
  {
    u := Trace(t.schedule + [a], s);
    hide Next;
    RunSplit(Init(), t.schedule, [a]);
    assert [a][1..] == [];
    EmptyRun(s);
  }

  // ----- Single calls -----

  ghost predicate NoneActive(s: State, k: Scope) { forall id :: id in s.rows ==> !ActiveFor(s.rows[id], k, s.clock) }

  /** `r` is at `pc`, in the scope of the witness. */
  ghost predicate At(s: State, r: nat, req: Request, pc: Pc) {
    r in s.procs && s.procs[r].req == req && s.procs[r].pc == pc && s.procs[r].since <= s.clock && req.scope.Some?
  }

  lemma Looks(s: State, r: nat, req: Request)
    requires At(s, r, req, FirstFind) && NoneActive(s, req.scope.value)
    ensures Next(s, Query(r, s.clock, None, [])) == SetPc(s, r, Insert)
  {
  }

  lemma Inserts(s: State, r: nat, req: Request, id: Text)
    requires At(s, r, req, Insert) && id !in s.used && forall i :: i in s.rows ==> s.rows[i].scope != req.scope.value
    ensures Next(s, Query(r, s.clock, None, id)) == InsertRow(s, r, NewRecord(id, req, s.clock, r))
  {
  }

  lemma IsBlocked(s: State, r: nat, req: Request, id: Text, other: Text)
    requires At(s, r, req, Insert) && other !in s.used && id in s.rows && s.rows[id].scope == req.scope.value
    ensures Next(s, Query(r, s.clock, Some(id), other)) == SetPc(s, r, SecondFind(id))
  {
  }

  lemma LooksAgain(s: State, r: nat, req: Request, id: Text)
    requires At(s, r, req, SecondFind(id)) && NoneActive(s, req.scope.value)
    ensures Next(s, Query(r, s.clock, None, [])) == StartRun(s, r, FallbackRun)
  {
  }

  lemma Saves(s: State, r: nat, req: Request, id: Text, x: Text)
    requires At(s, r, req, Saving(id, x)) && id in s.rows
    ensures Next(s, Query(r, s.clock, None, [])) == CompleteRow(s, r, id, x)
  {
  }

  lemma Deletes(s: State, r: nat, req: Request, id: Text)
    requires At(s, r, req, Deleting(id)) && id in s.rows
    ensures Next(s, Query(r, s.clock, None, [])) == DeleteRow(s, r, id)
  {
  }

  lemma Ends(s: State, r: nat, outcome: Option<Text>)
    requires r in s.procs
    ensures Next(s, RunEnds(r, outcome)) == DoRunEnds(s, r, outcome)
  {
  }

  /** From the first lookup to the saved record, alone in a scope without rows. */
  lemma RunsAsOwner(t: Trace, r: nat, req: Request, id: Text, x: Text) returns (u: Trace)
    requires Valid(t) && At(t.state, r, req, Insert) && id !in t.state.used && t.state.rows == map[]
    ensures Valid(u) && u.state.clock == t.state.clock && u.state.used == t.state.used + {id}
    ensures u.state.procs == t.state.procs[r := Proc(req, Done(Answered(x, AsOwner(id))), t.state.clock)]
    ensures u.state.rows == map[id := CompletedRecord(NewRecord(id, req, t.state.clock, r), req.field, x)]
    ensures u.state.runs == t.state.runs + [r]
  {
    hide Next, Valid, NewRecord, CompletedRecord;
    var s0 := t.state;
    Inserts(s0, r, req, id);
    var rec := NewRecord(id, req, s0.clock, r);
    assert rec.id == id by { NewRecordId(id, req, s0.clock, r); }
    var s1 := InsertRow(s0, r, rec);
    u := Step(t, Query(r, s0.clock, None, id), s1);
    Ends(s1, r, Some(x));
    var s2 := DoRunEnds(s1, r, Some(x));
    u := Step(u, RunEnds(r, Some(x)), s2);
    Saves(s2, r, req, id, x);
    u := Step(u, Query(r, s2.clock, None, []), CompleteRow(s2, r, id, x));
  }

  lemma NewRecordId(id: Text, req: Request, asOf: nat, r: nat)
    requires req.scope.Some?
    ensures var rec := NewRecord(id, req, asOf, r);
      rec.id == id && rec.scope == req.scope.value && rec.expiresAt == asOf + 86400000
  {
  }

  // ----- The record expired -----

  /** A key whose record has expired runs again: the row blocks the insert and is not found. */
  lemma ExpiredKeyRunsAgain(c: Call, id: Text, x: Text, y: Text) returns (schedule: seq<Action>)
    requires Keyed(c)
    ensures var s := Run(Init(), schedule);
      && s.procs.Keys == {1, 2} && s.procs[1].req == s.procs[2].req && s.procs[1].req.scope.Some?
      && s.procs[1].pc == Done(Answered(x, AsOwner(id))) && s.procs[2].pc == Done(Answered(y, AsFallback))
      && s.runs == [1, 2]
  {
    hide Run, Next, Keyed, RequestOf, ArriveOf, NewRecord, CompletedRecord, Valid;
    var req := RequestOf(c);
    var t := Start();
    ArriveStep(t.state, 1, c);
    var s1 := t.state.(procs := map[1 := Proc(req, FirstFind, 0)]);
    t := Step(t, ArriveOf(1, c), s1);
    Looks(s1, 1, req);
    t := Step(t, Query(1, 0, None, []), SetPc(s1, 1, Insert));
    t := RunsAsOwner(t, 1, req, id, x);
    t := Wait(t, 86400000);
    var s := t.state;
    ArriveStep(s, 2, c);
    var s2 := s.(procs := s.procs[2 := Proc(req, FirstFind, s.clock)]);
    t := Step(t, ArriveOf(2, c), s2);
    NewRecordId(id, req, 0, 1);
    CompletedKeeps(NewRecord(id, req, 0, 1), req.field, x);
    t := RetryRuns(t, req, id, y);
    schedule := t.schedule;
    assert Run(Init(), schedule) == t.state by { ValidMeans(t); }
  }

  lemma Start() returns (t: Trace)
    ensures t == Trace([], Init()) && Valid(t)
  {
    t := Trace([], Init());
    EmptyRun(Init());
  }

  lemma ValidMeans(t: Trace)
    requires Valid(t)
    ensures Run(Init(), t.schedule) == t.state
  {
  }

  lemma Wait(t: Trace, ms: nat) returns (u: Trace)
    requires Valid(t)
    ensures Valid(u) && u.state == t.state.(clock := t.state.clock + ms)
  {
    hide Valid;
    assert Next(t.state, Tick(ms)) == t.state.(clock := t.state.clock + ms) by {
      hide DoQuery, QueryAllowed, Admission;
    }
    u := Step(t, Tick(ms), t.state.(clock := t.state.clock + ms));
  }

  lemma CompletedKeeps(rec: Record, field: Text, x: Text)
    ensures var done := CompletedRecord(rec, field, x); done.scope == rec.scope && done.expiresAt == rec.expiresAt
  {
  }

  /** A retry that arrives when the only row, `id`, has expired. */
  lemma RetryRuns(t: Trace, req: Request, id: Text, y: Text) returns (u: Trace)
    requires Valid(t) && At(t.state, 2, req, FirstFind) && t.state.rows.Keys == {id} && t.state.used == {id}
    requires t.state.rows[id].scope == req.scope.value && t.state.rows[id].expiresAt <= t.state.clock
    ensures Valid(u) && u.state.procs == t.state.procs[2 := Proc(req, Done(Answered(y, AsFallback)), t.state.clock)]
    ensures u.state.runs == t.state.runs + [2]
  {
    hide Next, Valid;
    var s, other := t.state, id + [0];
    assert |other| == |id| + 1;
    Looks(s, 2, req);
    var s1 := SetPc(s, 2, Insert);
    u := Step(t, Query(2, s.clock, None, []), s1);
    IsBlocked(s1, 2, req, id, other);
    var s2 := SetPc(s1, 2, SecondFind(id));
    u := Step(u, Query(2, s.clock, Some(id), other), s2);
    LooksAgain(s2, 2, req, id);
    var s3 := StartRun(s2, 2, FallbackRun);
    u := Step(u, Query(2, s.clock, None, []), s3);
    Ends(s3, 2, Some(y));
    u := Step(u, RunEnds(2, Some(y)), DoRunEnds(s3, 2, Some(y)));
  }

  // ----- The owner failed -----

  /** Three requests arrive with one key and find nothing. */
  lemma ThreeArrive(c: Call) returns (t: Trace)
    requires Keyed(c)
    ensures RequestOf(c).scope.Some? && Valid(t)
    ensures var p := Proc(RequestOf(c), Insert, 0);
      t.state == State(0, map[], map[1 := p, 2 := p, 3 := p], {}, map[], [], map[], {})
  {
    hide Run, Next, Keyed, RequestOf, ArriveOf, Valid;
    var req, p, q := RequestOf(c), Proc(RequestOf(c), FirstFind, 0), Proc(RequestOf(c), Insert, 0);
    var s := Init();
    t := Start();
    ArriveStep(s, 1, c);
    t := Step(t, ArriveOf(1, c), s.(procs := map[1 := p]));
    ArriveStep(t.state, 2, c);
    t := Step(t, ArriveOf(2, c), s.(procs := map[1 := p, 2 := p]));
    ArriveStep(t.state, 3, c);
    t := Step(t, ArriveOf(3, c), s.(procs := map[1 := p, 2 := p, 3 := p]));
    Looks(t.state, 1, req);
    t := Step(t, Query(1, 0, None, []), s.(procs := map[1 := q, 2 := p, 3 := p]));
    Looks(t.state, 2, req);
    t := Step(t, Query(2, 0, None, []), s.(procs := map[1 := q, 2 := q, 3 := p]));
    Looks(t.state, 3, req);
    t := Step(t, Query(3, 0, None, []), s.(procs := map[1 := q, 2 := q, 3 := q]));
  }

  /** The first inserts and fails; the second, blocked by its row, looks when the row is gone and runs unprotected. */
  lemma OwnerFails(t: Trace, req: Request, id: Text) returns (u: Trace)
    requires Valid(t) && req.scope.Some?
    requires var p := Proc(req, Insert, 0);
      t.state == State(0, map[], map[1 := p, 2 := p, 3 := p], {}, map[], [], map[], {})
    ensures Valid(u) && u.state.clock == 0 && u.state.rows == map[] && u.state.used == {id} && u.state.runs == [1, 2]
    ensures u.state.procs == map[
      1 := Proc(req, Done(Failed(RunFailed)), 0), 2 := Proc(req, FallbackRun, 0), 3 := Proc(req, Insert, 0)]
  {
    hide Next, Valid, NewRecord;
    var s := t.state;
    var rec, other := NewRecord(id, req, 0, 1), id + [0];
    NewRecordId(id, req, 0, 1);
    assert |other| == |id| + 1;
    Inserts(s, 1, req, id);
    var s1 := InsertRow(s, 1, rec);
    u := Step(t, Query(1, 0, None, id), s1);
    IsBlocked(s1, 2, req, id, other);
    var s2 := SetPc(s1, 2, SecondFind(id));
    u := Step(u, Query(2, 0, Some(id), other), s2);
    Ends(s2, 1, None);
    var s3 := DoRunEnds(s2, 1, None);
    u := Step(u, RunEnds(1, None), s3);
    Deletes(s3, 1, req, id);
    var s4 := DeleteRow(s3, 1, id);
    u := Step(u, Query(1, 0, None, []), s4);
    assert s4.rows == map[];
    LooksAgain(s4, 2, req, id);
    u := Step(u, Query(2, 0, None, []), StartRun(s4, 2, FallbackRun));
  }

  /** A key whose first owner failed is answered with two identifiers: one request runs unprotected, another becomes
      the owner of a new record. */
  lemma FailedOwnerRunsAgain(c: Call, id: Text, x: Text, y: Text) returns (schedule: seq<Action>)
    requires Keyed(c)
    ensures var s := Run(Init(), schedule);
      && s.procs.Keys == {1, 2, 3} && s.procs[1].req == s.procs[2].req == s.procs[3].req && s.procs[1].req.scope.Some?
      && s.clock == 0 && s.procs[1].pc == Done(Failed(RunFailed)) && s.runs == [1, 2, 3]
      && s.procs[2].pc == Done(Answered(x, AsFallback)) && s.procs[3].pc == Done(Answered(y, AsOwner(id + [0])))
  {
    hide Run, Next, Keyed, RequestOf, NewRecord, CompletedRecord, Valid;
    var req := RequestOf(c);
    var t := ThreeArrive(c);
    t := OwnerFails(t, req, id);
    Ends(t.state, 2, Some(x));
    t := Step(t, RunEnds(2, Some(x)), DoRunEnds(t.state, 2, Some(x)));
    assert |id + [0]| == |id| + 1;
    t := RunsAsOwner(t, 3, req, id + [0], y);
    schedule := t.schedule;
    assert Run(Init(), schedule) == t.state by { ValidMeans(t); }
  }
}
