/** The idempotency protocol as a machine of interleaved steps: any number of requests, each database call one step. */
module Idempotency {
  import opened Texts
  import opened JsonPrinter
  import opened Canonical
  import opened IdempotencyKeys

  const DEFAULT_TTL_MS: nat := 24 * 60 * 60 * 1000
  const PROCESSING_WAIT_RETRIES: nat := 20
  const PROCESSING_WAIT_MS: nat := 100

  // ----- Records -----

  /** A payload that has a text. */
  type Payload = v: Value | WellFormed(v) && !v.Undefined? witness Null

  /** SHA-256, taken to be injective. */
  datatype Digest = Sha256(text: Text)

  function HashPayload(payload: Payload): Digest { Sha256(StableStringify(payload).value) }

  datatype Scope = Scope(userId: Text, verb: Text, path: Text, key: Text)
  datatype Status = Processing | Completed
  datatype Record = Record(
    id: Text, scope: Scope, requestHash: Digest, status: Status,
    responseStatus: Option<nat>, responseBody: Option<Value>, expiresAt: nat,
    creator: nat)  // bookkeeping: the request that inserted the row

  /** `serializeResult`: the identifier under its field name. */
  function Serialized(field: Text, id: Text): Value { Obj([Named(field, Str(id))]) }

  function NormalizeResponseBody(v: Value): Option<Value> {
    match v
    case Undefined => None
    case Null => None
    case Arr(_) => Some(v)
    case Obj(_) => Some(v)
    case _ => Some(Obj([Named(Units("value"), v)]))
  }

  /** No body for `undefined` and null, objects and arrays as they are, anything else under the name `value`. */
  lemma NormalizedBody(v: Value)
    ensures NormalizeResponseBody(v).None? <==> v.Undefined? || v.Null?
    ensures v.Obj? || v.Arr? ==> NormalizeResponseBody(v) == Some(v)
    ensures v.Bool? || v.Int? || v.Str? ==> NormalizeResponseBody(v) == Some(Obj([Named(Units("value"), v)]))
    ensures v.Str? ==> ReadId(NormalizeResponseBody(v), Units("value")) == Some(v.s)
  {
    if v.Str? {
      assert NormalizeResponseBody(v).value.fields[0].name in Names(NormalizeResponseBody(v).value.fields);
    }
  }

  /** `readEnrollmentId` and `readSubmissionId`. */
  function ReadId(body: Option<Value>, field: Text): Option<Text> {
    if body.Some? && body.value.Obj? && field in Names(body.value.fields) then
      var v := body.value.fields[IndexOf(body.value.fields, field)].value;
      if v.Str? then Some(v.s) else None
    else None
  }

  /** An identifier is read exactly where the body is an object whose first property of that name is a string. */
  lemma ReadIdIff(body: Option<Value>, field: Text, id: Text)
    ensures ReadId(body, field) == Some(id) <==>
      && body.Some? && body.value.Obj?
      && exists i: nat ::
           && i < |body.value.fields| && body.value.fields[i] == Named(field, Str(id))
           && forall j: nat :: j < i ==> body.value.fields[j].name != field
  {
    if body.Some? && body.value.Obj? {
      var fields := body.value.fields;
      if i: nat :| i < |fields| && fields[i].name == field && forall j: nat :: j < i ==> fields[j].name != field {
        assert field in Names(fields);
        assert IndexOf(fields, field) == i;
      }
    }
  }

  /** A stored identifier is read back under its own field name and under no other. */
  lemma ReadBack(field: Text, id: Text, other: Text)
    ensures ReadId(NormalizeResponseBody(Serialized(field, id)), other) == if other == field then Some(id) else None
  {
    var fields := Serialized(field, id).fields;
    assert fields[0].name in Names(fields);
  }

  // ----- Requests -----

  datatype Request = Request(scope: Option<Scope>, payload: Payload, requestHash: Digest, field: Text)

  datatype Via = AsOwner(rec: Text) | AsReplay(rec: Text) | AsFallback | AsDirect
  datatype Error = KeyTooLong | PayloadMismatch | InProgress | NotFound | RunFailed | StoreFailed | Crashed
  datatype Answer = Answered(value: Text, via: Via) | Failed(error: Error)

  /** Where a request is: the database call or body it is waiting for. */
  datatype Pc =
    | FirstFind
    | Insert
    | SecondFind(blocker: Text)             // the row that made the insert fail
    | Running(rec: Text)
    | Saving(rec: Text, value: Text)
    | Deleting(rec: Text)
    | Waiting(rec: Text, left: nat)
    | Replaying(rec: Text, body: Option<Value>)
    | FallbackRun
    | DirectRun
    | Done(answer: Answer)

  /** `since` is when the request got to where it is: the time it reads for its next call is that or later. */
  datatype Proc = Proc(req: Request, pc: Pc, since: nat)

  datatype State = State(
    clock: nat,
    rows: map<Text, Record>,
    procs: map<nat, Proc>,
    // history
    used: set<Text>,              // every row id ever handed out
    deleted: map<Text, Record>,   // rows that were deleted
    runs: seq<nat>,               // requests whose `run` was started, in order
    results: map<nat, Text>,      // what each `run` that resolved returned
    orphans: set<nat>)            // requests that crashed, or whose final delete failed

  function Init(): State { State(0, map[], map[], {}, map[], [], map[], {}) }

  datatype Action =
    | Tick(ms: nat)
    | Arrive(r: nat, key: Option<Text>, userId: Text, verb: Text, path: Text, payload: Payload, field: Text)
    /** The pending database call of `r` is answered. `asOf` is the time the request read before the call, `found`
        the row the database answers with, `newId` the id it generates. */
    | Query(r: nat, asOf: nat, found: Option<Text>, newId: Text)
    | Fault(r: nat)                              // the pending database call throws
    | RunEnds(r: nat, outcome: Option<Text>)     // `run` resolves with an identifier, or rejects
    | ReplayEnds(r: nat, present: bool)         // `replay` finds its row, or rejects
    | Crash(r: nat)

  function SetPc(s: State, r: nat, pc: Pc): State
    requires r in s.procs
  {
    s.(procs := s.procs[r := s.procs[r].(pc := pc, since := s.clock)])
  }

  /** `options.run()` is called. */
  function StartRun(s: State, r: nat, pc: Pc): State
    requires r in s.procs
  {
    SetPc(s, r, pc).(runs := s.runs + [r])
  }

  /** The first synchronous part of `execute`: without a key the body runs at once. */
  function Admission(
    now: nat, key: Option<Text>, userId: Text, verb: Text, path: Text, payload: Payload, field: Text): Proc
  {
    var hash := HashPayload(payload);
    match NormalizeKey(key)
    case NoKey => Proc(Request(None, payload, hash, field), DirectRun, now)
    case TooLong => Proc(Request(None, payload, hash, field), Done(Failed(KeyTooLong)), now)
    case Key(k) => Proc(Request(Some(Scope(userId, verb, path, k)), payload, hash, field), FirstFind, now)
  }

  function Admit(s: State, r: nat, p: Proc): State {
    s.(procs := s.procs[r := p], runs := if p.pc == DirectRun then s.runs + [r] else s.runs)
  }

  // ----- Database calls -----

  predicate ActiveFor(rec: Record, scope: Scope, asOf: nat) { rec.scope == scope && rec.expiresAt > asOf }

  /** `found` is a legal answer of the query for an unexpired row of `scope`. */
  predicate IsActiveRecord(rows: map<Text, Record>, scope: Scope, asOf: nat, found: Option<Text>) {
    if found.Some? then found.value in rows && ActiveFor(rows[found.value], scope, asOf)
    else forall id :: id in rows ==> !ActiveFor(rows[id], scope, asOf)
  }

  /** `found` names the row that violates the unique constraint, if there is one. */
  predicate IsConflict(rows: map<Text, Record>, scope: Scope, found: Option<Text>) {
    if found.Some? then found.value in rows && rows[found.value].scope == scope
    else forall id :: id in rows ==> rows[id].scope != scope
  }

  predicate QueryAllowed(s: State, r: nat, asOf: nat, found: Option<Text>, newId: Text) {
    && r in s.procs && s.procs[r].since <= asOf <= s.clock
    && var req := s.procs[r].req;
    match s.procs[r].pc
    case FirstFind => req.scope.Some? && IsActiveRecord(s.rows, req.scope.value, asOf, found)
    case Insert => req.scope.Some? && IsConflict(s.rows, req.scope.value, found) && newId !in s.used
    case SecondFind(_) => req.scope.Some? && IsActiveRecord(s.rows, req.scope.value, asOf, found)
    case Saving(rec, _) => rec in s.rows
    case Deleting(rec) => rec in s.rows
    case Waiting(_, left) => left > 0
    case _ => false
  }

  /** `resolveExistingRecord` up to its next wait. */
  function Resolve(rec: Record, req: Request): Pc {
    if rec.requestHash != req.requestHash then Done(Failed(PayloadMismatch))
    else if rec.status == Completed then Replaying(rec.id, rec.responseBody)
    else Waiting(rec.id, PROCESSING_WAIT_RETRIES)
  }

  /** One turn of the polling loop. */
  function Poll(rows: map<Text, Record>, rec: Text, left: nat, req: Request): Pc
    requires left > 0
  {
    if rec !in rows then Done(Failed(InProgress))
    else if rows[rec].status == Completed then
      if rows[rec].requestHash != req.requestHash then Done(Failed(PayloadMismatch))
      else Replaying(rec, rows[rec].responseBody)
    else if left == 1 then Done(Failed(InProgress))
    else Waiting(rec, left - 1)
  }

  function NewRecord(id: Text, req: Request, asOf: nat, r: nat): Record
    requires req.scope.Some?
  {
    Record(id, req.scope.value, req.requestHash, Processing, None, None, asOf + DEFAULT_TTL_MS, r)
  }

  function CompletedRecord(rec: Record, field: Text, value: Text): Record {
    rec.(status := Completed, responseStatus := Some(201),
      responseBody := NormalizeResponseBody(Serialized(field, value)))
  }

  /** The insert commits and the owner calls `run`. */
  function InsertRow(s: State, r: nat, rec: Record): State
    requires r in s.procs
  {
    StartRun(s, r, Running(rec.id)).(rows := s.rows[rec.id := rec], used := s.used + {rec.id})
  }

  /** The owner's final save commits and the owner answers. */
  function CompleteRow(s: State, r: nat, rec: Text, value: Text): State
    requires r in s.procs && rec in s.rows
  {
    var completed := CompletedRecord(s.rows[rec], s.procs[r].req.field, value);
    SetPc(s, r, Done(Answered(value, AsOwner(rec)))).(rows := s.rows[rec := completed])
  }

  /** The owner's delete commits and the owner fails. */
  function DeleteRow(s: State, r: nat, rec: Text): State
    requires r in s.procs && rec in s.rows
  {
    SetPc(s, r, Done(Failed(RunFailed))).(rows := s.rows - {rec}, deleted := s.deleted[rec := s.rows[rec]])
  }

  function DoQuery(s: State, r: nat, asOf: nat, found: Option<Text>, newId: Text): State
    requires QueryAllowed(s, r, asOf, found, newId)
  {
    var req := s.procs[r].req;
    match s.procs[r].pc
    case FirstFind =>
      if found.Some? then SetPc(s, r, Resolve(s.rows[found.value], req)) else SetPc(s, r, Insert)
    case Insert =>
      if found.Some? then SetPc(s, r, SecondFind(found.value))
      else InsertRow(s, r, NewRecord(newId, req, asOf, r))
    case SecondFind(_) =>
      if found.Some? then SetPc(s, r, Resolve(s.rows[found.value], req)) else StartRun(s, r, FallbackRun)
    case Saving(rec, value) => CompleteRow(s, r, rec, value)
    case Deleting(rec) => DeleteRow(s, r, rec)
    case Waiting(rec, left) => SetPc(s, r, Poll(s.rows, rec, left, req))
  }

  function DoFault(s: State, r: nat): State
    requires r in s.procs
  {
    match s.procs[r].pc
    case FirstFind => SetPc(s, r, Done(Failed(StoreFailed)))
    case Insert => SetPc(s, r, Done(Failed(StoreFailed)))
    case SecondFind(_) => SetPc(s, r, Done(Failed(StoreFailed)))
    case Waiting(_, _) => SetPc(s, r, Done(Failed(StoreFailed)))
    case Saving(rec, _) => SetPc(s, r, Deleting(rec))
    case Deleting(_) => SetPc(s, r, Done(Failed(StoreFailed))).(orphans := s.orphans + {r})
    case _ => s
  }

  function DoRunEnds(s: State, r: nat, outcome: Option<Text>): State
    requires r in s.procs
  {
    var t := if outcome.Some? then s.(results := s.results[r := outcome.value]) else s;
    match s.procs[r].pc
    case Running(rec) => SetPc(t, r, if outcome.Some? then Saving(rec, outcome.value) else Deleting(rec))
    case FallbackRun => SetPc(t, r,
      Done(if outcome.Some? then Answered(outcome.value, AsFallback) else Failed(RunFailed)))
    case DirectRun => SetPc(t, r, Done(if outcome.Some? then Answered(outcome.value, AsDirect) else Failed(RunFailed)))
    case _ => s
  }

  /** `replay` reads the identifier from the body and answers with the row of that identifier. */
  function DoReplayEnds(s: State, r: nat, present: bool): State
    requires r in s.procs
  {
    match s.procs[r].pc
    case Replaying(rec, body) =>
      var id := ReadId(body, s.procs[r].req.field);
      SetPc(s, r, Done(if id.Some? && present then Answered(id.value, AsReplay(rec)) else Failed(NotFound)))
    case _ => s
  }

  function DoCrash(s: State, r: nat): State
    requires r in s.procs
  {
    if s.procs[r].pc.Done? then s else SetPc(s, r, Done(Failed(Crashed))).(orphans := s.orphans + {r})
  }

  /** One step; an action that is not possible in `s` changes nothing. */
  function Next(s: State, a: Action): State {
    match a
    case Tick(ms) => s.(clock := s.clock + ms)
    case Arrive(r, key, userId, verb, path, payload, field) =>
      if r in s.procs then s else Admit(s, r, Admission(s.clock, key, userId, verb, path, payload, field))
    case Query(r, asOf, found, newId) =>
      if QueryAllowed(s, r, asOf, found, newId) then DoQuery(s, r, asOf, found, newId) else s
    case Fault(r) => if r in s.procs then DoFault(s, r) else s
    case RunEnds(r, outcome) => if r in s.procs then DoRunEnds(s, r, outcome) else s
    case ReplayEnds(r, e) => if r in s.procs then DoReplayEnds(s, r, e) else s
    case Crash(r) => if r in s.procs then DoCrash(s, r) else s
  }

  function Run(s: State, schedule: seq<Action>): State
    decreases |schedule|
  {
    if schedule == [] then s else Run(Next(s, schedule[0]), schedule[1..])
  }

  // ----- One step is the step of one request -----

  ghost predicate StepOf(s: State, t: State, r: nat)
    requires r in s.procs
  {
    && t.clock == s.clock && t.procs.Keys == s.procs.Keys && t.procs[r].req == s.procs[r].req
    && (forall q :: q in s.procs && q != r ==> t.procs[q] == s.procs[q])
    && (t.runs == s.runs || t.runs == s.runs + [r])
  }

  /** Where a database call can lead. */
  lemma QueryStep(s: State, r: nat, asOf: nat, found: Option<Text>, newId: Text)
    requires QueryAllowed(s, r, asOf, found, newId)
    ensures var t := DoQuery(s, r, asOf, found, newId);
      && StepOf(s, t, r)
      && var pc, next := s.procs[r].pc, t.procs[r].pc;
      && !next.Deleting? && !next.Saving? && !next.DirectRun? && !next.FirstFind?
      && (next.SecondFind? ==> pc.Insert? && found == Some(next.blocker) && next.blocker in s.rows)
      && (next.FallbackRun? ==> pc.SecondFind? && found.None?)
      && (t.runs != s.runs ==> found.None? && ((pc.Insert? && newId in t.rows) || pc.SecondFind?))
      && (pc.Insert? || pc.Saving? || pc.Deleting? || t.rows == s.rows)
  {
    hide IsActiveRecord, CompletedRecord, ActiveFor;
    match s.procs[r].pc
    case FirstFind =>
    case Insert =>
    case SecondFind(_) =>
    case Saving(_, _) =>
    case Deleting(_) =>
    case Waiting(_, _) =>
  }

  lemma FaultStep(s: State, r: nat)
    requires r in s.procs
    ensures StepOf(s, DoFault(s, r), r)
    ensures DoFault(s, r).runs == s.runs && DoFault(s, r).rows == s.rows
    ensures var pc, next := s.procs[r].pc, DoFault(s, r).procs[r].pc;
      next == pc || next.Done? || (pc.Saving? && next == Deleting(pc.rec))
  {
  }

  lemma RunEndsStep(s: State, r: nat, outcome: Option<Text>)
    requires r in s.procs
    ensures StepOf(s, DoRunEnds(s, r, outcome), r)
    ensures DoRunEnds(s, r, outcome).runs == s.runs && DoRunEnds(s, r, outcome).rows == s.rows
    ensures var pc, next := s.procs[r].pc, DoRunEnds(s, r, outcome).procs[r].pc;
      next == pc || next.Done?
        || (pc.Running? && next == if outcome.Some? then Saving(pc.rec, outcome.value) else Deleting(pc.rec))
  {
  }

  lemma ReplayEndsStep(s: State, r: nat, present: bool)
    requires r in s.procs
    ensures StepOf(s, DoReplayEnds(s, r, present), r)
    ensures var t := DoReplayEnds(s, r, present);
      t == s || (s.procs[r].pc.Replaying? && t.procs[r].pc.Done? && t.runs == s.runs && t.rows == s.rows)
  {
    hide ReadId;
  }

  lemma CrashStep(s: State, r: nat)
    requires r in s.procs
    ensures StepOf(s, DoCrash(s, r), r)
    ensures var t := DoCrash(s, r); t == s || (t.procs[r].pc.Done? && t.runs == s.runs && t.rows == s.rows)
  {
  }

  // ----- The invariant -----

  predicate Owns(pc: Pc, rec: Text) {
    || pc == Running(rec) || pc == Deleting(rec) || (pc.Saving? && pc.rec == rec)
  }

  ghost predicate RowOk(s: State, id: Text)
    requires id in s.rows
  {
    var rec := s.rows[id];
    && rec.id == id && id in s.used
    && rec.creator in s.procs
    && var owner := s.procs[rec.creator];
    && owner.req.scope == Some(rec.scope) && rec.requestHash == owner.req.requestHash
    && rec.expiresAt <= s.clock + DEFAULT_TTL_MS
    && match rec.status
       case Processing => rec.responseStatus.None? && rec.responseBody.None?
         && (Owns(owner.pc, id) || rec.creator in s.orphans)
       case Completed =>
         && rec.responseStatus == Some(201)
         && owner.pc.Done? && owner.pc.answer.Answered? && owner.pc.answer.via == AsOwner(id)
         && rec.responseBody == NormalizeResponseBody(Serialized(owner.req.field, owner.pc.answer.value))
  }

  /** `rec` is a row a request with `req` may wait for or replay. */
  ghost predicate Matches(s: State, rec: Text, req: Request)
    requires rec in s.rows
  {
    req.scope == Some(s.rows[rec].scope) && s.rows[rec].requestHash == req.requestHash
  }

  ghost predicate CompletedMatch(s: State, rec: Text, req: Request) {
    rec in s.rows && s.rows[rec].status == Completed && Matches(s, rec, req)
  }

  ghost predicate Owned(s: State, r: nat, rec: Text) {
    rec in s.rows && s.rows[rec].creator == r && s.rows[rec].status == Processing
  }

  ghost predicate ProcOk(s: State, r: nat)
    requires r in s.procs
  {
    var req := s.procs[r].req;
    && s.procs[r].since <= s.clock
    && match s.procs[r].pc
    case FirstFind => req.scope.Some? && r !in s.runs
    case Insert => req.scope.Some? && r !in s.runs
    case SecondFind(b) =>
      && req.scope.Some? && r !in s.runs && (b in s.rows || b in s.deleted)
      && (b in s.rows ==> Some(s.rows[b].scope) == req.scope)
      && (b in s.deleted ==> Some(s.deleted[b].scope) == req.scope)
    case Running(rec) => Owned(s, r, rec) && r in s.runs
    case Saving(rec, value) => Owned(s, r, rec) && r in s.runs && r in s.results && s.results[r] == value
    case Deleting(rec) => Owned(s, r, rec) && r in s.runs
    case Waiting(rec, left) =>
      && req.scope.Some? && r !in s.runs && 1 <= left <= PROCESSING_WAIT_RETRIES
      && rec in s.used && (rec in s.rows ==> Matches(s, rec, req))
    case Replaying(rec, body) => r !in s.runs && CompletedMatch(s, rec, req) && s.rows[rec].responseBody == body
    case FallbackRun => req.scope.Some? && r in s.runs
    case DirectRun => req.scope.None? && r in s.runs
    case Done(Answered(value, AsOwner(rec))) =>
      r in s.runs && CompletedMatch(s, rec, req) && s.rows[rec].creator == r && r in s.results && s.results[r] == value
    case Done(Answered(value, AsReplay(rec))) =>
      r !in s.runs && CompletedMatch(s, rec, req) && ReadId(s.rows[rec].responseBody, req.field) == Some(value)
    case Done(Answered(value, _)) => r in s.runs && r in s.results && s.results[r] == value
    case Done(Failed(_)) => true
  }

  ghost predicate DeletedOk(s: State, id: Text)
    requires id in s.deleted
  {
    && id in s.used && s.deleted[id].creator in s.procs
    && s.procs[s.deleted[id].creator].pc == Done(Failed(RunFailed))
  }

  ghost predicate OneRowPerScope(rows: map<Text, Record>) {
    forall i, j :: i in rows && j in rows && rows[i].scope == rows[j].scope ==> i == j
  }

  ghost predicate RunsOnce(s: State) {
    && (forall i :: 0 <= i < |s.runs| ==> s.runs[i] in s.procs)
    && (forall i, j :: 0 <= i < j < |s.runs| ==> s.runs[i] != s.runs[j])
  }

  ghost predicate Inv(s: State) {
    && (forall id {:trigger RowOk(s, id)} :: id in s.rows ==> RowOk(s, id))
    && (forall r {:trigger ProcOk(s, r)} :: r in s.procs ==> ProcOk(s, r))
    && (forall id {:trigger DeletedOk(s, id)} :: id in s.deleted ==> DeletedOk(s, id))
    && (forall r :: r in s.orphans ==> r in s.procs && s.procs[r].pc.Done?)
    && s.rows.Keys !! s.deleted.Keys
    && OneRowPerScope(s.rows)
    && RunsOnce(s)
  }

  /** From `s` to `t` only a PROCESSING row of `r` changed or went away; other rows may have been added. */
  ghost predicate RowsEvolve(s: State, t: State, r: nat) {
    && (forall id :: id in s.rows && (s.rows[id].creator != r || s.rows[id].status == Completed) ==>
          id in t.rows && t.rows[id] == s.rows[id])
    && (forall id :: id in s.rows && id in t.rows ==>
          t.rows[id].scope == s.rows[id].scope && t.rows[id].requestHash == s.rows[id].requestHash)
    && (forall id :: id in s.rows && id !in t.rows ==> id in t.deleted && t.deleted[id].scope == s.rows[id].scope)
    && (forall id :: id in t.rows && id !in s.rows ==> id !in s.used)
    && (forall id :: id in s.deleted ==> id in t.deleted && t.deleted[id] == s.deleted[id])
    && (forall id :: id in t.deleted ==> id in s.deleted || (id in s.rows && t.deleted[id].scope == s.rows[id].scope))
    && s.used <= t.used
  }

  /** What a request other than `r` relies on survives the steps of `r`. */
  lemma ProcFrame(s: State, t: State, r: nat, q: nat)
    requires q in s.procs && ProcOk(s, q) && q != r && RowsEvolve(s, t, r)
    requires q in t.procs && t.procs[q] == s.procs[q] && t.clock == s.clock
    requires (q in t.runs <==> q in s.runs) && (q in s.results ==> q in t.results && t.results[q] == s.results[q])
    requires forall id :: id in s.deleted ==> id in s.used
    ensures ProcOk(t, q)
  {
  }

  /** Only `r` moves from `s` to `t`; the rest of the state agrees where other requests look. */
  ghost predicate OnlyMoves(s: State, t: State, r: nat) {
    && RowsEvolve(s, t, r)
    && t.clock == s.clock
    && t.procs.Keys == s.procs.Keys + {r}
    && (forall q :: q in s.procs && q != r ==> t.procs[q] == s.procs[q])
    && (forall q :: q in s.procs && q != r ==> (q in t.runs <==> q in s.runs))
    && (forall q :: q in s.results && q != r ==> q in t.results && t.results[q] == s.results[q])
    && s.orphans <= t.orphans <= s.orphans + {r}
  }

  lemma OthersKeepInv(s: State, t: State, r: nat)
    requires Inv(s) && OnlyMoves(s, t, r)
    ensures forall q {:trigger ProcOk(t, q)} :: q in t.procs && q != r ==> ProcOk(t, q)
    ensures forall id {:trigger RowOk(t, id)} :: id in t.rows && id in s.rows && s.rows[id].creator != r ==>
      RowOk(t, id)
    ensures forall id {:trigger DeletedOk(t, id)} :: id in s.deleted && s.deleted[id].creator != r ==> DeletedOk(t, id)
  {
    forall id | id in s.deleted ensures id in s.used {
      assert DeletedOk(s, id);
    }
    forall q | q in t.procs && q != r ensures ProcOk(t, q) {
      ProcFrame(s, t, r, q);
    }
    forall id | id in t.rows && id in s.rows && s.rows[id].creator != r ensures RowOk(t, id) {
      assert RowOk(s, id);
    }
    forall id | id in s.deleted && s.deleted[id].creator != r ensures DeletedOk(t, id) {
      assert DeletedOk(s, id);
    }
  }

  /** The only row of a request in flight is the one it owns. */
  lemma OwnRows(s: State, r: nat)
    requires Inv(s) && (r in s.procs ==> !s.procs[r].pc.Done?)
    ensures forall id :: id in s.rows && s.rows[id].creator == r ==>
      r in s.procs && Owns(s.procs[r].pc, id) && s.rows[id].status == Processing
    ensures forall id :: id in s.deleted ==> s.deleted[id].creator != r
  {
    forall id | id in s.rows && s.rows[id].creator == r
      ensures r in s.procs && Owns(s.procs[r].pc, id) && s.rows[id].status == Processing
    {
      assert RowOk(s, id);
    }
    forall id | id in s.deleted ensures s.deleted[id].creator != r {
      assert DeletedOk(s, id);
    }
  }

  /** A step of a request in flight keeps the invariant when it does so for the request and its own row. */
  lemma StepKeepsInv(s: State, t: State, r: nat)
    requires Inv(s) && (r in s.procs ==> !s.procs[r].pc.Done?) && OnlyMoves(s, t, r)
    requires ProcOk(t, r)
    requires forall id {:trigger RowOk(t, id)} :: id in t.rows && (id !in s.rows || s.rows[id].creator == r) ==>
      RowOk(t, id)
    requires forall id {:trigger DeletedOk(t, id)} :: id in t.deleted && id !in s.deleted ==> DeletedOk(t, id)
    requires t.rows.Keys !! t.deleted.Keys && OneRowPerScope(t.rows) && RunsOnce(t)
    requires r in t.orphans ==> t.procs[r].pc.Done?
    ensures Inv(t)
  {
    OthersKeepInv(s, t, r);
    OwnRows(s, r);
    assert forall q :: q in t.orphans ==> q in s.orphans || q == r;
  }

  // ----- Every step keeps it -----

  /** A fresh request: it waits for its first lookup, runs without a key, or was refused. */
  predicate Admissible(p: Proc) {
    || (p.pc == FirstFind && p.req.scope.Some?)
    || (p.pc == DirectRun && p.req.scope.None?)
    || p.pc == Done(Failed(KeyTooLong))
  }

  lemma AdmitKeepsInv(s: State, r: nat, p: Proc)
    requires Inv(s) && r !in s.procs && Admissible(p) && p.since <= s.clock
    ensures Inv(Admit(s, r, p))
  {
    assert r !in s.runs;
    OwnRows(s, r);
    StepKeepsInv(s, Admit(s, r, p), r);
  }

  /** A request that owns no row moves on, and the tables stay as they are. */
  lemma MoveKeepsInv(s: State, r: nat, pc: Pc)
    requires Inv(s) && r in s.procs && !s.procs[r].pc.Done?
    requires forall rec :: !Owns(s.procs[r].pc, rec)
    requires ProcOk(SetPc(s, r, pc), r)
    ensures Inv(SetPc(s, r, pc))
  {
    OwnRows(s, r);
    StepKeepsInv(s, SetPc(s, r, pc), r);
  }

  lemma FallbackKeepsInv(s: State, r: nat)
    requires Inv(s) && r in s.procs && s.procs[r].pc.SecondFind?
    ensures Inv(StartRun(s, r, FallbackRun))
  {
    var t := StartRun(s, r, FallbackRun);
    assert ProcOk(s, r);
    OwnRows(s, r);
    InvTables(s);
    hide Inv, OneRowPerScope, DeletedOk;
    FallbackMoves(s, r);
    hide OnlyMoves;
    StepKeepsInv(s, t, r);
  }

  lemma FallbackMoves(s: State, r: nat)
    requires r in s.procs
    ensures OnlyMoves(s, StartRun(s, r, FallbackRun), r)
  {
  }

  lemma InsertMoves(s: State, r: nat, rec: Record)
    requires r in s.procs && rec.id !in s.used && rec.id !in s.rows
    ensures OnlyMoves(s, InsertRow(s, r, rec), r)
  {
  }

  lemma InsertKeepsInv(s: State, r: nat, rec: Record)
    requires Inv(s) && r in s.procs && s.procs[r].pc == Insert && rec.id !in s.used
    requires rec.responseStatus.None? && rec.responseBody.None? && rec.expiresAt <= s.clock + DEFAULT_TTL_MS
    requires rec.status == Processing && rec.creator == r && rec.requestHash == s.procs[r].req.requestHash
    requires s.procs[r].req.scope == Some(rec.scope) && IsConflict(s.rows, rec.scope, None)
    ensures Inv(InsertRow(s, r, rec))
  {
    var t := InsertRow(s, r, rec);
    assert ProcOk(s, r);
    assert rec.id in s.rows ==> RowOk(s, rec.id);
    assert rec.id in s.deleted ==> DeletedOk(s, rec.id);
    OwnRows(s, r);
    InvTables(s);
    hide Inv, DeletedOk, OnlyMoves;
    InsertMoves(s, r, rec);
    InsertTables(s, r, rec);
    assert RowOk(t, rec.id) && ProcOk(t, r);
    hide RowOk, ProcOk, OneRowPerScope, RunsOnce;
    StepKeepsInv(s, t, r);
  }

  lemma InsertTables(s: State, r: nat, rec: Record)
    requires r in s.procs && r !in s.runs && rec.id !in s.rows && rec.id !in s.deleted
    requires s.rows.Keys !! s.deleted.Keys && OneRowPerScope(s.rows) && RunsOnce(s)
    requires IsConflict(s.rows, rec.scope, None)
    ensures var t := InsertRow(s, r, rec);
      t.rows.Keys !! t.deleted.Keys && OneRowPerScope(t.rows) && RunsOnce(t)
  {
  }

  /** What the invariant says about the tables as a whole. */
  lemma InvTables(s: State)
    requires Inv(s)
    ensures s.rows.Keys !! s.deleted.Keys && OneRowPerScope(s.rows) && RunsOnce(s)
    ensures forall r :: r in s.orphans ==> r in s.procs && s.procs[r].pc.Done?
  {
  }

  lemma OwnerMoves(s: State, r: nat, pc: Pc, results: map<nat, Text>)
    requires r in s.procs
    requires forall q :: q in s.results && q != r ==> q in results && results[q] == s.results[q]
    ensures OnlyMoves(s, SetPc(s, r, pc).(results := results), r)
  {
  }

  /** The owner of a row moves on, the row staying as it is. */
  lemma OwnerMoveKeepsInv(s: State, r: nat, rec: Text, pc: Pc, results: map<nat, Text>)
    requires Inv(s) && r in s.procs && Owns(s.procs[r].pc, rec) && Owns(pc, rec)
    requires forall q :: q in s.results && q != r ==> q in results && results[q] == s.results[q]
    requires pc.Saving? ==> r in results && results[r] == pc.value
    ensures Inv(SetPc(s, r, pc).(results := results))
  {
    var t := SetPc(s, r, pc).(results := results);
    assert ProcOk(s, r);
    assert rec in s.rows ==> RowOk(s, rec);
    OwnRows(s, r);
    InvTables(s);
    hide Inv, OneRowPerScope, DeletedOk, OnlyMoves;
    assert forall id :: id in s.rows && s.rows[id].creator == r ==> id == rec;
    OwnerStands(s, r, rec, pc, results);
    OwnerMoves(s, r, pc, results);
    hide ProcOk, RowOk, Owns, RunsOnce;
    assert RunsOnce(t) by {
      OwnerRuns(s, r, pc, results);
    }
    StepKeepsInv(s, t, r);
  }

  lemma OwnerRuns(s: State, r: nat, pc: Pc, results: map<nat, Text>)
    requires r in s.procs && RunsOnce(s)
    ensures RunsOnce(SetPc(s, r, pc).(results := results))
  {
  }

  lemma OwnerStands(s: State, r: nat, rec: Text, pc: Pc, results: map<nat, Text>)
    requires r in s.procs && ProcOk(s, r) && Owns(s.procs[r].pc, rec) && Owns(pc, rec)
    requires rec in s.rows && RowOk(s, rec)
    requires pc.Saving? ==> r in results && results[r] == pc.value
    ensures var t := SetPc(s, r, pc).(results := results); RowOk(t, rec) && ProcOk(t, r)
  {
  }

  lemma CompleteMoves(s: State, r: nat, rec: Text, value: Text)
    requires r in s.procs && Owned(s, r, rec)
    ensures OnlyMoves(s, CompleteRow(s, r, rec, value), r)
  {
  }

  lemma CompleteKeepsInv(s: State, r: nat, rec: Text, value: Text)
    requires Inv(s) && r in s.procs && s.procs[r].pc == Saving(rec, value)
    ensures rec in s.rows && Inv(CompleteRow(s, r, rec, value))
  {
    assert ProcOk(s, r);
    var t := CompleteRow(s, r, rec, value);
    OwnRows(s, r);
    CompleteMoves(s, r, rec, value);
    assert RowOk(s, rec);
    assert RowOk(t, rec);
    StepKeepsInv(s, t, r);
  }

  lemma DeleteMoves(s: State, r: nat, rec: Text)
    requires r in s.procs && Owned(s, r, rec) && rec !in s.deleted
    ensures OnlyMoves(s, DeleteRow(s, r, rec), r)
  {
  }

  lemma DeleteKeepsInv(s: State, r: nat, rec: Text)
    requires Inv(s) && r in s.procs && s.procs[r].pc == Deleting(rec)
    ensures rec in s.rows && Inv(DeleteRow(s, r, rec))
  {
    assert ProcOk(s, r);
    var t := DeleteRow(s, r, rec);
    OwnRows(s, r);
    DeleteMoves(s, r, rec);
    assert RowOk(s, rec);
    assert DeletedOk(t, rec);
    StepKeepsInv(s, t, r);
  }

  /** A request stops where it is. */
  lemma OrphanKeepsInv(s: State, r: nat, error: Error)
    requires Inv(s) && r in s.procs && !s.procs[r].pc.Done?
    ensures Inv(SetPc(s, r, Done(Failed(error))).(orphans := s.orphans + {r}))
  {
    var t := SetPc(s, r, Done(Failed(error))).(orphans := s.orphans + {r});
    forall id | id in s.rows && s.rows[id].creator == r ensures RowOk(t, id) {
      assert RowOk(s, id);
    }
    OwnRows(s, r);
    StepKeepsInv(s, t, r);
  }

  /** A run that owns no row ends. */
  lemma PlainRunEndsKeepsInv(s: State, r: nat, answer: Answer, results: map<nat, Text>)
    requires Inv(s) && r in s.procs && (s.procs[r].pc.FallbackRun? || s.procs[r].pc.DirectRun?)
    requires answer.Answered? ==>
      (answer.via == AsFallback || answer.via == AsDirect) && r in results && results[r] == answer.value
    requires forall q :: q in s.results && q != r ==> q in results && results[q] == s.results[q]
    ensures Inv(SetPc(s, r, Done(answer)).(results := results))
  {
    assert ProcOk(s, r);
    OwnRows(s, r);
    StepKeepsInv(s, SetPc(s, r, Done(answer)).(results := results), r);
  }

  /** A lookup that found a row: the request waits for it, replays it, or is refused. */
  lemma ResolveKeepsInv(s: State, r: nat, asOf: nat, found: Text)
    requires Inv(s) && r in s.procs && s.procs[r].req.scope.Some?
    requires s.procs[r].pc.FirstFind? || s.procs[r].pc.SecondFind?
    requires IsActiveRecord(s.rows, s.procs[r].req.scope.value, asOf, Some(found))
    ensures Inv(SetPc(s, r, Resolve(s.rows[found], s.procs[r].req)))
  {
    assert ProcOk(s, r);
    assert RowOk(s, found);
    MoveKeepsInv(s, r, Resolve(s.rows[found], s.procs[r].req));
  }

  lemma BlockedKeepsInv(s: State, r: nat, blocker: Text)
    requires Inv(s) && r in s.procs && s.procs[r].pc.Insert? && s.procs[r].req.scope.Some?
    requires IsConflict(s.rows, s.procs[r].req.scope.value, Some(blocker))
    ensures Inv(SetPc(s, r, SecondFind(blocker)))
  {
    assert ProcOk(s, r);
    assert RowOk(s, blocker);
    MoveKeepsInv(s, r, SecondFind(blocker));
  }

  lemma NothingFoundKeepsInv(s: State, r: nat)
    requires Inv(s) && r in s.procs && s.procs[r].pc.FirstFind?
    ensures Inv(SetPc(s, r, Insert))
  {
    assert ProcOk(s, r);
    MoveKeepsInv(s, r, Insert);
  }

  lemma PollKeepsInv(s: State, r: nat)
    requires Inv(s) && r in s.procs && s.procs[r].pc.Waiting? && s.procs[r].pc.left > 0
    ensures Inv(SetPc(s, r, Poll(s.rows, s.procs[r].pc.rec, s.procs[r].pc.left, s.procs[r].req)))
  {
    assert ProcOk(s, r);
    MoveKeepsInv(s, r, Poll(s.rows, s.procs[r].pc.rec, s.procs[r].pc.left, s.procs[r].req));
  }

  lemma QueryKeepsInv(s: State, r: nat, asOf: nat, found: Option<Text>, newId: Text)
    requires Inv(s) && QueryAllowed(s, r, asOf, found, newId)
    ensures Inv(DoQuery(s, r, asOf, found, newId))
  {
    hide Inv, Resolve, Poll, SetPc;
    match s.procs[r].pc
    case FirstFind =>
      if found.Some? {
        ResolveKeepsInv(s, r, asOf, found.value);
      } else {
        NothingFoundKeepsInv(s, r);
      }
    case Insert =>
      if found.Some? {
        BlockedKeepsInv(s, r, found.value);
      } else {
        InsertKeepsInv(s, r, NewRecord(newId, s.procs[r].req, asOf, r));
      }
    case SecondFind(_) =>
      if found.Some? {
        ResolveKeepsInv(s, r, asOf, found.value);
      } else {
        FallbackKeepsInv(s, r);
      }
    case Saving(rec, value) => CompleteKeepsInv(s, r, rec, value);
    case Deleting(rec) => DeleteKeepsInv(s, r, rec);
    case Waiting(_, _) => PollKeepsInv(s, r);
  }

  lemma FaultKeepsInv(s: State, r: nat)
    requires Inv(s) && r in s.procs
    ensures Inv(DoFault(s, r))
  {
    match s.procs[r].pc
    case FirstFind => MoveKeepsInv(s, r, Done(Failed(StoreFailed)));
    case Insert => MoveKeepsInv(s, r, Done(Failed(StoreFailed)));
    case SecondFind(_) => MoveKeepsInv(s, r, Done(Failed(StoreFailed)));
    case Waiting(_, _) => MoveKeepsInv(s, r, Done(Failed(StoreFailed)));
    case Saving(rec, _) => OwnerMoveKeepsInv(s, r, rec, Deleting(rec), s.results);
    case Deleting(_) => OrphanKeepsInv(s, r, StoreFailed);
    case _ =>
  }

  lemma RunEndsKeepsInv(s: State, r: nat, outcome: Option<Text>)
    requires Inv(s) && r in s.procs
    ensures Inv(DoRunEnds(s, r, outcome))
  {
    var results := if outcome.Some? then s.results[r := outcome.value] else s.results;
    match s.procs[r].pc
    case Running(rec) =>
      OwnerMoveKeepsInv(s, r, rec, if outcome.Some? then Saving(rec, outcome.value) else Deleting(rec), results);
    case FallbackRun =>
      PlainRunEndsKeepsInv(s, r, if outcome.Some? then Answered(outcome.value, AsFallback)
        else Failed(RunFailed), results);
    case DirectRun =>
      PlainRunEndsKeepsInv(s, r, if outcome.Some? then Answered(outcome.value, AsDirect)
        else Failed(RunFailed), results);
    case _ =>
  }

  lemma ReplayEndsKeepsInv(s: State, r: nat, present: bool)
    requires Inv(s) && r in s.procs
    ensures Inv(DoReplayEnds(s, r, present))
  {
    if s.procs[r].pc.Replaying? {
      assert ProcOk(s, r);
      MoveKeepsInv(s, r, DoReplayEnds(s, r, present).procs[r].pc);
    }
  }

  lemma TickKeepsInv(s: State, clock: nat)
    requires Inv(s) && s.clock <= clock
    ensures Inv(s.(clock := clock))
  {
    var t := s.(clock := clock);
    assert forall q :: q in s.procs ==> (ProcOk(s, q) ==> ProcOk(t, q));
    assert forall id :: id in s.rows ==> (RowOk(s, id) ==> RowOk(t, id));
    assert forall id :: id in s.deleted ==> (DeletedOk(s, id) <==> DeletedOk(t, id));
  }

  lemma AdmissionAdmissible(
    now: nat, key: Option<Text>, userId: Text, verb: Text, path: Text, payload: Payload, field: Text)
    ensures Admissible(Admission(now, key, userId, verb, path, payload, field))
    ensures Admission(now, key, userId, verb, path, payload, field).since == now
  {
  }

  /** Every step keeps the invariant. */
  lemma NextKeepsInv(s: State, a: Action)
    requires Inv(s)
    ensures Inv(Next(s, a))
  {
    match a
    case Tick(ms) => TickKeepsInv(s, s.clock + ms);
    case Arrive(r, key, userId, verb, path, payload, field) =>
      if r !in s.procs {
        AdmissionAdmissible(s.clock, key, userId, verb, path, payload, field);
        AdmitKeepsInv(s, r, Admission(s.clock, key, userId, verb, path, payload, field));
      }
    case Query(r, asOf, found, newId) =>
      if QueryAllowed(s, r, asOf, found, newId) {
        QueryKeepsInv(s, r, asOf, found, newId);
      }
    case Fault(r) =>
      if r in s.procs {
        FaultKeepsInv(s, r);
      }
    case RunEnds(r, outcome) =>
      if r in s.procs {
        RunEndsKeepsInv(s, r, outcome);
      }
    case ReplayEnds(r, present) =>
      if r in s.procs {
        ReplayEndsKeepsInv(s, r, present);
      }
    case Crash(r) =>
      if r in s.procs && !s.procs[r].pc.Done? {
        OrphanKeepsInv(s, r, Crashed);
      }
  }

  lemma {:induction false} RunKeepsInv(s: State, schedule: seq<Action>)
    requires Inv(s)
    ensures Inv(Run(s, schedule))
    decreases |schedule|
  {
    if schedule != [] {
      NextKeepsInv(s, schedule[0]);
      RunKeepsInv(Next(s, schedule[0]), schedule[1..]);
    }
  }
}
