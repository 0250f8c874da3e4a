/** `enroll` and `submit` end to end: the bodies of the idempotency protocol are the jobs of the learning machine. */
module EndToEnd {
  import opened Texts
  import opened JsonPrinter
  import opened Canonical
  import opened Entities
  import P = Idempotency
  import Protocol = IdempotencyResults
  import L = Learning
  import Calls = LearningTermination

  // ----- What is asked for -----

  /** `dto.fileUrls`: the validator lets through an absent list and a null one. */
  datatype FileUrls = NoUrls | NullUrls | SomeUrls(urls: seq<Text>)

  datatype Op =
    | Enroll(studentId: Text, courseId: Text)
    | Submit(studentId: Text, assignmentId: Text, content: Text, fileUrls: FileUrls)

  function Target(op: Op): Pair
  {
    if op.Enroll? then Pair(op.studentId, op.courseId) else Pair(op.studentId, op.assignmentId)
  }

  const POST: Text := Units("POST")

  function PathOf(op: Op): Text {
    match op
    case Enroll(_, _) => Units("/api/v1/enrollments")
    case Submit(_, assignmentId, _, _) => Units("/api/v1/assignments/") + assignmentId + Units("/submissions")
  }

  function FieldOf(op: Op): Text { if op.Enroll? then Units("enrollmentId") else Units("submissionId") }

  function Urls(fileUrls: FileUrls): Value {
    match fileUrls
    case NoUrls => Undefined
    case NullUrls => Null
    case SomeUrls(urls) => Arr(seq(|urls|, i requires 0 <= i < |urls| => Str(urls[i])))
  }

  function DtoFields(op: Op): seq<Field> {
    match op
    case Enroll(_, courseId) => [Named(Units("courseId"), Str(courseId))]
    case Submit(_, _, content, fileUrls) => [Named(Units("content"), Str(content)),
      Named(Units("fileUrls"), Urls(fileUrls))]
  }

  lemma DtoWellFormed(op: Op)
    ensures WellFormed(Obj(DtoFields(op)))
  {
    var fields := DtoFields(op);
    assert |Units("content")| != |Units("fileUrls")|;
    assert Distinct(fields);
    forall i | 0 <= i < |fields| ensures WellFormed(fields[i].value) {
    }
  }

  function Dto(op: Op): P.Payload {
    DtoWellFormed(op);
    Obj(DtoFields(op))
  }

  function WorkOf(op: Op): Work
    requires op.Submit?
  {
    Work(op.content, if op.fileUrls.SomeUrls? then op.fileUrls.urls else [])
  }

  function JobOf(op: Op): L.Job {
    match op
    case Enroll(studentId, courseId) => L.EnrollJob(studentId, courseId)
    case Submit(studentId, assignmentId, _, _) => L.SubmitJob(studentId, assignmentId, WorkOf(op))
  }

  function ReplayJob(op: Op, id: Option<Text>): L.Job {
    if op.Enroll? then L.ReplayEnrollmentJob(id) else L.ReplaySubmissionJob(id)
  }

  /** Same operation, same student, same course or assignment. */
  predicate SameTarget(a: Op, b: Op) { a.Enroll? == b.Enroll? && Target(a) == Target(b) }

  // ----- The composed machine -----

  datatype State = State(p: P.State, d: L.State, ops: map<nat, Op>)

  function Init(): State { State(P.Init(), L.Init(), map[]) }

  datatype Action =
    | Tick(ms: nat)
    | Arrive(r: nat, key: Option<Text>, op: Op)
    | Store(r: nat, asOf: nat, found: Option<Text>, newId: Text)   // the idempotency table answers
    | StoreFault(r: nat)
    | Domain(step: L.Action)         // the learning databases answer, or someone else acts on them
    | RunEnds(r: nat)
    | ReplayEnds(r: nat)
    | Crash(r: nat)

  /** Jobs number 3r and 3r + 1 are the run and the replay of request r; the others are feedback. */
  function RunTask(r: nat): nat { 3 * r }
  function ReplayTask(r: nat): nat { 3 * r + 1 }

  predicate DomainStep(a: L.Action) { !a.Tick? && (a.Begin? ==> a.job.FeedbackJob? && a.r % 3 == 2) }

  function IdOf(outcome: L.Outcome): Option<Text> { if outcome.Rejected? then None else Some(outcome.id) }

  /** The protocol moved from `s.p` to `p`: the body that it called begins. */
  function Called(s: State, p: P.State, r: nat): L.State
    requires r in p.procs && r in s.ops
  {
    var pc := p.procs[r].pc;
    if p.runs != s.p.runs then L.DoBegin(s.d, RunTask(r), JobOf(s.ops[r]))
    else if pc.Replaying? then
      L.DoBegin(s.d, ReplayTask(r), ReplayJob(s.ops[r], P.ReadId(pc.body, p.procs[r].req.field)))
    else s.d
  }

  function WithCall(s: State, p: P.State, r: nat): State
    requires r in s.ops
  {
    if r in p.procs then s.(p := p, d := Called(s, p, r)) else s
  }

  function ArriveAction(r: nat, key: Option<Text>, op: Op): P.Action {
    P.Arrive(r, key, op.studentId, POST, PathOf(op), Dto(op), FieldOf(op))
  }

  function DoArrive(s: State, r: nat, key: Option<Text>, op: Op): State {
    if r in s.ops then s else WithCall(s.(ops := s.ops[r := op]), P.Next(s.p, ArriveAction(r, key, op)), r)
  }

  function DoStore(s: State, a: P.Action, r: nat): State { if r in s.ops then WithCall(s, P.Next(s.p, a), r) else s }

  function DoRunEnds(s: State, r: nat): State {
    if RunTask(r) in s.d.tasks && s.d.tasks[RunTask(r)].at.Ended?
    then s.(p := P.Next(s.p, P.RunEnds(r, IdOf(s.d.tasks[RunTask(r)].at.outcome))))
    else s
  }

  function DoReplayEnds(s: State, r: nat): State {
    if ReplayTask(r) in s.d.tasks && s.d.tasks[ReplayTask(r)].at.Ended?
    then s.(p := P.Next(s.p, P.ReplayEnds(r, s.d.tasks[ReplayTask(r)].at.outcome.Found?)))
    else s
  }

  function DoCrash(s: State, r: nat): State {
    s.(p := P.Next(s.p, P.Crash(r)), d := L.DoFail(L.DoFail(s.d, RunTask(r)), ReplayTask(r)))
  }

  function Next(s: State, a: Action): State {
    match a
    case Tick(ms) => s.(p := P.Next(s.p, P.Tick(ms)), d := L.Next(s.d, L.Tick(ms)))
    case Arrive(r, key, op) => DoArrive(s, r, key, op)
    case Store(r, asOf, found, newId) => DoStore(s, P.Query(r, asOf, found, newId), r)
    case StoreFault(r) => DoStore(s, P.Fault(r), r)
    case Domain(step) => if DomainStep(step) then s.(d := L.Next(s.d, step)) else s
    case RunEnds(r) => DoRunEnds(s, r)
    case ReplayEnds(r) => DoReplayEnds(s, r)
    case Crash(r) => DoCrash(s, r)
  }

  function Run(s: State, schedule: seq<Action>): State
    decreases |schedule|
  {
    if schedule == [] then s else Run(Next(s, schedule[0]), schedule[1..])
  }

  // ----- The invariant that links the two machines -----

  /** The request is the one its operation makes. */
  ghost predicate AsksFor(req: P.Request, op: Op) {
    && req.payload == Dto(op) && req.field == FieldOf(op)
    && (req.scope.Some? ==>
          req.scope.value == P.Scope(op.studentId, POST, PathOf(op), req.scope.value.key))
  }

  /** Its run is the one job of its operation, and a result of the protocol is the identifier that job ended with. */
  ghost predicate RunLink(s: State, r: nat)
    requires r in s.ops
  {
    var t := RunTask(r);
    && (r in s.p.runs <==> t in s.d.tasks)
    && (t in s.d.tasks ==> s.d.tasks[t].job == JobOf(s.ops[r]))
    && (r in s.p.results ==>
          t in s.d.tasks && s.d.tasks[t].at.Ended? && IdOf(s.d.tasks[t].at.outcome) == Some(s.p.results[r]))
  }

  /** Its replay looks for the identifier in the stored body, and answers with the row that was found. */
  ghost predicate ReplayLink(s: State, r: nat)
    requires r in s.ops && r in s.p.procs
  {
    var t, pc := ReplayTask(r), s.p.procs[r].pc;
    && (t in s.d.tasks ==> pc.Replaying? || pc.Done?)
    && (pc.Replaying? ==>
          t in s.d.tasks && s.d.tasks[t].job == ReplayJob(s.ops[r], P.ReadId(pc.body, s.p.procs[r].req.field)))
    && (pc.Done? && pc.answer.Answered? && pc.answer.via.AsReplay? ==>
          t in s.d.tasks && s.d.tasks[t].at == L.Ended(L.Found(pc.answer.value)))
  }

  ghost predicate Linked(s: State, r: nat)
    requires r in s.ops && r in s.p.procs
  {
    AsksFor(s.p.procs[r].req, s.ops[r]) && RunLink(s, r) && ReplayLink(s, r)
  }

  ghost predicate Inv(s: State) {
    && P.Inv(s.p) && L.Inv(s.d) && Protocol.HashesOk(s.p)
    && s.p.procs.Keys == s.ops.Keys && s.p.results.Keys <= s.ops.Keys
    && (forall r {:trigger Linked(s, r)} :: r in s.ops ==> Linked(s, r))
    && (forall r: nat :: RunTask(r) in s.d.tasks || ReplayTask(r) in s.d.tasks ==> r in s.ops)
  }

  // ----- Frames -----

  /** Work in flight keeps its job, and stays as it is once it ended. */
  ghost predicate Kept(d: L.State, e: L.State, t: nat) {
    && (t in d.tasks <==> t in e.tasks)
    && (t in d.tasks ==> e.tasks[t].job == d.tasks[t].job && (d.tasks[t].at.Ended? ==> e.tasks[t] == d.tasks[t]))
  }

  ghost predicate BodyKept(d: L.State, e: L.State, r: nat) { Kept(d, e, RunTask(r)) && Kept(d, e, ReplayTask(r)) }

  ghost predicate BodiesKept(d: L.State, e: L.State) { forall r: nat :: BodyKept(d, e, r) }

  lemma KeptIn(d: L.State, e: L.State, t: nat)
    requires Kept(d, e, t)
    ensures t in d.tasks <==> t in e.tasks
  {
  }

  lemma LinkedFrame(s: State, t: State, q: nat)
    requires q in s.ops && q in s.p.procs && Linked(s, q)
    requires q in t.ops && t.ops[q] == s.ops[q] && q in t.p.procs && t.p.procs[q] == s.p.procs[q]
    requires (q in t.p.runs <==> q in s.p.runs) && (q in t.p.results <==> q in s.p.results)
    requires q in s.p.results ==> t.p.results[q] == s.p.results[q]
    requires Kept(s.d, t.d, RunTask(q)) && Kept(s.d, t.d, ReplayTask(q))
    ensures Linked(t, q)
  {
  }

  lemma FailKeeps(d: L.State, f: nat, t: nat)
    ensures Kept(d, L.DoFail(d, f), t)
  {
    if t in d.tasks {
      Calls.FailTasks(d, f, t);
    }
  }

  lemma DomainKeeps(d: L.State, a: L.Action, t: nat)
    requires DomainStep(a) && t % 3 != 2
    ensures Kept(d, L.Next(d, a), t)
  {
    hide L.Next;
    if t in d.tasks {
      Calls.BodiesEnd(d, a, t);
    } else if t in L.Next(d, a).tasks {
      Calls.OnlyBeginAdds(d, a, t);
    }
  }

  /** The part of the protocol that the links look at, in one step. */
  lemma ResultsFrame(s: P.State, a: P.Action)
    ensures P.Next(s, a).results == s.results
      || (a.RunEnds? && a.outcome.Some? && P.Next(s, a).results == s.results[a.r := a.outcome.value])
  {
    hide P.QueryAllowed;
    if a.Query? && P.QueryAllowed(s, a.r, a.asOf, a.found, a.newId) {
      QueryResults(s, a.r, a.asOf, a.found, a.newId);
    }
    hide P.DoQuery, P.Admission;
  }

  lemma QueryResults(s: P.State, r: nat, asOf: nat, found: Option<Text>, newId: Text)
    requires P.QueryAllowed(s, r, asOf, found, newId)
    ensures P.DoQuery(s, r, asOf, found, newId).results == s.results
  {
    hide P.Resolve, P.Poll, P.IsActiveRecord, P.IsConflict;
  }

  lemma KeysFrame(s: P.State, a: P.Action)
    ensures P.Next(s, a).procs.Keys == if a.Arrive? then s.procs.Keys + {a.r} else s.procs.Keys
  {
    hide P.Next;
    forall r | r in s.procs ensures r in P.Next(s, a).procs {
      Protocol.Frame(s, a, r);
    }
    forall r | r !in s.procs && r in P.Next(s, a).procs ensures a.Arrive? && a.r == r {
      Protocol.Newcomer(s, a, r);
    }
    ArrivesIn(s, a);
  }

  lemma ArrivesIn(s: P.State, a: P.Action)
    ensures a.Arrive? ==> a.r in P.Next(s, a).procs
  {
    hide P.DoQuery, P.QueryAllowed, P.Admission;
  }

  /** A database call takes nobody out of a replay or an answer, and answers nobody by replay. */
  lemma StorePc(s: P.State, a: P.Action, r: nat)
    requires r in s.procs && (a.Query? || a.Fault?) && a.r == r
    ensures s.procs[r].pc.Replaying? || s.procs[r].pc.Done? ==> P.Next(s, a) == s
    ensures r in P.Next(s, a).procs
    ensures var pc := P.Next(s, a).procs[r].pc;
      pc.Done? && pc.answer.Answered? && pc.answer.via.AsReplay? ==> s.procs[r].pc.Done?
  {
    Protocol.Frame(s, a, r);
    if a.Query? {
      if P.QueryAllowed(s, r, a.asOf, a.found, a.newId) {
        QueryPc(s, r, a.asOf, a.found, a.newId);
      }
      hide P.DoQuery, P.QueryAllowed;
    }
  }

  lemma QueryPc(s: P.State, r: nat, asOf: nat, found: Option<Text>, newId: Text)
    requires P.QueryAllowed(s, r, asOf, found, newId)
    ensures !s.procs[r].pc.Replaying? && !s.procs[r].pc.Done?
    ensures r in P.DoQuery(s, r, asOf, found, newId).procs
    ensures var pc := P.DoQuery(s, r, asOf, found, newId).procs[r].pc;
      pc.Done? && pc.answer.Answered? ==> pc.answer.via.AsOwner?
  {
    hide P.IsActiveRecord, P.IsConflict, P.NewRecord, P.CompletedRecord;
  }

  lemma RunEndsPc(s: P.State, r: nat, outcome: Option<Text>)
    requires r in s.procs
    ensures var t := P.DoRunEnds(s, r, outcome);
      && r in t.procs
      && (s.procs[r].pc.Replaying? || s.procs[r].pc.Done? ==> t == s)
      && (t.procs[r].pc.Replaying? ==> t == s)
      && (t.procs[r].pc.Done? && t.procs[r].pc.answer.Answered? && t.procs[r].pc.answer.via.AsReplay? ==> t == s)
  {
  }

  // ----- Every step keeps the invariant -----

  /** A step of request `r` in the protocol, with the tasks that the links look at kept, is fine for all the others. */
  lemma OthersLinked(s: State, t: State, a: P.Action, r: nat, q: nat)
    requires Inv(s) && Protocol.Actor(a) == Some(r) && t.p == P.Next(s.p, a) && q in s.ops && q != r
    requires q in t.ops && t.ops[q] == s.ops[q]
    requires Kept(s.d, t.d, RunTask(q)) && Kept(s.d, t.d, ReplayTask(q))
    ensures q in t.p.procs && Linked(t, q)
  {
    hide P.Next, Kept;
    assert Linked(s, q);
    Protocol.Frame(s.p, a, q);
    ResultsFrame(s.p, a);
    LinkedFrame(s, t, q);
  }

  /** A request that starts its run had started none, and neither replays nor answers by replay. */
  lemma Starts(s: P.State, t: P.State, r: nat)
    requires P.Inv(t) && r in s.procs && P.StepOf(s, t, r) && t.runs != s.runs
    ensures r !in s.runs && r in t.runs && !t.procs[r].pc.Replaying?
    ensures t.procs[r].pc.Done? && t.procs[r].pc.answer.Answered? ==> !t.procs[r].pc.answer.via.AsReplay?
  {
    assert P.ProcOk(t, r);
    assert t.runs[|s.runs|] == r;
    hide P.ProcOk;
    forall i | 0 <= i < |s.runs| ensures s.runs[i] != r {
      assert t.runs[i] != t.runs[|s.runs|];
    }
  }

  lemma StartLinks(s: State, t: State, r: nat)
    requires r in s.ops && r in s.p.procs && Linked(s, r) && !s.p.procs[r].pc.Replaying? && !s.p.procs[r].pc.Done?
    requires t.ops == s.ops && r in t.p.procs && t.p.procs[r].req == s.p.procs[r].req && t.p.results == s.p.results
    requires r !in s.p.runs && r in t.p.runs && !t.p.procs[r].pc.Replaying?
    requires t.p.procs[r].pc.Done? && t.p.procs[r].pc.answer.Answered? ==> !t.p.procs[r].pc.answer.via.AsReplay?
    requires t.d == L.DoBegin(s.d, RunTask(r), JobOf(s.ops[r]))
    ensures Linked(t, r)
  {
  }

  lemma StartKeepsLink(s: State, t: State, a: P.Action, r: nat)
    requires Inv(s) && r in s.ops && (a.Query? || a.Fault?) && a.r == r && t.p == P.Next(s.p, a) && t.ops == s.ops
    requires P.Inv(t.p) && r in t.p.procs && t.p.runs != s.p.runs && t.d == Called(s, t.p, r)
    ensures t.d == L.DoBegin(s.d, RunTask(r), JobOf(s.ops[r])) && Linked(t, r)
  {
    hide P.Next, P.Inv, L.Inv, L.DoBegin, Linked;
    assert Linked(s, r);
    Protocol.Frame(s.p, a, r);
    ResultsFrame(s.p, a);
    StorePc(s.p, a, r);
    Starts(s.p, t.p, r);
    StartLinks(s, t, r);
  }

  lemma ReplayLinks(s: State, t: State, r: nat)
    requires r in s.ops && r in s.p.procs && Linked(s, r)
    requires t.ops == s.ops && r in t.p.procs && t.p.procs[r].req == s.p.procs[r].req && t.p.results == s.p.results
    requires s.p.procs[r].pc.Replaying? || s.p.procs[r].pc.Done? ==> t.p.procs[r].pc == s.p.procs[r].pc
    requires t.p.procs[r].pc.Done? && t.p.procs[r].pc.answer.Answered? && t.p.procs[r].pc.answer.via.AsReplay? ==>
      s.p.procs[r].pc.Done?
    requires r in t.p.runs <==> r in s.p.runs
    requires t.d == if t.p.procs[r].pc.Replaying?
      then L.DoBegin(s.d, ReplayTask(r), ReplayJob(s.ops[r], P.ReadId(t.p.procs[r].pc.body, t.p.procs[r].req.field)))
        else s.d
    ensures Linked(t, r)
  {
    hide P.ReadId, ReplayJob, AsksFor;
  }

  lemma ReplayKeepsLink(s: State, t: State, a: P.Action, r: nat)
    requires Inv(s) && r in s.ops && (a.Query? || a.Fault?) && a.r == r && t.p == P.Next(s.p, a) && t.ops == s.ops
    requires r in t.p.procs && t.p.runs == s.p.runs && t.d == Called(s, t.p, r)
    ensures Linked(t, r)
  {
    hide P.Next, P.Inv, L.Inv, L.DoBegin, P.ReadId, Linked;
    assert Linked(s, r);
    Protocol.Frame(s.p, a, r);
    ResultsFrame(s.p, a);
    StorePc(s.p, a, r);
    ReplayLinks(s, t, r);
  }

  /** What the learning machine sees of a call: one job begins, or nothing happens. */
  lemma CalledKeeps(s: State, p: P.State, r: nat, q: nat)
    requires r in p.procs && r in s.ops && L.Inv(s.d)
    ensures L.Inv(Called(s, p, r))
    ensures q != r ==> Kept(s.d, Called(s, p, r), RunTask(q)) && Kept(s.d, Called(s, p, r), ReplayTask(q))
  {
    hide L.Inv, P.ReadId;
    var run, replay := JobOf(s.ops[r]), if p.procs[r].pc.Replaying? then
      ReplayJob(s.ops[r], P.ReadId(p.procs[r].pc.body, p.procs[r].req.field)) else JobOf(s.ops[r]);
    L.NextKeepsInv(s.d, L.Begin(RunTask(r), run));
    L.NextKeepsInv(s.d, L.Begin(ReplayTask(r), replay));
    hide L.QueryAllowed, L.DoQuery;
  }

  lemma StoreKeepsInv(s: State, a: P.Action, r: nat)
    requires Inv(s) && r in s.ops && (a.Query? || a.Fault?) && a.r == r
    ensures Inv(DoStore(s, a, r))
  {
    hide P.Next, P.Inv, L.Inv, Linked, P.ReadId, Called, Kept;
    var t := DoStore(s, a, r);
    P.NextKeepsInv(s.p, a);
    Protocol.NextKeepsHashes(s.p, a);
    KeysFrame(s.p, a);
    ResultsFrame(s.p, a);
    if t.p.runs != s.p.runs {
      StartKeepsLink(s, t, a, r);
    } else {
      ReplayKeepsLink(s, t, a, r);
    }
    CalledKeeps(s, t.p, r, r);
    forall q | q in t.ops ensures Linked(t, q) {
      if q != r {
        CalledKeeps(s, t.p, r, q);
        OthersLinked(s, t, a, r, q);
      }
    }
    forall q: nat | RunTask(q) in t.d.tasks || ReplayTask(q) in t.d.tasks ensures q in t.ops {
      CalledKeeps(s, t.p, r, q);
      if q != r {
        KeptIn(s.d, t.d, RunTask(q));
        KeptIn(s.d, t.d, ReplayTask(q));
      }
    }
  }

  /** Steps that leave the protocol alone. */
  lemma LearningStepKeepsInv(s: State, t: State)
    requires Inv(s) && t.ops == s.ops && t.p == s.p && L.Inv(t.d)
    requires BodiesKept(s.d, t.d)
    ensures Inv(t)
  {
    hide P.Inv, L.Inv, Linked, Kept;
    forall q | q in t.ops ensures Linked(t, q) {
      assert Linked(s, q) && BodyKept(s.d, t.d, q);
      LinkedFrame(s, t, q);
    }
    forall q: nat | RunTask(q) in t.d.tasks || ReplayTask(q) in t.d.tasks ensures q in t.ops {
      assert BodyKept(s.d, t.d, q);
      KeptIn(s.d, t.d, RunTask(q));
      KeptIn(s.d, t.d, ReplayTask(q));
    }
  }

  lemma DomainBodyKept(d: L.State, a: L.Action, r: nat)
    requires DomainStep(a)
    ensures BodyKept(d, L.Next(d, a), r)
  {
    hide L.Next, Kept, DomainStep;
    DomainKeeps(d, a, RunTask(r));
    DomainKeeps(d, a, ReplayTask(r));
  }

  lemma DomainStepKeepsInv(s: State, a: L.Action)
    requires Inv(s) && DomainStep(a)
    ensures Inv(s.(d := L.Next(s.d, a)))
  {
    hide P.Inv, L.Inv, Linked, BodyKept, L.Next, DomainStep;
    L.NextKeepsInv(s.d, a);
    forall r: nat ensures BodyKept(s.d, L.Next(s.d, a), r) {
      DomainBodyKept(s.d, a, r);
    }
    LearningStepKeepsInv(s, s.(d := L.Next(s.d, a)));
  }

  /** Steps of request `r` in the protocol that call nothing. */
  lemma ProtocolStepKeepsInv(s: State, t: State, a: P.Action, r: nat)
    requires Inv(s) && r in s.ops && Protocol.Actor(a) == Some(r) && !a.Arrive? && t.ops == s.ops
      && t.p == P.Next(s.p, a) && L.Inv(t.d)
    requires BodiesKept(s.d, t.d)
    requires r in t.p.procs ==> Linked(t, r)
    ensures Inv(t)
  {
    hide P.Next, P.Inv, L.Inv, Linked, Kept;
    P.NextKeepsInv(s.p, a);
    Protocol.NextKeepsHashes(s.p, a);
    KeysFrame(s.p, a);
    ResultsFrame(s.p, a);
    forall q | q in t.ops ensures Linked(t, q) {
      if q != r {
        assert BodyKept(s.d, t.d, q);
        OthersLinked(s, t, a, r, q);
      }
    }
    forall q: nat | RunTask(q) in t.d.tasks || ReplayTask(q) in t.d.tasks ensures q in t.ops {
      assert BodyKept(s.d, t.d, q);
      KeptIn(s.d, t.d, RunTask(q));
      KeptIn(s.d, t.d, ReplayTask(q));
    }
  }

  lemma AllKept(d: L.State)
    ensures BodiesKept(d, d)
  {
  }

  lemma RunEndsKeepsInv(s: State, r: nat)
    requires Inv(s) && RunTask(r) in s.d.tasks && s.d.tasks[RunTask(r)].at.Ended?
    ensures Inv(DoRunEnds(s, r))
  {
    hide Inv, P.Inv, L.Inv, BodiesKept, Linked, P.DoRunEnds, P.DoQuery, P.QueryAllowed;
    InvParts(s);
    TaskOwner(s, r);
    LinkOf(s, r);
    var outcome := IdOf(s.d.tasks[RunTask(r)].at.outcome);
    var t := DoRunEnds(s, r);
    RunEndsPc(s.p, r, outcome);
    Protocol.Frame(s.p, P.RunEnds(r, outcome), r);
    ResultsFrame(s.p, P.RunEnds(r, outcome));
    RunEndsRuns(s.p, r, outcome);
    assert t.p == P.DoRunEnds(s.p, r, outcome);
    RunEndsLinks(s, t, r, outcome);
    AllKept(s.d);
    ProtocolStepKeepsInv(s, t, P.RunEnds(r, outcome), r);
  }

  lemma RunEndsRuns(s: P.State, r: nat, outcome: Option<Text>)
    requires r in s.procs
    ensures P.DoRunEnds(s, r, outcome).runs == s.runs
  {
    P.RunEndsStep(s, r, outcome);
  }

  lemma RunEndsLinks(s: State, t: State, r: nat, outcome: Option<Text>)
    requires r in s.ops && r in s.p.procs && Linked(s, r) && t.ops == s.ops && t.d == s.d
    requires RunTask(r) in s.d.tasks && s.d.tasks[RunTask(r)].at.Ended?
      && outcome == IdOf(s.d.tasks[RunTask(r)].at.outcome)
    requires r in t.p.procs && t.p.procs[r].req == s.p.procs[r].req && t.p.runs == s.p.runs
    requires t.p.results == s.p.results || (outcome.Some? && t.p.results == s.p.results[r := outcome.value])
    requires s.p.procs[r].pc.Replaying? || s.p.procs[r].pc.Done? ==> t.p == s.p
    requires t.p.procs[r].pc.Replaying? ==> t.p == s.p
    requires t.p.procs[r].pc.Done? && t.p.procs[r].pc.answer.Answered? && t.p.procs[r].pc.answer.via.AsReplay? ==>
      t.p == s.p
    ensures Linked(t, r)
  {
    hide P.ReadId, ReplayJob, AsksFor;
  }

  /** A replay that found its row looked for the identifier in the stored body. */
  lemma FoundIsAskedFor(d: L.State, t: nat, op: Op, id: Option<Text>)
    requires L.Inv(d) && t in d.tasks && d.tasks[t].job == ReplayJob(op, id) && d.tasks[t].at.Ended?
      && d.tasks[t].at.outcome.Found?
    ensures id == Some(d.tasks[t].at.outcome.id)
  {
    assert L.TaskOk(d, t);
  }

  lemma ReplayEndsKeepsInv(s: State, r: nat)
    requires Inv(s) && ReplayTask(r) in s.d.tasks && s.d.tasks[ReplayTask(r)].at.Ended?
    ensures Inv(DoReplayEnds(s, r))
  {
    hide Inv, P.Inv, L.Inv, BodiesKept, Linked, P.DoReplayEnds, P.DoQuery, P.QueryAllowed, P.ReadId;
    InvParts(s);
    TaskOwner(s, r);
    LinkOf(s, r);
    var present := s.d.tasks[ReplayTask(r)].at.outcome.Found?;
    var t := DoReplayEnds(s, r);
    Protocol.Frame(s.p, P.ReplayEnds(r, present), r);
    assert t.p == P.DoReplayEnds(s.p, r, present);
    if s.p.procs[r].pc.Replaying? {
      ReplayEndsLinks(s, t, r, present);
    } else {
      ReplayEndsElse(s.p, r, present);
    }
    AllKept(s.d);
    ProtocolStepKeepsInv(s, t, P.ReplayEnds(r, present), r);
  }

  lemma ReplayEndsElse(s: P.State, r: nat, present: bool)
    requires r in s.procs && !s.procs[r].pc.Replaying?
    ensures P.DoReplayEnds(s, r, present) == s
  {
  }

  lemma ReplayEndsLinks(s: State, t: State, r: nat, present: bool)
    requires L.Inv(s.d) && r in s.ops && r in s.p.procs && Linked(s, r) && s.p.procs[r].pc.Replaying?
    requires ReplayTask(r) in s.d.tasks && s.d.tasks[ReplayTask(r)].at.Ended?
      && present == s.d.tasks[ReplayTask(r)].at.outcome.Found?
    requires t.d == s.d && t.ops == s.ops && t.p == P.DoReplayEnds(s.p, r, present)
    ensures r in t.p.procs && Linked(t, r)
  {
    hide L.Inv, P.ReadId, AsksFor;
    if present {
      FoundIsAskedFor(s.d, ReplayTask(r), s.ops[r], P.ReadId(s.p.procs[r].pc.body, s.p.procs[r].req.field));
    }
  }

  lemma CrashKeepsInv(s: State, r: nat)
    requires Inv(s)
    ensures Inv(DoCrash(s, r))
  {
    hide P.Inv, L.Inv, Kept, BodiesKept, Linked, L.DoFail, P.Next;
    var t := DoCrash(s, r);
    CrashedTasks(s.d, r);
    CrashPc(s.p, r);
    if r in s.ops {
      Protocol.Frame(s.p, P.Crash(r), r);
      ResultsFrame(s.p, P.Crash(r));
      assert Linked(s, r);
      CrashLinks(s, t, r);
      ProtocolStepKeepsInv(s, t, P.Crash(r), r);
    } else {
      LearningStepKeepsInv(s, t);
    }
  }

  lemma CrashedTasks(d: L.State, r: nat)
    requires L.Inv(d)
    ensures L.Inv(L.DoFail(L.DoFail(d, RunTask(r)), ReplayTask(r)))
    ensures BodiesKept(d, L.DoFail(L.DoFail(d, RunTask(r)), ReplayTask(r)))
  {
    hide L.Inv;
    var e := L.DoFail(d, RunTask(r));
    L.NextKeepsInv(d, L.Fail(RunTask(r)));
    L.NextKeepsInv(e, L.Fail(ReplayTask(r)));
    hide L.DoFail;
    forall q: nat ensures BodyKept(d, L.DoFail(e, ReplayTask(r)), q) {
      FailKeeps(d, RunTask(r), RunTask(q));
      FailKeeps(e, ReplayTask(r), RunTask(q));
      FailKeeps(d, RunTask(r), ReplayTask(q));
      FailKeeps(e, ReplayTask(r), ReplayTask(q));
    }
  }

  lemma CrashPc(s: P.State, r: nat)
    ensures r !in s.procs ==> P.Next(s, P.Crash(r)) == s
    ensures r in s.procs ==> r in P.Next(s, P.Crash(r)).procs && P.Next(s, P.Crash(r)).runs == s.runs
    ensures r in s.procs ==>
      P.Next(s, P.Crash(r)) == s || P.Next(s, P.Crash(r)).procs[r].pc == P.Done(P.Failed(P.Crashed))
  {
    hide P.DoQuery, P.QueryAllowed, P.Admission;
  }

  lemma CrashLinks(s: State, t: State, r: nat)
    requires r in s.ops && r in s.p.procs && Linked(s, r) && t.ops == s.ops
    requires r in t.p.procs && t.p.procs[r].req == s.p.procs[r].req && t.p.runs == s.p.runs
      && t.p.results == s.p.results
    requires t.p == s.p || t.p.procs[r].pc == P.Done(P.Failed(P.Crashed))
    requires BodiesKept(s.d, t.d)
    ensures Linked(t, r)
  {
    hide P.ReadId, ReplayJob, AsksFor;
    assert BodyKept(s.d, t.d, r);
  }

  lemma TickKeepsInv(s: State, ms: nat)
    requires Inv(s)
    ensures Inv(Next(s, Tick(ms)))
  {
    hide P.Inv, L.Inv, Linked, L.DoQuery, L.QueryAllowed, P.DoQuery, P.QueryAllowed;
    var t := Next(s, Tick(ms));
    P.NextKeepsInv(s.p, P.Tick(ms));
    L.NextKeepsInv(s.d, L.Tick(ms));
    AllKept(s.d);
    forall q | q in t.ops ensures Linked(t, q) {
      assert Linked(s, q);
      LinkedFrame(s, t, q);
    }
  }

  // ----- Arrivals -----

  lemma AdmissionAsks(now: nat, key: Option<Text>, op: Op)
    ensures var p := P.Admission(now, key, op.studentId, POST, PathOf(op), Dto(op), FieldOf(op));
      AsksFor(p.req, op) && P.Admissible(p)
  {
    hide P.HashPayload, Dto, PathOf, FieldOf;
    P.AdmissionAdmissible(now, key, op.studentId, POST, PathOf(op), Dto(op), FieldOf(op));
  }

  lemma ArriveLinks(t: State, r: nat)
    requires r in t.ops && r in t.p.procs && AsksFor(t.p.procs[r].req, t.ops[r]) && P.Admissible(t.p.procs[r])
    requires r in t.p.runs <==> t.p.procs[r].pc.DirectRun?
    requires r !in t.p.results && ReplayTask(r) !in t.d.tasks
    requires t.p.procs[r].pc.DirectRun? <==> RunTask(r) in t.d.tasks
    requires RunTask(r) in t.d.tasks ==> t.d.tasks[RunTask(r)].job == JobOf(t.ops[r])
    ensures Linked(t, r)
  {
    hide AsksFor;
  }

  lemma CalledKeepsBody(s: State, p: P.State, r: nat, q: nat)
    requires r in p.procs && r in s.ops && L.Inv(s.d) && q != r
    ensures BodyKept(s.d, Called(s, p, r), q)
  {
    hide L.Inv, Called, Kept;
    CalledKeeps(s, p, r, q);
  }

  lemma BodyKeptIn(d: L.State, e: L.State, q: nat)
    requires BodyKept(d, e, q)
    ensures (RunTask(q) in d.tasks <==> RunTask(q) in e.tasks)
      && (ReplayTask(q) in d.tasks <==> ReplayTask(q) in e.tasks)
  {
  }

  lemma ArrivedOthers(s: State, t: State, a: P.Action, q: nat)
    requires Inv(s) && a.Arrive? && a.r !in s.ops && q in s.ops && t.p == P.Next(s.p, a) && a.r in t.ops
      && t.ops == s.ops[a.r := t.ops[a.r]]
    requires BodyKept(s.d, t.d, q)
    ensures q in t.ops && q in t.p.procs && Linked(t, q)
  {
    hide P.Next, Kept, P.Inv, L.Inv, Linked;
    assert Linked(s, q);
    Protocol.Frame(s.p, a, q);
    ResultsFrame(s.p, a);
    LinkedFrame(s, t, q);
  }

  lemma Assemble(s: State, t: State, r: nat)
    requires Inv(s) && P.Inv(t.p) && L.Inv(t.d) && Protocol.HashesOk(t.p) && s.ops.Keys <= t.ops.Keys && r in t.ops
    requires t.p.procs.Keys == t.ops.Keys && t.p.results == s.p.results
    requires forall q {:trigger Linked(t, q)} :: q in t.ops ==> Linked(t, q)
    requires forall q: nat :: q != r ==> BodyKept(s.d, t.d, q)
    ensures Inv(t)
  {
    hide P.Inv, L.Inv, Linked, BodyKept, Protocol.HashesOk;
    forall q: nat | RunTask(q) in t.d.tasks || ReplayTask(q) in t.d.tasks ensures q in t.ops {
      if q != r {
        BodyKeptIn(s.d, t.d, q);
      }
    }
  }

  lemma WithCallParts(s: State, p: P.State, r: nat)
    requires r in s.ops && r in p.procs
    ensures WithCall(s, p, r) == State(p, Called(s, p, r), s.ops)
  {
    hide Called;
  }

  lemma ArrivedKeys(s: State, a: P.Action)
    requires Inv(s) && a.Arrive?
    ensures P.Next(s.p, a).procs.Keys == s.ops.Keys + {a.r} && P.Next(s.p, a).results == s.p.results
  {
    hide P.Inv, L.Inv, Linked, P.Next;
    KeysFrame(s.p, a);
    ResultsFrame(s.p, a);
  }

  lemma ArrivedParts(s: State, r: nat, key: Option<Text>, op: Op)
    requires Inv(s) && r !in s.ops
    ensures r in P.Next(s.p, ArriveAction(r, key, op)).procs
    ensures P.Next(s.p, ArriveAction(r, key, op)).procs.Keys == s.ops.Keys + {r}
    ensures P.Next(s.p, ArriveAction(r, key, op)).results == s.p.results
    ensures DoArrive(s, r, key, op) ==
      State(P.Next(s.p, ArriveAction(r, key, op)),
        Called(s.(ops := s.ops[r := op]), P.Next(s.p, ArriveAction(r, key, op)), r), s.ops[r := op])
  {
    ArrivalOf(r, key, op);
    hide Inv, ArriveAction, P.Next, Called, WithCall;
    ArrivedKeys(s, ArriveAction(r, key, op));
    WithCallParts(s.(ops := s.ops[r := op]), P.Next(s.p, ArriveAction(r, key, op)), r);
  }

  lemma ArrivedInv(s: State, w: State, t: State, a: P.Action)
    requires Inv(s) && a.Arrive? && a.r !in s.ops && a.r in t.ops && t.ops == s.ops[a.r := t.ops[a.r]]
    requires w.d == s.d && w.ops == t.ops && t.p == P.Next(s.p, a) && a.r in t.p.procs && t.d == Called(w, t.p, a.r)
    requires Linked(t, a.r)
    ensures Inv(t)
  {
    hide Inv, P.Inv, L.Inv, Protocol.HashesOk, Linked, BodyKept, P.Next, Called;
    InvParts(s);
    P.NextKeepsInv(s.p, a);
    Protocol.NextKeepsHashes(s.p, a);
    ArrivedKeys(s, a);
    CalledKeepsInv(w, t.p, a.r);
    forall q: nat | q != a.r ensures BodyKept(s.d, t.d, q) {
      CalledKeepsBody(w, t.p, a.r, q);
    }
    AllArrived(s, t, a);
    Assemble(s, t, a.r);
  }

  lemma CalledKeepsInv(s: State, p: P.State, r: nat)
    requires r in p.procs && r in s.ops && L.Inv(s.d)
    ensures L.Inv(Called(s, p, r))
  {
    hide Called, L.Inv, Kept;
    CalledKeeps(s, p, r, r);
  }

  lemma AllArrived(s: State, t: State, a: P.Action)
    requires Inv(s) && a.Arrive? && a.r !in s.ops && a.r in t.ops && t.p == P.Next(s.p, a)
      && t.ops == s.ops[a.r := t.ops[a.r]]
    requires a.r in t.p.procs && Linked(t, a.r)
    requires forall q: nat :: q != a.r ==> BodyKept(s.d, t.d, q)
    ensures forall q {:trigger Linked(t, q)} :: q in t.ops ==> q in t.p.procs && Linked(t, q)
  {
    hide Inv, P.Next, BodyKept, Linked;
    forall q | q in t.ops ensures q in t.p.procs && Linked(t, q) {
      if q != a.r {
        ArrivedOthers(s, t, a, q);
      }
    }
  }

  lemma TaskOwner(s: State, r: nat)
    requires Inv(s) && (RunTask(r) in s.d.tasks || ReplayTask(r) in s.d.tasks)
    ensures r in s.ops
  {
    hide P.Inv, L.Inv, Linked, Protocol.HashesOk;
  }

  lemma LinkOf(s: State, r: nat)
    requires Inv(s) && r in s.ops
    ensures r in s.p.procs && Linked(s, r)
  {
    hide P.Inv, L.Inv, Protocol.HashesOk;
  }

  lemma InvParts(s: State)
    requires Inv(s)
    ensures P.Inv(s.p) && L.Inv(s.d) && Protocol.HashesOk(s.p) && s.p.procs.Keys == s.ops.Keys
  {
    hide P.Inv, L.Inv, Linked, Protocol.HashesOk;
  }

  lemma ArriveKeepsInv(s: State, r: nat, key: Option<Text>, op: Op)
    requires Inv(s) && r !in s.ops
    ensures Inv(DoArrive(s, r, key, op))
  {
    hide Inv, Linked, ArriveAction, P.Next, Called, DoArrive;
    ArrivalOf(r, key, op);
    ArrivedParts(s, r, key, op);
    ArrivalLinked(s, r, key, op);
    ArrivedInv(s, s.(ops := s.ops[r := op]), DoArrive(s, r, key, op), ArriveAction(r, key, op));
  }

  lemma ArrivalOf(r: nat, key: Option<Text>, op: Op)
    ensures ArriveAction(r, key, op).Arrive? && ArriveAction(r, key, op).r == r
  {
  }

  lemma ArrivalAdmits(p: P.State, r: nat, key: Option<Text>, op: Op)
    requires r !in p.procs
    ensures P.Next(p, ArriveAction(r, key, op))
      == P.Admit(p, r, P.Admission(p.clock, key, op.studentId, POST, PathOf(op), Dto(op), FieldOf(op)))
  {
    hide P.Admission, P.DoQuery, P.QueryAllowed, PathOf, Dto, FieldOf, P.Admit;
  }

  lemma NothingOfNewcomer(s: State, r: nat)
    requires Inv(s) && r !in s.ops
    ensures r !in s.p.procs && r !in s.p.runs && r !in s.p.results && RunTask(r) !in s.d.tasks
      && ReplayTask(r) !in s.d.tasks
  {
    hide P.Inv, L.Inv, Linked;
    assert r !in s.p.procs;
    OnlyKnownRun(s.p, r);
  }

  lemma OnlyKnownRun(p: P.State, r: nat)
    requires P.Inv(p) && r !in p.procs
    ensures r !in p.runs
  {
    hide P.RowOk, P.ProcOk, P.DeletedOk, P.OneRowPerScope;
  }

  lemma ArrivalLinked(s: State, r: nat, key: Option<Text>, op: Op)
    requires Inv(s) && r !in s.ops
    ensures r in DoArrive(s, r, key, op).ops && r in DoArrive(s, r, key, op).p.procs
    ensures Linked(DoArrive(s, r, key, op), r)
  {
    NothingOfNewcomer(s, r);
    ArrivalAdmits(s.p, r, key, op);
    AdmissionAsks(s.p.clock, key, op);
    var proc := P.Admission(s.p.clock, key, op.studentId, POST, PathOf(op), Dto(op), FieldOf(op));
    hide Inv, P.Next, P.Admission, ArriveAction, AsksFor, Linked, Dto, PathOf, FieldOf, ReplayJob, JobOf, P.ReadId;
    ArrivedTables(s, r, key, op, proc);
    hide DoArrive;
    ArriveLinks(DoArrive(s, r, key, op), r);
  }

  lemma ArrivedTables(s: State, r: nat, key: Option<Text>, op: Op, proc: P.Proc)
    requires r !in s.ops && r !in s.p.runs && RunTask(r) !in s.d.tasks
    requires P.Next(s.p, ArriveAction(r, key, op)) == P.Admit(s.p, r, proc) && P.Admissible(proc)
    ensures r in DoArrive(s, r, key, op).ops && DoArrive(s, r, key, op).ops[r] == op
    ensures DoArrive(s, r, key, op).p == P.Admit(s.p, r, proc)
    ensures r in P.Admit(s.p, r, proc).procs && P.Admit(s.p, r, proc).procs[r] == proc
    ensures r in P.Admit(s.p, r, proc).runs <==> proc.pc.DirectRun?
    ensures DoArrive(s, r, key, op).d == if proc.pc.DirectRun? then L.DoBegin(s.d, RunTask(r), JobOf(op)) else s.d
  {
    hide P.Next, ArriveAction, JobOf;
    var p := P.Admit(s.p, r, proc);
    assert proc.pc.DirectRun? ==> p.runs == s.p.runs + [r] && p.runs != s.p.runs;
  }

  /** Every step keeps the invariant. */
  lemma NextKeepsInv(s: State, a: Action)
    requires Inv(s)
    ensures Inv(Next(s, a))
  {
    hide Inv, DoArrive, DoStore, DoCrash, L.Next, P.Next;
    match a
    case Tick(ms) => TickKeepsInv(s, ms);
    case Arrive(r, key, op) =>
      if r in s.ops {
        assert DoArrive(s, r, key, op) == s by { Known(s, r, key, op); }
      } else {
        ArriveKeepsInv(s, r, key, op);
      }
    case Store(r, asOf, found, newId) => StoreOrNot(s, P.Query(r, asOf, found, newId), r);
    case StoreFault(r) => StoreOrNot(s, P.Fault(r), r);
    case Domain(step) =>
      if DomainStep(step) {
        DomainStepKeepsInv(s, step);
      }
    case RunEnds(r) =>
      if RunTask(r) in s.d.tasks && s.d.tasks[RunTask(r)].at.Ended? {
        RunEndsKeepsInv(s, r);
      }
    case ReplayEnds(r) =>
      if ReplayTask(r) in s.d.tasks && s.d.tasks[ReplayTask(r)].at.Ended? {
        ReplayEndsKeepsInv(s, r);
      }
    case Crash(r) => CrashKeepsInv(s, r);
  }

  lemma Known(s: State, r: nat, key: Option<Text>, op: Op)
    requires r in s.ops
    ensures DoArrive(s, r, key, op) == s
  {
  }

  lemma StoreOrNot(s: State, a: P.Action, r: nat)
    requires Inv(s) && (a.Query? || a.Fault?) && a.r == r
    ensures Inv(DoStore(s, a, r))
  {
    hide Inv;
    if r in s.ops {
      StoreKeepsInv(s, a, r);
    }
  }

  lemma {:induction false} RunKeepsInv(s: State, schedule: seq<Action>)
    requires Inv(s)
    ensures Inv(Run(s, schedule))
    decreases |schedule|
  {
    if schedule != [] {
      NextKeepsInv(s, schedule[0]);
      RunKeepsInv(Next(s, schedule[0]), schedule[1..]);
    }
  }
}
