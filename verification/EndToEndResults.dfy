/** What callers of `enroll` and `submit` can rely on, whatever path answered them. */
module EndToEndResults {
  import opened Texts
  import opened Canonical
  import opened Entities
  import P = Idempotency
  import Protocol = IdempotencyResults
  import L = Learning
  import Bodies = LearningResults
  import opened EndToEnd

  lemma ReachableInv(schedule: seq<Action>)
    ensures Inv(Run(Init(), schedule))
  {
    RunKeepsInv(Init(), schedule);
  }

  // ----- Requests with one scope and one hash ask for the same thing -----

  lemma PathsApart(a: Op, b: Op)
    requires PathOf(a) == PathOf(b)
    ensures a.Enroll? == b.Enroll?
    ensures a.Submit? ==> a.assignmentId == b.assignmentId
  {
    var head, tail := Units("/api/v1/assignments/"), Units("/submissions");
    if a.Submit? && b.Submit? {
      assert a.assignmentId == PathOf(a)[|head|..|PathOf(a)| - |tail|];
      assert b.assignmentId == PathOf(b)[|head|..|PathOf(b)| - |tail|];
    }
  }

  lemma CourseIdMeaning(op: Op)
    requires op.Enroll?
    ensures MeaningOf(Dto(op), false).MObj?
    ensures Units("courseId") in MeaningOf(Dto(op), false).members
    ensures MeaningOf(Dto(op), false).members[Units("courseId")] == MStr(op.courseId)
  {
    var fields, name := DtoFields(op), Units("courseId");
    assert fields[0].name == name && name in Names(fields);
    assert |PROTO| == 9 && |name| == 8;
    assert IndexOf(fields, name) == 0;
  }

  lemma SameHashSameCourse(a: Op, b: Op)
    requires a.Enroll? && b.Enroll? && P.HashPayload(Dto(a)) == P.HashPayload(Dto(b))
    ensures a.courseId == b.courseId
  {
    hide P.HashPayload, Dto, MeaningOf;
    Protocol.SameHashIffSameMeaning(Dto(a), Dto(b));
    CourseIdMeaning(a);
    CourseIdMeaning(b);
  }

  function UrlMeanings(urls: seq<Text>): seq<Meaning> { seq(|urls|, i requires 0 <= i < |urls| => MStr(urls[i])) }

  lemma UrlMeaningsInjective(a: seq<Text>, b: seq<Text>)
    requires UrlMeanings(a) == UrlMeanings(b)
    ensures a == b
  {
    assert |UrlMeanings(a)| == |a| && |UrlMeanings(b)| == |b|;
    forall i | 0 <= i < |a| ensures a[i] == b[i] {
      assert UrlMeanings(a)[i] == MStr(a[i]) && UrlMeanings(b)[i] == MStr(b[i]);
    }
  }

  lemma WorkMeaning(op: Op)
    requires op.Submit?
    ensures MeaningOf(Dto(op), false).MObj?
    ensures Units("content") in MeaningOf(Dto(op), false).members
    ensures MeaningOf(Dto(op), false).members[Units("content")] == MStr(op.content)
    ensures Units("fileUrls") in MeaningOf(Dto(op), false).members <==> !op.fileUrls.NoUrls?
    ensures op.fileUrls.NullUrls? ==> MeaningOf(Dto(op), false).members[Units("fileUrls")] == MNull
    ensures op.fileUrls.SomeUrls? ==>
      MeaningOf(Dto(op), false).members[Units("fileUrls")] == MArr(UrlMeanings(op.fileUrls.urls))
  {
    var fields, content, urls := DtoFields(op), Units("content"), Units("fileUrls");
    assert fields[0].name == content && fields[1].name == urls && content in Names(fields) && urls in Names(fields);
    assert |PROTO| == 9 && |content| == 7 && |urls| == 8;
    assert IndexOf(fields, content) == 0 && IndexOf(fields, urls) == 1;
    if op.fileUrls.SomeUrls? {
      UrlsMeaning(op.fileUrls.urls);
    }
  }

  lemma UrlsMeaning(urls: seq<Text>)
    ensures MeaningOf(Urls(SomeUrls(urls)), false) == MArr(UrlMeanings(urls))
  {
    assert MeaningOf(Urls(SomeUrls(urls)), false).items == UrlMeanings(urls);
  }

  lemma SameHashSameWork(a: Op, b: Op)
    requires a.Submit? && b.Submit? && P.HashPayload(Dto(a)) == P.HashPayload(Dto(b))
    ensures a.content == b.content && a.fileUrls == b.fileUrls && WorkOf(a) == WorkOf(b)
  {
    hide P.HashPayload, Dto, MeaningOf, UrlMeanings;
    Protocol.SameHashIffSameMeaning(Dto(a), Dto(b));
    WorkMeaning(a);
    WorkMeaning(b);
    if a.fileUrls.SomeUrls? && b.fileUrls.SomeUrls? {
      UrlMeaningsInjective(a.fileUrls.urls, b.fileUrls.urls);
    }
  }

  lemma SameRequestSameTarget(s: State, q: nat, r: nat)
    requires Inv(s) && q in s.ops && r in s.ops && q in s.p.procs && r in s.p.procs
    requires s.p.procs[q].req.scope == s.p.procs[r].req.scope && s.p.procs[q].req.scope.Some?
    requires s.p.procs[q].req.requestHash == s.p.procs[r].req.requestHash
    ensures SameTarget(s.ops[q], s.ops[r]) && (s.ops[q].Submit? ==> WorkOf(s.ops[q]) == WorkOf(s.ops[r]))
  {
    hide P.Inv, L.Inv, P.HashPayload, Dto, PathOf, FieldOf;
    assert Linked(s, q) && Linked(s, r);
    hide RunLink, ReplayLink;
    PathsApart(s.ops[q], s.ops[r]);
    if s.ops[q].Enroll? {
      SameHashSameCourse(s.ops[q], s.ops[r]);
    } else {
      SameHashSameWork(s.ops[q], s.ops[r]);
    }
  }

  // ----- Where an answer comes from -----

  predicate Succeeded(s: State, r: nat) {
    r in s.ops && r in s.p.procs && s.p.procs[r].pc.Done? && s.p.procs[r].pc.answer.Answered?
  }

  function Id(s: State, r: nat): Text
    requires Succeeded(s, r)
  {
    s.p.procs[r].pc.answer.value
  }

  function Via(s: State, r: nat): P.Via
    requires Succeeded(s, r)
  {
    s.p.procs[r].pc.answer.via
  }

  /** Every successful answer is the result of a run: its own, or that of the owner of the record it replays. */
  lemma Source(s: State, r: nat) returns (q: nat)
    requires Inv(s) && Succeeded(s, r)
    ensures q in s.ops && q in s.p.results && s.p.results[q] == Id(s, r) && SameTarget(s.ops[q], s.ops[r])
    ensures s.ops[r].Submit? ==> WorkOf(s.ops[q]) == WorkOf(s.ops[r])
    ensures !Via(s, r).AsReplay? ==> q == r
    ensures Via(s, r).AsReplay? ==> Succeeded(s, q) && Via(s, q) == P.AsOwner(Via(s, r).rec)
  {
    hide Inv, P.Inv, L.Inv;
    InvParts(s);
    if Via(s, r).AsReplay? {
      q := s.p.rows[ReplayedRow(s.p, r)].creator;
      Protocol.AnswerIsOwnersResult(s.p, r);
      ScopeOfAnswer(s.p, r);
      SameRequestSameTarget(s, q, r);
    } else {
      q := r;
      OwnResult(s.p, r);
    }
  }

  lemma OwnResult(p: P.State, r: nat)
    requires P.Inv(p) && r in p.procs && p.procs[r].pc.Done? && p.procs[r].pc.answer.Answered?
    requires !p.procs[r].pc.answer.via.AsReplay?
    ensures r in p.results && p.results[r] == p.procs[r].pc.answer.value
  {
    assert P.ProcOk(p, r);
  }

  ghost function ReplayedRow(p: P.State, r: nat): (rec: Text)
    requires P.Inv(p) && r in p.procs && p.procs[r].pc.Done? && p.procs[r].pc.answer.Answered?
      && p.procs[r].pc.answer.via.AsReplay?
    ensures rec in p.rows && rec == p.procs[r].pc.answer.via.rec
  {
    assert P.ProcOk(p, r);
    p.procs[r].pc.answer.via.rec
  }

  lemma ScopeOfAnswer(p: P.State, r: nat)
    requires P.Inv(p) && r in p.procs && p.procs[r].pc.Done? && p.procs[r].pc.answer.Answered?
      && p.procs[r].pc.answer.via.AsReplay?
    ensures p.procs[r].req.scope.Some?
  {
    assert P.ProcOk(p, r);
  }

  /** What a run returned is the one row, or the one document, of its student and target. */
  lemma ResultIsTheRow(s: State, q: nat)
    requires Inv(s) && q in s.ops && q in s.p.results
    ensures s.ops[q].Enroll? ==> Target(s.ops[q]) in s.d.enrolled && s.d.enrolled[Target(s.ops[q])] == s.p.results[q]
    ensures s.ops[q].Submit? ==> Target(s.ops[q]) in s.d.submitted && s.d.submitted[Target(s.ops[q])] == s.p.results[q]
  {
    LinkOf(s, q);
    InvParts(s);
    hide Inv, P.Inv, L.Inv, ReplayLink, AsksFor;
    OutcomeIsTheRow(s.d, RunTask(q), s.p.results[q]);
  }

  lemma OutcomeIsTheRow(d: L.State, t: nat, id: Text)
    requires L.Inv(d) && t in d.tasks && d.tasks[t].at.Ended? && IdOf(d.tasks[t].at.outcome) == Some(id)
    ensures d.tasks[t].job.EnrollJob? ==>
      L.JobPair(d.tasks[t].job) in d.enrolled && d.enrolled[L.JobPair(d.tasks[t].job)] == id
    ensures d.tasks[t].job.SubmitJob? ==>
      L.JobPair(d.tasks[t].job) in d.submitted && d.submitted[L.JobPair(d.tasks[t].job)] == id
  {
    assert L.TaskOk(d, t);
  }

  lemma AnswerIsTheRow(s: State, r: nat)
    requires Inv(s) && Succeeded(s, r)
    ensures s.ops[r].Enroll? ==> Target(s.ops[r]) in s.d.enrolled && s.d.enrolled[Target(s.ops[r])] == Id(s, r)
    ensures s.ops[r].Submit? ==> Target(s.ops[r]) in s.d.submitted && s.d.submitted[Target(s.ops[r])] == Id(s, r)
  {
    hide Inv, Target;
    var q := Source(s, r);
    ResultIsTheRow(s, q);
  }

  // ----- The results -----

  /** Keyed or not, first or retried, by the owner, by replay or by fallback: all successes of one student on one
      course, or on one assignment, carry the same identifier. */
  lemma SuccessesAgree(schedule: seq<Action>, q: nat, r: nat)
    requires var s := Run(Init(), schedule); Succeeded(s, q) && Succeeded(s, r) && SameTarget(s.ops[q], s.ops[r])
    ensures var s := Run(Init(), schedule); Id(s, q) == Id(s, r)
  {
    ReachableInv(schedule);
    AnswerIsTheRow(Run(Init(), schedule), q);
    AnswerIsTheRow(Run(Init(), schedule), r);
  }

  /** As long as the course exists, the answer is the only enrolment row of the student in it. */
  lemma EnrolmentAnswer(schedule: seq<Action>, r: nat)
    requires var s := Run(Init(), schedule); Succeeded(s, r) && s.ops[r].Enroll? && s.ops[r].courseId in s.d.courses
    ensures var s := Run(Init(), schedule);
      && Id(s, r) in s.d.enrollments
      && forall e :: e in s.d.enrollments ==>
        (s.d.enrollments[e].studentId == s.ops[r].studentId && s.d.enrollments[e].courseId == s.ops[r].courseId
         <==> e == Id(s, r))
  {
    ReachableInv(schedule);
    var s := Run(Init(), schedule);
    AnswerIsTheRow(s, r);
    InvParts(s);
    assert L.EnrolledOk(s.d, Target(s.ops[r]));
    forall e | e in s.d.enrollments ensures L.EnrollmentOk(s.d, e) {
    }
  }

  /** A submission answer is the only document of the student for the assignment. */
  lemma SubmissionAnswer(schedule: seq<Action>, r: nat)
    requires var s := Run(Init(), schedule); Succeeded(s, r) && s.ops[r].Submit?
    ensures var s := Run(Init(), schedule);
      && Id(s, r) in s.d.submissions
      && forall d :: d in s.d.submissions ==>
        (s.d.submissions[d].studentId == s.ops[r].studentId
           && s.d.submissions[d].assignmentId == s.ops[r].assignmentId
         <==> d == Id(s, r))
  {
    ReachableInv(schedule);
    var s := Run(Init(), schedule);
    AnswerIsTheRow(s, r);
    InvParts(s);
    assert L.SubmittedOk(s.d, Target(s.ops[r]));
    forall d | d in s.d.submissions ensures L.SubmissionOk(s.d, d) {
    }
  }

  /** The document of a successful answer holds what this very request handed in, even when the answer is a replay. */
  lemma AnswerHoldsOwnWork(schedule: seq<Action>, r: nat)
    requires var s := Run(Init(), schedule); Succeeded(s, r) && s.ops[r].Submit?
    ensures var s := Run(Init(), schedule);
      && Id(s, r) in s.d.submissions
      && s.d.submissions[Id(s, r)].work
         == Work(s.ops[r].content, if s.ops[r].fileUrls.SomeUrls? then s.ops[r].fileUrls.urls else [])
  {
    ReachableInv(schedule);
    var s := Run(Init(), schedule);
    hide Run;
    var q := Source(s, r);
    InvParts(s);
    LinkOf(s, q);
    hide Inv, P.Inv, L.Inv, ReplayLink, AsksFor;
    OutcomeHoldsWork(s.d, RunTask(q), Id(s, r));
  }

  lemma OutcomeHoldsWork(d: L.State, t: nat, id: Text)
    requires L.Inv(d) && t in d.tasks && d.tasks[t].job.SubmitJob? && d.tasks[t].at.Ended?
      && IdOf(d.tasks[t].at.outcome) == Some(id)
    ensures id in d.submissions && d.submissions[id].work == d.tasks[t].job.work
  {
    assert L.TaskOk(d, t);
    assert L.SubmittedByOk(d, id);
  }

  /** Only one run of a submission ever returns; every other success is a replay of a record of that run. */
  lemma OneSubmittingRun(schedule: seq<Action>, q: nat, r: nat)
    requires var s := Run(Init(), schedule);
      Succeeded(s, q) && Succeeded(s, r) && s.ops[q].Submit? && SameTarget(s.ops[q], s.ops[r])
    requires !Via(Run(Init(), schedule), q).AsReplay?
    ensures var s := Run(Init(), schedule);
      if Via(s, r).AsReplay? then Via(s, q) == P.AsOwner(Via(s, r).rec) else q == r
  {
    ReachableInv(schedule);
    var s := Run(Init(), schedule);
    var x := Source(s, r);
    InvParts(s);
    assert P.ProcOk(s.p, q);
    ReturningRuns(s, q, x);
  }

  lemma ReturningRuns(s: State, q: nat, r: nat)
    requires Inv(s) && q in s.ops && r in s.ops && q in s.p.results && r in s.p.results
    requires s.ops[q].Submit? && SameTarget(s.ops[q], s.ops[r])
    ensures q == r
  {
    LinkOf(s, q);
    LinkOf(s, r);
    InvParts(s);
    hide Inv, P.Inv, L.Inv, ReplayLink, AsksFor;
    SubmitCreates(s.d, RunTask(q));
    SubmitCreates(s.d, RunTask(r));
    Bodies.OneCreates(s.d, RunTask(q), RunTask(r));
  }

  lemma SubmitCreates(d: L.State, t: nat)
    requires L.Inv(d) && t in d.tasks && d.tasks[t].job.SubmitJob? && d.tasks[t].at.Ended?
      && !d.tasks[t].at.outcome.Rejected?
    ensures d.tasks[t].at.outcome.Created?
  {
    assert L.TaskOk(d, t);
  }

  // ----- Both machines run as they do alone -----

  /** The steps of the protocol that a step of the whole performs. */
  function ProtocolSteps(s: State, a: Action): seq<P.Action> {
    match a
    case Tick(ms) => [P.Tick(ms)]
    case Arrive(r, key, op) => if r in s.ops then [] else [ArriveAction(r, key, op)]
    case Store(r, asOf, found, newId) => if r in s.ops then [P.Query(r, asOf, found, newId)] else []
    case StoreFault(r) => if r in s.ops then [P.Fault(r)] else []
    case Domain(_) => []
    case RunEnds(r) =>
      if RunTask(r) in s.d.tasks
        && s.d.tasks[RunTask(r)].at.Ended? then [P.RunEnds(r, IdOf(s.d.tasks[RunTask(r)].at.outcome))] else []
    case ReplayEnds(r) =>
      if ReplayTask(r) in s.d.tasks && s.d.tasks[ReplayTask(r)].at.Ended?
      then [P.ReplayEnds(r, s.d.tasks[ReplayTask(r)].at.outcome.Found?)] else []
    case Crash(r) => [P.Crash(r)]
  }

  lemma OneProtocolStep(s: P.State, a: P.Action)
    ensures P.Run(s, [a]) == P.Next(s, a)
  {
    hide P.Next;
    assert [a][1..] == [];
    assert P.Run(P.Next(s, a), []) == P.Next(s, a);
  }

  /** A store call or an arrival moves the protocol by its one step. */
  lemma CallMovesProtocol(s: State, a: P.Action, r: nat)
    requires P.Inv(s.p) && r in s.ops && r in P.Next(s.p, a).procs
    ensures WithCall(s, P.Next(s.p, a), r).p == P.Run(s.p, [a])
  {
    OneProtocolStep(s.p, a);
    hide P.Next, Called, P.Run;
  }

  lemma ProtocolStepsAre(s: State, a: Action)
    requires Inv(s)
    ensures Next(s, a).p == P.Run(s.p, ProtocolSteps(s, a))
  {
    hide Inv, P.Inv, L.Inv, P.Next, L.Next, WithCall, ArriveAction, P.Run, DomainStep, L.DoFail;
    InvParts(s);
    Protocol.EmptyRun(s.p);
    match a
    case Tick(ms) => OneProtocolStep(s.p, P.Tick(ms));
    case Arrive(r, key, op) =>
      if r !in s.ops {
        var step := ArriveAction(r, key, op);
        ArrivalOf(r, key, op);
        KeysFrame(s.p, step);
        CallMovesProtocol(s.(ops := s.ops[r := op]), step, r);
      }
    case Store(r, asOf, found, newId) => StoreMovesProtocol(s, P.Query(r, asOf, found, newId), r);
    case StoreFault(r) => StoreMovesProtocol(s, P.Fault(r), r);
    case Domain(_) =>
    case RunEnds(r) =>
      if |ProtocolSteps(s, a)| == 1 {
        OneProtocolStep(s.p, ProtocolSteps(s, a)[0]);
      }
    case ReplayEnds(r) =>
      if |ProtocolSteps(s, a)| == 1 {
        OneProtocolStep(s.p, ProtocolSteps(s, a)[0]);
      }
    case Crash(r) => OneProtocolStep(s.p, P.Crash(r));
  }

  lemma StoreMovesProtocol(s: State, a: P.Action, r: nat)
    requires Inv(s) && (a.Query? || a.Fault?) && a.r == r
    ensures DoStore(s, a, r).p == P.Run(s.p, if r in s.ops then [a] else [])
  {
    hide Inv, P.Inv, L.Inv, P.Next, WithCall, P.Run;
    InvParts(s);
    Protocol.EmptyRun(s.p);
    if r in s.ops {
      KeysFrame(s.p, a);
      CallMovesProtocol(s, a, r);
    }
  }

  /** The step of the whole does this step in the protocol; a body hands over how it ended. */
  ghost predicate Performs(s: State, a: Action, step: P.Action) {
    match step
    case Tick(ms) => a == Tick(ms)
    case Arrive(r, key, userId, verb, path, payload, field) =>
      && a.Arrive? && a.r == r && a.key == key && a.op.studentId == userId && verb == Units("POST")
      && path == PathOf(a.op) && payload == Dto(a.op) && field == FieldOf(a.op)
    case Query(r, asOf, found, newId) => a == Store(r, asOf, found, newId)
    case Fault(r) => a == StoreFault(r)
    case RunEnds(r, outcome) =>
      && a == RunEnds(r) && 3 * r in s.d.tasks && s.d.tasks[3 * r].at.Ended?
      && var end := s.d.tasks[3 * r].at.outcome;
      outcome == if end.Rejected? then None else Some(end.id)
    case ReplayEnds(r, present) =>
      && a == ReplayEnds(r) && 3 * r + 1 in s.d.tasks && s.d.tasks[3 * r + 1].at.Ended?
      && present == s.d.tasks[3 * r + 1].at.outcome.Found?
    case Crash(r) => a == Crash(r)
  }

  /** The step of the whole does nothing in the protocol: the request is known, or not known yet, or its body has not
      ended, or the step is one of the learning machine. */
  ghost predicate Silent(s: State, a: Action) {
    match a
    case Arrive(r, _, _) => r in s.ops
    case Store(r, _, _, _) => r !in s.ops
    case StoreFault(r) => r !in s.ops
    case Domain(_) => true
    case RunEnds(r) => !(3 * r in s.d.tasks && s.d.tasks[3 * r].at.Ended?)
    case ReplayEnds(r) => !(3 * r + 1 in s.d.tasks && s.d.tasks[3 * r + 1].at.Ended?)
    case _ => false
  }

  /** `steps` are the protocol's share of the schedule, in its order. */
  ghost predicate ProtocolShare(s: State, schedule: seq<Action>, steps: seq<P.Action>)
    decreases |schedule|
  {
    if schedule == [] then steps == []
    else if Silent(s, schedule[0]) then ProtocolShare(Next(s, schedule[0]), schedule[1..], steps)
    else
      && steps != [] && Performs(s, schedule[0], steps[0])
      && ProtocolShare(Next(s, schedule[0]), schedule[1..], steps[1..])
  }

  lemma PerformedBy(s: State, a: Action)
    ensures var steps := ProtocolSteps(s, a);
      if Silent(s, a) then steps == [] else |steps| == 1 && Performs(s, a, steps[0])
  {
    hide PathOf, Dto, FieldOf;
  }

  /** Every interleaving of the whole is an interleaving of the protocol, made of the protocol's share of the schedule:
      what holds for all runs of the protocol holds here. */
  lemma {:induction false} ProtocolRuns(s: State, schedule: seq<Action>) returns (steps: seq<P.Action>)
    requires Inv(s)
    ensures Run(s, schedule).p == P.Run(s.p, steps)
    ensures ProtocolShare(s, schedule, steps)
    decreases |schedule|
  {
    if schedule == [] {
      steps := [];
    } else {
      PerformedBy(s, schedule[0]);
      hide Inv, Next, P.Next, ProtocolSteps, Performs, Silent;
      NextKeepsInv(s, schedule[0]);
      ProtocolStepsAre(s, schedule[0]);
      var rest := ProtocolRuns(Next(s, schedule[0]), schedule[1..]);
      steps := ProtocolSteps(s, schedule[0]) + rest;
      assert steps[|ProtocolSteps(s, schedule[0])|..] == rest;
      Protocol.RunSplit(s.p, ProtocolSteps(s, schedule[0]), rest);
    }
  }

  /** The body that the protocol calls as it moves to `p`. */
  function CallSteps(s: State, p: P.State, r: nat): seq<L.Action>
    requires r in p.procs && r in s.ops
  {
    var pc := p.procs[r].pc;
    if p.runs != s.p.runs then [L.Begin(RunTask(r), JobOf(s.ops[r]))]
    else if pc.Replaying? then [L.Begin(ReplayTask(r), ReplayJob(s.ops[r], P.ReadId(pc.body, p.procs[r].req.field)))]
    else []
  }

  function StoreSteps(s: State, a: P.Action, r: nat): seq<L.Action> {
    if r in s.ops && r in P.Next(s.p, a).procs then CallSteps(s, P.Next(s.p, a), r) else []
  }

  function LearningSteps(s: State, a: Action): seq<L.Action> {
    match a
    case Tick(ms) => [L.Tick(ms)]
    case Arrive(r, key, op) => if r in s.ops then []
      else StoreSteps(s.(ops := s.ops[r := op]), ArriveAction(r, key, op), r)
    case Store(r, asOf, found, newId) => StoreSteps(s, P.Query(r, asOf, found, newId), r)
    case StoreFault(r) => StoreSteps(s, P.Fault(r), r)
    case Domain(step) => if DomainStep(step) then [step] else []
    case RunEnds(_) => []
    case ReplayEnds(_) => []
    case Crash(r) => [L.Fail(RunTask(r)), L.Fail(ReplayTask(r))]
  }

  lemma OneLearningStep(s: L.State, a: L.Action)
    ensures L.Run(s, [a]) == L.Next(s, a)
  {
    hide L.Next;
    assert [a][1..] == [];
    assert L.Run(L.Next(s, a), []) == L.Next(s, a);
  }

  lemma NoLearningStep(s: L.State)
    ensures L.Run(s, []) == s
  {
  }

  lemma CallStepsAre(s: State, p: P.State, r: nat)
    requires r in p.procs && r in s.ops
    ensures Called(s, p, r) == L.Run(s.d, CallSteps(s, p, r))
  {
    hide L.Run, P.ReadId, L.DoBegin, L.DoQuery, L.QueryAllowed;
    if |CallSteps(s, p, r)| == 1 {
      OneLearningStep(s.d, CallSteps(s, p, r)[0]);
    } else {
      NoLearningStep(s.d);
    }
  }

  lemma StoreStepsAre(s: State, a: P.Action, r: nat)
    requires r in s.ops
    ensures WithCall(s, P.Next(s.p, a), r).d == L.Run(s.d, StoreSteps(s, a, r))
  {
    hide P.Next, L.Run, Called, CallSteps;
    NoLearningStep(s.d);
    if r in P.Next(s.p, a).procs {
      CallStepsAre(s, P.Next(s.p, a), r);
    }
  }

  lemma CrashStepsAre(s: State, r: nat)
    ensures DoCrash(s, r).d == L.Run(s.d, [L.Fail(RunTask(r)), L.Fail(ReplayTask(r))])
  {
    hide L.DoFail, L.DoQuery, L.QueryAllowed, P.Next;
    var a, b := L.Fail(RunTask(r)), L.Fail(ReplayTask(r));
    assert [a, b][1..] == [b];
    OneLearningStep(L.Next(s.d, a), b);
  }

  lemma LearningStepsAre(s: State, a: Action)
    ensures Next(s, a).d == L.Run(s.d, LearningSteps(s, a))
  {
    hide P.Next, L.Next, L.Run, WithCall, StoreSteps, ArriveAction, DoCrash, DoRunEnds, DoReplayEnds, DomainStep;
    NoLearningStep(s.d);
    match a
    case Tick(ms) => OneLearningStep(s.d, L.Tick(ms));
    case Arrive(r, key, op) =>
      if r !in s.ops {
        StoreStepsAre(s.(ops := s.ops[r := op]), ArriveAction(r, key, op), r);
      }
    case Store(r, asOf, found, newId) => CallOrNot(s, P.Query(r, asOf, found, newId), r);
    case StoreFault(r) => CallOrNot(s, P.Fault(r), r);
    case Domain(step) => OneLearningStep(s.d, step);
    case RunEnds(r) => EndsLeaveTables(s, r);
    case ReplayEnds(r) => EndsLeaveTables(s, r);
    case Crash(r) => CrashStepsAre(s, r);
  }

  lemma CallOrNot(s: State, a: P.Action, r: nat)
    ensures DoStore(s, a, r).d == L.Run(s.d, StoreSteps(s, a, r))
  {
    hide P.Next, L.Run, WithCall, CallSteps;
    if r in s.ops {
      StoreStepsAre(s, a, r);
    } else {
      NoLearningStep(s.d);
    }
  }

  lemma EndsLeaveTables(s: State, r: nat)
    ensures DoRunEnds(s, r).d == s.d && DoReplayEnds(s, r).d == s.d
  {
    hide P.Next;
  }

  lemma {:induction false} LearningRunSplit(s: L.State, a: seq<L.Action>, b: seq<L.Action>)
    ensures L.Run(s, a + b) == L.Run(L.Run(s, a), b)
    decreases |a|
  {
    hide L.Next;
    if a == [] {
      assert a + b == b;
    } else {
      assert (a + b)[1..] == a[1..] + b;
      LearningRunSplit(L.Next(s, a[0]), a[1..], b);
    }
  }

  ghost predicate NoDrops(schedule: seq<Action>)
  {
    forall k :: 0 <= k < |schedule| ==> !(schedule[k].Domain? && schedule[k].step.Drop?)
  }

  lemma DropsNothing(s: State, a: Action)
    requires !(a.Domain? && a.step.Drop?)
    ensures Bodies.NoDrops(LearningSteps(s, a))
  {
    hide P.Next, P.ReadId, ArriveAction, DomainStep;
  }

  /** The step of the whole does these steps in the learning machine. */
  ghost predicate Does(s: State, a: Action, steps: seq<L.Action>) {
    match a
    case Tick(ms) => steps == [L.Tick(ms)]
    case Domain(step) =>
      steps == if step.Tick? || (step.Begin? && !(step.job.FeedbackJob? && step.r % 3 == 2)) then [] else [step]
    case Arrive(r, _, op) => steps == [] || (r !in s.ops && |steps| == 1 && BeginsBody(r, op, steps[0]))
    case Store(r, _, _, _) => steps == [] || (r in s.ops && |steps| == 1 && BeginsBody(r, s.ops[r], steps[0]))
    case StoreFault(r) => steps == [] || (r in s.ops && |steps| == 1 && BeginsBody(r, s.ops[r], steps[0]))
    case RunEnds(_) => steps == []
    case ReplayEnds(_) => steps == []
    case Crash(r) => steps == [L.Fail(3 * r), L.Fail(3 * r + 1)]
  }

  ghost predicate BeginsBody(r: nat, op: Op, step: L.Action) {
    step == L.Begin(3 * r, JobOf(op)) || exists id :: step == L.Begin(3 * r + 1, ReplayJob(op, id))
  }

  /** `steps` are the learning machine's share of the schedule, in its order. */
  ghost predicate LearningShare(s: State, schedule: seq<Action>, steps: seq<L.Action>)
    decreases |schedule|
  {
    if schedule == [] then steps == []
    else exists k ::
      && 0 <= k <= |steps| && Does(s, schedule[0], steps[..k])
      && LearningShare(Next(s, schedule[0]), schedule[1..], steps[k..])
  }

  lemma CallBegins(s: State, p: P.State, r: nat)
    requires r in p.procs && r in s.ops
    ensures |CallSteps(s, p, r)| <= 1
    ensures CallSteps(s, p, r) != [] ==> BeginsBody(r, s.ops[r], CallSteps(s, p, r)[0])
  {
    hide JobOf, ReplayJob, P.ReadId;
  }

  lemma StoreStepsBegin(s: State, a: P.Action, r: nat)
    ensures StoreSteps(s, a, r) == [] || (r in s.ops && |StoreSteps(s, a, r)| == 1
      && BeginsBody(r, s.ops[r], StoreSteps(s, a, r)[0]))
  {
    hide BeginsBody, CallSteps, P.Next;
    if r in s.ops && r in P.Next(s.p, a).procs {
      CallBegins(s, P.Next(s.p, a), r);
    }
  }

  lemma DoneInLearning(s: State, a: Action)
    ensures Does(s, a, LearningSteps(s, a))
  {
    hide StoreSteps, ArriveAction, BeginsBody;
    match a
    case Arrive(r, key, op) => StoreStepsBegin(s.(ops := s.ops[r := op]), ArriveAction(r, key, op), r);
    case Store(r, asOf, found, newId) => StoreStepsBegin(s, P.Query(r, asOf, found, newId), r);
    case StoreFault(r) => StoreStepsBegin(s, P.Fault(r), r);
    case _ =>
  }

  /** Every interleaving of the whole is an interleaving of the learning machine. */
  lemma {:induction false} LearningRuns(s: State, schedule: seq<Action>) returns (steps: seq<L.Action>)
    ensures Run(s, schedule).d == L.Run(s.d, steps)
    ensures LearningShare(s, schedule, steps)
    ensures NoDrops(schedule) ==> Bodies.NoDrops(steps)
    decreases |schedule|
  {
    if schedule == [] {
      steps := [];
    } else {
      DoneInLearning(s, schedule[0]);
      hide Next, L.Next, LearningSteps, Does;
      LearningStepsAre(s, schedule[0]);
      var rest := LearningRuns(Next(s, schedule[0]), schedule[1..]);
      steps := LearningSteps(s, schedule[0]) + rest;
      assert steps[..|LearningSteps(s, schedule[0])|] == LearningSteps(s, schedule[0]);
      assert steps[|LearningSteps(s, schedule[0])|..] == rest;
      LearningRunSplit(s.d, LearningSteps(s, schedule[0]), rest);
      if NoDrops(schedule) {
        DropsNothing(s, schedule[0]);
      }
    }
  }

  /** A submission whose assignment exists belongs to a student who is enrolled in that course and is not its tutor. */
  lemma SubmittersAreEnrolled(schedule: seq<Action>, d: Text)
    requires NoDrops(schedule) && d in Run(Init(), schedule).d.submissions
    requires Run(Init(), schedule).d.submissions[d].assignmentId in Run(Init(), schedule).d.assignments
    ensures var s := Run(Init(), schedule).d;
      var doc := s.submissions[d];
      var courseId := s.assignments[doc.assignmentId].courseId;
      && courseId in s.courses && s.courses[courseId].tutorId != doc.studentId
      && exists e ::
           && e in s.enrollments && EnrollmentPair(s.enrollments[e]) == Pair(doc.studentId, courseId)
           && s.enrollments[e].status in L.ENROLLED
  {
    var steps := LearningRuns(Init(), schedule);
    Bodies.SubmittersAreEnrolled(steps, d);
  }
}
