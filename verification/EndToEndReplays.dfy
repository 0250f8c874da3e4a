/** A replay finds the row its record names, as long as the course of the row exists. */
module EndToEndReplays {
  import opened Texts
  import P = Idempotency
  import Protocol = IdempotencyResults
  import Expiry = IdempotencyExpiry
  import Termination = IdempotencyTermination
  import L = Learning
  import Calls = LearningTermination
  import opened EndToEnd
  import opened EndToEndResults
  import opened EndToEndProgress

  // ----- What a stored body says -----

  /** The identifier of the row, or of the document, of an operation's student and target. */
  ghost predicate IsRowOf(d: L.State, op: Op, id: Text) {
    if op.Enroll? then Target(op) in d.enrolled && d.enrolled[Target(op)] == id
    else Target(op) in d.submitted && d.submitted[Target(op)] == id
  }

  /** The body of the record that a request replays holds the identifier of the row of its own operation. */
  lemma ReplayingReads(s: State, r: nat) returns (id: Text)
    requires Inv(s) && r in s.ops && r in s.p.procs && s.p.procs[r].pc.Replaying?
    ensures P.ReadId(s.p.procs[r].pc.body, s.p.procs[r].req.field) == Some(id) && IsRowOf(s.d, s.ops[r], id)
  {
    InvParts(s);
    var rec := s.p.procs[r].pc.rec;
    var q := OwnerOf(s.p, r);
    hide P.Inv, L.Inv;
    id := Id(s, q);
    SameRequestSameTarget(s, q, r);
    AnswerIsTheRow(s, q);
    SameField(s, q, r);
    hide Inv, P.ReadId;
    P.ReadBack(s.p.procs[q].req.field, id, s.p.procs[r].req.field);
  }

  lemma SameField(s: State, q: nat, r: nat)
    requires Inv(s) && q in s.ops && r in s.ops && q in s.p.procs && r in s.p.procs && SameTarget(s.ops[q], s.ops[r])
    ensures s.p.procs[q].req.field == s.p.procs[r].req.field
  {
    LinkOf(s, q);
    LinkOf(s, r);
    hide Inv, RunLink, ReplayLink, Dto, PathOf;
  }

  /** The owner of the record that `r` replays, and what it stored. */
  lemma OwnerOf(p: P.State, r: nat) returns (q: nat)
    requires P.Inv(p) && r in p.procs && p.procs[r].pc.Replaying?
    ensures q in p.procs && p.procs[q].pc.Done? && p.procs[q].pc.answer.Answered?
    ensures p.procs[q].req.scope == p.procs[r].req.scope && p.procs[q].req.scope.Some?
    ensures p.procs[q].req.requestHash == p.procs[r].req.requestHash
    ensures p.procs[r].pc.body ==
      P.NormalizeResponseBody(P.Serialized(p.procs[q].req.field, p.procs[q].pc.answer.value))
  {
    assert P.ProcOk(p, r);
    var rec := p.procs[r].pc.rec;
    assert P.RowOk(p, rec);
    q := p.rows[rec].creator;
  }

  // ----- How bodies end -----

  predicate RunsBody(pc: P.Pc) { pc.Running? || pc.FallbackRun? || pc.DirectRun? }

  /** How a replay of `op` can end: it finds its row, the database fails, or the course is gone. */
  ghost predicate ReplayOutcome(d: L.State, op: Op, outcome: L.Outcome) {
    || outcome.Found?
    || outcome == L.Rejected(L.StoreFailed)
    || (op.Enroll? && outcome == L.Rejected(L.EnrollmentNotFound) && op.courseId in d.used && op.courseId !in d.courses)
  }

  /** Bodies are under way only while their request waits for them, and replays end as said. */
  ghost predicate BodyOk(s: State, r: nat)
    requires r in s.ops && r in s.p.procs
  {
    var run, replay, pc := RunTask(r), ReplayTask(r), s.p.procs[r].pc;
    && (run in s.d.tasks && !s.d.tasks[run].at.Ended? ==> RunsBody(pc))
    && (replay in s.d.tasks && !s.d.tasks[replay].at.Ended? ==> pc.Replaying?)
    && (replay in s.d.tasks && s.d.tasks[replay].at.Ended? ==>
          ReplayOutcome(s.d, s.ops[r], s.d.tasks[replay].at.outcome))
    && (pc == P.Done(P.Failed(P.NotFound)) ==>
          replay in s.d.tasks && s.d.tasks[replay].at.Ended? && !s.d.tasks[replay].at.outcome.Found?)
  }

  lemma SameBody(s: State, t: State, r: nat)
    requires r in s.ops && r in s.p.procs && BodyOk(s, r) && r in t.ops && t.ops[r] == s.ops[r]
    requires Same(s, t, r) && GoneStays(s.d, t.d)
    ensures r in t.p.procs && BodyOk(t, r)
  {
  }

  /** The one call of a replay. */
  lemma ReplayCall(s: State, r: nat, id: Text)
    requires L.Inv(s.d) && r in s.ops && IsRowOf(s.d, s.ops[r], id)
    requires ReplayTask(r) in s.d.tasks && s.d.tasks[ReplayTask(r)].job == ReplayJob(s.ops[r], Some(id))
    ensures var to := L.AfterStart(s.d, s.d.tasks[ReplayTask(r)].job);
      to.Ended? && ReplayOutcome(s.d, s.ops[r], to.outcome)
  {
    if s.ops[r].Enroll? {
      assert L.EnrolledOk(s.d, Target(s.ops[r]));
    } else {
      assert L.SubmittedOk(s.d, Target(s.ops[r]));
    }
    hide L.Inv;
  }

  /** What can end a replay that has begun. */
  lemma ReplayEndsBy(d: L.State, a: L.Action, t: nat)
    requires L.Inv(d) && t in d.tasks && (d.tasks[t].job.ReplayEnrollmentJob? || d.tasks[t].job.ReplaySubmissionJob?)
    requires !d.tasks[t].at.Ended?
    ensures t in L.Next(d, a).tasks
    ensures L.Next(d, a).tasks[t] == d.tasks[t]
      || L.Next(d, a).tasks[t].at == L.AfterStart(d, d.tasks[t].job)
      || L.Next(d, a).tasks[t].at == L.Ended(L.Rejected(L.StoreFailed))
  {
    assert L.TaskOk(d, t);
    hide L.Inv;
    Calls.BodiesEnd(d, a, t);
    if a.Query? && a.r == t && L.QueryAllowed(d, t, a.found, a.newId) {
      L.EveryCallEffect(d, t, a.found, a.newId);
      hide L.DoQuery, L.EnrollmentEffect, L.SubmissionEffect, L.AfterStart;
    } else if a.Fail? && a.r == t {
      hide L.AfterStart, L.DoQuery, L.QueryAllowed;
    } else {
      OthersLeaveTask(d, a, t);
      hide L.Next;
    }
  }

  lemma OthersLeaveTask(d: L.State, a: L.Action, t: nat)
    requires t in d.tasks && !(a.Query? && a.r == t && L.QueryAllowed(d, t, a.found, a.newId)) && !(a.Fail? && a.r == t)
    ensures t in L.Next(d, a).tasks && L.Next(d, a).tasks[t] == d.tasks[t]
  {
    hide L.QueryAllowed, L.DoQuery, L.DoFail;
    if a.Query? {
      if L.QueryAllowed(d, a.r, a.found, a.newId) {
        Calls.CallTasks(d, a.r, a.found, a.newId, t);
      }
    } else if a.Fail? {
      FailSame(d, a.r, t);
    } else {
      hide L.Next;
      Calls.OtherStepTasks(d, a, t);
    }
  }

  lemma DomainGone(d: L.State, a: L.Action)
    ensures GoneStays(d, L.Next(d, a))
  {
    hide L.Next;
    forall c | c in d.used && c !in d.courses ensures c in L.Next(d, a).used && c !in L.Next(d, a).courses {
      Calls.GoneStaysGone(d, a, c);
    }
  }

  lemma DomainBody(s: State, a: L.Action, r: nat)
    requires Inv(s) && r in s.ops && r in s.p.procs && BodyOk(s, r) && DomainStep(a)
    ensures var t := s.(d := L.Next(s.d, a)); BodyOk(t, r)
  {
    DomainBodyKept(s.d, a, r);
    DomainGone(s.d, a);
    hide Inv, L.Next, DomainStep;
    if ReplayTask(r) in s.d.tasks && !s.d.tasks[ReplayTask(r)].at.Ended? {
      ReplayAnswered(s, a, r);
      hide ReplayOutcome;
    }
  }

  /** What a step of the learning machine makes of a replay under way. */
  lemma ReplayAnswered(s: State, a: L.Action, r: nat)
    requires Inv(s) && r in s.ops && r in s.p.procs && s.p.procs[r].pc.Replaying? && GoneStays(s.d, L.Next(s.d, a))
    requires ReplayTask(r) in s.d.tasks && !s.d.tasks[ReplayTask(r)].at.Ended?
    ensures ReplayTask(r) in L.Next(s.d, a).tasks
    ensures L.Next(s.d, a).tasks[ReplayTask(r)].at.Ended? ==>
      ReplayOutcome(L.Next(s.d, a), s.ops[r], L.Next(s.d, a).tasks[ReplayTask(r)].at.outcome)
  {
    hide Inv, P.Inv, L.Inv, L.Next, P.ReadId, AsksFor, RunLink;
    InvParts(s);
    LinkOf(s, r);
    var id := ReplayingReads(s, r);
    hide IsRowOf, L.AfterStart;
    ReplayCall(s, r, id);
    ReplayEndsBy(s.d, a, ReplayTask(r));
  }

  // ----- The request's own steps -----

  lemma BeginShape(d: L.State, b: nat, job: L.Job, t: nat)
    ensures t in L.DoBegin(d, b, job).tasks <==> t in d.tasks || t == b
    ensures t in d.tasks ==> L.DoBegin(d, b, job).tasks[t] == d.tasks[t]
    ensures t !in d.tasks && t == b ==> L.DoBegin(d, b, job).tasks[t] == L.Task(job, L.Start)
  {
    assert L.DoBegin(d, b, job).tasks == if b in d.tasks then d.tasks else d.tasks[b := L.Task(job, L.Start)];
    hide L.DoBegin;
  }

  /** A store call begins at most one body: what was there stays, and what is new has made no call yet. */
  lemma CalledShape(s: State, p: P.State, r: nat, t: nat)
    requires r in s.ops && r in p.procs && (t == RunTask(r) || t == ReplayTask(r))
    ensures t in s.d.tasks ==> t in Called(s, p, r).tasks && Called(s, p, r).tasks[t] == s.d.tasks[t]
    ensures t in Called(s, p, r).tasks && t !in s.d.tasks ==> Called(s, p, r).tasks[t].at == L.Start
    ensures RunTask(r) in Called(s, p, r).tasks && RunTask(r) !in s.d.tasks ==> p.runs != s.p.runs
    ensures ReplayTask(r) in Called(s, p, r).tasks && ReplayTask(r) !in s.d.tasks ==>
      p.runs == s.p.runs && p.procs[r].pc.Replaying?
  {
    hide P.ReadId, L.DoBegin;
    var pc := p.procs[r].pc;
    var replay := ReplayJob(s.ops[r], if pc.Replaying? then P.ReadId(pc.body, p.procs[r].req.field) else None);
    BeginShape(s.d, RunTask(r), JobOf(s.ops[r]), RunTask(r));
    BeginShape(s.d, RunTask(r), JobOf(s.ops[r]), ReplayTask(r));
    BeginShape(s.d, ReplayTask(r), replay, RunTask(r));
    BeginShape(s.d, ReplayTask(r), replay, ReplayTask(r));
  }

  lemma StoreBody(s: State, a: P.Action, r: nat)
    requires Inv(s) && r in s.ops && r in s.p.procs && BodyOk(s, r) && (a.Query? || a.Fault?) && a.r == r
    ensures r in DoStore(s, a, r).ops && r in DoStore(s, a, r).p.procs && BodyOk(DoStore(s, a, r), r)
  {
    StoreBegins(s, a, r);
    InvParts(s);
    var p := P.Next(s.p, a);
    if p == s.p {
      hide Inv, P.Inv, L.Inv, P.Next, Called;
      StoreGone(s, a, r);
      SameBody(s, DoStore(s, a, r), r);
    } else {
      hide Inv, P.Inv, L.Inv, P.Next, Called, BodyOk;
      NoBodyYet(s, r);
      StartsFrom(s.p, a, r);
      CalledShape(s, p, r, RunTask(r));
      CalledShape(s, p, r, ReplayTask(r));
      NeverNotFound(s.p, a, r);
      StoreGone(s, a, r);
      hide DoStore;
      MovedBody(s, DoStore(s, a, r), r);
    }
  }

  /** A request that leaves a store call: a body of it is under way only if it has just begun. */
  lemma MovedBody(s: State, t: State, r: nat)
    requires r in s.ops && r in s.p.procs && BodyOk(s, r) && r in t.ops && t.ops[r] == s.ops[r] && r in t.p.procs
    requires Termination.WaitsForStore(s.p.procs[r].pc) && ReplayTask(r) !in s.d.tasks
    requires RunTask(r) in s.d.tasks ==> RunTask(r) in t.d.tasks && t.d.tasks[RunTask(r)] == s.d.tasks[RunTask(r)]
    requires RunTask(r) in t.d.tasks && RunTask(r) !in s.d.tasks ==> RunsBody(t.p.procs[r].pc)
    requires ReplayTask(r) in t.d.tasks ==> t.d.tasks[ReplayTask(r)].at == L.Start && t.p.procs[r].pc.Replaying?
    requires t.p.procs[r].pc == P.Done(P.Failed(P.NotFound)) ==> t.p.procs[r].pc == s.p.procs[r].pc
    ensures BodyOk(t, r)
  {
    hide ReplayOutcome;
  }

  lemma StoreGone(s: State, a: P.Action, r: nat)
    requires r in s.ops
    ensures DoStore(s, a, r).ops == s.ops && GoneStays(s.d, DoStore(s, a, r).d)
  {
    hide P.Next, Called, GoneStays;
    SameAsItself(s.d, RunTask(r));
    if r in P.Next(s.p, a).procs {
      CalledSame(s, P.Next(s.p, a), r, r);
    }
  }

  lemma NeverNotFound(p: P.State, a: P.Action, r: nat)
    requires r in p.procs && (a.Query? || a.Fault?) && a.r == r
    ensures r in P.Next(p, a).procs
    ensures P.Next(p, a).procs[r].pc == P.Done(P.Failed(P.NotFound)) ==> P.Next(p, a).procs[r].pc == p.procs[r].pc
  {
    hide P.Next;
    Protocol.Frame(p, a, r);
    if P.Next(p, a).procs[r].pc != p.procs[r].pc {
      Expiry.FailureStep(p, a, r);
    }
  }

  lemma RunEndsBody(s: State, r: nat)
    requires Inv(s) && r in s.ops && r in s.p.procs && BodyOk(s, r)
    requires RunTask(r) in s.d.tasks && s.d.tasks[RunTask(r)].at.Ended?
    ensures r in DoRunEnds(s, r).p.procs && BodyOk(DoRunEnds(s, r), r)
  {
    hide Inv, P.Next, ReplayOutcome;
    RunEndLeads(s.p, P.RunEnds(r, IdOf(s.d.tasks[RunTask(r)].at.outcome)), r);
  }

  /** The end of a run takes nobody out of a replay, and answers nobody NOT_FOUND. */
  lemma RunEndLeads(p: P.State, a: P.Action, r: nat)
    requires r in p.procs && a.RunEnds? && a.r == r
    ensures r in P.Next(p, a).procs
    ensures p.procs[r].pc.Replaying? || p.procs[r].pc.Done? ==> P.Next(p, a).procs[r].pc == p.procs[r].pc
    ensures P.Next(p, a).procs[r].pc == P.Done(P.Failed(P.NotFound)) ==> P.Next(p, a).procs[r].pc == p.procs[r].pc
  {
    RunEndsPc(p, r, a.outcome);
    assert P.Next(p, a) == P.DoRunEnds(p, r, a.outcome);
    hide P.Next, P.DoRunEnds;
    if P.Next(p, a).procs[r].pc != p.procs[r].pc {
      Expiry.FailureStep(p, a, r);
    }
  }

  lemma ReplayEndsBody(s: State, r: nat)
    requires Inv(s) && r in s.ops && r in s.p.procs && BodyOk(s, r)
    requires ReplayTask(r) in s.d.tasks && s.d.tasks[ReplayTask(r)].at.Ended?
    ensures r in DoReplayEnds(s, r).p.procs && BodyOk(DoReplayEnds(s, r), r)
  {
    var present := s.d.tasks[ReplayTask(r)].at.outcome.Found?;
    if s.p.procs[r].pc.Replaying? {
      var id := ReplayingReads(s, r);
      ReplayRuns(s, r);
      hide Inv, ReplayOutcome, P.ReadId;
      ReplayEndsAt(s.p, r, present, id);
      hide P.Next;
    } else {
      ReplayEndsElse(s.p, r, present);
      assert P.Next(s.p, P.ReplayEnds(r, present)) == s.p by {
        hide P.DoReplayEnds;
      }
      hide Inv, P.Next, ReplayOutcome;
    }
  }

  lemma ReplayEndsAt(p: P.State, r: nat, present: bool, id: Text)
    requires r in p.procs && p.procs[r].pc.Replaying? && P.ReadId(p.procs[r].pc.body, p.procs[r].req.field) == Some(id)
    ensures r in P.Next(p, P.ReplayEnds(r, present)).procs
    ensures P.Next(p, P.ReplayEnds(r, present)).procs[r].pc ==
      P.Done(if present then P.Answered(id, P.AsReplay(p.procs[r].pc.rec)) else P.Failed(P.NotFound))
  {
    hide P.ReadId, P.DoQuery, P.QueryAllowed, P.Admission;
  }

  /** A request that replays has not run. */
  lemma ReplayRuns(s: State, r: nat)
    requires Inv(s) && r in s.ops && r in s.p.procs && s.p.procs[r].pc.Replaying?
    ensures RunTask(r) !in s.d.tasks
  {
    InvParts(s);
    LinkOf(s, r);
    hide Inv, L.Inv, AsksFor, ReplayLink;
    assert P.ProcOk(s.p, r);
  }

  lemma CrashBody(s: State, r: nat)
    requires r in s.ops && r in s.p.procs && BodyOk(s, r)
    ensures r in DoCrash(s, r).p.procs && BodyOk(DoCrash(s, r), r)
  {
    var m := L.DoFail(s.d, RunTask(r));
    FailedTask(s.d, RunTask(r));
    FailedTask(m, ReplayTask(r));
    FailSame(s.d, RunTask(r), ReplayTask(r));
    FailSame(m, ReplayTask(r), RunTask(r));
    CrashPc(s.p, r);
    hide P.Next, L.DoFail;
  }

  lemma FailedTask(d: L.State, f: nat)
    ensures f in L.DoFail(d, f).tasks <==> f in d.tasks
    ensures f in d.tasks && d.tasks[f].at.Ended? ==> L.DoFail(d, f).tasks[f].at == d.tasks[f].at
    ensures f in d.tasks && !d.tasks[f].at.Ended? ==> L.DoFail(d, f).tasks[f].at == L.Ended(L.Rejected(L.StoreFailed))
  {
  }

  lemma ArrivedBody(s: State, r: nat, key: Option<Text>, op: Op)
    requires Inv(s) && r !in s.ops
    ensures r in DoArrive(s, r, key, op).ops && r in DoArrive(s, r, key, op).p.procs
      && BodyOk(DoArrive(s, r, key, op), r)
  {
    Arrived(s, r, key, op);
    NothingOfNewcomer(s, r);
    hide Inv, DoArrive, L.DoBegin, JobOf;
    BeginShape(s.d, RunTask(r), JobOf(op), RunTask(r));
    BeginShape(s.d, RunTask(r), JobOf(op), ReplayTask(r));
  }

  // ----- All steps -----

  ghost predicate BodiesOk(s: State) {
    forall r {:trigger BodyOk(s, r)} :: r in s.ops && r in s.p.procs ==> BodyOk(s, r)
  }

  lemma OwnBody(s: State, a: Action, r: nat)
    requires Inv(s) && r in s.ops && r in s.p.procs && BodyOk(s, r) && Actor(a) == Some(r)
    ensures r in Next(s, a).ops && r in Next(s, a).p.procs && BodyOk(Next(s, a), r)
  {
    hide Inv, BodyOk, P.Next, DoStore, DoCrash, DoArrive;
    match a
    case Arrive(_, key, op) => Known(s, r, key, op);
    case Store(_, asOf, found, newId) => StoreBody(s, P.Query(r, asOf, found, newId), r);
    case StoreFault(_) => StoreBody(s, P.Fault(r), r);
    case Crash(_) =>
      CrashBody(s, r);
      CrashOps(s, r);
    case RunEnds(_) =>
      if RunTask(r) in s.d.tasks && s.d.tasks[RunTask(r)].at.Ended? {
        RunEndsBody(s, r);
      }
    case ReplayEnds(_) =>
      if ReplayTask(r) in s.d.tasks && s.d.tasks[ReplayTask(r)].at.Ended? {
        ReplayEndsBody(s, r);
      }
  }

  lemma CrashOps(s: State, r: nat)
    ensures DoCrash(s, r).ops == s.ops
  {
    hide P.Next, L.DoFail;
  }

  lemma StepBody(s: State, a: Action, r: nat)
    requires Inv(s) && r in s.ops && r in s.p.procs && BodyOk(s, r)
    ensures r in Next(s, a).ops && r in Next(s, a).p.procs && BodyOk(Next(s, a), r)
  {
    hide Inv, BodyOk, L.Next, Next, Same, GoneStays;
    if a.Domain? {
      DomainIs(s, a.step);
      if DomainStep(a.step) {
        DomainBody(s, a.step, r);
      }
    } else if Actor(a) == Some(r) {
      OwnBody(s, a, r);
    } else {
      Untouched(s, a, r);
      SameBody(s, Next(s, a), r);
    }
  }

  lemma NextKeepsBodies(s: State, a: Action)
    requires Inv(s) && BodiesOk(s)
    ensures BodiesOk(Next(s, a))
  {
    hide Inv, BodyOk, Next;
    var t := Next(s, a);
    forall r | r in t.ops && r in t.p.procs ensures BodyOk(t, r) {
      if r in s.ops {
        KnownProc(s, r);
        StepBody(s, a, r);
      } else {
        NewBody(s, a, r);
      }
    }
  }

  lemma NewBody(s: State, a: Action, r: nat)
    requires Inv(s) && r !in s.ops && r in Next(s, a).ops
    ensures r in Next(s, a).p.procs && BodyOk(Next(s, a), r)
  {
    hide Inv, BodyOk, P.Next, L.Next, Called, L.DoFail, DomainStep;
    assert a.Arrive? && a.r == r;
    hide DoArrive;
    ArrivedBody(s, r, a.key, a.op);
  }

  lemma {:induction false} RunKeepsBodies(s: State, schedule: seq<Action>)
    requires Inv(s) && BodiesOk(s)
    ensures BodiesOk(Run(s, schedule))
    decreases |schedule|
  {
    if schedule != [] {
      hide Inv, BodiesOk, Next;
      NextKeepsInv(s, schedule[0]);
      NextKeepsBodies(s, schedule[0]);
      RunKeepsBodies(Next(s, schedule[0]), schedule[1..]);
    }
  }

  // ----- The results -----

  lemma ReachableBody(schedule: seq<Action>, r: nat)
    requires r in Run(Init(), schedule).ops && r in Run(Init(), schedule).p.procs
    ensures Inv(Run(Init(), schedule)) && BodyOk(Run(Init(), schedule), r)
  {
    hide BodyOk;
    RunKeepsInv(Init(), schedule);
    RunKeepsBodies(Init(), schedule);
    hide Inv, Run;
  }

  /** When a request has its answer, none of its bodies is under way any more. */
  lemma NoBodyLeft(schedule: seq<Action>, r: nat)
    requires var s := Run(Init(), schedule); r in s.ops && r in s.p.procs && s.p.procs[r].pc.Done?
    ensures var s := Run(Init(), schedule);
      && (RunTask(r) in s.d.tasks ==> s.d.tasks[RunTask(r)].at.Ended?)
      && (ReplayTask(r) in s.d.tasks ==> s.d.tasks[ReplayTask(r)].at.Ended?)
  {
    hide Inv, Run, ReplayOutcome;
    ReachableBody(schedule, r);
  }

  /** Unless the database failed its call, a replayed submission never ends NOT_FOUND, and a replayed enrolment does
      so only if its course is gone. */
  lemma NotFoundMeansGone(schedule: seq<Action>, r: nat)
    requires var s := Run(Init(), schedule);
      r in s.ops && r in s.p.procs && s.p.procs[r].pc == P.Done(P.Failed(P.NotFound))
    ensures var s := Run(Init(), schedule);
      && ReplayTask(r) in s.d.tasks && s.d.tasks[ReplayTask(r)].at.Ended?
      && (s.d.tasks[ReplayTask(r)].at.outcome == L.Rejected(L.StoreFailed)
          || (s.ops[r].Enroll? && s.ops[r].courseId in s.d.used && s.ops[r].courseId !in s.d.courses))
  {
    hide Inv, Run;
    ReachableBody(schedule, r);
  }

  predicate FailsReplay(a: Action, r: nat) { a == Domain(L.Fail(ReplayTask(r))) || a == Crash(r) }

  ghost predicate ReplayFailed(d: L.State, r: nat) {
    ReplayTask(r) in d.tasks && d.tasks[ReplayTask(r)].at == L.Ended(L.Rejected(L.StoreFailed))
  }

  lemma DomainFailsReplay(s: State, a: L.Action, r: nat)
    requires Inv(s) && r in s.ops && r in s.p.procs && BodyOk(s, r) && DomainStep(a)
    requires !ReplayFailed(s.d, r) && ReplayFailed(L.Next(s.d, a), r)
    ensures a == L.Fail(ReplayTask(r))
  {
    var t := ReplayTask(r);
    hide Inv, P.Inv, L.Inv, L.Next, DomainStep, ReplayOutcome, AsksFor, RunLink, P.ReadId, L.AfterStart, L.QueryAllowed;
    InvParts(s);
    LinkOf(s, r);
    DomainBodyKept(s.d, a, r);
    var id := ReplayingReads(s, r);
    hide IsRowOf;
    ReplayNeverFails(s.d, ReplayJob(s.ops[r], Some(id)));
    if !(a.Fail? && a.r == t) {
      if a.Query? && a.r == t && L.QueryAllowed(s.d, t, a.found, a.newId) {
        ReplayQuery(s.d, t, a.found, a.newId);
      } else {
        OthersLeaveTask(s.d, a, t);
      }
    }
  }

  lemma ReplayNeverFails(d: L.State, job: L.Job)
    requires job.ReplayEnrollmentJob? || job.ReplaySubmissionJob?
    ensures L.AfterStart(d, job) != L.Ended(L.Rejected(L.StoreFailed))
  {
  }

  lemma ReplayQuery(d: L.State, t: nat, found: Option<Text>, newId: Text)
    requires L.Inv(d) && L.QueryAllowed(d, t, found, newId)
    requires d.tasks[t].job.ReplayEnrollmentJob? || d.tasks[t].job.ReplaySubmissionJob?
    ensures t in L.Next(d, L.Query(t, found, newId)).tasks
    ensures L.Next(d, L.Query(t, found, newId)).tasks[t].at == L.AfterStart(d, d.tasks[t].job)
  {
    assert L.TaskOk(d, t);
    hide L.Inv;
    L.EveryCallEffect(d, t, found, newId);
    hide L.DoQuery, L.EnrollmentEffect, L.SubmissionEffect, L.AfterStart;
  }

  lemma ReplayFails(s: State, a: Action, r: nat)
    requires Inv(s) && BodiesOk(s) && !ReplayFailed(s.d, r) && ReplayFailed(Next(s, a).d, r)
    ensures FailsReplay(a, r)
  {
    hide Inv, BodyOk, L.Next, Next, FailsReplay, Same, GoneStays;
    if r !in s.ops {
      NewIsNotFailed(s, a, r);
    } else {
      KnownProc(s, r);
      if a.Domain? {
        DomainIs(s, a.step);
        if DomainStep(a.step) {
          DomainFailsReplay(s, a.step, r);
        }
      } else if Actor(a) == Some(r) {
        OwnFailsReplay(s, a, r);
      } else {
        Untouched(s, a, r);
        SameReplay(s, Next(s, a), r);
      }
      Failing(r);
    }
  }

  lemma Failing(r: nat)
    ensures FailsReplay(Domain(L.Fail(ReplayTask(r))), r) && FailsReplay(Crash(r), r)
  {
  }

  lemma SameReplay(s: State, t: State, r: nat)
    requires r in s.p.procs && Same(s, t, r)
    ensures ReplayFailed(t.d, r) <==> ReplayFailed(s.d, r)
  {
  }

  lemma NewIsNotFailed(s: State, a: Action, r: nat)
    requires Inv(s) && r !in s.ops
    ensures !ReplayFailed(Next(s, a).d, r)
  {
    NextKeepsInv(s, a);
    if r in Next(s, a).ops {
      NewTasks(s, a, r);
    } else {
      NothingOfNewcomer(Next(s, a), r);
    }
    hide Inv, Next;
  }

  lemma NewTasks(s: State, a: Action, r: nat)
    requires Inv(s) && r !in s.ops && r in Next(s, a).ops
    ensures ReplayTask(r) !in Next(s, a).d.tasks
  {
    hide Inv, P.Next, L.Next, Called, L.DoFail, DomainStep;
    assert a.Arrive? && a.r == r;
    hide DoArrive, L.DoBegin, JobOf;
    Arrived(s, r, a.key, a.op);
    NothingOfNewcomer(s, r);
    BeginShape(s.d, RunTask(r), JobOf(a.op), ReplayTask(r));
  }

  lemma OwnFailsReplay(s: State, a: Action, r: nat)
    requires Inv(s) && r in s.ops && r in s.p.procs && Actor(a) == Some(r)
    requires !ReplayFailed(s.d, r) && ReplayFailed(Next(s, a).d, r)
    ensures a == Crash(r)
  {
    hide Inv, P.Next, DoCrash, DoArrive, Called;
    match a
    case Arrive(_, key, op) => Known(s, r, key, op);
    case Store(_, asOf, found, newId) => StoreFailsNothing(s, P.Query(r, asOf, found, newId), r);
    case StoreFault(_) => StoreFailsNothing(s, P.Fault(r), r);
    case _ =>
  }

  lemma StoreFailsNothing(s: State, a: P.Action, r: nat)
    requires r in s.ops && !ReplayFailed(s.d, r)
    ensures !ReplayFailed(DoStore(s, a, r).d, r)
  {
    hide P.Next, Called;
    if r in P.Next(s.p, a).procs {
      CalledShape(s, P.Next(s.p, a), r, ReplayTask(r));
    }
  }

  /** The call of a replay fails only where the schedule says so. */
  lemma {:induction false} ReplayFailureCaused(s: State, schedule: seq<Action>, r: nat)
    requires Inv(s) && BodiesOk(s)
    requires !ReplayFailed(s.d, r) && ReplayFailed(Run(s, schedule).d, r)
    ensures exists i :: 0 <= i < |schedule| && FailsReplay(schedule[i], r)
    decreases |schedule|
  {
    hide Inv, BodiesOk, Next, FailsReplay;
    var t := Next(s, schedule[0]);
    NextKeepsInv(s, schedule[0]);
    NextKeepsBodies(s, schedule[0]);
    if ReplayFailed(t.d, r) {
      ReplayFails(s, schedule[0], r);
    } else {
      ReplayFailureCaused(t, schedule[1..], r);
      var i :| 0 <= i < |schedule[1..]| && FailsReplay(schedule[1..][i], r);
      assert schedule[i + 1] == schedule[1..][i];
    }
  }

  lemma Beginning()
    ensures Inv(Init()) && BodiesOk(Init())
  {
  }

  /** Where no replay of `r` fails and `r` does not crash, NOT_FOUND means that the course of an enrolment is gone; a
      submission is never answered NOT_FOUND. */
  lemma NotFoundOnlyIfGone(schedule: seq<Action>, r: nat)
    requires forall i :: 0 <= i < |schedule| ==> !FailsReplay(schedule[i], r)
    requires var s := Run(Init(), schedule);
      r in s.ops && r in s.p.procs && s.p.procs[r].pc == P.Done(P.Failed(P.NotFound))
    ensures var s := Run(Init(), schedule);
      s.ops[r].Enroll? && s.ops[r].courseId in s.d.used && s.ops[r].courseId !in s.d.courses
  {
    hide FailsReplay, Run, Inv, BodiesOk;
    NotFoundMeansGone(schedule, r);
    Beginning();
    if ReplayFailed(Run(Init(), schedule).d, r) {
      ReplayFailureCaused(Init(), schedule, r);
    }
  }
}
