/** The race of first enrolments, request by request: who creates, who is told ALREADY_ENROLLED, and who replays. */
module EndToEndRace {
  import opened Texts
  import opened Entities
  import P = Idempotency
  import Termination = IdempotencyTermination
  import L = Learning
  import Bodies = LearningResults
  import Calls = LearningTermination
  import opened EndToEnd
  import opened EndToEndResults
  import opened EndToEndProgress
  import opened EndToEndReplays

  /** A request that wants to enrol the student of `p` in the course of `p`. */
  predicate Racer(s: State, r: nat, p: Pair) { r in s.ops && s.ops[r] == Enroll(p.studentId, p.target) }

  /** A step that leaves the course published, drops no row of the pair, and crashes or fails no enrolment of it. */
  ghost predicate Harmless(s: State, a: Action, p: Pair) {
    && (a.Domain? && DomainStep(a.step) ==> Bodies.Peaceful(s.d, a.step, p))
    && (a.Crash? ==> !Racer(s, a.r, p))
  }

  ghost predicate HarmlessRun(s: State, schedule: seq<Action>, p: Pair)
    decreases |schedule|
  {
    schedule == [] || (Harmless(s, schedule[0], p) && HarmlessRun(Next(s, schedule[0]), schedule[1..], p))
  }

  // ----- Enrolments of the pair are runs of such requests -----

  ghost predicate RacersAreRuns(s: State, p: Pair) {
    forall k :: k in s.d.tasks && Bodies.Enrolling(s.d.tasks[k], p) ==>
      exists r: nat :: k == RunTask(r) && Racer(s, r, p)
  }

  /** An enrolment of the pair that is new after a step is the run of a racer; what was there keeps its job. */
  ghost predicate TasksGrow(s: State, t: State, p: Pair) {
    forall k :: k in t.d.tasks && Bodies.Enrolling(t.d.tasks[k], p) ==>
      || (k in s.d.tasks && s.d.tasks[k].job == t.d.tasks[k].job)
      || exists r: nat :: k == RunTask(r) && Racer(t, r, p)
  }

  lemma BeginGrows(d: L.State, b: nat, job: L.Job, k: nat)
    requires k in L.DoBegin(d, b, job).tasks
    ensures k in d.tasks ==> L.DoBegin(d, b, job).tasks[k].job == d.tasks[k].job
    ensures k !in d.tasks ==> k == b && L.DoBegin(d, b, job).tasks[k].job == job
  {
    BeginShape(d, b, job, k);
    hide L.DoBegin;
  }

  lemma CalledGrows(s: State, p: P.State, r: nat, pair: Pair)
    requires r in s.ops && r in p.procs
    ensures TasksGrow(s, s.(p := p, d := Called(s, p, r)), pair)
  {
    hide P.ReadId, L.DoBegin;
    var pc := p.procs[r].pc;
    var replay := ReplayJob(s.ops[r], if pc.Replaying? then P.ReadId(pc.body, p.procs[r].req.field) else None);
    var d := Called(s, p, r);
    forall k | k in d.tasks && Bodies.Enrolling(d.tasks[k], pair)
      ensures (k in s.d.tasks && s.d.tasks[k].job == d.tasks[k].job) || (k == RunTask(r) && Racer(s, r, pair))
    {
      if d == L.DoBegin(s.d, RunTask(r), JobOf(s.ops[r])) {
        BeginGrows(s.d, RunTask(r), JobOf(s.ops[r]), k);
      } else if d == L.DoBegin(s.d, ReplayTask(r), replay) {
        BeginGrows(s.d, ReplayTask(r), replay, k);
      }
    }
  }

  lemma FailGrows(d: L.State, f: nat, k: nat)
    requires k in L.DoFail(d, f).tasks
    ensures k in d.tasks && L.DoFail(d, f).tasks[k].job == d.tasks[k].job
  {
    if k in d.tasks {
      Calls.FailTasks(d, f, k);
    } else {
      Calls.FailAdds(d, f, k);
      assert false;
    }
  }

  lemma DomainGrows(s: State, a: L.Action, p: Pair)
    requires DomainStep(a)
    ensures TasksGrow(s, s.(d := L.Next(s.d, a)), p)
  {
    hide L.Next;
    forall k | k in L.Next(s.d, a).tasks && Bodies.Enrolling(L.Next(s.d, a).tasks[k], p)
      ensures k in s.d.tasks && s.d.tasks[k].job == L.Next(s.d, a).tasks[k].job
    {
      if k in s.d.tasks {
        Calls.BodiesEnd(s.d, a, k);
      } else {
        Calls.OnlyBeginAdds(s.d, a, k);
      }
    }
  }

  lemma CrashGrows(s: State, r: nat, p: Pair)
    ensures TasksGrow(s, DoCrash(s, r), p)
  {
    hide P.Next, L.DoFail;
    var m := L.DoFail(s.d, RunTask(r));
    forall k | k in DoCrash(s, r).d.tasks ensures k in s.d.tasks && s.d.tasks[k].job == DoCrash(s, r).d.tasks[k].job {
      FailGrows(m, ReplayTask(r), k);
      FailGrows(s.d, RunTask(r), k);
    }
  }

  lemma StoreGrows(s: State, a: P.Action, r: nat, p: Pair)
    ensures TasksGrow(s, DoStore(s, a, r), p) && DoStore(s, a, r).ops == s.ops
  {
    hide P.Next, Called;
    if r in s.ops && r in P.Next(s.p, a).procs {
      CalledGrows(s, P.Next(s.p, a), r, p);
    }
  }

  lemma ArriveGrows(s: State, r: nat, key: Option<Text>, op: Op, p: Pair)
    ensures TasksGrow(s, DoArrive(s, r, key, op), p)
  {
    hide P.Next, Called, ArriveAction;
    if r !in s.ops && r in P.Next(s.p, ArriveAction(r, key, op)).procs {
      CalledGrows(s.(ops := s.ops[r := op]), P.Next(s.p, ArriveAction(r, key, op)), r, p);
    }
  }

  lemma StepGrows(s: State, a: Action, p: Pair)
    ensures TasksGrow(s, Next(s, a), p)
  {
    hide TasksGrow, P.Next, L.Next, DoStore, DoArrive, DoCrash, DomainStep;
    SameTasksGrow(s, s, p);
    match a
    case Tick(ms) =>
      TickTasks(s.d, ms);
      SameTasksGrow(s, Next(s, a), p);
    case Arrive(r, key, op) => ArriveGrows(s, r, key, op, p);
    case Store(r, asOf, found, newId) => StoreGrows(s, P.Query(r, asOf, found, newId), r, p);
    case StoreFault(r) => StoreGrows(s, P.Fault(r), r, p);
    case Domain(step) =>
      if DomainStep(step) {
        DomainGrows(s, step, p);
      }
    case RunEnds(_) => SameTasksGrow(s, Next(s, a), p);
    case ReplayEnds(_) => SameTasksGrow(s, Next(s, a), p);
    case Crash(r) => CrashGrows(s, r, p);
  }

  lemma TickTasks(d: L.State, ms: nat)
    ensures L.Next(d, L.Tick(ms)).tasks == d.tasks
  {
    hide L.DoQuery, L.QueryAllowed;
  }

  lemma SameTasksGrow(s: State, t: State, p: Pair)
    requires t.d.tasks == s.d.tasks
    ensures TasksGrow(s, t, p)
  {
  }

  lemma OpsStay(s: State, a: Action, r: nat)
    requires r in s.ops
    ensures r in Next(s, a).ops && Next(s, a).ops[r] == s.ops[r]
  {
    hide P.Next, L.Next, Called, L.DoFail, ArriveAction, DomainStep;
  }

  lemma StepKeepsRacers(s: State, a: Action, p: Pair)
    requires RacersAreRuns(s, p)
    ensures RacersAreRuns(Next(s, a), p)
  {
    StepGrows(s, a, p);
    hide Next;
    var t := Next(s, a);
    forall k | k in t.d.tasks && Bodies.Enrolling(t.d.tasks[k], p)
      ensures exists r: nat :: k == RunTask(r) && Racer(t, r, p)
    {
      if k in s.d.tasks && s.d.tasks[k].job == t.d.tasks[k].job {
        var r: nat :| k == RunTask(r) && Racer(s, r, p);
        OpsStay(s, a, r);
        assert Racer(t, r, p);
      }
    }
  }

  // ----- The learning machine runs peacefully -----

  lemma CrashPeaceful(s: State, r: nat, p: Pair)
    requires RacersAreRuns(s, p) && !Racer(s, r, p)
    ensures Bodies.PeacefulRun(s.d, [L.Fail(RunTask(r)), L.Fail(ReplayTask(r))], p)
  {
    hide L.DoFail, L.DoQuery, L.QueryAllowed;
    var a, b := L.Fail(RunTask(r)), L.Fail(ReplayTask(r));
    var m := L.Next(s.d, a);
    assert [a, b][1..] == [b] && [b][1..] == [];
    assert Bodies.Peaceful(s.d, a, p);
    if ReplayTask(r) in m.tasks {
      FailGrows(s.d, RunTask(r), ReplayTask(r));
    }
    assert Bodies.Peaceful(m, b, p);
    assert Bodies.PeacefulRun(m, [b], p);
  }

  lemma OnePeaceful(d: L.State, a: L.Action, p: Pair)
    requires Bodies.Peaceful(d, a, p)
    ensures Bodies.PeacefulRun(d, [a], p)
  {
    hide L.Next;
    assert [a][1..] == [];
    assert Bodies.PeacefulRun(L.Next(d, a), [], p);
  }

  lemma CallPeaceful(s: State, p: P.State, r: nat, pair: Pair)
    requires r in p.procs && r in s.ops
    ensures Bodies.PeacefulRun(s.d, CallSteps(s, p, r), pair)
  {
    hide P.ReadId;
    if |CallSteps(s, p, r)| == 1 {
      OnePeaceful(s.d, CallSteps(s, p, r)[0], pair);
    }
  }

  lemma StorePeaceful(s: State, a: P.Action, r: nat, p: Pair)
    ensures Bodies.PeacefulRun(s.d, StoreSteps(s, a, r), p)
  {
    hide P.Next, CallSteps;
    if r in s.ops && r in P.Next(s.p, a).procs {
      CallPeaceful(s, P.Next(s.p, a), r, p);
    }
  }

  lemma StepPeaceful(s: State, a: Action, p: Pair)
    requires RacersAreRuns(s, p) && Harmless(s, a, p)
    ensures Bodies.PeacefulRun(s.d, LearningSteps(s, a), p)
  {
    hide P.Next, StoreSteps, ArriveAction, DomainStep, RacersAreRuns, L.Next;
    match a
    case Tick(ms) => OnePeaceful(s.d, L.Tick(ms), p);
    case Arrive(r, key, op) =>
      if r !in s.ops {
        StorePeaceful(s.(ops := s.ops[r := op]), ArriveAction(r, key, op), r, p);
      }
    case Store(r, asOf, found, newId) => StorePeaceful(s, P.Query(r, asOf, found, newId), r, p);
    case StoreFault(r) => StorePeaceful(s, P.Fault(r), r, p);
    case Domain(step) =>
      if DomainStep(step) {
        OnePeaceful(s.d, step, p);
      }
    case Crash(r) => CrashPeaceful(s, r, p);
    case _ =>
  }

  lemma {:induction false} PeacefulAppend(d: L.State, a: seq<L.Action>, b: seq<L.Action>, p: Pair)
    requires Bodies.PeacefulRun(d, a, p) && Bodies.PeacefulRun(L.Run(d, a), b, p)
    ensures Bodies.PeacefulRun(d, a + b, p)
    decreases |a|
  {
    hide L.Next, Bodies.Peaceful;
    if a == [] {
      assert a + b == b;
    } else {
      assert (a + b)[0] == a[0] && (a + b)[1..] == a[1..] + b;
      PeacefulAppend(L.Next(d, a[0]), a[1..], b, p);
    }
  }

  /** A harmless run of the whole is a peaceful run of the learning machine. */
  lemma {:induction false} RaceRuns(s: State, schedule: seq<Action>, p: Pair) returns (steps: seq<L.Action>)
    requires RacersAreRuns(s, p) && HarmlessRun(s, schedule, p)
    ensures Run(s, schedule).d == L.Run(s.d, steps) && Bodies.PeacefulRun(s.d, steps, p)
    ensures RacersAreRuns(Run(s, schedule), p)
    decreases |schedule|
  {
    hide RacersAreRuns, Harmless, Next, L.Next, LearningSteps, Bodies.PeacefulRun;
    if schedule == [] {
      steps := [];
      NothingPeaceful(s.d, p);
    } else {
      var a := schedule[0];
      StepKeepsRacers(s, a, p);
      StepPeaceful(s, a, p);
      LearningStepsAre(s, a);
      var rest := RaceRuns(Next(s, a), schedule[1..], p);
      steps := LearningSteps(s, a) + rest;
      LearningRunSplit(s.d, LearningSteps(s, a), rest);
      PeacefulAppend(s.d, LearningSteps(s, a), rest, p);
    }
  }

  lemma NothingPeaceful(d: L.State, p: Pair)
    ensures Bodies.PeacefulRun(d, [], p)
  {
  }

  // ----- A request whose calls on the idempotency table do not fail -----

  predicate RunEnded(d: L.State, r: nat) { RunTask(r) in d.tasks && d.tasks[RunTask(r)].at.Ended? }

  /** Its answer is what its run came to. */
  ghost predicate Unharmed(s: State, r: nat)
    requires r in s.p.procs
  {
    match s.p.procs[r].pc
    case Saving(_, value) => RunEnded(s.d, r) && IdOf(s.d.tasks[RunTask(r)].at.outcome) == Some(value)
    case Deleting(_) => RunEnded(s.d, r) && s.d.tasks[RunTask(r)].at.outcome.Rejected?
    case Done(Failed(_)) => RunTask(r) in s.d.tasks ==> RunEnded(s.d, r) && s.d.tasks[RunTask(r)].at.outcome.Rejected?
    case _ => true
  }

  lemma SameUnharmed(s: State, t: State, r: nat)
    requires r in s.p.procs && Unharmed(s, r) && Same(s, t, r)
    ensures r in t.p.procs && Unharmed(t, r)
  {
  }

  lemma DomainUnharmed(s: State, a: L.Action, r: nat)
    requires r in s.p.procs && Unharmed(s, r) && DomainStep(a)
    ensures Unharmed(s.(d := L.Next(s.d, a)), r)
  {
    hide L.Next, DomainStep;
    DomainBodyKept(s.d, a, r);
  }

  /** Where an answer of the idempotency table can lead. */
  lemma QueryLeads(p: P.State, a: P.Action, r: nat)
    requires r in p.procs && a.Query? && a.r == r
    ensures r in P.Next(p, a).procs
    ensures P.Next(p, a) == p ||
      var pc, next := p.procs[r].pc, P.Next(p, a).procs[r].pc;
      && !next.Saving? && !next.Deleting?
      && (pc.Saving? ==> next.Done? && next.answer.Answered?)
      && (next.Done? && next.answer.Failed? ==> P.Next(p, a).runs == p.runs)
  {
    hide P.DoQuery, P.Admission, P.QueryAllowed;
    if P.QueryAllowed(p, r, a.asOf, a.found, a.newId) {
      AllowedLeads(p, r, a.asOf, a.found, a.newId);
    }
  }

  lemma AllowedLeads(p: P.State, r: nat, asOf: nat, found: Option<Text>, newId: Text)
    requires P.QueryAllowed(p, r, asOf, found, newId)
    ensures r in P.DoQuery(p, r, asOf, found, newId).procs
    ensures var pc, next := p.procs[r].pc, P.DoQuery(p, r, asOf, found, newId).procs[r].pc;
      && !next.Saving? && !next.Deleting?
      && (pc.Saving? ==> next.Done? && next.answer.Answered?)
      && (next.Done? && next.answer.Failed? ==> P.DoQuery(p, r, asOf, found, newId).runs == p.runs)
  {
    hide P.IsActiveRecord, P.IsConflict, P.NewRecord, P.CompletedRecord;
    match p.procs[r].pc
    case FirstFind =>
    case Insert =>
    case SecondFind(_) =>
    case Saving(_, _) =>
    case Deleting(_) =>
    case Waiting(_, _) =>
  }

  lemma MovedUnharmed(s: State, t: State, r: nat)
    requires r in s.p.procs && Unharmed(s, r) && r in t.p.procs && Termination.WaitsForStore(s.p.procs[r].pc)
    requires var pc, next := s.p.procs[r].pc, t.p.procs[r].pc;
      && !next.Saving? && !next.Deleting? && (pc.Saving? ==> next.Done? && next.answer.Answered?)
      && (next.Done? && next.answer.Failed? && RunTask(r) in t.d.tasks ==> RunTask(r) in s.d.tasks)
    requires RunTask(r) in s.d.tasks ==>
      (s.p.procs[r].pc.Saving? || s.p.procs[r].pc.Deleting?)
      && RunTask(r) in t.d.tasks && t.d.tasks[RunTask(r)] == s.d.tasks[RunTask(r)]
    ensures Unharmed(t, r)
  {
  }

  lemma StoreUnharmed(s: State, a: P.Action, r: nat)
    requires Inv(s) && r in s.ops && r in s.p.procs && Unharmed(s, r) && a.Query? && a.r == r
    ensures r in DoStore(s, a, r).p.procs && Unharmed(DoStore(s, a, r), r)
  {
    hide Inv, P.Inv, L.Inv, P.Next, Called, Unharmed, DoStore, Same;
    StoreBegins(s, a, r);
    if P.Next(s.p, a) == s.p {
      SameUnharmed(s, DoStore(s, a, r), r);
    } else {
      NoBodyYet(s, r);
      QueryLeads(s.p, a, r);
      CalledShape(s, P.Next(s.p, a), r, RunTask(r));
      MovedUnharmed(s, DoStore(s, a, r), r);
    }
  }

  lemma RunEndsUnharmed(s: State, r: nat)
    requires Inv(s) && r in s.ops && r in s.p.procs && Unharmed(s, r) && RunEnded(s.d, r)
    ensures r in DoRunEnds(s, r).p.procs && Unharmed(DoRunEnds(s, r), r)
  {
    hide Inv, P.Next;
    RunEndFollows(s.p, r, IdOf(s.d.tasks[RunTask(r)].at.outcome));
  }

  lemma RunEndFollows(p: P.State, r: nat, outcome: Option<Text>)
    requires r in p.procs
    ensures r in P.Next(p, P.RunEnds(r, outcome)).procs
    ensures var next := P.Next(p, P.RunEnds(r, outcome)).procs[r].pc;
      next == p.procs[r].pc
      || (&& (next.Saving? ==> outcome == Some(next.value))
          && (next.Deleting? ==> outcome.None?)
          && (next.Done? && next.answer.Failed? ==> outcome.None?))
  {
    hide P.DoQuery, P.QueryAllowed, P.Admission;
  }

  lemma ReplayEndsUnharmed(s: State, r: nat)
    requires Inv(s) && r in s.ops && r in s.p.procs && Unharmed(s, r)
    requires ReplayTask(r) in s.d.tasks && s.d.tasks[ReplayTask(r)].at.Ended?
    ensures r in DoReplayEnds(s, r).p.procs && Unharmed(DoReplayEnds(s, r), r)
  {
    var present := s.d.tasks[ReplayTask(r)].at.outcome.Found?;
    if s.p.procs[r].pc.Replaying? {
      var id := ReplayingReads(s, r);
      ReplayRuns(s, r);
      hide Inv, P.ReadId;
      ReplayEndsAt(s.p, r, present, id);
      hide P.Next;
    } else {
      ReplayEndsElse(s.p, r, present);
      assert P.Next(s.p, P.ReplayEnds(r, present)) == s.p by {
        hide P.DoReplayEnds;
      }
      hide Inv, P.Next;
    }
  }

  lemma NewUnharmed(s: State, r: nat, key: Option<Text>, op: Op)
    requires Inv(s) && r !in s.ops
    ensures r in DoArrive(s, r, key, op).p.procs && Unharmed(DoArrive(s, r, key, op), r)
  {
    Arrived(s, r, key, op);
    NothingOfNewcomer(s, r);
    hide Inv, DoArrive, L.DoBegin, JobOf;
  }

  lemma StepUnharmed(s: State, a: Action, r: nat)
    requires Inv(s) && r in s.ops && r in s.p.procs && Unharmed(s, r) && a != StoreFault(r) && a != Crash(r)
    ensures r in Next(s, a).ops && r in Next(s, a).p.procs && Unharmed(Next(s, a), r)
  {
    hide Inv, Unharmed, Same, GoneStays, L.Next, P.Next, Next;
    OpsStay(s, a, r);
    if a.Domain? {
      DomainIs(s, a.step);
      if DomainStep(a.step) {
        DomainUnharmed(s, a.step, r);
      }
    } else if Actor(a) == Some(r) {
      OwnUnharmed(s, a, r);
    } else {
      Untouched(s, a, r);
      SameUnharmed(s, Next(s, a), r);
    }
  }

  lemma OwnUnharmed(s: State, a: Action, r: nat)
    requires Inv(s) && r in s.ops && r in s.p.procs && Unharmed(s, r) && Actor(a) == Some(r)
    requires a != StoreFault(r) && a != Crash(r)
    ensures r in Next(s, a).p.procs && Unharmed(Next(s, a), r)
  {
    hide Inv, Unharmed, L.Next, P.Next, DoStore, DoArrive;
    match a
    case Arrive(_, key, op) => Known(s, r, key, op);
    case Store(_, asOf, found, newId) => StoreUnharmed(s, P.Query(r, asOf, found, newId), r);
    case RunEnds(_) =>
      if RunEnded(s.d, r) {
        RunEndsUnharmed(s, r);
      }
    case ReplayEnds(_) =>
      if ReplayTask(r) in s.d.tasks && s.d.tasks[ReplayTask(r)].at.Ended? {
        ReplayEndsUnharmed(s, r);
      }
  }

  predicate NoHarm(schedule: seq<Action>, r: nat) { StoreFault(r) !in schedule && Crash(r) !in schedule }

  lemma NoHarmLater(schedule: seq<Action>, r: nat)
    requires NoHarm(schedule, r) && schedule != []
    ensures schedule[0] != StoreFault(r) && schedule[0] != Crash(r) && NoHarm(schedule[1..], r)
  {
    assert schedule[0] in schedule;
    assert forall a :: a in schedule[1..] ==> a in schedule;
  }

  lemma {:induction false} RunUnharmed(s: State, schedule: seq<Action>, r: nat)
    requires Inv(s) && NoHarm(schedule, r) && r in Run(s, schedule).ops
    requires r in s.ops ==> r in s.p.procs && Unharmed(s, r)
    ensures r in Run(s, schedule).p.procs && Unharmed(Run(s, schedule), r)
    decreases |schedule|
  {
    if schedule != [] {
      hide Inv, Unharmed, Next, NoHarm;
      var a := schedule[0];
      NextKeepsInv(s, a);
      NoHarmLater(schedule, r);
      if r in s.ops {
        StepUnharmed(s, a, r);
      } else if r in Next(s, a).ops {
        NewArrives(s, a, r);
      }
      RunUnharmed(Next(s, a), schedule[1..], r);
    }
  }

  lemma NewArrives(s: State, a: Action, r: nat)
    requires Inv(s) && r !in s.ops && r in Next(s, a).ops
    ensures r in Next(s, a).p.procs && Unharmed(Next(s, a), r)
  {
    hide Inv, Unharmed, P.Next, L.Next, Called, L.DoFail, DomainStep;
    assert a.Arrive? && a.r == r;
    hide DoArrive;
    NewUnharmed(s, r, a.key, a.op);
  }

  // ----- The result -----

  lemma NoRacersYet(s: State, p: Pair)
    requires Bodies.BeforeRace(s.d, p)
    ensures RacersAreRuns(s, p)
  {
  }

  /** The request that created the row, if it has its answer. */
  ghost predicate Winner(t: State, w: nat, p: Pair, id: Text) {
    Racer(t, w, p) && RunEnded(t.d, w) && t.d.tasks[RunTask(w)].at.outcome == L.Created(id)
  }

  /** What the others got: no success of their own, but perhaps the winner's identifier by replay. */
  ghost predicate Loser(t: State, r: nat, id: Text) {
    && (RunTask(r) in t.d.tasks ==>
          t.d.tasks[RunTask(r)].at == L.Ended(L.Rejected(L.AlreadyEnrolled)) && !Succeeded(t, r))
    && (Succeeded(t, r) ==> Via(t, r).AsReplay? && Id(t, r) == id)
  }

  lemma AllEnded(t: State, p: Pair)
    requires BodiesOk(t) && RacersAreRuns(t, p)
    requires forall r :: Racer(t, r, p) ==> r in t.p.procs && t.p.procs[r].pc.Done?
    ensures forall k :: k in t.d.tasks && Bodies.Enrolling(t.d.tasks[k], p) ==> t.d.tasks[k].at.Ended?
  {
    forall k | k in t.d.tasks && Bodies.Enrolling(t.d.tasks[k], p) ensures t.d.tasks[k].at.Ended? {
      var r: nat :| k == RunTask(r) && Racer(t, r, p);
      assert BodyOk(t, r);
    }
  }

  lemma RunIsEnrolling(t: State, r: nat, p: Pair)
    requires Inv(t) && Racer(t, r, p) && RunTask(r) in t.d.tasks
    ensures Bodies.Enrolling(t.d.tasks[RunTask(r)], p)
  {
    LinkOf(t, r);
    hide Inv, ReplayLink, AsksFor;
  }

  /** A success of one who ran is the identifier its run returned. */
  lemma SuccessOfRun(t: State, r: nat)
    requires Inv(t) && Succeeded(t, r) && RunTask(r) in t.d.tasks
    ensures !Via(t, r).AsReplay? && RunEnded(t.d, r) && IdOf(t.d.tasks[RunTask(r)].at.outcome) == Some(Id(t, r))
  {
    hide Inv, P.Inv, L.Inv, ReplayLink, AsksFor;
    LinkOf(t, r);
    InvParts(t);
    RanOrReplayed(t.p, r);
  }

  lemma RanOrReplayed(p: P.State, r: nat)
    requires P.Inv(p) && r in p.procs && p.procs[r].pc.Done? && p.procs[r].pc.answer.Answered?
    ensures p.procs[r].pc.answer.via.AsReplay? <==> r !in p.runs
    ensures r in p.runs ==> r in p.results && p.results[r] == p.procs[r].pc.answer.value
  {
    assert P.ProcOk(p, r);
  }

  lemma SuccessWithoutRun(t: State, r: nat)
    requires Inv(t) && Succeeded(t, r) && RunTask(r) !in t.d.tasks
    ensures Via(t, r).AsReplay?
  {
    hide Inv, P.Inv, L.Inv, ReplayLink, AsksFor;
    LinkOf(t, r);
    InvParts(t);
    RanOrReplayed(t.p, r);
  }

  lemma NotFailed(t: State, w: nat, p: Pair, id: Text)
    requires Winner(t, w, p, id) && w in t.p.procs && Unharmed(t, w) && t.p.procs[w].pc.Done?
    ensures Succeeded(t, w)
  {
    match t.p.procs[w].pc.answer
    case Answered(_, _) =>
    case Failed(_) =>
  }

  lemma WinnerAnswers(t: State, w: nat, p: Pair, id: Text)
    requires Inv(t) && Winner(t, w, p, id) && w in t.p.procs && Unharmed(t, w) && t.p.procs[w].pc.Done?
    ensures Succeeded(t, w) && Id(t, w) == id && !Via(t, w).AsReplay?
  {
    hide Inv;
    NotFailed(t, w, p, id);
    SuccessOfRun(t, w);
  }

  lemma Losers(t: State, w: nat, r: nat, p: Pair, id: Text)
    requires Inv(t) && Winner(t, w, p, id) && Racer(t, r, p) && r != w
    requires RunTask(r) in t.d.tasks ==> t.d.tasks[RunTask(r)].at == L.Ended(L.Rejected(L.AlreadyEnrolled))
    ensures Loser(t, r, id)
  {
    if Succeeded(t, r) {
      if RunTask(r) in t.d.tasks {
        SuccessOfRun(t, r);
      } else {
        SuccessWithoutRun(t, r);
        AnswerIsTheRow(t, r);
        WinnersRow(t, w, p, id);
      }
    }
    hide Inv;
  }

  lemma WinnersRow(t: State, w: nat, p: Pair, id: Text)
    requires Inv(t) && Winner(t, w, p, id)
    ensures p in t.d.enrolled && t.d.enrolled[p] == id
  {
    RunIsEnrolling(t, w, p);
    InvParts(t);
    hide Inv, P.Inv;
    OutcomeIsTheRow(t.d, RunTask(w), id);
  }

  /** First-time enrolment requests of one student in one course, keyed or not, in any number and any interleaving:
      when all have their answer and some body has run, exactly one request created the row. It was answered with
      that row unless one of its calls on the idempotency table failed. Every other body was told ALREADY_ENROLLED,
      and every other success is a replay that carries the same identifier. */
  lemma FirstTimeRequests(s: State, schedule: seq<Action>, p: Pair) returns (w: nat, id: Text)
    requires Inv(s) && BodiesOk(s) && Bodies.BeforeRace(s.d, p) && (forall r :: !Racer(s, r, p))
    requires HarmlessRun(s, schedule, p)
    requires var t := Run(s, schedule);
      && (forall r :: Racer(t, r, p) ==> r in t.p.procs && t.p.procs[r].pc.Done?)
      && exists r :: Racer(t, r, p) && RunTask(r) in t.d.tasks
    ensures var t := Run(s, schedule);
      && Winner(t, w, p, id) && id in t.d.enrollments && EnrollmentPair(t.d.enrollments[id]) == p
      && (Succeeded(t, w) ==> Id(t, w) == id && !Via(t, w).AsReplay?)
      && (NoHarm(schedule, w) ==> Succeeded(t, w))
      && forall r :: Racer(t, r, p) && r != w ==> Loser(t, r, id)
  {
    hide Inv, BodiesOk, HarmlessRun, RacersAreRuns, Run, Bodies.PeacefulRun, L.Run, Winner, Loser;
    NoRacersYet(s, p);
    var t := Run(s, schedule);
    RunKeepsInv(s, schedule);
    RunKeepsBodies(s, schedule);
    var steps := RaceRuns(s, schedule, p);
    AllEnded(t, p);
    var some :| Racer(t, some, p) && RunTask(some) in t.d.tasks;
    RunIsEnrolling(t, some, p);
    InvParts(s);
    Bodies.FirstTimeRace(s.d, steps, p);
    var k :|
      && k in t.d.tasks && Bodies.Enrolling(t.d.tasks[k], p) && t.d.tasks[k].at.outcome.Created?
      && forall q :: q in t.d.tasks && Bodies.Enrolling(t.d.tasks[q], p) && q != k ==>
           t.d.tasks[q].at.outcome == L.Rejected(L.AlreadyEnrolled);
    id := t.d.tasks[k].at.outcome.id;
    w := WinnerOf(t, k, p);
    CourseStays(s.d, steps, p);
    WinnersRowExists(t, w, p, id);
    forall r | Racer(t, r, p) && r != w ensures Loser(t, r, id) {
      if RunTask(r) in t.d.tasks {
        RunIsEnrolling(t, r, p);
      }
      Losers(t, w, r, p, id);
    }
    if Succeeded(t, w) {
      WinnersSuccess(t, w, p, id);
    }
    if NoHarm(schedule, w) {
      IsRacer(t, w, p, id);
      if w in s.ops {
        RacedBefore(s, schedule, w, p);
      }
      RunUnharmed(s, schedule, w);
      WinnerAnswers(t, w, p, id);
    }
  }

  /** The creating task is the run of one of the requests. */
  lemma WinnerOf(t: State, k: nat, p: Pair) returns (w: nat)
    requires RacersAreRuns(t, p) && k in t.d.tasks && Bodies.Enrolling(t.d.tasks[k], p)
    requires t.d.tasks[k].at.Ended? && t.d.tasks[k].at.outcome.Created?
    ensures k == RunTask(w) && Winner(t, w, p, t.d.tasks[k].at.outcome.id)
  {
    var r: nat :| k == RunTask(r) && Racer(t, r, p);
    w := r;
  }

  lemma {:induction false} RunOpsStay(s: State, schedule: seq<Action>, r: nat)
    requires r in s.ops
    ensures r in Run(s, schedule).ops && Run(s, schedule).ops[r] == s.ops[r]
    decreases |schedule|
  {
    if schedule != [] {
      hide Next;
      OpsStay(s, schedule[0], r);
      RunOpsStay(Next(s, schedule[0]), schedule[1..], r);
    }
  }

  lemma RacedBefore(s: State, schedule: seq<Action>, r: nat, p: Pair)
    requires r in s.ops
    ensures Racer(Run(s, schedule), r, p) <==> Racer(s, r, p)
  {
    RunOpsStay(s, schedule, r);
  }

  lemma IsRacer(t: State, w: nat, p: Pair, id: Text)
    requires Winner(t, w, p, id)
    ensures Racer(t, w, p)
  {
  }

  lemma WinnersSuccess(t: State, w: nat, p: Pair, id: Text)
    requires Inv(t) && Winner(t, w, p, id) && Succeeded(t, w)
    ensures Id(t, w) == id && !Via(t, w).AsReplay?
  {
    hide Inv;
    SuccessOfRun(t, w);
  }

  lemma CourseStays(d: L.State, steps: seq<L.Action>, p: Pair)
    requires L.Inv(d) && Bodies.BeforeRace(d, p) && Bodies.PeacefulRun(d, steps, p)
    ensures p.target in L.Run(d, steps).courses
  {
    hide L.Inv, L.Run, Bodies.PeacefulRun;
    Bodies.NoRowsBeforeRace(d, p);
    Bodies.RunKeepsRace(d, steps, p);
  }

  lemma WinnersRowExists(t: State, w: nat, p: Pair, id: Text)
    requires Inv(t) && Winner(t, w, p, id) && p.target in t.d.courses
    ensures id in t.d.enrollments && EnrollmentPair(t.d.enrollments[id]) == p
  {
    WinnersRow(t, w, p, id);
    InvParts(t);
    hide Inv, P.Inv;
    assert L.EnrolledOk(t.d, p);
  }
}
