/** Requests of the whole end within a bounded number of their own steps, and none of them is ever stuck. */
module EndToEndProgress {
  import opened Texts
  import P = Idempotency
  import Protocol = IdempotencyResults
  import Termination = IdempotencyTermination
  import L = Learning
  import Calls = LearningTermination
  import opened EndToEnd

  // ----- What other steps leave alone -----

  /** Whose step it is; a step of the learning machine belongs to the request whose body it answers, if any. */
  function Actor(a: Action): Option<nat> {
    match a
    case Arrive(r, _, _) => Some(r)
    case Store(r, _, _, _) => Some(r)
    case StoreFault(r) => Some(r)
    case RunEnds(r) => Some(r)
    case ReplayEnds(r) => Some(r)
    case Crash(r) => Some(r)
    case _ => None
  }

  ghost predicate SameTask(d: L.State, e: L.State, t: nat) {
    (t in d.tasks <==> t in e.tasks) && (t in d.tasks ==> e.tasks[t] == d.tasks[t])
  }

  /** Nothing about `r` moved. */
  ghost predicate Same(s: State, t: State, r: nat)
    requires r in s.p.procs
  {
    && r in t.p.procs && t.p.procs[r].pc == s.p.procs[r].pc
    && SameTask(s.d, t.d, RunTask(r)) && SameTask(s.d, t.d, ReplayTask(r))
  }

  /** What is gone stays gone. */
  ghost predicate GoneStays(d: L.State, e: L.State) {
    forall c :: c in d.used && c !in d.courses ==> c in e.used && c !in e.courses
  }

  lemma BeginSame(d: L.State, b: nat, job: L.Job, t: nat)
    ensures t != b ==> SameTask(d, L.DoBegin(d, b, job), t)
    ensures GoneStays(d, L.DoBegin(d, b, job))
  {
    assert L.DoBegin(d, b, job).tasks == if b in d.tasks then d.tasks else d.tasks[b := L.Task(job, L.Start)];
    hide L.DoBegin;
  }

  lemma FailSame(d: L.State, f: nat, t: nat)
    ensures t != f ==> SameTask(d, L.DoFail(d, f), t)
    ensures GoneStays(d, L.DoFail(d, f))
  {
    if f in d.tasks && !d.tasks[f].at.Ended? {
      var ended := L.Task(d.tasks[f].job, L.Ended(L.Rejected(L.StoreFailed)));
      assert L.DoFail(d, f).tasks == d.tasks[f := ended];
      hide L.DoFail;
    }
  }

  lemma CalledSame(s: State, p: P.State, r: nat, q: nat)
    requires r in p.procs && r in s.ops
    ensures q != r ==> SameTask(s.d, Called(s, p, r), RunTask(q)) && SameTask(s.d, Called(s, p, r), ReplayTask(q))
    ensures GoneStays(s.d, Called(s, p, r))
  {
    hide P.ReadId, L.DoBegin;
    var pc := p.procs[r].pc;
    var replay := ReplayJob(s.ops[r], if pc.Replaying? then P.ReadId(pc.body, p.procs[r].req.field) else None);
    BeginSame(s.d, RunTask(r), JobOf(s.ops[r]), RunTask(q));
    BeginSame(s.d, RunTask(r), JobOf(s.ops[r]), ReplayTask(q));
    BeginSame(s.d, ReplayTask(r), replay, RunTask(q));
    BeginSame(s.d, ReplayTask(r), replay, ReplayTask(q));
    hide SameTask, GoneStays;
  }

  lemma CrashSame(d: L.State, r: nat, q: nat)
    ensures var e := L.DoFail(L.DoFail(d, RunTask(r)), ReplayTask(r));
      && (q != r ==> SameTask(d, e, RunTask(q)) && SameTask(d, e, ReplayTask(q)))
      && GoneStays(d, e)
  {
    var m := L.DoFail(d, RunTask(r));
    FailSame(d, RunTask(r), RunTask(q));
    FailSame(d, RunTask(r), ReplayTask(q));
    FailSame(m, ReplayTask(r), RunTask(q));
    FailSame(m, ReplayTask(r), ReplayTask(q));
    hide L.DoFail;
  }

  /** Steps of others, and the passing of time. */
  lemma Untouched(s: State, a: Action, q: nat)
    requires q in s.ops && q in s.p.procs && !a.Domain? && Actor(a) != Some(q)
    ensures q in Next(s, a).ops && Next(s, a).ops[q] == s.ops[q] && Same(s, Next(s, a), q)
    ensures GoneStays(s.d, Next(s, a).d)
  {
    hide P.Next, Called, SameTask, GoneStays, L.DoFail, ArriveAction, L.DoQuery, L.QueryAllowed;
    SameAsItself(s.d, RunTask(q));
    SameAsItself(s.d, ReplayTask(q));
    match a
    case Tick(ms) =>
      Protocol.Frame(s.p, P.Tick(ms), q);
      TickSame(s.d, ms, q);
    case Arrive(r, key, op) =>
      if r !in s.ops {
        ArrivalOf(r, key, op);
        Protocol.Frame(s.p, ArriveAction(r, key, op), q);
        if r in P.Next(s.p, ArriveAction(r, key, op)).procs {
          CalledSame(s.(ops := s.ops[r := op]), P.Next(s.p, ArriveAction(r, key, op)), r, q);
        }
      }
    case Store(r, asOf, found, newId) => StoreSame(s, P.Query(r, asOf, found, newId), r, q);
    case StoreFault(r) => StoreSame(s, P.Fault(r), r, q);
    case RunEnds(r) =>
      if RunTask(r) in s.d.tasks && s.d.tasks[RunTask(r)].at.Ended? {
        Protocol.Frame(s.p, P.RunEnds(r, IdOf(s.d.tasks[RunTask(r)].at.outcome)), q);
      }
    case ReplayEnds(r) =>
      if ReplayTask(r) in s.d.tasks && s.d.tasks[ReplayTask(r)].at.Ended? {
        Protocol.Frame(s.p, P.ReplayEnds(r, s.d.tasks[ReplayTask(r)].at.outcome.Found?), q);
      }
    case Crash(r) =>
      Protocol.Frame(s.p, P.Crash(r), q);
      CrashSame(s.d, r, q);
  }

  lemma SameAsItself(d: L.State, t: nat)
    ensures SameTask(d, d, t) && GoneStays(d, d)
  {
  }

  lemma TickSame(d: L.State, ms: nat, q: nat)
    ensures var e := L.Next(d, L.Tick(ms));
      SameTask(d, e, RunTask(q)) && SameTask(d, e, ReplayTask(q)) && GoneStays(d, e)
  {
    hide L.DoQuery, L.QueryAllowed;
  }

  lemma StoreSame(s: State, a: P.Action, r: nat, q: nat)
    requires q in s.ops && q in s.p.procs && q != r && Protocol.Actor(a) == Some(r)
    ensures DoStore(s, a, r).ops == s.ops && Same(s, DoStore(s, a, r), q) && GoneStays(s.d, DoStore(s, a, r).d)
  {
    hide P.Next, Called, SameTask, GoneStays;
    SameAsItself(s.d, RunTask(q));
    SameAsItself(s.d, ReplayTask(q));
    Protocol.Frame(s.p, a, q);
    if r in s.ops && r in P.Next(s.p, a).procs {
      CalledSame(s, P.Next(s.p, a), r, q);
    }
  }

  // ----- A bound on the steps of one request -----

  function CallsOf(d: L.State, t: nat): nat { if t in d.tasks then Calls.CallsLeft(d.tasks[t]) else 0 }

  /** A request that waits for the idempotency table may still have to replay, with one call. */
  function Reserve(pc: P.Pc): nat {
    if pc.FirstFind? || pc.Insert? || pc.SecondFind? || pc.Waiting? then 1 else 0
  }

  /** The most steps that `r` can still take: calls on the idempotency table, calls of its body, and the ends of
      bodies. */
  function OwnLeft(s: State, r: nat): nat
    requires r in s.p.procs
  {
    var pc := s.p.procs[r].pc;
    Termination.StepsLeft(pc) + Reserve(pc) + CallsOf(s.d, RunTask(r)) + CallsOf(s.d, ReplayTask(r))
  }

  lemma SameCalls(d: L.State, e: L.State, t: nat)
    requires SameTask(d, e, t)
    ensures CallsOf(e, t) == CallsOf(d, t)
  {
  }

  lemma SameLeft(s: State, t: State, r: nat)
    requires r in s.p.procs && Same(s, t, r)
    ensures OwnLeft(t, r) == OwnLeft(s, r)
  {
    SameCalls(s.d, t.d, RunTask(r));
    SameCalls(s.d, t.d, ReplayTask(r));
  }

  /** An answer or a failure of a store call moves the request nearer to its end, or is not possible. */
  lemma StoreMoves(p: P.State, a: P.Action, r: nat)
    requires r in p.procs && (a.Query? || a.Fault?) && a.r == r
    ensures r in P.Next(p, a).procs
    ensures P.Next(p, a) == p
      || (Termination.WaitsForStore(p.procs[r].pc)
          && Termination.StepsLeft(P.Next(p, a).procs[r].pc) < Termination.StepsLeft(p.procs[r].pc))
  {
    Protocol.Frame(p, a, r);
    if a.Query? {
      if P.QueryAllowed(p, r, a.asOf, a.found, a.newId) {
        Termination.QueryProgress(p, r, a.asOf, a.found, a.newId);
      }
      hide P.DoQuery, P.IsActiveRecord, P.IsConflict;
    }
  }

  /** Who waits for the table has no body under way, unless it owns a row and its run has ended. */
  lemma NoBodyYet(s: State, r: nat)
    requires Inv(s) && r in s.ops && r in s.p.procs && Termination.WaitsForStore(s.p.procs[r].pc)
    ensures ReplayTask(r) !in s.d.tasks
    ensures !s.p.procs[r].pc.Saving? && !s.p.procs[r].pc.Deleting? ==> RunTask(r) !in s.d.tasks
  {
    InvParts(s);
    LinkOf(s, r);
    hide Inv, L.Inv, AsksFor;
    assert P.ProcOk(s.p, r);
  }

  /** Where a store call of a request can lead it, and which body begins. */
  lemma StoreBegins(s: State, a: P.Action, r: nat)
    requires Inv(s) && r in s.ops && (a.Query? || a.Fault?) && a.r == r
    ensures r in s.p.procs && r in DoStore(s, a, r).p.procs
    ensures P.Next(s.p, a) == s.p ==> Same(s, DoStore(s, a, r), r)
    ensures P.Next(s.p, a) != s.p ==>
      && Termination.WaitsForStore(s.p.procs[r].pc)
      && Termination.StepsLeft(DoStore(s, a, r).p.procs[r].pc) < Termination.StepsLeft(s.p.procs[r].pc)
      && DoStore(s, a, r).p == P.Next(s.p, a) && DoStore(s, a, r).d == Called(s, P.Next(s.p, a), r)
  {
    InvParts(s);
    StoreMoves(s.p, a, r);
    if P.Next(s.p, a) == s.p {
      LinkOf(s, r);
      hide Inv, P.Next, P.Inv, L.Inv, P.ReadId;
      SameAsItself(s.d, RunTask(r));
      SameAsItself(s.d, ReplayTask(r));
      assert Called(s, s.p, r) == s.d;
    } else {
      hide Inv, P.Next, P.Inv, L.Inv, Called;
    }
  }

  /** How many calls the body that begins has to make. */
  lemma CalledCalls(s: State, p: P.State, r: nat)
    requires r in s.ops && r in p.procs
    ensures CallsOf(Called(s, p, r), RunTask(r)) <= CallsOf(s.d, RunTask(r)) + if p.runs != s.p.runs then 4 else 0
    ensures CallsOf(Called(s, p, r), ReplayTask(r)) <= CallsOf(s.d, ReplayTask(r))
      + if p.runs == s.p.runs && p.procs[r].pc.Replaying? then 1 else 0
  {
    hide P.ReadId, L.DoBegin;
    var pc := p.procs[r].pc;
    var replay := ReplayJob(s.ops[r], if pc.Replaying? then P.ReadId(pc.body, p.procs[r].req.field) else None);
    BeginCalls(s.d, RunTask(r), JobOf(s.ops[r]), RunTask(r));
    BeginCalls(s.d, RunTask(r), JobOf(s.ops[r]), ReplayTask(r));
    BeginCalls(s.d, ReplayTask(r), replay, RunTask(r));
    BeginCalls(s.d, ReplayTask(r), replay, ReplayTask(r));
    hide CallsOf;
  }

  lemma BeginCalls(d: L.State, b: nat, job: L.Job, t: nat)
    ensures CallsOf(L.DoBegin(d, b, job), t) <=
      CallsOf(d, t) + if t != b then 0 else Calls.CallsLeft(L.Task(job, L.Start))
  {
    assert L.DoBegin(d, b, job).tasks == if b in d.tasks then d.tasks else d.tasks[b := L.Task(job, L.Start)];
    hide L.DoBegin;
  }

  lemma OwnStore(s: State, a: P.Action, r: nat)
    requires Inv(s) && r in s.ops && (a.Query? || a.Fault?) && a.r == r && P.Next(s.p, a) != s.p
    ensures r in s.p.procs && r in DoStore(s, a, r).p.procs
    ensures OwnLeft(DoStore(s, a, r), r) < OwnLeft(s, r)
  {
    StoreBegins(s, a, r);
    NoBodyYet(s, r);
    CalledCalls(s, P.Next(s.p, a), r);
    InvParts(s);
    P.NextKeepsInv(s.p, a);
    StartsFrom(s.p, a, r);
    hide Inv, P.Next, P.Inv, L.Inv, Called, DoStore, CallsOf, Reserve, Termination.StepsLeft, Termination.WaitsForStore;
    var p := P.Next(s.p, a);
    CallCosts(s.p.procs[r].pc, p.procs[r].pc, p.runs != s.p.runs);
  }

  /** The reserve of a waiting request pays for the body that begins. */
  lemma CallCosts(pc: P.Pc, next: P.Pc, starts: bool)
    requires Termination.WaitsForStore(pc) && Termination.StepsLeft(next) < Termination.StepsLeft(pc)
    requires Reserve(next) <= Reserve(pc)
    requires starts ==> (pc.Insert? || pc.SecondFind?) && (next.Running? || next.FallbackRun?)
    requires next.Replaying? ==> pc.FirstFind? || pc.SecondFind? || pc.Waiting?
    ensures Termination.StepsLeft(next) + Reserve(next) + (if starts then 4 else 0)
      + (if !starts && next.Replaying? then 1 else 0) < Termination.StepsLeft(pc) + Reserve(pc)
  {
  }

  /** A run starts only from an insert or a second lookup. */
  lemma StartsFrom(p: P.State, a: P.Action, r: nat)
    requires P.Inv(p) && r in p.procs && (a.Query? || a.Fault?) && a.r == r
    ensures r in P.Next(p, a).procs
    ensures P.Next(p, a).runs != p.runs ==>
      && (p.procs[r].pc.Insert? || p.procs[r].pc.SecondFind?)
      && (P.Next(p, a).procs[r].pc.Running? || P.Next(p, a).procs[r].pc.FallbackRun?)
    ensures P.Next(p, a).procs[r].pc.Replaying? ==>
      p.procs[r].pc.Replaying? || p.procs[r].pc.FirstFind? || p.procs[r].pc.SecondFind? || p.procs[r].pc.Waiting?
    ensures Reserve(P.Next(p, a).procs[r].pc) <= Reserve(p.procs[r].pc)
  {
    Protocol.Frame(p, a, r);
    if a.Query? {
      if P.QueryAllowed(p, r, a.asOf, a.found, a.newId) {
        QueryStartsFrom(p, r, a.asOf, a.found, a.newId);
      }
      hide P.DoQuery, P.QueryAllowed, P.Inv;
    } else {
      hide P.Inv;
    }
  }

  lemma QueryStartsFrom(p: P.State, r: nat, asOf: nat, found: Option<Text>, newId: Text)
    requires P.QueryAllowed(p, r, asOf, found, newId)
    ensures r in P.DoQuery(p, r, asOf, found, newId).procs
    ensures var t := P.DoQuery(p, r, asOf, found, newId);
      && (t.runs != p.runs ==>
            && (p.procs[r].pc.Insert? || p.procs[r].pc.SecondFind?)
            && (t.procs[r].pc.Running? || t.procs[r].pc.FallbackRun?))
      && (t.procs[r].pc.Replaying? ==> p.procs[r].pc.FirstFind? || p.procs[r].pc.SecondFind? || p.procs[r].pc.Waiting?)
      && Reserve(t.procs[r].pc) <= Reserve(p.procs[r].pc)
  {
    hide P.IsActiveRecord, P.IsConflict, P.NewRecord, P.CompletedRecord;
    match p.procs[r].pc
    case FirstFind =>
    case Insert =>
    case SecondFind(_) =>
    case Saving(_, _) =>
    case Deleting(_) =>
    case Waiting(_, _) =>
  }

  lemma OwnBodyEnds(s: State, a: Action, r: nat)
    requires Inv(s) && r in s.ops && (a == RunEnds(r) || a == ReplayEnds(r))
    ensures r in s.p.procs && r in Next(s, a).p.procs
      && (Same(s, Next(s, a), r) || OwnLeft(Next(s, a), r) < OwnLeft(s, r))
  {
    InvParts(s);
    SameAsItself(s.d, RunTask(r));
    SameAsItself(s.d, ReplayTask(r));
    hide Inv, P.Inv, L.Inv, P.Next, CallsOf, SameTask;
    if Next(s, a).p != s.p {
      var step := if a.RunEnds? then P.RunEnds(r, IdOf(s.d.tasks[RunTask(r)].at.outcome))
        else P.ReplayEnds(r, s.d.tasks[ReplayTask(r)].at.outcome.Found?);
      BodyEndMoves(s.p, step, r);
    }
  }

  lemma BodyEndMoves(p: P.State, a: P.Action, r: nat)
    requires r in p.procs && (a.RunEnds? || a.ReplayEnds?) && a.r == r
    ensures r in P.Next(p, a).procs
    ensures P.Next(p, a).procs[r].pc == p.procs[r].pc ||
      (Termination.StepsLeft(P.Next(p, a).procs[r].pc) + Reserve(P.Next(p, a).procs[r].pc)
        < Termination.StepsLeft(p.procs[r].pc) + Reserve(p.procs[r].pc))
  {
    hide P.DoQuery, P.QueryAllowed, P.Admission, P.ReadId;
  }

  /** The bodies of a request that crashes: each stays as it is, having ended, or ends. */
  lemma CrashCalls(d: L.State, r: nat, t: nat)
    requires t == RunTask(r) || t == ReplayTask(r)
    ensures var e := L.DoFail(L.DoFail(d, RunTask(r)), ReplayTask(r));
      SameTask(d, e, t) || CallsOf(e, t) < CallsOf(d, t)
    ensures CallsOf(L.DoFail(L.DoFail(d, RunTask(r)), ReplayTask(r)), t) <= CallsOf(d, t)
  {
    hide L.DoFail, CallsOf;
    FailCalls(d, RunTask(r), t);
    FailCalls(L.DoFail(d, RunTask(r)), ReplayTask(r), t);
  }

  lemma OwnCrash(s: State, r: nat)
    requires Inv(s) && r in s.ops
    ensures r in s.p.procs && r in DoCrash(s, r).p.procs
    ensures Same(s, DoCrash(s, r), r) || OwnLeft(DoCrash(s, r), r) < OwnLeft(s, r)
  {
    hide Inv, P.Inv, L.Inv, P.Next, L.DoFail, CallsOf, SameTask;
    InvParts(s);
    CrashCalls(s.d, r, RunTask(r));
    CrashCalls(s.d, r, ReplayTask(r));
    CrashMoves(s.p, r);
  }

  lemma CrashMoves(p: P.State, r: nat)
    requires r in p.procs
    ensures r in P.Next(p, P.Crash(r)).procs
    ensures P.Next(p, P.Crash(r)).procs[r].pc == p.procs[r].pc
      || (P.Next(p, P.Crash(r)).procs[r].pc.Done? && 0 < Termination.StepsLeft(p.procs[r].pc))
  {
    hide P.DoQuery, P.QueryAllowed, P.Admission;
    Alive(p.procs[r].pc);
  }

  lemma Alive(pc: P.Pc)
    ensures Termination.StepsLeft(pc) == 0 <==> pc.Done?
  {
  }

  lemma FailCalls(d: L.State, f: nat, t: nat)
    ensures SameTask(d, L.DoFail(d, f), t) || CallsOf(L.DoFail(d, f), t) < CallsOf(d, t)
    ensures CallsOf(L.DoFail(d, f), t) <= CallsOf(d, t)
  {
    if f in d.tasks && !d.tasks[f].at.Ended? {
      var ended := L.Task(d.tasks[f].job, L.Ended(L.Rejected(L.StoreFailed)));
      assert L.DoFail(d, f).tasks == d.tasks[f := ended];
      hide L.DoFail;
    }
  }

  lemma DomainCalls(d: L.State, a: L.Action, t: nat)
    requires DomainStep(a) && t % 3 != 2
    ensures SameTask(d, L.Next(d, a), t) || CallsOf(L.Next(d, a), t) < CallsOf(d, t)
  {
    hide L.Next;
    DomainKeeps(d, a, t);
    if t in d.tasks && L.Next(d, a).tasks[t] != d.tasks[t] {
      Calls.ChangeIsProgress(d, a, t);
    }
  }

  lemma OwnDomain(s: State, a: L.Action, r: nat)
    requires r in s.p.procs && DomainStep(a)
    ensures var t := s.(d := L.Next(s.d, a)); Same(s, t, r) || OwnLeft(t, r) < OwnLeft(s, r)
  {
    hide L.Next;
    DomainCalls(s.d, a, RunTask(r));
    DomainCalls(s.d, a, ReplayTask(r));
    var e := L.Next(s.d, a);
    if SameTask(s.d, e, RunTask(r)) {
      SameCalls(s.d, e, RunTask(r));
    }
    if SameTask(s.d, e, ReplayTask(r)) {
      SameCalls(s.d, e, ReplayTask(r));
    }
    hide CallsOf, SameTask;
  }

  /** A step either leaves a request where it is or brings it nearer to its end, calls of its body included. */
  lemma OwnStep(s: State, a: Action, r: nat)
    requires Inv(s) && r in s.ops
    ensures r in s.p.procs && r in Next(s, a).p.procs && r in Next(s, a).ops
    ensures Same(s, Next(s, a), r) || OwnLeft(Next(s, a), r) < OwnLeft(s, r)
  {
    InvParts(s);
    if !a.Domain? && Actor(a) != Some(r) {
      hide Inv, P.Inv, L.Inv, Next, Same, GoneStays;
      Untouched(s, a, r);
      SameKnown(s, Next(s, a), r);
    } else {
      hide Inv, P.Inv, L.Inv, Same, OwnLeft, P.Next, L.Next, DoStore, DoCrash, DoArrive, DoRunEnds, DoReplayEnds,
        DomainStep;
      match a
      case Domain(step) =>
        if DomainStep(step) {
          OwnDomain(s, step, r);
        } else {
          SameSelf(s, r);
        }
      case Arrive(_, key, op) =>
        Known(s, r, key, op);
        SameSelf(s, r);
      case Store(_, asOf, found, newId) => StoreOrSame(s, P.Query(r, asOf, found, newId), r);
      case StoreFault(_) => StoreOrSame(s, P.Fault(r), r);
      case Crash(_) => OwnCrash(s, r);
      case RunEnds(_) => OwnBodyEnds(s, a, r);
      case ReplayEnds(_) => OwnBodyEnds(s, a, r);
    }
  }

  lemma SameKnown(s: State, t: State, r: nat)
    requires r in s.p.procs && Same(s, t, r)
    ensures r in t.p.procs
  {
  }

  lemma SameSelf(s: State, r: nat)
    requires r in s.p.procs
    ensures Same(s, s, r)
  {
  }

  lemma StoreOrSame(s: State, a: P.Action, r: nat)
    requires Inv(s) && r in s.ops && (a.Query? || a.Fault?) && a.r == r
    ensures r in s.p.procs && r in DoStore(s, a, r).p.procs && r in DoStore(s, a, r).ops
    ensures Same(s, DoStore(s, a, r), r) || OwnLeft(DoStore(s, a, r), r) < OwnLeft(s, r)
  {
    StoreBegins(s, a, r);
    if P.Next(s.p, a) != s.p {
      OwnStore(s, a, r);
    }
    hide Inv, P.Next, Called, Same, OwnLeft;
  }

  /** How often request `r` or one of its bodies moved along a schedule. */
  ghost function OwnMoves(s: State, schedule: seq<Action>, r: nat): nat
    decreases |schedule|
  {
    if schedule == [] then 0
    else
      (if r in s.p.procs && Same(s, Next(s, schedule[0]), r) then 0 else 1)
        + OwnMoves(Next(s, schedule[0]), schedule[1..], r)
  }

  /** Under any schedule a request and its bodies move at most as often as `OwnLeft` says. */
  lemma {:induction false} OwnMovesBounded(s: State, schedule: seq<Action>, r: nat)
    requires Inv(s) && r in s.ops
    ensures r in s.p.procs && r in Run(s, schedule).p.procs
    ensures OwnMoves(s, schedule, r) + OwnLeft(Run(s, schedule), r) <= OwnLeft(s, r)
    decreases |schedule|
  {
    hide Inv, Next, Same, OwnLeft;
    KnownProc(s, r);
    if schedule != [] {
      var t := Next(s, schedule[0]);
      NextKeepsInv(s, schedule[0]);
      OwnStep(s, schedule[0], r);
      if Same(s, t, r) {
        SameLeft(s, t, r);
      }
      OwnMovesBounded(t, schedule[1..], r);
    }
  }

  lemma KnownProc(s: State, r: nat)
    requires Inv(s) && r in s.ops
    ensures r in s.p.procs
  {
    InvParts(s);
  }

  /** From its arrival, a request takes at most 25 steps: its calls on the idempotency table, the calls of its body,
      and the ends of bodies. */
  lemma ArrivalBound(s: State, r: nat, key: Option<Text>, op: Op, schedule: seq<Action>)
    requires Inv(s) && r !in s.ops
    ensures r in Next(s, Arrive(r, key, op)).ops
    ensures OwnMoves(Next(s, Arrive(r, key, op)), schedule, r) <= 25
  {
    var t := Next(s, Arrive(r, key, op));
    NextKeepsInv(s, Arrive(r, key, op));
    ArrivalLeft(s, r, key, op);
    hide Next, Inv, OwnLeft;
    OwnMovesBounded(t, schedule, r);
  }

  /** A request that arrives is admitted, and only one without a key has begun its body. */
  lemma Arrived(s: State, r: nat, key: Option<Text>, op: Op)
    requires Inv(s) && r !in s.ops
    ensures r in DoArrive(s, r, key, op).ops && r in DoArrive(s, r, key, op).p.procs
    ensures P.Admissible(DoArrive(s, r, key, op).p.procs[r])
    ensures DoArrive(s, r, key, op).d ==
      if DoArrive(s, r, key, op).p.procs[r].pc.DirectRun? then L.DoBegin(s.d, RunTask(r), JobOf(op)) else s.d
  {
    var proc := P.Admission(s.p.clock, key, op.studentId, POST, PathOf(op), Dto(op), FieldOf(op));
    NothingOfNewcomer(s, r);
    ArrivalAdmits(s.p, r, key, op);
    AdmissionAsks(s.p.clock, key, op);
    hide Inv, P.Next, P.Admission, ArriveAction, AsksFor, Dto, PathOf, FieldOf, JobOf, L.DoBegin, P.Admissible;
    ArrivedTables(s, r, key, op, proc);
    hide DoArrive;
  }

  lemma ArrivalLeft(s: State, r: nat, key: Option<Text>, op: Op)
    requires Inv(s) && r !in s.ops
    ensures r in DoArrive(s, r, key, op).ops && r in DoArrive(s, r, key, op).p.procs
    ensures OwnLeft(DoArrive(s, r, key, op), r) <= 25
  {
    hide Inv, DoArrive, L.DoBegin, JobOf, OwnLeft, P.Admissible, CallsOf, Calls.CallsLeft;
    Arrived(s, r, key, op);
    NothingOfNewcomer(s, r);
    NoCalls(s.d, RunTask(r));
    NoCalls(s.d, ReplayTask(r));
    StartCalls(JobOf(op));
    BeginCalls(s.d, RunTask(r), JobOf(op), RunTask(r));
    BeginCalls(s.d, RunTask(r), JobOf(op), ReplayTask(r));
    ArrivalCost(DoArrive(s, r, key, op), r, DoArrive(s, r, key, op).p.procs[r]);
  }

  lemma NoCalls(d: L.State, t: nat)
    requires t !in d.tasks
    ensures CallsOf(d, t) == 0
  {
  }

  lemma StartCalls(job: L.Job)
    ensures Calls.CallsLeft(L.Task(job, L.Start)) <= 4
  {
  }

  lemma ArrivalCost(t: State, r: nat, proc: P.Proc)
    requires r in t.p.procs && t.p.procs[r] == proc && P.Admissible(proc)
    requires CallsOf(t.d, RunTask(r)) <= if proc.pc.DirectRun? then 4 else 0
    requires CallsOf(t.d, ReplayTask(r)) == 0
    ensures OwnLeft(t, r) <= 25
  {
    hide CallsOf;
  }

  // ----- No request of the whole is ever stuck -----

  /** An answer that a body under way waits for. */
  lemma BodyAnswers(s: State, t: nat) returns (a: L.Action)
    requires L.Inv(s.d) && t in s.d.tasks && !s.d.tasks[t].at.Ended?
    ensures a.Query? && DomainStep(a) && t in L.Next(s.d, a).tasks && L.Next(s.d, a).tasks[t] != s.d.tasks[t]
  {
    assert L.TaskOk(s.d, t);
    hide L.Inv, L.QueryAllowed;
    var found, newId := Calls.CallAnswers(s.d, t);
    a := L.Query(t, found, newId);
    Calls.BodiesEnd(s.d, a, t);
    hide L.Next, Calls.CallsLeft;
  }

  lemma DomainMoves(s: State, a: L.Action, r: nat, t: nat)
    requires Inv(s) && r in s.ops && DomainStep(a) && (t == RunTask(r) || t == ReplayTask(r))
    requires t in s.d.tasks && t in L.Next(s.d, a).tasks && L.Next(s.d, a).tasks[t] != s.d.tasks[t]
    ensures r in s.p.procs && r in Next(s, Domain(a)).p.procs && OwnLeft(Next(s, Domain(a)), r) < OwnLeft(s, r)
  {
    hide Inv, L.Next, Next, DomainStep, OwnLeft;
    OwnStep(s, Domain(a), r);
    DomainIs(s, a);
  }

  lemma DomainIs(s: State, step: L.Action)
    ensures Next(s, Domain(step)) == if DomainStep(step) then s.(d := L.Next(s.d, step)) else s
  {
    hide L.Next, DomainStep;
  }

  /** What a request that waits for its body can count on. */
  lemma BodyUnderWay(s: State, r: nat)
    requires Inv(s) && r in s.ops && r in s.p.procs
    ensures s.p.procs[r].pc.Running? || s.p.procs[r].pc.FallbackRun? || s.p.procs[r].pc.DirectRun? ==>
      RunTask(r) in s.d.tasks
    ensures s.p.procs[r].pc.Replaying? ==> ReplayTask(r) in s.d.tasks
  {
    InvParts(s);
    LinkOf(s, r);
    hide Inv, L.Inv, AsksFor;
    assert P.ProcOk(s.p, r);
  }

  lemma BodyEndProgress(s: State, a: Action, r: nat)
    requires Inv(s) && r in s.ops && r in s.p.procs && (a == RunEnds(r) || a == ReplayEnds(r))
    requires var t := if a.RunEnds? then RunTask(r) else ReplayTask(r); t in s.d.tasks && s.d.tasks[t].at.Ended?
    requires var pc := s.p.procs[r].pc;
      if a.RunEnds? then pc.Running? || pc.FallbackRun? || pc.DirectRun? else pc.Replaying?
    ensures r in Next(s, a).p.procs && OwnLeft(Next(s, a), r) < OwnLeft(s, r)
  {
    OwnStep(s, a, r);
    hide Inv, OwnLeft, P.Next;
    var step := if a.RunEnds? then P.RunEnds(r, IdOf(s.d.tasks[RunTask(r)].at.outcome))
      else P.ReplayEnds(r, s.d.tasks[ReplayTask(r)].at.outcome.Found?);
    BodyEndLeaves(s.p, step, r);
    assert Next(s, a).p == P.Next(s.p, step);
  }

  lemma BodyEndLeaves(p: P.State, a: P.Action, r: nat)
    requires r in p.procs && (a.RunEnds? || a.ReplayEnds?) && a.r == r
    requires var pc := p.procs[r].pc;
      if a.RunEnds? then pc.Running? || pc.FallbackRun? || pc.DirectRun? else pc.Replaying?
    ensures r in P.Next(p, a).procs && P.Next(p, a).procs[r].pc != p.procs[r].pc
  {
    hide P.DoQuery, P.QueryAllowed, P.Admission, P.ReadId;
  }

  lemma StoreProgress(s: State, a: P.Action, r: nat)
    requires Inv(s) && r in s.ops && r in s.p.procs && a.Query? && a.r == r
    requires P.QueryAllowed(s.p, r, a.asOf, a.found, a.newId)
    ensures r in DoStore(s, a, r).p.procs && OwnLeft(DoStore(s, a, r), r) < OwnLeft(s, r)
  {
    Termination.QueryProgress(s.p, r, a.asOf, a.found, a.newId);
    assert P.Next(s.p, a) != s.p by {
      hide P.DoQuery, P.QueryAllowed;
    }
    hide Inv, P.Next, P.QueryAllowed;
    OwnStore(s, a, r);
  }

  lemma StoreIs(s: State, r: nat, asOf: nat, found: Option<Text>, newId: Text)
    ensures Next(s, Store(r, asOf, found, newId)) == DoStore(s, P.Query(r, asOf, found, newId), r)
  {
    hide DoStore;
  }

  /** In every reachable state of the whole, a request in flight has a step, without any failure, that brings it
      nearer to its end: an answer of one of the databases, or the end of its body. */
  lemma WholeNeverStuck(s: State, r: nat) returns (a: Action)
    requires Inv(s) && r in s.ops && r in s.p.procs && !s.p.procs[r].pc.Done?
    ensures a.Store? || a.RunEnds? || a.ReplayEnds? || (a.Domain? && a.step.Query?)
    ensures r in Next(s, a).p.procs && OwnLeft(Next(s, a), r) < OwnLeft(s, r)
  {
    InvParts(s);
    BodyUnderWay(s, r);
    hide Inv, P.Inv, L.Inv, OwnLeft, P.QueryAllowed, P.Next, L.Next, DomainStep, DoStore, Next;
    var pc := s.p.procs[r].pc;
    if Termination.WaitsForStore(pc) {
      var answer := Termination.StoreAnswers(s.p, r);
      StoreProgress(s, answer, r);
      a := Store(r, answer.asOf, answer.found, answer.newId);
      StoreIs(s, r, answer.asOf, answer.found, answer.newId);
    } else {
      var t := if pc.Replaying? then ReplayTask(r) else RunTask(r);
      if s.d.tasks[t].at.Ended? {
        a := if pc.Replaying? then ReplayEnds(r) else RunEnds(r);
        BodyEndProgress(s, a, r);
      } else {
        var answer := BodyAnswers(s, t);
        DomainMoves(s, answer, r, t);
        a := Domain(answer);
      }
    }
  }
}
