/** What the idempotency protocol guarantees in every interleaving. */
module IdempotencyResults {
  import opened Texts
  import opened JsonPrinter
  import opened Canonical
  import opened IdempotencyKeys
  import opened Idempotency

  lemma {:induction false} RunSplit(s: State, a: seq<Action>, b: seq<Action>)
    ensures Run(s, a + b) == Run(Run(s, a), b)
    decreases |a|
  {
    if a == [] {
      assert a + b == b;
    } else {
      assert (a + b)[1..] == a[1..] + b;
      RunSplit(Next(s, a[0]), a[1..], b);
    }
  }

  lemma ReachableInv(schedule: seq<Action>)
    ensures Inv(Run(Init(), schedule))
  {
    RunKeepsInv(Init(), schedule);
  }

  /** The request whose step an action is. */
  function Actor(a: Action): Option<nat> {
    match a
    case Tick(_) => None
    case Arrive(r, _, _, _, _, _, _) => Some(r)
    case Query(r, _, _, _) => Some(r)
    case Fault(r) => Some(r)
    case RunEnds(r, _) => Some(r)
    case ReplayEnds(r, _) => Some(r)
    case Crash(r) => Some(r)
  }

  /** What a step does to the request whose step it is. */
  lemma ActorStep(s: State, a: Action, r: nat)
    requires Actor(a) == Some(r) && r in s.procs
    ensures StepOf(s, Next(s, a), r)
    ensures Next(s, a).runs != s.runs ==>
      && a.Query? && a.found.None? && QueryAllowed(s, r, a.asOf, None, a.newId)
      && ((s.procs[r].pc.Insert? && a.newId in Next(s, a).rows) || s.procs[r].pc.SecondFind?)
    ensures Entered(s, a, r, Next(s, a).procs[r].pc) && (Next(s, a).procs[r].pc.SecondFind? ==>
      Next(s, a).procs[r].pc == s.procs[r].pc || Next(s, a).procs[r].pc.blocker in Next(s, a).rows)
  {
    hide HashPayload, DoQuery, DoFault, DoRunEnds, DoReplayEnds, DoCrash, Admission, IsActiveRecord, IsConflict;
    match a
    case Query(_, asOf, found, newId) =>
      if QueryAllowed(s, r, asOf, found, newId) {
        QueryStep(s, r, asOf, found, newId);
        if s.procs[r].pc.Insert? && found.Some? {
          InsertConflict(s, r, asOf, found, newId);
        }
      }
    case Fault(_) => FaultStep(s, r);
    case RunEnds(_, outcome) => RunEndsStep(s, r, outcome);
    case ReplayEnds(_, present) => ReplayEndsStep(s, r, present);
    case Crash(_) => CrashStep(s, r);
    case Arrive(_, _, _, _, _, _, _) =>
  }

  /** How a request gets to the places that matter below. */
  predicate Entered(s: State, a: Action, r: nat, next: Pc)
    requires r in s.procs
  {
    var pc := s.procs[r].pc;
    next == pc
    || (&& (next.Deleting? ==> (a.RunEnds? && a.outcome.None? && pc.Running?) || (a.Fault? && pc.Saving?))
        && (next.SecondFind? ==> pc.Insert? && a.Query? && a.found == Some(next.blocker))
        && (next.FallbackRun? ==>
              pc.SecondFind? && a.Query? && a.found.None? && QueryAllowed(s, r, a.asOf, None, a.newId)))
  }

  lemma InsertConflict(s: State, r: nat, asOf: nat, found: Option<Text>, newId: Text)
    requires QueryAllowed(s, r, asOf, found, newId) && s.procs[r].pc.Insert? && found.Some?
    ensures DoQuery(s, r, asOf, found, newId).rows == s.rows
  {
  }

  /** Nobody known moves when time passes or a new request arrives. */
  lemma NobodyMoves(s: State, a: Action, r: nat)
    requires r in s.procs && (Actor(a).Some? ==> Actor(a).value !in s.procs)
    ensures r in Next(s, a).procs && Next(s, a).procs[r] == s.procs[r] && (r in Next(s, a).runs <==> r in s.runs)
  {
    hide HashPayload, DoQuery, DoFault, DoRunEnds, DoReplayEnds, DoCrash, Admission, IsActiveRecord, IsConflict;
  }

  /** A step is a step of one request, no request changes what it asks for, and a request already known starts a run
      only when its insert succeeds or its second lookup finds nothing. */
  lemma Frame(s: State, a: Action, r: nat)
    requires r in s.procs
    ensures r in Next(s, a).procs && Next(s, a).procs[r].req == s.procs[r].req
    ensures Actor(a) != Some(r) ==> Next(s, a).procs[r] == s.procs[r] && (r in Next(s, a).runs <==> r in s.runs)
    ensures Actor(a) == Some(r) ==> StepOf(s, Next(s, a), r)
    ensures r in Next(s, a).runs && r !in s.runs ==>
      && a.Query? && a.r == r && a.found.None? && QueryAllowed(s, r, a.asOf, None, a.newId)
      && ((s.procs[r].pc.Insert? && a.newId in Next(s, a).rows) || s.procs[r].pc.SecondFind?)
  {
    hide Next, QueryAllowed, Entered;
    if Actor(a).Some? && Actor(a).value in s.procs {
      ActorStep(s, a, Actor(a).value);
    } else {
      NobodyMoves(s, a, r);
    }
  }

  lemma Enters(s: State, a: Action, r: nat)
    requires r in s.procs
    ensures r in Next(s, a).procs
    ensures Next(s, a).procs[r].pc != s.procs[r].pc ==>
      && Actor(a) == Some(r) && Entered(s, a, r, Next(s, a).procs[r].pc)
      && (Next(s, a).procs[r].pc.SecondFind? ==> Next(s, a).procs[r].pc.blocker in Next(s, a).rows)
  {
    hide Next, QueryAllowed, Entered;
    Frame(s, a, r);
    if Actor(a) == Some(r) {
      ActorStep(s, a, r);
    }
  }

  lemma Newcomer(s: State, a: Action, r: nat)
    requires r !in s.procs && r in Next(s, a).procs
    ensures a.Arrive? && a.r == r
    ensures Next(s, a).procs[r] == Admission(s.clock, a.key, a.userId, a.verb, a.path, a.payload, a.field)
    ensures r in Next(s, a).runs ==> r in s.runs || Next(s, a).procs[r].pc.DirectRun?
  {
    if Actor(a).Some? && Actor(a).value in s.procs {
      hide Next, QueryAllowed, Entered;
      ActorStep(s, a, Actor(a).value);
    } else {
      hide DoQuery, QueryAllowed, DoFault, DoRunEnds, DoReplayEnds, DoCrash, Admission;
    }
  }

  // ----- Rows over time -----

  /** A step changes or removes a row only while it is PROCESSING, and only as a step of the row's creator. */
  lemma OnlyOwnerChangesRow(s: State, a: Action, id: Text)
    requires Inv(s) && id in s.rows
    ensures id !in Next(s, a).rows || Next(s, a).rows[id] != s.rows[id] ==>
      s.rows[id].status == Processing && Actor(a) == Some(s.rows[id].creator)
  {
    assert RowOk(s, id);
    if a.Query? && a.r in s.procs {
      assert ProcOk(s, a.r);
    }
    hide Next, QueryAllowed, RunsOnce, OneRowPerScope;
    if id !in Next(s, a).rows || Next(s, a).rows[id] != s.rows[id] {
      ChangedRow(s, a, id);
    }
  }

  lemma ChangedRow(s: State, a: Action, id: Text)
    requires id in s.rows && (id !in Next(s, a).rows || Next(s, a).rows[id] != s.rows[id])
    ensures a.Query? && a.r in s.procs
    ensures (a.newId == id && id !in s.used) || (Owns(s.procs[a.r].pc, id) && !s.procs[a.r].pc.Running?)
  {
    hide Admission, IsActiveRecord, IsConflict, CompletedRecord;
  }

  lemma {:induction false} CompletedStays(s: State, schedule: seq<Action>, id: Text)
    requires Inv(s) && id in s.rows && s.rows[id].status == Completed
    ensures id in Run(s, schedule).rows && Run(s, schedule).rows[id] == s.rows[id]
    decreases |schedule|
  {
    if schedule != [] {
      OnlyOwnerChangesRow(s, schedule[0], id);
      NextKeepsInv(s, schedule[0]);
      CompletedStays(Next(s, schedule[0]), schedule[1..], id);
    }
  }

  /** What a stored record says: no response while PROCESSING, 201 and the owner's identifier once COMPLETED, and no
      more than a day to live. */
  lemma StoredRecord(schedule: seq<Action>, id: Text)
    requires id in Run(Init(), schedule).rows
    ensures var s := Run(Init(), schedule);
      var rec := s.rows[id];
      && rec.id == id && rec.creator in s.procs && rec.expiresAt <= s.clock + 86400000
      && (rec.status == Processing ==> rec.responseStatus == None && rec.responseBody == None)
      && (rec.status == Completed ==>
            && rec.responseStatus == Some(201) && s.procs[rec.creator].pc.Done?
            && s.procs[rec.creator].pc.answer.Answered?
            && ReadId(rec.responseBody, s.procs[rec.creator].req.field) == Some(s.procs[rec.creator].pc.answer.value))
  {
    ReachableInv(schedule);
    var s := Run(Init(), schedule);
    assert RowOk(s, id);
    if s.rows[id].status == Completed {
      var owner := s.procs[s.rows[id].creator];
      ReadBack(owner.req.field, owner.pc.answer.value, owner.req.field);
    }
  }

  /** Over a whole interleaving a scope has at most one COMPLETED record, and it never changes. */
  lemma OneCompletedRecordEver(before: seq<Action>, after: seq<Action>, x: Text, y: Text)
    requires var s := Run(Init(), before); x in s.rows && s.rows[x].status == Completed
    requires var t := Run(Init(), before + after); y in t.rows && t.rows[y].status == Completed
    requires Run(Init(), before).rows[x].scope == Run(Init(), before + after).rows[y].scope
    ensures x == y && Run(Init(), before).rows[x] == Run(Init(), before + after).rows[y]
  {
    ReachableInv(before);
    ReachableInv(before + after);
    RunSplit(Init(), before, after);
    CompletedStays(Run(Init(), before), after, x);
  }

  // ----- Answers -----

  /** Every answer given through a record is the identifier that the one completing run returned, and the request has
      the scope and the hash of that record. */
  lemma AnswerIsOwnersResult(s: State, r: nat)
    requires Inv(s) && r in s.procs && s.procs[r].pc.Done? && s.procs[r].pc.answer.Answered?
    requires s.procs[r].pc.answer.via.AsOwner? || s.procs[r].pc.answer.via.AsReplay?
    ensures var Answered(value, via) := s.procs[r].pc.answer;
      && via.rec in s.rows && s.rows[via.rec].status == Completed && Matches(s, via.rec, s.procs[r].req)
      && var owner := s.rows[via.rec].creator;
      && owner in s.procs && s.procs[owner].pc == Done(Answered(value, AsOwner(via.rec)))
      && s.procs[owner].req.scope == s.procs[r].req.scope
      && s.procs[owner].req.requestHash == s.procs[r].req.requestHash
      && s.procs[owner].req.field == s.procs[r].req.field
      && owner in s.runs && owner in s.results && s.results[owner] == value
  {
    assert ProcOk(s, r);
    var rec := s.procs[r].pc.answer.via.rec;
    assert RowOk(s, rec);
    var owner := s.rows[rec].creator;
    assert ProcOk(s, owner);
    ReadBack(s.procs[owner].req.field, s.procs[owner].pc.answer.value, s.procs[r].req.field);
  }

  /** Two requests of one scope that were both answered through a record got the same identifier. */
  lemma AnswersAgree(schedule: seq<Action>, r: nat, q: nat)
    requires var s := Run(Init(), schedule);
      && r in s.procs && s.procs[r].pc.Done? && s.procs[r].pc.answer.Answered?
      && (s.procs[r].pc.answer.via.AsOwner? || s.procs[r].pc.answer.via.AsReplay?)
      && q in s.procs && s.procs[q].pc.Done? && s.procs[q].pc.answer.Answered?
      && (s.procs[q].pc.answer.via.AsOwner? || s.procs[q].pc.answer.via.AsReplay?)
      && s.procs[r].req.scope == s.procs[q].req.scope
    ensures var s := Run(Init(), schedule); s.procs[r].pc.answer.value == s.procs[q].pc.answer.value
  {
    ReachableInv(schedule);
    AnswerIsOwnersResult(Run(Init(), schedule), r);
    AnswerIsOwnersResult(Run(Init(), schedule), q);
  }

  // ----- Payloads -----

  ghost predicate HashesOk(s: State) {
    forall r :: r in s.procs ==> s.procs[r].req.requestHash == HashPayload(s.procs[r].req.payload)
  }

  lemma NextKeepsHashes(s: State, a: Action)
    requires HashesOk(s)
    ensures HashesOk(Next(s, a))
  {
    hide Next, HashPayload;
    var t := Next(s, a);
    forall r | r in t.procs ensures t.procs[r].req.requestHash == HashPayload(t.procs[r].req.payload) {
      if r in s.procs {
        Frame(s, a, r);
      } else {
        Newcomer(s, a, r);
        AdmissionHash(s.clock, a.key, a.userId, a.verb, a.path, a.payload, a.field);
      }
    }
  }

  lemma AdmissionHash(now: nat, key: Option<Text>, userId: Text, verb: Text, path: Text, payload: Payload, field: Text)
    ensures var req := Admission(now, key, userId, verb, path, payload, field).req;
      req.requestHash == HashPayload(req.payload)
  {
  }

  lemma {:induction false} RunKeepsHashes(s: State, schedule: seq<Action>)
    requires HashesOk(s)
    ensures HashesOk(Run(s, schedule))
    decreases |schedule|
  {
    if schedule != [] {
      NextKeepsHashes(s, schedule[0]);
      RunKeepsHashes(Next(s, schedule[0]), schedule[1..]);
    }
  }

  lemma SameHashIffSameMeaning(p: Payload, q: Payload)
    ensures HashPayload(p) == HashPayload(q) <==> MeaningOf(p, false) == MeaningOf(q, false)
  {
    SameTextIffSameMeaning(p, q);
  }

  /** A request answered through a record carries the same JSON value as the run that completed it. */
  lemma AnsweredUnderSamePayload(schedule: seq<Action>, r: nat)
    requires var s := Run(Init(), schedule);
      && r in s.procs && s.procs[r].pc.Done? && s.procs[r].pc.answer.Answered?
      && (s.procs[r].pc.answer.via.AsOwner? || s.procs[r].pc.answer.via.AsReplay?)
    ensures var s := Run(Init(), schedule);
      var rec := s.procs[r].pc.answer.via.rec;
      && rec in s.rows && s.rows[rec].creator in s.procs
      && MeaningOf(s.procs[r].req.payload, false) == MeaningOf(s.procs[s.rows[rec].creator].req.payload, false)
  {
    var s := Run(Init(), schedule);
    ReachableInv(schedule);
    RunKeepsHashes(Init(), schedule);
    AnswerIsOwnersResult(s, r);
    var owner := s.rows[s.procs[r].pc.answer.via.rec].creator;
    SameHashIffSameMeaning(s.procs[r].req.payload, s.procs[owner].req.payload);
  }

  /** A lookup that finds a record refuses the request exactly when its JSON value differs from the creator's. */
  lemma RefusedIffOtherPayload(schedule: seq<Action>, r: nat, asOf: nat, id: Text, newId: Text)
    requires var s := Run(Init(), schedule);
      QueryAllowed(s, r, asOf, Some(id), newId) && (s.procs[r].pc.FirstFind? || s.procs[r].pc.SecondFind?)
    ensures var s := Run(Init(), schedule);
      && id in s.rows && s.rows[id].creator in s.procs
      && (Next(s, Query(r, asOf, Some(id), newId)).procs[r].pc == Done(Failed(PayloadMismatch)) <==>
           MeaningOf(s.procs[r].req.payload, false) != MeaningOf(s.procs[s.rows[id].creator].req.payload, false))
  {
    var s := Run(Init(), schedule);
    ReachableInv(schedule);
    RunKeepsHashes(Init(), schedule);
    assert RowOk(s, id);
    SameHashIffSameMeaning(s.procs[r].req.payload, s.procs[s.rows[id].creator].req.payload);
  }

  // ----- Ownership and quiescence -----

  /** A PROCESSING record has exactly one owner in flight, unless its creator crashed or failed to delete it. */
  lemma OneOwner(s: State, id: Text)
    requires Inv(s) && id in s.rows && s.rows[id].status == Processing
    ensures var creator := s.rows[id].creator;
      && creator in s.procs
      && (creator in s.orphans <==> !Owns(s.procs[creator].pc, id))
      && forall q :: q in s.procs && Owns(s.procs[q].pc, id) ==> q == creator
  {
    assert RowOk(s, id);
    forall q | q in s.procs && Owns(s.procs[q].pc, id) ensures q == s.rows[id].creator {
      assert ProcOk(s, q);
    }
  }

  /** No crash, and no failure of the delete that cleans up after a failed run. */
  predicate CleanStep(s: State, a: Action) {
    !a.Crash? && !(a.Fault? && a.r in s.procs && s.procs[a.r].pc.Deleting?)
  }

  predicate CleanRun(s: State, schedule: seq<Action>)
    decreases |schedule|
  {
    schedule == [] || (CleanStep(s, schedule[0]) && CleanRun(Next(s, schedule[0]), schedule[1..]))
  }

  lemma {:induction false} CleanRunHasNoOrphans(s: State, schedule: seq<Action>)
    requires s.orphans == {} && CleanRun(s, schedule)
    ensures Run(s, schedule).orphans == {}
    decreases |schedule|
  {
    if schedule != [] {
      assert Next(s, schedule[0]).orphans == {};
      CleanRunHasNoOrphans(Next(s, schedule[0]), schedule[1..]);
    }
  }

  /** Without crashes: when no request is in flight every record is COMPLETED. */
  lemma QuietMeansCompleted(schedule: seq<Action>, id: Text)
    requires CleanRun(Init(), schedule)
    requires var s := Run(Init(), schedule); id in s.rows && forall r :: r in s.procs ==> s.procs[r].pc.Done?
    ensures Run(Init(), schedule).rows[id].status == Completed
  {
    ReachableInv(schedule);
    CleanRunHasNoOrphans(Init(), schedule);
    assert RowOk(Run(Init(), schedule), id);
  }

  // ----- At most one run -----

  predicate InScope(s: State, r: nat, k: Scope) { r in s.procs && s.procs[r].req.scope == Some(k) }

  /** No owner of the scope fails in this step, and no record of the scope has expired after it. */
  predicate CalmStep(s: State, a: Action, k: Scope) {
    && !(a.RunEnds? && a.outcome.None? && InScope(s, a.r, k) && s.procs[a.r].pc.Running?)
    && !(a.Fault? && InScope(s, a.r, k) && s.procs[a.r].pc.Saving?)
    && var t := Next(s, a);
       forall id :: id in t.rows && t.rows[id].scope == k ==> t.clock < t.rows[id].expiresAt
  }

  predicate CalmRun(s: State, schedule: seq<Action>, k: Scope)
    decreases |schedule|
  {
    schedule == [] || (CalmStep(s, schedule[0], k) && CalmRun(Next(s, schedule[0]), schedule[1..], k))
  }

  ghost predicate HasRow(s: State, r: nat, k: Scope) {
    exists id :: id in s.rows && s.rows[id].scope == k && s.rows[id].creator == r
  }

  ghost predicate CalmInv(s: State, k: Scope) {
    && (forall r :: r in s.runs && InScope(s, r, k) ==> HasRow(s, r, k))
    && (forall r :: InScope(s, r, k) ==> !s.procs[r].pc.Deleting?)
    && (forall r :: InScope(s, r, k) && s.procs[r].pc.SecondFind? ==> s.procs[r].pc.blocker in s.rows)
    && (forall id :: id in s.rows && s.rows[id].scope == k ==> s.clock < s.rows[id].expiresAt)
  }

  /** In a calm step no row of the scope goes away, and only an owner starts a run. */
  lemma CalmStepKeepsRows(s: State, a: Action, k: Scope)
    requires Inv(s) && CalmInv(s, k) && CalmStep(s, a, k)
    ensures forall id :: id in s.rows && s.rows[id].scope == k ==>
      id in Next(s, a).rows && Next(s, a).rows[id].scope == k && Next(s, a).rows[id].creator == s.rows[id].creator
  {
    forall id | id in s.rows && s.rows[id].scope == k
      ensures id in Next(s, a).rows && Next(s, a).rows[id].scope == k
        && Next(s, a).rows[id].creator == s.rows[id].creator
    {
      hide Next;
      assert id in s.used by {
        assert RowOk(s, id);
      }
      RowAfter(s, a, id);
      if a.Query? && a.r in s.procs {
        NotBeingDeleted(s, k, a.r, id);
      }
    }
  }

  lemma NotBeingDeleted(s: State, k: Scope, r: nat, id: Text)
    requires Inv(s) && CalmInv(s, k) && r in s.procs && id in s.rows && s.rows[id].scope == k
    ensures s.procs[r].pc != Deleting(id)
  {
    assert ProcOk(s, r);
    assert RowOk(s, id);
  }

  lemma RowAfter(s: State, a: Action, id: Text)
    requires id in s.rows
    ensures id in Next(s, a).rows && !(a.Query? && a.newId == id && id !in s.used) ==>
      Next(s, a).rows[id].scope == s.rows[id].scope && Next(s, a).rows[id].creator == s.rows[id].creator
    ensures id !in Next(s, a).rows ==> a.Query? && a.r in s.procs && s.procs[a.r].pc == Deleting(id)
  {
    hide Admission, IsActiveRecord, IsConflict;
  }

  /** While records have not expired and are not deleted, the second lookup finds the blocking row. */
  lemma BlockerIsActive(s: State, r: nat, k: Scope, asOf: nat)
    requires Inv(s) && CalmInv(s, k) && InScope(s, r, k) && s.procs[r].pc.SecondFind? && asOf <= s.clock
    ensures s.procs[r].pc.blocker in s.rows && ActiveFor(s.rows[s.procs[r].pc.blocker], k, asOf)
  {
    assert ProcOk(s, r);
  }

  lemma CalmStepStarts(s: State, a: Action, k: Scope, r: nat)
    requires Inv(s) && CalmInv(s, k) && InScope(s, r, k)
    requires r in Next(s, a).runs && r !in s.runs
    ensures HasRow(Next(s, a), r, k)
  {
    Frame(s, a, r);
    assert ProcOk(s, r);
    if s.procs[r].pc.SecondFind? {
      BlockerIsActive(s, r, k, a.asOf);
      assert false;
    }
  }

  lemma CalmStepKeepsRuns(s: State, a: Action, k: Scope, r: nat)
    requires Inv(s) && CalmInv(s, k) && CalmStep(s, a, k)
    requires r in Next(s, a).runs && InScope(Next(s, a), r, k)
    ensures HasRow(Next(s, a), r, k)
  {
    hide QueryAllowed;
    if r in s.procs {
      Frame(s, a, r);
      if r in s.runs {
        CalmStepKeepsRows(s, a, k);
        var id :| id in s.rows && s.rows[id].scope == k && s.rows[id].creator == r;
        assert id in Next(s, a).rows;
      } else {
        CalmStepStarts(s, a, k, r);
      }
    } else {
      Newcomer(s, a, r);
      AdmissionAdmissible(s.clock, a.key, a.userId, a.verb, a.path, a.payload, a.field);
    }
  }

  lemma CalmStepKeepsProcs(s: State, a: Action, k: Scope, r: nat)
    requires Inv(s) && CalmInv(s, k) && CalmStep(s, a, k) && InScope(Next(s, a), r, k)
    ensures var pc := Next(s, a).procs[r].pc;
      !pc.Deleting? && (pc.SecondFind? ==> pc.blocker in Next(s, a).rows)
  {
    hide QueryAllowed, Next, Inv;
    CalmStepKeepsRows(s, a, k);
    if r in s.procs {
      Frame(s, a, r);
      Enters(s, a, r);
      BlockerScope(s, r);
    } else {
      Newcomer(s, a, r);
      AdmissionAdmissible(s.clock, a.key, a.userId, a.verb, a.path, a.payload, a.field);
    }
  }

  lemma BlockerScope(s: State, r: nat)
    requires Inv(s) && r in s.procs
    ensures s.procs[r].pc.SecondFind? && s.procs[r].pc.blocker in s.rows ==>
      s.procs[r].req.scope == Some(s.rows[s.procs[r].pc.blocker].scope)
  {
    assert ProcOk(s, r);
  }

  lemma CalmStepKeepsCalm(s: State, a: Action, k: Scope)
    requires Inv(s) && CalmInv(s, k) && CalmStep(s, a, k)
    ensures CalmInv(Next(s, a), k)
  {
    hide Inv, Next;
    var t := Next(s, a);
    forall r | r in t.runs && InScope(t, r, k) ensures HasRow(t, r, k) {
      CalmStepKeepsRuns(s, a, k, r);
    }
    forall r | InScope(t, r, k)
      ensures !t.procs[r].pc.Deleting? && (t.procs[r].pc.SecondFind? ==> t.procs[r].pc.blocker in t.rows)
    {
      CalmStepKeepsProcs(s, a, k, r);
    }
  }

  lemma {:induction false} CalmRunKeepsCalm(s: State, schedule: seq<Action>, k: Scope)
    requires Inv(s) && CalmInv(s, k) && CalmRun(s, schedule, k)
    ensures CalmInv(Run(s, schedule), k)
    decreases |schedule|
  {
    if schedule != [] {
      CalmStepKeepsCalm(s, schedule[0], k);
      NextKeepsInv(s, schedule[0]);
      CalmRunKeepsCalm(Next(s, schedule[0]), schedule[1..], k);
    }
  }

  /** If no owner of a scope fails and its records do not expire, `run` is started at most once for the scope. */
  lemma AtMostOneRun(schedule: seq<Action>, k: Scope, i: nat, j: nat)
    requires CalmRun(Init(), schedule, k)
    requires var s := Run(Init(), schedule);
      i < |s.runs| && j < |s.runs| && InScope(s, s.runs[i], k) && InScope(s, s.runs[j], k)
    ensures i == j
  {
    var s := Run(Init(), schedule);
    ReachableInv(schedule);
    CalmRunKeepsCalm(Init(), schedule, k);
    assert s.runs[i] in s.runs && s.runs[j] in s.runs;
    assert HasRow(s, s.runs[i], k) && HasRow(s, s.runs[j], k);
  }

  lemma EmptyRun(s: State)
    ensures Run(s, []) == s
  {
  }
}
