/** The service as an object: its table and the requests in flight are fields that each step updates in place. */
module IdempotencyService {
  import opened Texts
  import opened JsonPrinter
  import opened Canonical
  import opened IdempotencyKeys
  import opened Idempotency
  import opened IdempotencyTermination

  /** An answer, once given, is never taken back. */
  lemma {:induction false} AnswerIsFinal(s: State, schedule: seq<Action>, r: nat)
    requires r in s.procs && s.procs[r].pc.Done?
    ensures r in Run(s, schedule).procs && Run(s, schedule).procs[r].pc == s.procs[r].pc
    decreases |schedule|
  {
    if schedule != [] {
      StepProgress(s, schedule[0], r);
      AnswerIsFinal(Next(s, schedule[0]), schedule[1..], r);
    }
  }

  // ----- What the invariant tells a step -----

  lemma FoundRow(s: State, r: nat, asOf: nat, found: Option<Text>, newId: Text)
    requires Inv(s) && QueryAllowed(s, r, asOf, found, newId)
    requires s.procs[r].pc.FirstFind? || s.procs[r].pc.SecondFind?
    ensures found.Some? ==> found.value in s.rows && s.rows[found.value].id == found.value
  {
    assert found.Some? ==> RowOk(s, found.value);
  }

  lemma ScopeKnown(s: State, r: nat, asOf: nat, found: Option<Text>, newId: Text)
    requires QueryAllowed(s, r, asOf, found, newId) && (s.procs[r].pc.FirstFind? || s.procs[r].pc.SecondFind?)
    ensures s.procs[r].req.scope.Some?
    ensures found.Some? <==> exists id :: id in s.rows && ActiveFor(s.rows[id], s.procs[r].req.scope.value, asOf)
    ensures found.Some? ==>
      found.value in s.rows && ActiveFor(s.rows[found.value], s.procs[r].req.scope.value, asOf)
  {
  }

  lemma UnusedIsNoRow(s: State, newId: Text)
    requires Inv(s)
    ensures newId !in s.used ==> newId !in s.rows
  {
    assert newId in s.rows ==> RowOk(s, newId);
  }

  lemma InsertAnswer(s: State, r: nat, asOf: nat, found: Option<Text>, newId: Text)
    requires QueryAllowed(s, r, asOf, found, newId) && s.procs[r].pc.Insert?
    ensures s.procs[r].req.scope.Some?
    ensures found.Some? <==> exists id :: id in s.rows && Some(s.rows[id].scope) == s.procs[r].req.scope
    ensures DoQuery(s, r, asOf, found, newId) ==
      if found.Some? then SetPc(s, r, SecondFind(found.value))
      else InsertRow(s, r, NewRecord(newId, s.procs[r].req, asOf, r))
  {
    hide InsertRow, SetPc, NewRecord;
  }

  lemma OwnRow(s: State, r: nat, rec: Text)
    requires Inv(s) && r in s.procs && Owns(s.procs[r].pc, rec)
    ensures rec in s.rows && s.rows[rec].status == Processing && s.rows[rec].creator == r
  {
    assert ProcOk(s, r);
  }

  lemma ReplayedRow(s: State, r: nat)
    requires Inv(s) && r in s.procs && s.procs[r].pc.Replaying?
    ensures CompletedMatch(s, s.procs[r].pc.rec, s.procs[r].req)
    ensures s.rows[s.procs[r].pc.rec].responseBody == s.procs[r].pc.body
  {
    assert ProcOk(s, r);
  }

  lemma WaitedRow(s: State, r: nat)
    requires Inv(s) && r in s.procs && s.procs[r].pc.Waiting?
    ensures s.procs[r].req.scope.Some?
    ensures s.procs[r].pc.rec in s.rows ==> Matches(s, s.procs[r].pc.rec, s.procs[r].req)
  {
    assert ProcOk(s, r);
  }

  class Service {
    var clock: nat
    var rows: map<Text, Record>
    var procs: map<nat, Proc>
    // history
    var used: set<Text>
    var deleted: map<Text, Record>
    var runs: seq<nat>
    var results: map<nat, Text>
    var orphans: set<nat>

    ghost function View(): State
      reads this
    {
      State(clock, rows, procs, used, deleted, runs, results, orphans)
    }

    ghost predicate Valid()
      reads this
    {
      Inv(View())
    }

    /** Every request but `r` is where it was. */
    ghost predicate OthersStay(before: map<nat, Proc>, r: nat)
      reads this
    {
      procs.Keys == before.Keys && forall q :: q in procs && q != r ==> procs[q] == before[q]
    }

    /** The row holds the answer to `req`. */
    ghost predicate IsFinished(rec: Text, req: Request)
      reads this
    {
      rec in rows && rows[rec].status == Completed && req.scope == Some(rows[rec].scope)
      && rows[rec].requestHash == req.requestHash
    }

    constructor ()
      ensures Valid() && View() == Init()
    {
      clock, rows, procs := 0, map[], map[];
      used, deleted, runs, results, orphans := {}, map[], [], map[], {};
    }

    method MoveTo(r: nat, pc: Pc)
      requires r in procs
      modifies this`procs
      ensures View() == SetPc(old(View()), r, pc)
    {
      procs := procs[r := procs[r].(pc := pc, since := clock)];
    }

    /** `execute` up to its first wait. */
    method Execute(r: nat, key: Option<Text>, userId: Text, verb: Text, path: Text, payload: Payload, field: Text)
      requires r !in procs
      modifies this`procs, this`runs
      ensures View() == Next(old(View()), Arrive(r, key, userId, verb, path, payload, field))
      ensures procs.Keys == old(procs).Keys + {r} && forall q :: q in old(procs) ==> procs[q] == old(procs)[q]
      ensures procs[r].pc == DirectRun <==> key.None? || AllSpace(key.value)
      ensures runs == if key.None? || AllSpace(key.value) then old(runs) + [r] else old(runs)
      ensures procs[r].pc == Done(Failed(KeyTooLong)) <==>
        key.Some? && exists text :: |text| > 255 && Trimmed(text) && Padded(key.value, text)
      ensures procs[r].pc == DirectRun || procs[r].pc == Done(Failed(KeyTooLong)) || procs[r].pc == FirstFind
      ensures procs[r].pc == FirstFind ==>
        && procs[r].req.scope == Some(Scope(userId, verb, path, NormalizeKey(key).text))
        && procs[r].req.requestHash == HashPayload(payload) && procs[r].req.field == field
    {
      NoKeyOrTooLong(key);
      hide NormalizeKey, Padded, AllSpace, HashPayload, DoQuery, QueryAllowed;
      var normalizedKey := NormalizeKey(key);
      var requestHash := HashPayload(payload);
      if normalizedKey.NoKey? {
        procs := procs[r := Proc(Request(None, payload, requestHash, field), DirectRun, clock)];
        runs := runs + [r];
      } else if normalizedKey.TooLong? {
        procs := procs[r := Proc(Request(None, payload, requestHash, field), Done(Failed(KeyTooLong)), clock)];
      } else {
        var scope := Scope(userId, verb, path, normalizedKey.text);
        procs := procs[r := Proc(Request(Some(scope), payload, requestHash, field), FirstFind, clock)];
      }
    }

    /** The answer of `findActiveRecord` arrives, at the first or the second lookup. */
    method FindActiveRecord(r: nat, asOf: nat, found: Option<Text>, newId: Text)
      requires Valid() && QueryAllowed(View(), r, asOf, found, newId)
      requires procs[r].pc.FirstFind? || procs[r].pc.SecondFind?
      modifies this`procs, this`runs
      ensures View() == DoQuery(old(View()), r, asOf, found, newId)
      ensures OthersStay(old(procs), r)
      ensures procs[r].pc.Replaying? ==>
        IsFinished(procs[r].pc.rec, procs[r].req) && rows[procs[r].pc.rec].responseBody == procs[r].pc.body
      ensures found.Some? <==> exists id :: id in rows && ActiveFor(rows[id], procs[r].req.scope.value, asOf)
      ensures found.Some? ==>
        && found.value in rows && ActiveFor(rows[found.value], procs[r].req.scope.value, asOf)
        && procs[r].pc ==
             if rows[found.value].requestHash != procs[r].req.requestHash then Done(Failed(PayloadMismatch))
             else if rows[found.value].status == Completed then Replaying(found.value, rows[found.value].responseBody)
             else Waiting(found.value, 20)
      ensures found.None? ==> procs[r].pc == if old(procs)[r].pc.FirstFind? then Insert else FallbackRun
      ensures runs == if found.None? && old(procs)[r].pc.SecondFind? then old(runs) + [r] else old(runs)
    {
      ScopeKnown(View(), r, asOf, found, newId);
      FoundRow(View(), r, asOf, found, newId);
      hide Inv;
      if found.Some? {
        var record := rows[found.value];
        if record.requestHash != procs[r].req.requestHash {
          MoveTo(r, Done(Failed(PayloadMismatch)));
        } else if record.status == Completed {
          MoveTo(r, Replaying(record.id, record.responseBody));
        } else {
          MoveTo(r, Waiting(record.id, PROCESSING_WAIT_RETRIES));
        }
      } else if procs[r].pc.FirstFind? {
        MoveTo(r, Insert);
      } else {
        MoveTo(r, FallbackRun);
        runs := runs + [r];
      }
    }

    /** The insert of `createProcessingRecord` commits, or fails on the unique constraint. */
    method CreateProcessingRecord(r: nat, asOf: nat, found: Option<Text>, newId: Text)
      requires Valid() && QueryAllowed(View(), r, asOf, found, newId) && procs[r].pc.Insert?
      modifies this`procs, this`runs, this`rows, this`used
      ensures View() == DoQuery(old(View()), r, asOf, found, newId)
      ensures OthersStay(old(procs), r)
      ensures found.Some? <==> exists id :: id in old(rows) && Some(old(rows)[id].scope) == procs[r].req.scope
      ensures found.Some? ==> rows == old(rows) && procs[r].pc == SecondFind(found.value) && runs == old(runs)
      ensures found.None? ==> procs[r].pc == Running(newId) && runs == old(runs) + [r]
      ensures found.None? ==>
        && rows.Keys == old(rows).Keys + {newId} && newId !in old(rows)
        && (forall id :: id in old(rows) ==> rows[id] == old(rows)[id] && rows[id].scope != rows[newId].scope)
        && rows[newId].status == Processing && Some(rows[newId].scope) == procs[r].req.scope
        && rows[newId].requestHash == procs[r].req.requestHash && rows[newId].expiresAt == asOf + 86400000
    {
      UnusedIsNoRow(View(), newId);
      InsertAnswer(View(), r, asOf, found, newId);
      hide Inv, DoQuery;
      if found.Some? {
        MoveTo(r, SecondFind(found.value));
      } else {
        var req := procs[r].req;
        var expiresAt := asOf + DEFAULT_TTL_MS;
        InsertRecord(r, Record(newId, req.scope.value, req.requestHash, Processing, None, None, expiresAt, r));
      }
    }

    /** The insert commits and `run` is called. */
    method InsertRecord(r: nat, record: Record)
      requires r in procs
      modifies this`procs, this`runs, this`rows, this`used
      ensures View() == InsertRow(old(View()), r, record)
    {
      rows := rows[record.id := record];
      used := used + {record.id};
      MoveTo(r, Running(record.id));
      runs := runs + [r];
    }

    /** The final save of the owner commits. */
    method SaveCompleted(r: nat, asOf: nat, found: Option<Text>, newId: Text)
      requires Valid() && QueryAllowed(View(), r, asOf, found, newId) && procs[r].pc.Saving?
      modifies this`procs, this`rows
      ensures View() == DoQuery(old(View()), r, asOf, found, newId)
      ensures OthersStay(old(procs), r)
      ensures var Saving(rec, value) := old(procs)[r].pc;
        && rows.Keys == old(rows).Keys && rec in rows
        && (forall id :: id in rows && id != rec ==> rows[id] == old(rows)[id])
        && old(rows)[rec].status == Processing && old(rows)[rec].creator == r
        && rows[rec].status == Completed && rows[rec].responseStatus == Some(201)
        && ReadId(rows[rec].responseBody, procs[r].req.field) == Some(value)
        && rows[rec].scope == old(rows)[rec].scope && rows[rec].expiresAt == old(rows)[rec].expiresAt
        && rows[rec].requestHash == old(rows)[rec].requestHash
        && procs[r].pc == Done(Answered(value, AsOwner(rec)))
    {
      OwnRow(View(), r, procs[r].pc.rec);
      ReadBack(procs[r].req.field, procs[r].pc.value, procs[r].req.field);
      hide Inv, ReadId;
      var Saving(rec, value) := procs[r].pc;
      var processing := rows[rec];
      processing := processing.(status := Completed);
      processing := processing.(responseStatus := Some(201));
      processing := processing.(responseBody := NormalizeResponseBody(Serialized(procs[r].req.field, value)));
      rows := rows[rec := processing];
      MoveTo(r, Done(Answered(value, AsOwner(rec))));
    }

    /** The delete of the owner commits after a failure. */
    method DeleteProcessing(r: nat, asOf: nat, found: Option<Text>, newId: Text)
      requires Valid() && QueryAllowed(View(), r, asOf, found, newId) && procs[r].pc.Deleting?
      modifies this`procs, this`rows, this`deleted
      ensures View() == DoQuery(old(View()), r, asOf, found, newId)
      ensures OthersStay(old(procs), r)
      ensures var rec := old(procs)[r].pc.rec;
        && rows == old(rows) - {rec} && rec in old(rows)
        && old(rows)[rec].status == Processing && old(rows)[rec].creator == r
        && procs[r].pc == Done(Failed(RunFailed))
    {
      OwnRow(View(), r, procs[r].pc.rec);
      hide Inv;
      var rec := procs[r].pc.rec;
      deleted := deleted[rec := rows[rec]];
      rows := rows - {rec};
      MoveTo(r, Done(Failed(RunFailed)));
    }

    /** One poll of `waitForCompletion`. */
    method PollOnce(r: nat, asOf: nat, found: Option<Text>, newId: Text)
      requires Valid() && QueryAllowed(View(), r, asOf, found, newId) && procs[r].pc.Waiting?
      modifies this`procs
      ensures View() == DoQuery(old(View()), r, asOf, found, newId)
      ensures OthersStay(old(procs), r)
      ensures procs[r].pc.Replaying? ==>
        IsFinished(procs[r].pc.rec, procs[r].req) && rows[procs[r].pc.rec].responseBody == procs[r].pc.body
      ensures var Waiting(rec, left) := old(procs)[r].pc;
        procs[r].pc ==
          if rec !in rows then Done(Failed(InProgress))
          else if rows[rec].status == Completed then Replaying(rec, rows[rec].responseBody)
          else if left > 1 then Waiting(rec, left - 1)
          else Done(Failed(InProgress))
    {
      hide Inv;
      ghost var start := View();
      var Waiting(rec, left) := procs[r].pc;
      if rec !in rows {
        MoveTo(r, Done(Failed(InProgress)));
      } else {
        var latest := rows[rec];
        if latest.status != Completed {
          MoveTo(r, if left == 1 then Done(Failed(InProgress)) else Waiting(rec, left - 1));
        } else if latest.requestHash != procs[r].req.requestHash {
          MoveTo(r, Done(Failed(PayloadMismatch)));
        } else {
          MoveTo(r, Replaying(rec, latest.responseBody));
        }
      }
      WaitedRow(start, r);
    }

    method AnswerQuery(r: nat, asOf: nat, found: Option<Text>, newId: Text)
      requires Valid()
      modifies this
      ensures View() == Next(old(View()), Query(r, asOf, found, newId))
    {
      if QueryAllowed(State(clock, rows, procs, used, deleted, runs, results, orphans), r, asOf, found, newId) {
        hide Inv, ReadId;
        match procs[r].pc
        case FirstFind => FindActiveRecord(r, asOf, found, newId);
        case SecondFind(_) => FindActiveRecord(r, asOf, found, newId);
        case Insert => CreateProcessingRecord(r, asOf, found, newId);
        case Saving(_, _) => SaveCompleted(r, asOf, found, newId);
        case Deleting(_) => DeleteProcessing(r, asOf, found, newId);
        case Waiting(_, _) => PollOnce(r, asOf, found, newId);
      }
    }

    /** The pending database call throws: the owner goes on to clean up, any other request fails. */
    method FailQuery(r: nat)
      modifies this`procs, this`orphans
      ensures View() == Next(old(View()), Fault(r))
      ensures OthersStay(old(procs), r)
      ensures r in procs ==> match old(procs)[r].pc
        case FirstFind => procs[r].pc == Done(Failed(StoreFailed))
        case Insert => procs[r].pc == Done(Failed(StoreFailed))
        case SecondFind(_) => procs[r].pc == Done(Failed(StoreFailed))
        case Waiting(_, _) => procs[r].pc == Done(Failed(StoreFailed))
        case Saving(rec, _) => procs[r].pc == Deleting(rec)
        case Deleting(_) => procs[r].pc == Done(Failed(StoreFailed)) && orphans == old(orphans) + {r}
        case _ => procs == old(procs)
      ensures orphans != old(orphans) ==> r in procs && old(procs)[r].pc.Deleting?
    {
      if r in procs {
        match procs[r].pc
        case FirstFind => MoveTo(r, Done(Failed(StoreFailed)));
        case Insert => MoveTo(r, Done(Failed(StoreFailed)));
        case SecondFind(_) => MoveTo(r, Done(Failed(StoreFailed)));
        case Waiting(_, _) => MoveTo(r, Done(Failed(StoreFailed)));
        case Saving(rec, _) => MoveTo(r, Deleting(rec));
        case Deleting(_) =>
          orphans := orphans + {r};
          MoveTo(r, Done(Failed(StoreFailed)));
        case _ =>
      }
    }

    /** The promise of `run` settles. */
    method EndRun(r: nat, outcome: Option<Text>)
      modifies this`procs, this`results
      ensures View() == Next(old(View()), RunEnds(r, outcome))
      ensures OthersStay(old(procs), r)
      ensures r in procs && old(procs)[r].pc.Running? ==>
        procs[r].pc ==
          if outcome.Some? then Saving(old(procs)[r].pc.rec, outcome.value) else Deleting(old(procs)[r].pc.rec)
      ensures r in procs && (old(procs)[r].pc.FallbackRun? || old(procs)[r].pc.DirectRun?) ==>
        procs[r].pc == Done(
          if outcome.None? then Failed(RunFailed)
          else Answered(outcome.value, if old(procs)[r].pc.DirectRun? then AsDirect else AsFallback))
      ensures r in procs && !(old(procs)[r].pc.Running? || old(procs)[r].pc.FallbackRun? || old(procs)[r].pc.DirectRun?)
        ==> procs == old(procs)
      ensures results == if procs != old(procs) && outcome.Some? then old(results)[r := outcome.value] else old(results)
    {
      hide DoQuery, QueryAllowed, Admission;
      if r in procs && (procs[r].pc.Running? || procs[r].pc.FallbackRun? || procs[r].pc.DirectRun?) {
        if outcome.Some? {
          results := results[r := outcome.value];
        }
        match procs[r].pc
        case Running(rec) => MoveTo(r, if outcome.Some? then Saving(rec, outcome.value) else Deleting(rec));
        case FallbackRun => MoveTo(r,
          Done(if outcome.Some? then Answered(outcome.value, AsFallback) else Failed(RunFailed)));
        case DirectRun => MoveTo(r,
          Done(if outcome.Some? then Answered(outcome.value, AsDirect) else Failed(RunFailed)));
      }
    }

    /** The promise of `replay` settles. */
    method EndReplay(r: nat, present: bool)
      requires Valid()
      modifies this`procs
      ensures View() == Next(old(View()), ReplayEnds(r, present))
      ensures OthersStay(old(procs), r)
      ensures r in procs && !old(procs)[r].pc.Replaying? ==> procs == old(procs)
      ensures r in procs && old(procs)[r].pc.Replaying? ==>
        var rec, id := old(procs)[r].pc.rec, ReadId(old(procs)[r].pc.body, procs[r].req.field);
        && IsFinished(rec, procs[r].req) && rows[rec].responseBody == old(procs)[r].pc.body
        && procs[r].pc == Done(if present && id.Some? then Answered(id.value, AsReplay(rec)) else Failed(NotFound))
    {
      if r in procs && procs[r].pc.Replaying? {
        ReplayedRow(View(), r);
      }
      hide Inv, ReadId, DoQuery, QueryAllowed, Admission;
      if r in procs && procs[r].pc.Replaying? {
        var Replaying(rec, body) := procs[r].pc;
        var id := ReadId(body, procs[r].req.field);
        MoveTo(r, Done(if id.Some? && present then Answered(id.value, AsReplay(rec)) else Failed(NotFound)));
      }
    }

    method Step(a: Action)
      requires Valid()
      modifies this
      ensures Valid() && View() == Next(old(View()), a)
    {
      NextKeepsInv(View(), a);
      hide Inv;
      match a
      case Tick(ms) => PassTime(ms);
      case Arrive(r, key, userId, verb, path, payload, field) =>
        if r !in procs {
          Execute(r, key, userId, verb, path, payload, field);
        }
      case Query(r, asOf, found, newId) => AnswerQuery(r, asOf, found, newId);
      case Fault(r) => FailQuery(r);
      case RunEnds(r, outcome) => EndRun(r, outcome);
      case ReplayEnds(r, present) => EndReplay(r, present);
      case Crash(r) => Stop(r);
    }

    /** The process of a request stops: it has no answer and never goes on, and its row stays as it is. */
    method Stop(r: nat)
      modifies this`procs, this`orphans
      ensures View() == Next(old(View()), Crash(r))
      ensures OthersStay(old(procs), r)
      ensures r in procs ==>
        procs[r].pc == if old(procs)[r].pc.Done? then old(procs)[r].pc else Done(Failed(Crashed))
    {
      if r in procs && !procs[r].pc.Done? {
        orphans := orphans + {r};
        MoveTo(r, Done(Failed(Crashed)));
      }
    }

    method PassTime(ms: nat)
      modifies this`clock
      ensures View() == Next(old(View()), Tick(ms))
      ensures clock == old(clock) + ms
    {
      clock := clock + ms;
    }

    /** Any schedule of steps keeps the invariant and every answer already given. */
    method Drive(schedule: seq<Action>)
      requires Valid()
      modifies this
      ensures Valid() && View() == Run(old(View()), schedule)
      ensures forall r :: r in old(procs) && old(procs)[r].pc.Done? ==> r in procs && procs[r].pc == old(procs)[r].pc
    {
      ghost var start := View();
      for i := 0 to |schedule|
        invariant Valid() && Run(start, schedule) == Run(View(), schedule[i..])
      {
        assert schedule[i..][0] == schedule[i] && schedule[i..][1..] == schedule[i + 1..];
        Step(schedule[i]);
      }
      forall r | r in start.procs && start.procs[r].pc.Done? ensures r in procs && procs[r].pc == start.procs[r].pc {
        AnswerIsFinal(start, schedule, r);
      }
    }
  }
}
