/** What the key of a request does: where it takes the request, and that a completed key is replayed. */
module EndToEndKeys {
  import opened Texts
  import opened JsonPrinter
  import opened Canonical
  import opened IdempotencyKeys
  import opened Entities
  import P = Idempotency
  import Protocol = IdempotencyResults
  import Expiry = IdempotencyExpiry
  import Steps = IdempotencyTermination
  import Race = EndToEndRace
  import L = Learning
  import opened EndToEnd
  import opened EndToEndResults

  // ----- What a header says -----

  ghost predicate SaysNothing(header: Option<Text>) { header.None? || AllSpace(header.value) }

  /** `text` between white space. */
  ghost predicate SaysKey(header: Option<Text>, text: Text) {
    header.Some? && 0 < |text| <= 255 && Trimmed(text) && Padded(header.value, text)
  }

  ghost predicate SaysTooMuch(header: Option<Text>) {
    header.Some? && exists text :: |text| > 255 && Trimmed(text) && Padded(header.value, text)
  }

  lemma HeaderSays(header: Option<Text>)
    ensures NormalizeKey(header).NoKey? <==> SaysNothing(header)
    ensures NormalizeKey(header).TooLong? <==> SaysTooMuch(header)
    ensures forall text :: NormalizeKey(header) == Key(text) <==> SaysKey(header, text)
  {
    NoKeyOrTooLong(header);
    if header.Some? {
      forall text ensures NormalizeKey(header) == Key(text) <==> SaysKey(header, text) {
        KeyIsPaddedText(header.value, text);
        assert Padded(header.value, text) <==>
          exists before, after :: AllSpace(before) && AllSpace(after) && header.value == before + (text + after);
      }
    }
  }

  // ----- Arrival -----

  /** The request that an operation makes under a key. */
  ghost predicate MadeBy(req: P.Request, op: Op) {
    match op
    case Enroll(_, courseId) =>
      req.payload == Obj([Named(Units("courseId"), Str(courseId))]) && req.field == Units("enrollmentId")
    case Submit(_, _, content, urls) =>
      && req.field == Units("submissionId")
      && req.payload == Obj([Named(Units("content"), Str(content)), Named(Units("fileUrls"), Urls(urls))])
  }

  function ScopeOf(op: Op, key: Text): P.Scope {
    P.Scope(op.studentId, Units("POST"),
            if op.Enroll? then Units("/api/v1/enrollments")
            else Units("/api/v1/assignments/") + op.assignmentId + Units("/submissions"),
            key)
  }

  lemma Admitted(now: nat, key: Option<Text>, op: Op)
    ensures var p := P.Admission(now, key, op.studentId, POST, PathOf(op), Dto(op), FieldOf(op));
      && MadeBy(p.req, op) && p.req.requestHash == P.HashPayload(p.req.payload)
      && (p.pc == P.DirectRun <==> SaysNothing(key))
      && (p.pc == P.Done(P.Failed(P.KeyTooLong)) <==> SaysTooMuch(key))
      && (p.pc == P.FirstFind <==> exists text :: SaysKey(key, text))
      && (forall text :: SaysKey(key, text) ==> p.req.scope == Some(ScopeOf(op, text)))
      && (p.pc == P.DirectRun || p.pc == P.FirstFind || p.pc == P.Done(P.Failed(P.KeyTooLong)))
  {
    HeaderSays(key);
    hide NormalizeKey, SaysNothing, SaysTooMuch, SaysKey, P.HashPayload;
    if NormalizeKey(key).Key? {
      assert SaysKey(key, NormalizeKey(key).text);
    }
  }

  /** A new request runs at once exactly if its key is absent or blank, is refused exactly if the key is too long, and
      else makes its first lookup, in the scope of its student, POST, its path and the trimmed key. Nothing else
      changes. */
  lemma ArrivalLeads(s: State, r: nat, key: Option<Text>, op: Op)
    requires Inv(s) && r !in s.ops
    ensures var t := Next(s, Arrive(r, key, op));
      && t.ops == s.ops[r := op] && r in t.p.procs && t.p.procs == s.p.procs[r := t.p.procs[r]]
      && t.p.rows == s.p.rows
      && var p := t.p.procs[r];
      && MadeBy(p.req, op) && p.req.requestHash == P.HashPayload(p.req.payload)
      && (p.pc == P.DirectRun <==> SaysNothing(key))
      && (p.pc == P.Done(P.Failed(P.KeyTooLong)) <==> SaysTooMuch(key))
      && (p.pc == P.FirstFind <==> exists text :: SaysKey(key, text))
      && (forall text :: SaysKey(key, text) ==> p.req.scope == Some(ScopeOf(op, text)))
      && (p.pc == P.DirectRun || p.pc == P.FirstFind || p.pc == P.Done(P.Failed(P.KeyTooLong)))
      && (RunTask(r) in t.d.tasks <==> SaysNothing(key))
  {
    Admitted(s.p.clock, key, op);
    ArrivalAdmitted(s, r, key, op);
    NextKeepsInv(s, Arrive(r, key, op));
    var t := Next(s, Arrive(r, key, op));
    InvParts(s);
    LinkOf(t, r);
    hide Inv, P.Inv, L.Inv, Next, P.Admission, MadeBy, SaysNothing, SaysTooMuch, SaysKey, AsksFor, ReplayLink;
    assert r in t.p.runs <==> t.p.procs[r].pc == P.DirectRun;
  }

  lemma ArrivalAdmitted(s: State, r: nat, key: Option<Text>, op: Op)
    requires Inv(s) && r !in s.ops
    ensures var t, p := Next(s, Arrive(r, key, op)),
                        P.Admission(s.p.clock, key, op.studentId, POST, PathOf(op), Dto(op), FieldOf(op));
      && t.ops == s.ops[r := op] && t.p.procs == s.p.procs[r := p] && t.p.rows == s.p.rows
      && (r in t.p.runs <==> p.pc == P.DirectRun)
  {
    NothingOfNewcomer(s, r);
    ArrivedParts(s, r, key, op);
    ArrivalAdmits(s.p, r, key, op);
    ArriveIs(s, r, key, op);
    hide Inv, P.Inv, L.Inv, P.Admission, Called, P.Next, Next, DoArrive, ArriveAction;
  }

  lemma ArriveIs(s: State, r: nat, key: Option<Text>, op: Op)
    ensures Next(s, Arrive(r, key, op)) == DoArrive(s, r, key, op)
  {
    hide P.Next, L.Next, DoArrive;
  }

  /** The body of a request is the job of its operation. */
  lemma BodyOf(s: State, r: nat)
    requires Inv(s) && r in s.ops && 3 * r in s.d.tasks
    ensures match s.ops[r]
      case Enroll(studentId, courseId) => s.d.tasks[3 * r].job == L.EnrollJob(studentId, courseId)
      case Submit(studentId, assignmentId, content, fileUrls) =>
        s.d.tasks[3 * r].job ==
        L.SubmitJob(studentId, assignmentId, Work(content, if fileUrls.SomeUrls? then fileUrls.urls else []))
  {
    LinkOf(s, r);
    hide Inv, ReplayLink, AsksFor;
  }

  // ----- A retry under a completed key -----

  /** The step answers the first lookup of `r`. */
  predicate Looks(s: State, a: Action, r: nat) {
    && a.Store? && a.r == r && r in s.ops && r in s.p.procs && s.p.procs[r].pc == P.FirstFind
    && P.QueryAllowed(s.p, r, a.asOf, a.found, a.newId)
  }

  /** The first lookup of `r` along the schedule, if there is one, happens before `time`. */
  predicate LooksInTime(s: State, schedule: seq<Action>, r: nat, time: nat)
    decreases |schedule|
  {
    schedule == []
    || if Looks(s, schedule[0], r) then schedule[0].asOf < time
       else LooksInTime(Next(s, schedule[0]), schedule[1..], r, time)
  }

  lemma ProtocolMove(s: State, a: Action) returns (b: P.Action)
    requires Inv(s)
    ensures if Silent(s, a) then Next(s, a).p == s.p else Next(s, a).p == P.Next(s.p, b) && Performs(s, a, b)
  {
    hide Inv, Next, P.Next, P.Run, ProtocolSteps, Performs, Silent;
    ProtocolStepsAre(s, a);
    PerformedBy(s, a);
    var steps := ProtocolSteps(s, a);
    if Silent(s, a) {
      Protocol.EmptyRun(s.p);
      b := P.Tick(0);
    } else {
      b := steps[0];
      assert steps == [b];
      OneProtocolStep(s.p, b);
    }
  }

  /** `r` asks for what `id` stores, and has not found out too late. */
  ghost predicate Retries(p: P.State, id: Text, r: nat) {
    && id in p.rows && p.rows[id].status == P.Completed
    && Expiry.SameRequest(p, id, r) && Expiry.Protected(p, id, r)
  }

  lemma NoLookup(p: P.State, b: P.Action, id: Text, r: nat)
    requires Retries(p, id, r) && b.Query? && b.r == r
    requires p.procs[r].pc == P.FirstFind ==> !P.QueryAllowed(p, r, b.asOf, b.found, b.newId)
    ensures P.Next(p, b) == p
  {
    hide P.DoQuery, P.IsActiveRecord, P.IsConflict;
  }

  lemma RetryMove(p: P.State, b: P.Action, id: Text, r: nat)
    requires P.Inv(p) && Retries(p, id, r)
    requires b.Query? && b.r == r ==>
      p.procs[r].pc == P.FirstFind && P.QueryAllowed(p, r, b.asOf, b.found, b.newId) ==>
        b.asOf < p.rows[id].expiresAt
    ensures Retries(P.Next(p, b), id, r) && P.Next(p, b).rows[id] == p.rows[id]
    ensures var pc := P.Next(p, b).procs[r].pc;
      && (pc == P.Done(P.Failed(P.StoreFailed)) && pc != p.procs[r].pc ==> b == P.Fault(r))
      && (pc == P.Done(P.Failed(P.Crashed)) && pc != p.procs[r].pc ==> b == P.Crash(r))
  {
    hide P.Inv, P.Next, Expiry.Protected, P.QueryAllowed;
    if b.Query? && b.r == r
      && !(p.procs[r].pc == P.FirstFind && P.QueryAllowed(p, r, b.asOf, b.found, b.newId)) {
      NoLookup(p, b, id, r);
    } else {
      Expiry.ProtectedStep(p, b, id, r);
      Expiry.SameRequestBefore(p, b, id, r);
      if P.Next(p, b).procs[r].pc != p.procs[r].pc {
        Expiry.FailureStep(p, b, r);
      }
    }
  }

  lemma RetryStep(s: State, a: Action, id: Text, r: nat)
    requires Inv(s) && r in s.ops && Retries(s.p, id, r)
    requires Looks(s, a, r) ==> a.asOf < s.p.rows[id].expiresAt
    ensures Retries(Next(s, a).p, id, r) && Next(s, a).p.rows[id] == s.p.rows[id]
    ensures var pc := Next(s, a).p.procs[r].pc;
      && (pc == P.Done(P.Failed(P.StoreFailed)) && pc != s.p.procs[r].pc ==> a == StoreFault(r))
      && (pc == P.Done(P.Failed(P.Crashed)) && pc != s.p.procs[r].pc ==> a == Crash(r))
  {
    hide Inv, P.Inv, Next, P.Next, Retries, Silent, P.QueryAllowed;
    InvParts(s);
    var b := ProtocolMove(s, a);
    if !Silent(s, a) {
      RetryMove(s.p, b, id, r);
    }
  }

  lemma LookMoves(p: P.State, b: P.Action, r: nat)
    requires r in p.procs
    requires p.procs[r].pc == P.FirstFind ==>
      b.Query? && b.r == r && P.QueryAllowed(p, r, b.asOf, b.found, b.newId)
    ensures r in P.Next(p, b).procs && P.Next(p, b).procs[r].pc != P.FirstFind
  {
    if p.procs[r].pc == P.FirstFind {
      Steps.QueryProgress(p, r, b.asOf, b.found, b.newId);
      hide P.DoQuery, P.QueryAllowed;
    } else {
      Steps.StepProgress(p, b, r);
      hide P.Next;
    }
  }

  /** After its first lookup a request never makes another first one. */
  lemma LooksOnce(s: State, a: Action, r: nat)
    requires Inv(s) && r in s.ops && r in s.p.procs && (s.p.procs[r].pc == P.FirstFind ==> Looks(s, a, r))
    ensures r in Next(s, a).p.procs && Next(s, a).p.procs[r].pc != P.FirstFind
  {
    hide Inv, Next, P.Next, P.QueryAllowed;
    var b := ProtocolMove(s, a);
    if !Silent(s, a) {
      LookMoves(s.p, b, r);
    }
  }

  lemma OnlyFirst(s: State, a: Action, r: nat)
    requires r in s.p.procs
    ensures Looks(s, a, r) ==> s.p.procs[r].pc == P.FirstFind && a.Store?
  {
  }

  lemma KnownRetry(s: State, id: Text, r: nat)
    requires Retries(s.p, id, r)
    ensures r in s.p.procs && id in s.p.rows
  {
  }

  lemma {:induction false} RetryRun(s: State, schedule: seq<Action>, id: Text, r: nat)
    requires Inv(s) && r in s.ops && Retries(s.p, id, r)
    requires s.p.procs[r].pc == P.FirstFind ==> LooksInTime(s, schedule, r, s.p.rows[id].expiresAt)
    ensures var t := Run(s, schedule); Retries(t.p, id, r) && t.p.rows[id] == s.p.rows[id]
    ensures var pc := Run(s, schedule).p.procs[r].pc;
      && (pc == P.Done(P.Failed(P.StoreFailed)) && pc != s.p.procs[r].pc ==> StoreFault(r) in schedule)
      && (pc == P.Done(P.Failed(P.Crashed)) && pc != s.p.procs[r].pc ==> Crash(r) in schedule)
    decreases |schedule|
  {
    if schedule != [] {
      hide Inv, Next, Retries, Looks;
      var a, t := schedule[0], Next(s, schedule[0]);
      NextKeepsInv(s, a);
      Race.OpsStay(s, a, r);
      KnownRetry(s, id, r);
      if s.p.procs[r].pc != P.FirstFind || Looks(s, a, r) {
        LooksOnce(s, a, r);
        OnlyFirst(s, a, r);
      }
      RetryStep(s, a, id, r);
      KnownRetry(t, id, r);
      RetryRun(t, schedule[1..], id, r);
    }
  }

  lemma RunFirst(s: State, a: Action, schedule: seq<Action>)
    ensures Run(s, [a] + schedule) == Run(Next(s, a), schedule)
  {
    hide Next;
    assert ([a] + schedule)[0] == a && ([a] + schedule)[1..] == schedule;
  }

  lemma OwnScope(p: P.State, id: Text)
    requires P.Inv(p) && id in p.rows
    ensures p.rows[id].creator in p.procs && p.procs[p.rows[id].creator].req.scope == Some(p.rows[id].scope)
  {
    assert P.RowOk(p, id);
  }

  /** Requests of one scope are of one kind. */
  lemma SameField(s: State, id: Text, r: nat)
    requires Inv(s) && id in s.p.rows && r in s.ops && r in s.p.procs
    requires s.p.procs[r].req.scope == Some(s.p.rows[id].scope)
    ensures s.p.rows[id].creator in s.p.procs
    ensures s.p.procs[s.p.rows[id].creator].req.field == s.p.procs[r].req.field
  {
    InvParts(s);
    OwnScope(s.p, id);
    var q := s.p.rows[id].creator;
    LinkOf(s, q);
    LinkOf(s, r);
    hide Inv, P.Inv, L.Inv, RunLink, ReplayLink, PathOf;
    PathsApart(s.ops[q], s.ops[r]);
  }

  /** A new request under a completed key of the same scope and payload starts out protected. */
  lemma RetryArrives(s: State, id: Text, r: nat, key: Option<Text>, text: Text, op: Op)
    requires Inv(s) && r !in s.ops && SaysKey(key, text)
    requires id in s.p.rows && s.p.rows[id].status == P.Completed
    requires s.p.rows[id].scope == ScopeOf(op, text) && s.p.rows[id].requestHash == P.HashPayload(Dto(op))
    ensures var t := Next(s, Arrive(r, key, op));
      r in t.ops && t.ops[r] == op && Retries(t.p, id, r) && t.p.rows[id] == s.p.rows[id]
  {
    hide Inv, Next, SaysKey, ScopeOf, P.HashPayload, Dto;
    var t := Next(s, Arrive(r, key, op));
    NextKeepsInv(s, Arrive(r, key, op));
    ArrivesKeyed(s, r, key, text, op);
    SameField(t, id, r);
    FreshRetry(t.p, id, r);
  }

  lemma FreshRetry(p: P.State, id: Text, r: nat)
    requires id in p.rows && p.rows[id].status == P.Completed && p.rows[id].creator in p.procs
    requires r in p.procs && p.procs[r].pc == P.FirstFind && r !in p.runs
    requires p.procs[r].req.scope == Some(p.rows[id].scope) && p.procs[r].req.requestHash == p.rows[id].requestHash
    requires p.procs[p.rows[id].creator].req.field == p.procs[r].req.field
    ensures Retries(p, id, r)
  {
  }

  lemma ArrivesKeyed(s: State, r: nat, key: Option<Text>, text: Text, op: Op)
    requires Inv(s) && r !in s.ops && SaysKey(key, text)
    ensures var t := Next(s, Arrive(r, key, op));
      && r in t.ops && t.ops[r] == op && t.p.rows == s.p.rows && r !in t.p.runs && r in t.p.procs
      && t.p.procs[r].pc == P.FirstFind && t.p.procs[r].req.scope == Some(ScopeOf(op, text))
      && t.p.procs[r].req.requestHash == P.HashPayload(Dto(op))
  {
    ArrivalLeads(s, r, key, op);
    NextKeepsInv(s, Arrive(r, key, op));
    hide SaysKey, SaysNothing, SaysTooMuch, MadeBy, Next, ScopeOf, P.HashPayload, Dto;
    LinkOf(Next(s, Arrive(r, key, op)), r);
    hide Inv, ReplayLink;
  }

  lemma RetryOutcome(t: State, id: Text, r: nat)
    requires Inv(t) && r in t.ops && Retries(t.p, id, r)
    ensures RunTask(r) !in t.d.tasks
    ensures match t.p.procs[r].pc
      case FirstFind => true
      case Replaying(rec, _) => rec == id
      case Done(Answered(value, via)) =>
        && via == P.AsReplay(id) && P.ReadId(t.p.rows[id].responseBody, FieldOf(t.ops[r])) == Some(value)
        && t.p.rows[id].creator in t.p.procs
        && t.p.procs[t.p.rows[id].creator].pc == P.Done(P.Answered(value, P.AsOwner(id)))
      case Done(Failed(error)) => error == P.StoreFailed || error == P.Crashed || error == P.NotFound
      case _ => false
  {
    InvParts(t);
    LinkOf(t, r);
    Expiry.ProtectedOutcome(t.p, id, r);
    hide Inv, L.Inv, P.HashPayload, FieldOf, ReplayLink;
    assert P.ProcOk(t.p, r);
  }

  /** A keyed request for what a COMPLETED record of its scope stores, with its payload, whose first lookup is before
      the record expires, never begins a body of its own, whatever the schedule. If it is answered, it gets the
      identifier in the record, the one the record's owner got; it fails only if its lookup fails, if it crashes, or if
      the replay does not find its row. */
  lemma CompletedKeyReplays(
    s: State, schedule: seq<Action>, id: Text, r: nat, key: Option<Text>, text: Text, op: Op)
    requires Inv(s) && r !in s.ops && SaysKey(key, text)
    requires id in s.p.rows && s.p.rows[id].status == P.Completed
    requires s.p.rows[id].scope == ScopeOf(op, text) && s.p.rows[id].requestHash == P.HashPayload(Dto(op))
    requires LooksInTime(Next(s, Arrive(r, key, op)), schedule, r, s.p.rows[id].expiresAt)
    ensures var t := Run(s, [Arrive(r, key, op)] + schedule);
      && RunTask(r) !in t.d.tasks && r in t.p.procs
      && match t.p.procs[r].pc
         case FirstFind => true
         case Replaying(rec, _) => rec == id
         case Done(Answered(value, via)) =>
           && via == P.AsReplay(id) && P.ReadId(s.p.rows[id].responseBody, FieldOf(op)) == Some(value)
           && s.p.rows[id].creator in t.p.procs
           && t.p.procs[s.p.rows[id].creator].pc == P.Done(P.Answered(value, P.AsOwner(id)))
         case Done(Failed(error)) =>
           || (error == P.StoreFailed && StoreFault(r) in schedule)
           || (error == P.Crashed && Crash(r) in schedule)
           || error == P.NotFound
         case _ => false
  {
    hide Inv, Next, Run, SaysKey, ScopeOf, P.HashPayload, Dto, LooksInTime, Retries;
    var first := Next(s, Arrive(r, key, op));
    RetryArrives(s, id, r, key, text, op);
    KnownRetry(first, id, r);
    RunFirst(s, Arrive(r, key, op), schedule);
    NextKeepsInv(s, Arrive(r, key, op));
    RetryRun(first, schedule, id, r);
    RunKeepsInv(first, schedule);
    Race.RunOpsStay(first, schedule, r);
    var t := Run(first, schedule);
    KnownRetry(t, id, r);
    RetryOutcome(t, id, r);
    FirstPc(s, r, key, op);
  }

  lemma FirstPc(s: State, r: nat, key: Option<Text>, op: Op)
    requires Inv(s) && r !in s.ops
    ensures var t := Next(s, Arrive(r, key, op));
      r in t.p.procs && (t.p.procs[r].pc.Done? ==> t.p.procs[r].pc == P.Done(P.Failed(P.KeyTooLong)))
  {
    ArrivalLeads(s, r, key, op);
    hide Inv, Next, MadeBy, P.HashPayload;
  }

  lemma OwnerRecord(s: State, q: nat)
    requires Inv(s) && Succeeded(s, q) && Via(s, q).AsOwner?
    ensures var rec := Via(s, q).rec;
      && rec in s.p.rows && s.p.rows[rec].status == P.Completed && s.p.rows[rec].creator == q
      && s.p.rows[rec].requestHash == P.HashPayload(Dto(s.ops[q]))
      && s.p.rows[rec].scope == ScopeOf(s.ops[q], s.p.rows[rec].scope.key)
  {
    InvParts(s);
    LinkOf(s, q);
    OwnerBody(s.p, q);
    HashOf(s.p, q);
    hide Inv, P.Inv, L.Inv, RunLink, ReplayLink, P.HashPayload, Dto, P.ReadId, Protocol.HashesOk;
  }

  lemma HashOf(p: P.State, q: nat)
    requires Protocol.HashesOk(p) && q in p.procs
    ensures p.procs[q].req.requestHash == P.HashPayload(p.procs[q].req.payload)
  {
  }

  /** A client that was answered and sends the same operation under the same key again, looked up before the key
      expires, gets the same identifier or a failure, and its operation is not run again. */
  lemma RetryIsReplayed(s: State, schedule: seq<Action>, q: nat, r: nat, key: Option<Text>)
    requires Inv(s) && Succeeded(s, q) && Via(s, q).AsOwner? && Via(s, q).rec in s.p.rows && r !in s.ops
    requires SaysKey(key, s.p.rows[Via(s, q).rec].scope.key)
    requires LooksInTime(Next(s, Arrive(r, key, s.ops[q])), schedule, r, s.p.rows[Via(s, q).rec].expiresAt)
    ensures var t := Run(s, [Arrive(r, key, s.ops[q])] + schedule);
      RunTask(r) !in t.d.tasks && (Succeeded(t, r) ==> Id(t, r) == Id(s, q) && Via(t, r) == P.AsReplay(Via(s, q).rec))
  {
    var rec, op := Via(s, q).rec, s.ops[q];
    OwnerRecord(s, q);
    hide Inv, Next, Run, SaysKey, ScopeOf, P.HashPayload, Dto, LooksInTime;
    CompletedKeyReplays(s, schedule, rec, r, key, s.p.rows[rec].scope.key, op);
    OwnerReads(s, q);
  }

  lemma OwnerReads(s: State, q: nat)
    requires Inv(s) && Succeeded(s, q) && Via(s, q).AsOwner?
    ensures Via(s, q).rec in s.p.rows
    ensures P.ReadId(s.p.rows[Via(s, q).rec].responseBody, FieldOf(s.ops[q])) == Some(Id(s, q))
  {
    InvParts(s);
    LinkOf(s, q);
    hide Inv, L.Inv, RunLink, ReplayLink, FieldOf;
    OwnerBody(s.p, q);
  }

  lemma OwnerBody(p: P.State, q: nat)
    requires P.Inv(p) && q in p.procs && p.procs[q].pc.Done? && p.procs[q].pc.answer.Answered?
    requires p.procs[q].pc.answer.via.AsOwner?
    ensures var Answered(value, via) := p.procs[q].pc.answer;
      && via.rec in p.rows && p.rows[via.rec].status == P.Completed && p.rows[via.rec].creator == q
      && p.procs[q].req.scope == Some(p.rows[via.rec].scope)
      && p.rows[via.rec].requestHash == p.procs[q].req.requestHash
      && P.ReadId(p.rows[via.rec].responseBody, p.procs[q].req.field) == Some(value)
  {
    var Answered(value, via) := p.procs[q].pc.answer;
    assert P.ProcOk(p, q);
    assert P.RowOk(p, via.rec);
    P.ReadBack(p.procs[q].req.field, value, p.procs[q].req.field);
    hide P.Inv, P.ReadId, P.NormalizeResponseBody, P.Serialized;
  }
}
