/** Exactly when a request that waits for the row of another one is answered. */
module IdempotencyWaiting {
  import opened Texts
  import opened JsonPrinter
  import opened Canonical
  import opened Idempotency
  import opened IdempotencyResults
  import Service = IdempotencyService

  /** No call of `r` fails, and it does not crash. */
  predicate Unharmed(schedule: seq<Action>, r: nat) { Fault(r) !in schedule && Crash(r) !in schedule }

  /** The step answers a call that `r` made after it got to where it is. */
  predicate Polls(s: State, a: Action, r: nat) {
    a.Query? && a.r == r && r in s.procs && s.procs[r].since <= a.asOf <= s.clock
  }

  /** One of the next `left` polls of `r` finds the row COMPLETED, and those before it find the row. */
  predicate PollFinds(s: State, schedule: seq<Action>, r: nat, rec: Text, left: nat)
    decreases |schedule|
  {
    && schedule != [] && left > 0
    && var t := Next(s, schedule[0]);
       if Polls(s, schedule[0], r) then
         rec in s.rows && (s.rows[rec].status == Completed || PollFinds(t, schedule[1..], r, rec, left - 1))
       else PollFinds(t, schedule[1..], r, rec, left)
  }

  /** The first replay of `r` that ends finds its row. */
  predicate ReplayFinds(s: State, schedule: seq<Action>, r: nat)
    decreases |schedule|
  {
    schedule != []
    && if schedule[0].ReplayEnds? && schedule[0].r == r && r in s.procs && s.procs[r].pc.Replaying?
       then schedule[0].present
       else ReplayFinds(Next(s, schedule[0]), schedule[1..], r)
  }

  /** The row, if it is still there, was made for an operation of the same kind. */
  ghost predicate SameKind(s: State, r: nat, rec: Text) {
    r in s.procs && (rec in s.rows ==>
      s.rows[rec].creator in s.procs && s.procs[s.rows[rec].creator].req.field == s.procs[r].req.field)
  }

  lemma RowsAppear(s: State, a: Action, id: Text)
    ensures id in Next(s, a).rows && id !in s.rows ==> id !in s.used
  {
    hide Admission, IsActiveRecord, IsConflict, Resolve, Poll, CompletedRecord;
  }

  lemma SameKindStays(s: State, a: Action, r: nat, rec: Text)
    requires SameKind(s, r, rec) && rec in s.used
    ensures SameKind(Next(s, a), r, rec)
  {
    hide Next;
    Frame(s, a, r);
    RowsAppear(s, a, rec);
    if rec in s.rows {
      Frame(s, a, s.rows[rec].creator);
      RowAfter(s, a, rec);
    }
  }

  // ----- The replay -----

  lemma ReplayReads(s: State, r: nat)
    requires Inv(s) && r in s.procs && s.procs[r].pc.Replaying? && SameKind(s, r, s.procs[r].pc.rec)
    ensures ReadId(s.procs[r].pc.body, s.procs[r].req.field).Some?
    ensures s.procs[r].pc.rec in s.used
  {
    var rec := s.procs[r].pc.rec;
    assert ProcOk(s, r);
    assert RowOk(s, rec);
    var owner := s.procs[s.rows[rec].creator];
    ReadBack(owner.req.field, owner.pc.answer.value, s.procs[r].req.field);
  }

  lemma ReplayStep(s: State, a: Action, r: nat)
    requires Inv(s) && r in s.procs && s.procs[r].pc.Replaying? && SameKind(s, r, s.procs[r].pc.rec)
    requires a != Fault(r) && a != Crash(r)
    ensures r in Next(s, a).procs
    ensures var pc, next := s.procs[r].pc, Next(s, a).procs[r].pc;
      if a == ReplayEnds(r, true) then next.Done? && next.answer.Answered? && next.answer.via == AsReplay(pc.rec)
      else next == if a == ReplayEnds(r, false) then Done(Failed(NotFound)) else pc
  {
    ReplayReads(s, r);
    Frame(s, a, r);
    hide Inv, DoQuery, Admission, ReadId, HashPayload;
  }

  /** How a replay ends: with the answer of the record, or NOT_FOUND. */
  predicate ReplayedAs(pc: Pc, rec: Text, found: bool) {
    pc.Done? ==>
      if found then pc.answer.Answered? && pc.answer.via == AsReplay(rec) else pc == Done(Failed(NotFound))
  }

  lemma {:induction false} ReplayRun(s: State, schedule: seq<Action>, r: nat, rec: Text)
    requires Inv(s) && r in s.procs && s.procs[r].pc.Replaying? && s.procs[r].pc.rec == rec && SameKind(s, r, rec)
    requires Unharmed(schedule, r)
    ensures r in Run(s, schedule).procs
    ensures ReplayedAs(Run(s, schedule).procs[r].pc, rec, ReplayFinds(s, schedule, r))
    decreases |schedule|
  {
    if schedule != [] {
      var a, t := schedule[0], Next(s, schedule[0]);
      hide Inv, Next, SameKind;
      assert a in schedule && forall b :: b in schedule[1..] ==> b in schedule;
      ReplayStep(s, a, r);
      if a.ReplayEnds? && a.r == r {
        Service.AnswerIsFinal(t, schedule[1..], r);
      } else {
        ReplayReads(s, r);
        SameKindStays(s, a, r, rec);
        NextKeepsInv(s, a);
        ReplayRun(t, schedule[1..], r, rec);
      }
    }
  }

  // ----- The polls -----

  lemma PollStep(s: State, a: Action, r: nat, rec: Text, left: nat)
    requires Inv(s) && r in s.procs && s.procs[r].pc == Waiting(rec, left)
    requires a != Fault(r) && a != Crash(r)
    ensures rec in s.used && left > 0
    ensures r in Next(s, a).procs
    ensures Next(s, a).procs[r].pc ==
      if !Polls(s, a, r) then Waiting(rec, left)
      else if rec !in s.rows then Done(Failed(InProgress))
      else if s.rows[rec].status == Completed then Replaying(rec, s.rows[rec].responseBody)
      else if left > 1 then Waiting(rec, left - 1)
      else Done(Failed(InProgress))
  {
    assert ProcOk(s, r);
    Frame(s, a, r);
    hide Inv, Admission, ReadId, HashPayload;
  }

  /** Where a waiting request that its own failures do not stop ends. */
  predicate WaitedAs(pc: Pc, rec: Text, polled: bool, found: bool) {
    pc.Done? ==> if polled then ReplayedAs(pc, rec, found) else pc == Done(Failed(InProgress))
  }

  lemma {:induction false} WaitRun(s: State, schedule: seq<Action>, r: nat, rec: Text, left: nat)
    requires Inv(s) && r in s.procs && s.procs[r].pc == Waiting(rec, left) && SameKind(s, r, rec)
    requires Unharmed(schedule, r)
    ensures r in Run(s, schedule).procs
    ensures WaitedAs(Run(s, schedule).procs[r].pc, rec, PollFinds(s, schedule, r, rec, left),
                     ReplayFinds(s, schedule, r))
    decreases |schedule|
  {
    if schedule != [] {
      var a, t := schedule[0], Next(s, schedule[0]);
      hide Inv, Next, SameKind, Polls, ReplayedAs;
      assert a in schedule && forall b :: b in schedule[1..] ==> b in schedule;
      PollStep(s, a, r, rec, left);
      SameKindStays(s, a, r, rec);
      NextKeepsInv(s, a);
      if t.procs[r].pc.Waiting? {
        WaitRun(t, schedule[1..], r, rec, t.procs[r].pc.left);
      } else if t.procs[r].pc.Replaying? {
        ReplayRun(t, schedule[1..], r, rec);
      } else {
        Service.AnswerIsFinal(t, schedule[1..], r);
      }
    }
  }

  /** A waiting request whose own calls do not fail is answered if and only if one of its polls finds the row
      COMPLETED, those before it having found the row, and its replay finds what the row names. Then it is answered
      with the identifier that the owner of the row was answered with; otherwise it is told that the request is in
      progress, or that there is nothing to replay. */
  lemma WaiterAnsweredIff(s: State, schedule: seq<Action>, r: nat, rec: Text, left: nat)
    requires Inv(s) && r in s.procs && s.procs[r].pc == Waiting(rec, left) && SameKind(s, r, rec)
    requires Unharmed(schedule, r) && r in Run(s, schedule).procs && Run(s, schedule).procs[r].pc.Done?
    ensures var t, polled := Run(s, schedule), PollFinds(s, schedule, r, rec, left);
      && (t.procs[r].pc.answer.Answered? <==> polled && ReplayFinds(s, schedule, r))
      && match t.procs[r].pc.answer
         case Answered(value, via) =>
           && via == AsReplay(rec) && rec in t.rows && t.rows[rec].creator in t.procs
           && t.procs[t.rows[rec].creator].pc == Done(Answered(value, AsOwner(rec)))
         case Failed(error) => error == if polled then NotFound else InProgress
  {
    WaitRun(s, schedule, r, rec, left);
    RunKeepsInv(s, schedule);
    var t := Run(s, schedule);
    hide Inv, Run, PollFinds, ReplayFinds;
    if t.procs[r].pc.answer.Answered? {
      AnswerIsOwnersResult(t, r);
    }
  }
}
