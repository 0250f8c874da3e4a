/** Courses, enrolments, assignments and submissions, and the changes one write makes to them. */
module Entities {
  import opened Texts

  type Percent = p: int | 0 <= p <= 100

  datatype EnrollmentStatus = ACTIVE | COMPLETED | DROPPED
  datatype SubmissionStatus = SUBMITTED | REVIEWED | RETURNED

  datatype Course = Course(tutorId: Text, isPublished: bool)
  datatype Assignment = Assignment(courseId: Text, isPublished: bool, dueDate: Option<nat>)
  datatype Enrollment = Enrollment(id: Text, studentId: Text, courseId: Text, status: EnrollmentStatus, progress: int)
  /** What a student hands in. */
  datatype Work = Work(content: Text, fileUrls: seq<Text>)
  datatype Submission = Submission(
    id: Text, studentId: Text, assignmentId: Text, work: Work, status: SubmissionStatus,
    feedback: Option<Text>, score: Option<int>, reviewedAt: Option<nat>,
    isAdminHidden: bool, adminHiddenReason: Option<Text>, adminHiddenAt: Option<nat>)

  /** A student together with a course or an assignment. */
  datatype Pair = Pair(studentId: Text, target: Text)

  function EnrollmentPair(e: Enrollment): Pair { Pair(e.studentId, e.courseId) }

  function SubmissionPair(d: Submission): Pair { Pair(d.studentId, d.assignmentId) }

  function NewEnrollment(id: Text, p: Pair): Enrollment { Enrollment(id, p.studentId, p.target, ACTIVE, 0) }

  function NewSubmission(id: Text, p: Pair, work: Work): Submission {
    Submission(id, p.studentId, p.target, work, SUBMITTED, None, None, None, false, None, None)
  }

  // ----- Progress -----

  function Max(a: int, b: int): int { if a > b then a else b }

  /** What the locked progress update writes to an ACTIVE row. */
  function Advance(e: Enrollment, progress: Percent): Enrollment {
    var next := Max(e.progress, progress);
    e.(progress := next, status := if next == 100 then COMPLETED else e.status)
  }

  ghost predicate ProgressOk(e: Enrollment) {
    && 0 <= e.progress <= 100
    && (e.status == ACTIVE ==> e.progress < 100)
    && (e.status == COMPLETED ==> e.progress == 100)
  }

  /** One locked update after another; an update of a row that is not ACTIVE is rejected. */
  function AdvanceAll(e: Enrollment, updates: seq<Percent>): Enrollment
    decreases |updates|
  {
    if updates == [] then e
    else AdvanceAll(if e.status == ACTIVE then Advance(e, updates[0]) else e, updates[1..])
  }

  /** The updates that are rejected, because the row is no longer ACTIVE. */
  function RejectedUpdates(e: Enrollment, updates: seq<Percent>): seq<Percent>
    decreases |updates|
  {
    if updates == [] then []
    else if e.status == ACTIVE then RejectedUpdates(Advance(e, updates[0]), updates[1..])
    else [updates[0]] + RejectedUpdates(e, updates[1..])
  }

  function Highest(start: int, updates: seq<Percent>): int
    decreases |updates|
  {
    if updates == [] then start else Highest(Max(start, updates[0]), updates[1..])
  }

  /** A list of updates leaves the maximum of the start value and all requested values, and completes the row at 100. */
  lemma {:induction false} ProgressIsMaximum(e: Enrollment, updates: seq<Percent>)
    requires ProgressOk(e) && e.status != DROPPED
    ensures ProgressOk(AdvanceAll(e, updates))
    ensures AdvanceAll(e, updates) ==
      e.(progress := Highest(e.progress, updates), status := if Highest(e.progress, updates) == 100 then COMPLETED
        else ACTIVE)
    decreases |updates|
  {
    if updates != [] {
      ProgressIsMaximum(if e.status == ACTIVE then Advance(e, updates[0]) else e, updates[1..]);
    }
  }

  /** `Highest` is the least upper bound. */
  lemma {:induction false} HighestIsMaximum(start: int, updates: seq<Percent>)
    ensures start <= Highest(start, updates) && forall p :: p in updates ==> p <= Highest(start, updates)
    ensures Highest(start, updates) == start || Highest(start, updates) in updates
    decreases |updates|
  {
    if updates != [] {
      assert updates == [updates[0]] + updates[1..];
      HighestIsMaximum(Max(start, updates[0]), updates[1..]);
    }
  }

  /** The order in which concurrent updates get the lock does not matter to the row. */
  lemma ProgressConfluence(e: Enrollment, one: seq<Percent>, other: seq<Percent>)
    requires ProgressOk(e) && e.status == ACTIVE && multiset(one) == multiset(other)
    ensures AdvanceAll(e, one) == AdvanceAll(e, other)
  {
    ProgressIsMaximum(e, one);
    ProgressIsMaximum(e, other);
    HighestIsMaximum(e.progress, one);
    HighestIsMaximum(e.progress, other);
    forall p ensures p in one <==> p in other {
      assert p in one <==> p in multiset(one);
      assert p in other <==> p in multiset(other);
    }
  }

  /** What follows the first request for 100. */
  function AfterHundred(updates: seq<Percent>): seq<Percent>
    decreases |updates|
  {
    if updates == [] then [] else if updates[0] == 100 then updates[1..] else AfterHundred(updates[1..])
  }

  /** An ACTIVE row rejects exactly the requests after the first one for 100. */
  lemma {:induction false} RejectedAfterHundred(e: Enrollment, updates: seq<Percent>)
    requires ProgressOk(e)
    ensures RejectedUpdates(e, updates) ==
      if e.status == ACTIVE then AfterHundred(updates) else updates
    decreases |updates|
  {
    if updates != [] {
      RejectedAfterHundred(if e.status == ACTIVE then Advance(e, updates[0]) else e, updates[1..]);
    }
  }

  lemma {:induction false} NothingAfterHundred(updates: seq<Percent>)
    requires 100 !in updates
    ensures AfterHundred(updates) == []
    decreases |updates|
  {
    if updates != [] {
      NothingAfterHundred(updates[1..]);
    }
  }

  /** Two orders of the same requests reject different numbers of them when a request for 100 meets a smaller one. */
  lemma TwoOrders(updates: seq<Percent>) returns (one: seq<Percent>, other: seq<Percent>)
    requires 100 in updates && exists p :: p in updates && p != 100
    ensures multiset(one) == multiset(updates) && multiset(other) == multiset(updates)
    ensures |AfterHundred(one)| == |updates| - 1 && |AfterHundred(other)| == |updates| - 2
  {
    var low :| low in updates && low != 100;
    var some := Without(updates, 100);
    var rest := Without(some, low);
    assert multiset([100] + some) == multiset([100]) + multiset(some);
    assert multiset([low] + rest) == multiset([low]) + multiset(rest);
    one, other := [100, low] + rest, [low, 100] + rest;
    assert one == [100] + ([low] + rest) && one[1..] == [low] + rest;
    assert other == [low] + ([100] + rest) && other[1..] == [100] + rest && other[1..][1..] == rest;
    assert |multiset(one)| == |one|;
    assert |multiset(updates)| == |updates|;
  }

  /** `updates` without one `p`. */
  lemma Without(updates: seq<Percent>, p: Percent) returns (rest: seq<Percent>)
    requires p in updates
    ensures multiset(updates) == multiset([p] + rest)
    ensures forall q :: q != p && q in updates ==> q in rest
  {
    var i :| 0 <= i < |updates| && updates[i] == p;
    rest := updates[..i] + updates[i + 1..];
    assert updates == updates[..i] + ([p] + updates[i + 1..]);
  }

  /** Every order of the requests rejects the same ones if and only if none asks for 100 or all do. */
  lemma RejectionIgnoresOrderIff(e: Enrollment, updates: seq<Percent>)
    requires ProgressOk(e) && e.status == ACTIVE
    ensures
      (forall other: seq<Percent> :: multiset(other) == multiset(updates) ==>
         multiset(RejectedUpdates(e, other)) == multiset(RejectedUpdates(e, updates)))
      <==> 100 !in updates || forall p :: p in updates ==> p == 100
  {
    RejectedAfterHundred(e, updates);
    if 100 !in updates || forall p :: p in updates ==> p == 100 {
      forall other: seq<Percent> | multiset(other) == multiset(updates)
        ensures multiset(RejectedUpdates(e, other)) == multiset(RejectedUpdates(e, updates))
      {
        RejectedAfterHundred(e, other);
        SameRejected(updates, other);
      }
    } else {
      var one, other := TwoOrders(updates);
      RejectedAfterHundred(e, one);
      RejectedAfterHundred(e, other);
      assert |multiset(AfterHundred(one))| != |multiset(AfterHundred(other))|;
    }
  }

  lemma SameRejected(updates: seq<Percent>, other: seq<Percent>)
    requires multiset(other) == multiset(updates)
    requires 100 !in updates || forall p :: p in updates ==> p == 100
    ensures multiset(AfterHundred(other)) == multiset(AfterHundred(updates))
  {
    assert forall p :: p in other <==> p in multiset(other);
    assert forall p :: p in updates <==> p in multiset(updates);
    if 100 !in updates {
      NothingAfterHundred(updates);
      NothingAfterHundred(other);
    } else {
      assert |multiset(other)| == |other| && |multiset(updates)| == |updates|;
      forall i | 0 <= i < |updates| ensures updates[i] == 100 && other[i] == 100 {
        assert updates[i] in updates && other[i] in other;
      }
      assert other == updates;
    }
  }

  // ----- Feedback and moderation -----

  /** `dto.score`: the validator lets through an absent score and a null one. */
  datatype ScoreInput = Absent | Given(score: Option<Percent>)

  /** The `$set` of `updateFeedbackAtomically`. */
  function Review(d: Submission, feedback: Text, score: ScoreInput, now: nat): Submission {
    var update := d.(feedback := Some(feedback), reviewedAt := Some(now));
    if score.Given? then update.(score := score.score, status := REVIEWED)
      else update.(score := None, status := RETURNED)
  }

  function HiddenReason(isHidden: bool, reason: Option<Text>): Option<Text> { if isHidden then reason else None }

  function Moderate(d: Submission, isHidden: bool, reason: Option<Text>, now: nat): Submission {
    d.(isAdminHidden := isHidden, adminHiddenReason := HiddenReason(isHidden, reason),
       adminHiddenAt := if isHidden then Some(now) else None)
  }

  ghost predicate ReviewOk(d: Submission) {
    && (d.status == SUBMITTED <==> d.feedback.None?)
    && (d.status == SUBMITTED <==> d.reviewedAt.None?)
    && (d.score.Some? ==> d.status == REVIEWED)
  }
}
