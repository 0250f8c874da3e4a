/** What each body does when nothing comes between its calls: the meaning that the interleaved machine keeps for one
    job. */
module LearningAlone {
  import opened Texts
  import opened Entities
  import opened Learning

  predicate CallsOf(schedule: seq<Action>, r: nat)
  {
    forall k :: 0 <= k < |schedule| ==> schedule[k].Query? && schedule[k].r == r
  }

  // ----- Enrolment -----

  predicate Open(s: State, p: Pair) {
    p.target in s.courses && s.courses[p.target].isPublished && s.courses[p.target].tutorId != p.studentId
  }

  /** No course, own course, a row that is active, a row that was dropped, no row. */
  ghost predicate EnrollSpec(s: State, t: State, p: Pair, outcome: Outcome) {
    && (p.target !in s.courses || !s.courses[p.target].isPublished ==>
          outcome == Rejected(CourseNotFound) && t.enrollments == s.enrollments)
    && (p.target in s.courses && s.courses[p.target].isPublished && s.courses[p.target].tutorId == p.studentId ==>
          outcome == Rejected(CannotEnrollOwnCourse) && t.enrollments == s.enrollments)
    && (Open(s, p) ==>
          && (forall e :: e in s.enrollments && EnrollmentPair(s.enrollments[e]) == p ==>
                if s.enrollments[e].status == DROPPED then
                  outcome == Reactivated(e)
                    && t.enrollments == s.enrollments[e := Enrollment(e, p.studentId, p.target, ACTIVE, 0)]
                else outcome == Rejected(AlreadyEnrolled) && t.enrollments == s.enrollments)
          && (IsEnrollment(s.enrollments, p, ANY_STATUS, None) ==>
                && outcome.Created? && outcome.id !in s.enrollments
                && t.enrollments
                  == s.enrollments[outcome.id := Enrollment(outcome.id, p.studentId, p.target, ACTIVE, 0)]))
  }

  ghost predicate EnrollMid(z: State, s: State, r: nat, p: Pair) {
    && r in s.tasks && s.tasks[r].job == EnrollJob(p.studentId, p.target)
    && s.courses == z.courses && s.assignments == z.assignments && s.submissions == z.submissions
    && match s.tasks[r].at
       case Start => s.enrollments == z.enrollments
       case CheckExisting => s.enrollments == z.enrollments && Open(z, p)
       case FindDropped => s.enrollments == z.enrollments && Open(z, p)
         && IsEnrollment(z.enrollments, p, ENROLLED, None)
       case SaveReactivated(row) =>
         && s.enrollments == z.enrollments && Open(z, p)
         && row.id in z.enrollments && z.enrollments[row.id].status == DROPPED
         && row == Enrollment(row.id, p.studentId, p.target, ACTIVE, 0)
         && EnrollmentPair(z.enrollments[row.id]) == p
       case InsertEnrollment =>
         && s.enrollments == z.enrollments && Open(z, p)
         && IsEnrollment(z.enrollments, p, ENROLLED, None) && IsEnrollment(z.enrollments, p, {DROPPED}, None)
       case Ended(outcome) => EnrollSpec(z, s, p, outcome)
       case _ => false
  }

  /** The rows of a pair are one row. */
  lemma OneRow(s: State, p: Pair, id: Text)
    requires RowsOk(s) && id in s.enrollments && EnrollmentPair(s.enrollments[id]) == p
    ensures s.enrollments[id].id == id
    ensures forall e :: e in s.enrollments && EnrollmentPair(s.enrollments[e]) == p ==> e == id
  {
    assert EnrollmentOk(s, id);
    forall e | e in s.enrollments && EnrollmentPair(s.enrollments[e]) == p ensures e == id {
      assert EnrollmentOk(s, e);
    }
  }

  lemma NoRowAtAll(rows: map<Text, Enrollment>, p: Pair)
    requires IsEnrollment(rows, p, ENROLLED, None) && IsEnrollment(rows, p, {DROPPED}, None)
    ensures forall e :: e in rows ==> EnrollmentPair(rows[e]) != p
  {
    forall e | e in rows ensures EnrollmentPair(rows[e]) != p {
      var status := rows[e].status;
      assert status == ACTIVE || status == COMPLETED || status == DROPPED;
    }
  }

  /** Found in one of the two check queries: the row of the pair is not DROPPED. */
  lemma EndsOnRow(z: State, t: State, p: Pair, e: Text)
    requires Inv(z) && Open(z, p) && e in z.enrollments && EnrollmentPair(z.enrollments[e]) == p
      && z.enrollments[e].status != DROPPED
    requires t.enrollments == z.enrollments
    ensures EnrollSpec(z, t, p, Rejected(AlreadyEnrolled))
  {
    hide HistoryOk, TasksOk;
    OneRow(z, p, e);
    RowIsFound(z.enrollments, p, e);
    hide Inv, IsEnrollment;
  }

  lemma EndsReactivated(z: State, t: State, p: Pair, e: Text)
    requires Inv(z) && Open(z, p) && e in z.enrollments && EnrollmentPair(z.enrollments[e]) == p
      && z.enrollments[e].status == DROPPED
    requires t.enrollments == z.enrollments[e := Enrollment(e, p.studentId, p.target, ACTIVE, 0)]
    ensures EnrollSpec(z, t, p, Reactivated(e))
  {
    hide HistoryOk, TasksOk;
    OneRow(z, p, e);
    RowIsFound(z.enrollments, p, e);
    hide Inv, IsEnrollment;
  }

  lemma EndsCreated(z: State, t: State, p: Pair, newId: Text)
    requires Open(z, p) && newId !in z.enrollments
    requires forall e :: e in z.enrollments ==> EnrollmentPair(z.enrollments[e]) != p
    requires t.enrollments == z.enrollments[newId := Enrollment(newId, p.studentId, p.target, ACTIVE, 0)]
    ensures EnrollSpec(z, t, p, Created(newId))
  {
  }

  lemma UnusedIsNoRow(s: State, newId: Text)
    requires RowsOk(s) && newId !in s.used
    ensures newId !in s.enrollments && newId !in s.submissions
  {
    assert newId in s.enrollments ==> EnrollmentOk(s, newId);
    assert newId in s.submissions ==> SubmissionOk(s, newId);
  }

  lemma FindDroppedMid(z: State, s: State, t: State, r: nat, p: Pair, found: Option<Text>, newId: Text)
    requires Inv(z) && EnrollMid(z, s, r, p) && s.tasks[r].at == FindDropped
    requires QueryAllowed(s, r, found, newId) && CallEffect(s, t, r, found, newId)
    ensures EnrollMid(z, t, r, p)
  {
    hide HistoryOk, TasksOk, EnrollSpec;
    if found.Some? {
      OneRow(z, p, found.value);
    }
  }

  lemma CreatesRow(s: State, r: nat, p: Pair, newId: Text)
    requires QueryAllowed(s, r, None, newId) && s.tasks[r] == Task(EnrollJob(p.studentId, p.target), InsertEnrollment)
      && p.target in s.courses
    ensures DoQuery(s, r, None, newId).enrollments == s.enrollments[newId := NewEnrollment(newId, p)]
      && newId !in s.used
  {
    hide IsEnrollment, NewEnrollment;
  }

  lemma InsertMid(z: State, s: State, r: nat, p: Pair, found: Option<Text>, newId: Text)
    requires Inv(s) && EnrollMid(z, s, r, p) && s.tasks[r].at == InsertEnrollment && QueryAllowed(s, r, found, newId)
    ensures EnrollMid(z, DoQuery(s, r, found, newId), r, p)
  {
    NoRowAtAll(z.enrollments, p);
    assert found.None?;
    CreatesRow(s, r, p, newId);
    UnusedIsNoRow(s, newId);
    EveryCallEffect(s, r, None, newId);
    EndsCreated(z, DoQuery(s, r, None, newId), p, newId);
    hide Inv, IsEnrollment, EnrollSpec, DoQuery, QueryAllowed, EnrollmentEffect, SubmissionEffect, Open;
    InsertedMid(z, s, DoQuery(s, r, None, newId), r, p, newId);
  }

  lemma InsertedMid(z: State, s: State, t: State, r: nat, p: Pair, newId: Text)
    requires EnrollMid(z, s, r, p) && s.tasks[r].at == InsertEnrollment && CallEffect(s, t, r, None, newId)
      && t.submissions == s.submissions
    requires p.target in s.courses && EnrollSpec(z, t, p, Created(newId))
    ensures EnrollMid(z, t, r, p)
  {
    hide IsEnrollment, EnrollSpec, EnrollmentEffect, SubmissionEffect, Open;
  }

  lemma ReactivatesRow(s: State, r: nat, row: Enrollment, found: Option<Text>, newId: Text)
    requires QueryAllowed(s, r, found, newId) && s.tasks[r].at == SaveReactivated(row) && row.id in s.enrollments
    ensures DoQuery(s, r, found, newId)
      == SetAt(s, r, Ended(Reactivated(row.id))).(enrollments := s.enrollments[row.id := row])
  {
  }

  lemma ReactivatedMid(z: State, s: State, r: nat, p: Pair, row: Enrollment, found: Option<Text>, newId: Text)
    requires Inv(z) && EnrollMid(z, s, r, p) && s.tasks[r].at == SaveReactivated(row)
      && QueryAllowed(s, r, found, newId)
    ensures EnrollMid(z, DoQuery(s, r, found, newId), r, p)
  {
    ReactivatesRow(s, r, row, found, newId);
    hide DoQuery, Inv, EnrollSpec, QueryAllowed;
    EndsReactivated(z, DoQuery(s, r, found, newId), p, row.id);
  }

  lemma CheckMid(z: State, s: State, t: State, r: nat, p: Pair, found: Option<Text>, newId: Text)
    requires Inv(z) && EnrollMid(z, s, r, p) && s.tasks[r].at == CheckExisting
    requires QueryAllowed(s, r, found, newId) && CallEffect(s, t, r, found, newId)
    ensures EnrollMid(z, t, r, p)
  {
    hide Inv, EnrollSpec, SubmissionEffect;
    assert t.enrollments == s.enrollments && t.submissions == s.submissions by {
      NothingWritten(s, t, r, found, newId);
    }
    if found.Some? {
      EndsOnRow(z, t, p, found.value);
    }
  }

  lemma NothingWritten(s: State, t: State, r: nat, found: Option<Text>, newId: Text)
    requires r in s.tasks && Fits(s.tasks[r]) && CallEffect(s, t, r, found, newId)
    requires s.tasks[r].at == Start || s.tasks[r].at == CheckExisting || s.tasks[r].at == FindDropped
    ensures t.enrollments == s.enrollments && t.submissions == s.submissions
  {
    hide Leads;
  }

  lemma StartMid(z: State, s: State, t: State, r: nat, p: Pair, found: Option<Text>, newId: Text)
    requires EnrollMid(z, s, r, p) && s.tasks[r].at == Start && Fits(s.tasks[r]) && CallEffect(s, t, r, found, newId)
    ensures EnrollMid(z, t, r, p)
  {
    NothingWritten(s, t, r, found, newId);
    hide EnrollmentEffect, SubmissionEffect, IsEnrollment;
  }

  lemma EnrollStep(z: State, s: State, r: nat, p: Pair, found: Option<Text>, newId: Text)
    requires Inv(z) && Inv(s) && EnrollMid(z, s, r, p) && QueryAllowed(s, r, found, newId)
    ensures EnrollMid(z, DoQuery(s, r, found, newId), r, p)
  {
    hide DoQuery, Inv, CallEffect, EnrollSpec, IsEnrollment;
    EveryCallEffect(s, r, found, newId);
    var t := DoQuery(s, r, found, newId);
    match s.tasks[r].at
    case Start => StartMid(z, s, t, r, p, found, newId);
    case CheckExisting => CheckMid(z, s, t, r, p, found, newId);
    case FindDropped => FindDroppedMid(z, s, t, r, p, found, newId);
    case SaveReactivated(row) => ReactivatedMid(z, s, r, p, row, found, newId);
    case InsertEnrollment => InsertMid(z, s, r, p, found, newId);
  }

  lemma {:induction false} EnrollRuns(z: State, s: State, schedule: seq<Action>, r: nat, p: Pair)
    requires Inv(z) && Inv(s) && EnrollMid(z, s, r, p) && CallsOf(schedule, r)
    ensures EnrollMid(z, Run(s, schedule), r, p)
    decreases |schedule|
  {
    if schedule != [] {
      hide Inv, EnrollMid, DoQuery, QueryAllowed;
      var a := schedule[0];
      NextKeepsInv(s, a);
      if QueryAllowed(s, r, a.found, a.newId) {
        EnrollStep(z, s, r, p, a.found, a.newId);
      }
      EnrollRuns(z, Next(s, a), schedule[1..], r, p);
    }
  }

  /** `enrollOnce` without interference. */
  lemma EnrollAlone(s: State, r: nat, p: Pair, schedule: seq<Action>)
    requires Inv(s) && r in s.tasks && s.tasks[r] == Task(EnrollJob(p.studentId, p.target), Start)
      && CallsOf(schedule, r)
    ensures r in Run(s, schedule).tasks
    ensures Run(s, schedule).tasks[r].at.Ended? ==>
      EnrollSpec(s, Run(s, schedule), p, Run(s, schedule).tasks[r].at.outcome)
  {
    hide Inv;
    EnrollRuns(s, s, schedule, r, p);
  }

  // ----- Submission -----

  predicate MaySubmit(s: State, p: Pair) {
    && p.target in s.assignments && s.assignments[p.target].isPublished
    && (s.assignments[p.target].dueDate.Some? ==> s.clock <= s.assignments[p.target].dueDate.value)
  }

  ghost predicate IsEnrolled(rows: map<Text, Enrollment>, p: Pair) {
    exists e :: e in rows && EnrollmentPair(rows[e]) == p && (rows[e].status == ACTIVE || rows[e].status == COMPLETED)
  }

  ghost predicate HasSubmitted(docs: map<Text, Submission>, p: Pair)
  {
    exists d :: d in docs && SubmissionPair(docs[d]) == p
  }

  /** No assignment, not published, too late, not enrolled, submitted before, or a new document: as handed in, without
      any review, and not hidden. */
  ghost predicate SubmitSpec(s: State, t: State, p: Pair, work: Work, outcome: Outcome) {
    && (outcome.Rejected? ==> t.submissions == s.submissions)
    && if p.target !in s.assignments then outcome == Rejected(AssignmentNotFound)
       else if !s.assignments[p.target].isPublished then outcome == Rejected(AssignmentNotPublished)
       else if !MaySubmit(s, p) then outcome == Rejected(DeadlinePassed)
       else if !IsEnrolled(s.enrollments, Pair(p.studentId, s.assignments[p.target].courseId)) then
         outcome == Rejected(NotEnrolled)
       else if HasSubmitted(s.submissions, p) then outcome == Rejected(AlreadySubmitted)
       else
         && outcome.Created? && outcome.id !in s.submissions
         && t.submissions == s.submissions[outcome.id :=
              Submission(outcome.id, p.studentId, p.target, work, SUBMITTED, None, None, None, false, None, None)]
  }

  ghost predicate SubmitMid(z: State, s: State, r: nat, p: Pair, work: Work) {
    && r in s.tasks && s.tasks[r].job == SubmitJob(p.studentId, p.target, work)
    && s.clock == z.clock && s.courses == z.courses && s.assignments == z.assignments && s.enrollments == z.enrollments
    && match s.tasks[r].at
       case Start => s.submissions == z.submissions
       case CheckEnrolled(courseId) => s.submissions == z.submissions && MaySubmit(z, p)
         && courseId == z.assignments[p.target].courseId
       case CheckDuplicate(courseId) =>
         s.submissions == z.submissions && MaySubmit(z, p) && courseId == z.assignments[p.target].courseId
           && IsEnrolled(z.enrollments, Pair(p.studentId, courseId))
       case CreateSubmission(courseId) =>
         && s.submissions == z.submissions && MaySubmit(z, p) && courseId == z.assignments[p.target].courseId
         && IsEnrolled(z.enrollments, Pair(p.studentId, courseId)) && !HasSubmitted(z.submissions, p)
       case Ended(outcome) => SubmitSpec(z, s, p, work, outcome)
       case _ => false
  }

  lemma EnrolledIffFound(rows: map<Text, Enrollment>, p: Pair, found: Option<Text>)
    requires IsEnrollment(rows, p, ENROLLED, found)
    ensures IsEnrolled(rows, p) <==> found.Some?
  {
  }

  lemma SubmittedIffFound(docs: map<Text, Submission>, p: Pair, found: Option<Text>)
    requires IsSubmission(docs, p, found)
    ensures HasSubmitted(docs, p) <==> found.Some?
  {
  }

  lemma SubmitMoves(z: State, s: State, t: State, r: nat, p: Pair, work: Work, found: Option<Text>, newId: Text)
    requires SubmitMid(z, s, r, p, work) && Fits(s.tasks[r]) && CallEffect(s, t, r, found, newId)
      && !s.tasks[r].at.Ended?
    requires s.tasks[r].at.CheckEnrolled? ==>
      (IsEnrolled(s.enrollments, Pair(p.studentId, s.tasks[r].at.courseId)) <==> found.Some?)
    requires s.tasks[r].at.CheckDuplicate? || s.tasks[r].at.CreateSubmission? ==>
      (HasSubmitted(s.submissions, p) <==> found.Some?)
    requires newId !in s.used ==> newId !in s.submissions
    requires s.tasks[r].at.CreateSubmission? && found.None? ==>
      && newId !in s.used
      && t.submissions == s.submissions[newId :=
           Submission(newId, p.studentId, p.target, work, SUBMITTED, None, None, None, false, None, None)]
    ensures SubmitMid(z, t, r, p, work)
  {
    hide IsEnrolled, HasSubmitted, IsEnrollment, IsSubmission, NewSubmission, Review;
  }

  lemma CreatesDocument(s: State, r: nat, p: Pair, work: Work, newId: Text)
    requires QueryAllowed(s, r, None, newId)
      && s.tasks[r] == Task(SubmitJob(p.studentId, p.target, work), s.tasks[r].at)
    requires s.tasks[r].at.CreateSubmission?
    ensures newId !in s.used
    ensures DoQuery(s, r, None, newId).submissions == s.submissions[newId :=
      Submission(newId, p.studentId, p.target, work, SUBMITTED, None, None, None, false, None, None)]
  {
    hide IsSubmission;
  }

  lemma SubmitStep(z: State, s: State, r: nat, p: Pair, work: Work, found: Option<Text>, newId: Text)
    requires Inv(s) && SubmitMid(z, s, r, p, work) && QueryAllowed(s, r, found, newId)
    ensures SubmitMid(z, DoQuery(s, r, found, newId), r, p, work)
  {
    var t := DoQuery(s, r, found, newId);
    EveryCallEffect(s, r, found, newId);
    if newId !in s.used {
      UnusedIsNoRow(s, newId);
    }
    if s.tasks[r].at.CreateSubmission? && found.None? {
      CreatesDocument(s, r, p, work, newId);
    }
    hide DoQuery, Inv, CallEffect, NewSubmission, SubmitSpec;
    if s.tasks[r].at.CheckEnrolled? {
      EnrolledIffFound(s.enrollments, Pair(p.studentId, s.tasks[r].at.courseId), found);
    } else if s.tasks[r].at.CheckDuplicate? || s.tasks[r].at.CreateSubmission? {
      SubmittedIffFound(s.submissions, p, found);
    }
    SubmitMoves(z, s, t, r, p, work, found, newId);
  }

  lemma {:induction false} SubmitRuns(z: State, s: State, schedule: seq<Action>, r: nat, p: Pair, work: Work)
    requires Inv(s) && SubmitMid(z, s, r, p, work) && CallsOf(schedule, r)
    ensures SubmitMid(z, Run(s, schedule), r, p, work)
    decreases |schedule|
  {
    if schedule != [] {
      hide Inv, SubmitMid, DoQuery, QueryAllowed;
      var a := schedule[0];
      NextKeepsInv(s, a);
      if QueryAllowed(s, r, a.found, a.newId) {
        SubmitStep(z, s, r, p, work, a.found, a.newId);
      }
      SubmitRuns(z, Next(s, a), schedule[1..], r, p, work);
    }
  }

  /** `submitOnce` without interference. */
  lemma SubmitAlone(s: State, r: nat, p: Pair, work: Work, schedule: seq<Action>)
    requires Inv(s) && r in s.tasks && s.tasks[r] == Task(SubmitJob(p.studentId, p.target, work), Start)
      && CallsOf(schedule, r)
    ensures r in Run(s, schedule).tasks
    ensures Run(s, schedule).tasks[r].at.Ended? ==>
      SubmitSpec(s, Run(s, schedule), p, work, Run(s, schedule).tasks[r].at.outcome)
  {
    hide Inv;
    SubmitRuns(s, s, schedule, r, p, work);
  }

  // ----- Feedback -----

  /** No document, other assignment, assignment gone, not the tutor, reviewed before, or the review is written. */
  ghost predicate FeedbackSpec(s: State, t: State, job: Job, outcome: Outcome)
    requires job.FeedbackJob?
  {
    var id := job.submissionId;
    && (outcome.Rejected? ==> t.submissions == s.submissions)
    && if id !in s.submissions then outcome == Rejected(SubmissionNotFound)
       else if s.submissions[id].assignmentId != job.assignmentId then outcome == Rejected(AssignmentMismatch)
       else if job.assignmentId !in s.assignments
         || s.assignments[job.assignmentId].courseId !in s.courses then outcome == Rejected(AssignmentNotFound)
       else if s.courses[s.assignments[job.assignmentId].courseId].tutorId != job.userId then
         outcome == Rejected(NotCourseOwner)
       else if s.submissions[id].status == REVIEWED then outcome == Rejected(AlreadyReviewed)
       else
         && outcome == Reviewed(id)
         && t.submissions == s.submissions[id := s.submissions[id].(
              feedback := Some(job.feedback), reviewedAt := Some(s.clock),
              status := if job.score == Absent then RETURNED else REVIEWED,
              score := if job.score == Absent then None else job.score.score)]
  }

  ghost predicate FeedbackMid(z: State, s: State, r: nat, job: Job) {
    && job.FeedbackJob? && r in s.tasks && s.tasks[r].job == job
    && s.clock == z.clock && s.courses == z.courses && s.assignments == z.assignments
    && match s.tasks[r].at
       case Start => s.submissions == z.submissions
       case CheckOwner =>
         && s.submissions == z.submissions && job.submissionId in z.submissions
         && z.submissions[job.submissionId].assignmentId == job.assignmentId
       case UpdateFeedback =>
         && s.submissions == z.submissions && job.submissionId in z.submissions
         && z.submissions[job.submissionId].assignmentId == job.assignmentId
         && job.assignmentId in z.assignments && z.assignments[job.assignmentId].courseId in z.courses
         && z.courses[z.assignments[job.assignmentId].courseId].tutorId == job.userId
       case Ended(outcome) => FeedbackSpec(z, s, job, outcome)
       case _ => false
  }

  lemma FeedbackWrites(s: State, r: nat, found: Option<Text>, newId: Text)
    requires QueryAllowed(s, r, found, newId) && s.tasks[r].at == UpdateFeedback && Accepts(s, s.tasks[r].job)
    ensures var job := s.tasks[r].job;
      DoQuery(s, r, found, newId).submissions == s.submissions[job.submissionId :=
        Review(s.submissions[job.submissionId], job.feedback, job.score, s.clock)]
  {
    hide Review;
  }

  lemma FeedbackStep(z: State, s: State, r: nat, job: Job, found: Option<Text>, newId: Text)
    requires FeedbackMid(z, s, r, job) && QueryAllowed(s, r, found, newId)
    ensures FeedbackMid(z, DoQuery(s, r, found, newId), r, job)
  {
    EveryCallEffect(s, r, found, newId);
    if s.tasks[r].at == UpdateFeedback && Accepts(s, job) {
      FeedbackWrites(s, r, found, newId);
    }
    hide DoQuery, EnrollmentEffect, NewSubmission;
  }

  lemma {:induction false} FeedbackRuns(z: State, s: State, schedule: seq<Action>, r: nat, job: Job)
    requires FeedbackMid(z, s, r, job) && CallsOf(schedule, r)
    ensures FeedbackMid(z, Run(s, schedule), r, job)
    decreases |schedule|
  {
    if schedule != [] {
      hide FeedbackMid, DoQuery, QueryAllowed;
      var a := schedule[0];
      if QueryAllowed(s, r, a.found, a.newId) {
        FeedbackStep(z, s, r, job, a.found, a.newId);
      }
      FeedbackRuns(z, Next(s, a), schedule[1..], r, job);
    }
  }

  /** `addFeedback` without interference. */
  lemma FeedbackAlone(s: State, r: nat, job: Job, schedule: seq<Action>)
    requires job.FeedbackJob? && r in s.tasks && s.tasks[r] == Task(job, Start) && CallsOf(schedule, r)
    ensures r in Run(s, schedule).tasks
    ensures Run(s, schedule).tasks[r].at.Ended? ==>
      FeedbackSpec(s, Run(s, schedule), job, Run(s, schedule).tasks[r].at.outcome)
  {
    FeedbackRuns(s, s, schedule, r, job);
  }
}
