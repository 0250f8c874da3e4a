/** What holds over whole runs of enrolment, submission and feedback. */
module LearningResults {
  import opened Texts
  import opened Entities
  import opened Learning

  lemma ReachableInv(schedule: seq<Action>)
    ensures Inv(Run(Init(), schedule))
  {
    RunKeepsInv(Init(), schedule);
  }

  // ----- One row for a student and a course -----

  predicate Succeeded(t: Task) { t.at.Ended? && !t.at.outcome.Rejected? }

  /** Each enrolment row is the only one of its student and course, is in range, and is not the tutor's own. */
  lemma EnrollmentRows(schedule: seq<Action>, i: Text, j: Text)
    ensures var s := Run(Init(), schedule); i in s.enrollments ==>
      && ProgressOk(s.enrollments[i])
      && s.enrollments[i].courseId in s.courses
      && s.courses[s.enrollments[i].courseId].tutorId != s.enrollments[i].studentId
      && (j in s.enrollments && EnrollmentPair(s.enrollments[j]) == EnrollmentPair(s.enrollments[i]) ==> i == j)
  {
    ReachableInv(schedule);
    var s := Run(Init(), schedule);
    assert i in s.enrollments ==> EnrollmentOk(s, i);
    assert j in s.enrollments ==> EnrollmentOk(s, j);
  }

  /** Whenever they ran, all enrolments of one student in one course that succeed return the same row. */
  lemma EnrolmentsAgree(schedule: seq<Action>, q: nat, r: nat)
    requires var s := Run(Init(), schedule);
      && q in s.tasks && r in s.tasks && s.tasks[q].job.EnrollJob? && s.tasks[r].job == s.tasks[q].job
      && Succeeded(s.tasks[q]) && Succeeded(s.tasks[r])
    ensures var s := Run(Init(), schedule); s.tasks[q].at.outcome.id == s.tasks[r].at.outcome.id
  {
    ReachableInv(schedule);
    var s := Run(Init(), schedule);
    assert TaskOk(s, q) && TaskOk(s, r);
  }

  /** Of all enrolments of a pair, and of all submissions of a pair, one creates. */
  lemma OneCreates(s: State, q: nat, r: nat)
    requires Inv(s) && q in s.tasks && r in s.tasks
    requires s.tasks[q].job.EnrollJob? == s.tasks[r].job.EnrollJob?
      && s.tasks[q].job.SubmitJob? == s.tasks[r].job.SubmitJob?
    requires (s.tasks[q].job.EnrollJob? || s.tasks[q].job.SubmitJob?)
      && JobPair(s.tasks[q].job) == JobPair(s.tasks[r].job)
    requires s.tasks[q].at.Ended? && s.tasks[q].at.outcome.Created? && s.tasks[r].at.Ended?
      && s.tasks[r].at.outcome.Created?
    ensures q == r
  {
    assert TaskOk(s, q) && TaskOk(s, r);
  }

  // ----- Submissions -----

  /** A student has one document for an assignment, and at most one `submitOnce` ever succeeds. */
  lemma OneSubmission(schedule: seq<Action>, q: nat, r: nat)
    requires var s := Run(Init(), schedule);
      && q in s.tasks && r in s.tasks && s.tasks[q].job.SubmitJob? && s.tasks[r].job.SubmitJob?
      && JobPair(s.tasks[q].job) == JobPair(s.tasks[r].job) && Succeeded(s.tasks[q])
    ensures var s := Run(Init(), schedule);
      && (Succeeded(s.tasks[r]) ==> q == r)
      && var id := s.tasks[q].at.outcome.id;
      && id in s.submissions && SubmissionPair(s.submissions[id]) == JobPair(s.tasks[q].job)
      && (forall d :: d in s.submissions && SubmissionPair(s.submissions[d]) == JobPair(s.tasks[q].job) ==> d == id)
  {
    ReachableInv(schedule);
    var s := Run(Init(), schedule);
    assert TaskOk(s, q) && TaskOk(s, r);
    assert SubmittedOk(s, JobPair(s.tasks[q].job));
    forall d | d in s.submissions && SubmissionPair(s.submissions[d]) == JobPair(s.tasks[q].job)
      ensures d == s.tasks[q].at.outcome.id
    {
      assert SubmissionOk(s, d);
    }
  }

  // ----- Progress -----

  function LockedUpdates(id: Text, studentId: Text, updates: seq<Percent>): seq<Action>
    decreases |updates|
  {
    if updates == [] then []
      else [UpdateProgress(id, studentId, updates[0])] + LockedUpdates(id, studentId, updates[1..])
  }

  /** Progress requests of the owner, one transaction after another, do to the row what `AdvanceAll` says, and
      nothing else. */
  lemma {:induction false} LockedUpdatesAdvance(s: State, id: Text, updates: seq<Percent>)
    requires id in s.enrollments
    ensures Run(s, LockedUpdates(id, s.enrollments[id].studentId, updates))
      == s.(enrollments := s.enrollments[id := AdvanceAll(s.enrollments[id], updates)])
    decreases |updates|
  {
    if updates == [] {
      assert s.enrollments[id := s.enrollments[id]] == s.enrollments;
    } else {
      var student, row := s.enrollments[id].studentId, s.enrollments[id];
      var first, rest := UpdateProgress(id, student, updates[0]), LockedUpdates(id, student, updates[1..]);
      assert ([first] + rest)[1..] == rest;
      LockedUpdate(s, id, updates[0]);
      hide Next, Advance;
      LockedUpdatesAdvance(Next(s, first), id, updates[1..]);
    }
  }

  lemma LockedUpdate(s: State, id: Text, progress: Percent)
    requires id in s.enrollments
    ensures var row := s.enrollments[id];
      var next := if row.status == ACTIVE then Advance(row, progress) else row;
      && Next(s, UpdateProgress(id, row.studentId, progress)) == s.(enrollments := s.enrollments[id := next])
      && next.studentId == row.studentId
  {
    hide DoQuery, QueryAllowed;
    assert s.enrollments[id := s.enrollments[id]] == s.enrollments;
  }

  // ----- Across the two databases -----

  ghost predicate NoDrops(schedule: seq<Action>) { forall k :: 0 <= k < |schedule| ==> !schedule[k].Drop? }

  ghost predicate Undropped(s: State) { forall id :: id in s.enrollments ==> s.enrollments[id].status != DROPPED }

  lemma StaleRowIsActive(s: State, r: nat)
    requires Inv(s) && r in s.tasks && s.tasks[r].at.SaveReactivated?
    ensures s.tasks[r].at.row.status == ACTIVE
  {
    assert TaskOk(s, r);
  }

  lemma QueryUndropped(s: State, r: nat, found: Option<Text>, newId: Text)
    requires Inv(s) && Undropped(s) && QueryAllowed(s, r, found, newId)
    ensures Undropped(DoQuery(s, r, found, newId))
  {
    hide Inv, TaskOk, DoQuery, Leads, SubmissionEffect, IsEnrollment, IsSubmission;
    EveryCallEffect(s, r, found, newId);
    if s.tasks[r].at.SaveReactivated? {
      StaleRowIsActive(s, r);
    }
  }

  lemma StepUndropped(s: State, a: Action)
    requires Inv(s) && Undropped(s) && !a.Drop?
    ensures Undropped(Next(s, a))
  {
    match a
    case Query(r, found, newId) =>
      if QueryAllowed(s, r, found, newId) {
        QueryUndropped(s, r, found, newId);
      }
    case _ =>
      hide Inv, DoQuery, QueryAllowed, DoCreateCourse, DoPublishCourse, DoCreateAssignment, DoPublishAssignment,
        DoModerate;
  }

  lemma {:induction false} RunUndropped(s: State, schedule: seq<Action>)
    requires Inv(s) && Undropped(s) && NoDrops(schedule)
    ensures Undropped(Run(s, schedule))
    decreases |schedule|
  {
    if schedule != [] {
      NextKeepsInv(s, schedule[0]);
      StepUndropped(s, schedule[0]);
      RunUndropped(Next(s, schedule[0]), schedule[1..]);
    }
  }

  /** A submission whose assignment exists belongs to a student with a row in that course, who is not its tutor; as
      long as nothing writes DROPPED, the row is ACTIVE or COMPLETED. */
  lemma SubmittersAreEnrolled(schedule: seq<Action>, d: Text)
    requires d in Run(Init(), schedule).submissions
    requires Run(Init(), schedule).submissions[d].assignmentId in Run(Init(), schedule).assignments
    ensures var s := Run(Init(), schedule);
      var doc := s.submissions[d];
      var courseId := s.assignments[doc.assignmentId].courseId;
      && courseId in s.courses && s.courses[courseId].tutorId != doc.studentId
      && exists e ::
           && e in s.enrollments && EnrollmentPair(s.enrollments[e]) == Pair(doc.studentId, courseId)
           && (NoDrops(schedule) ==> s.enrollments[e].status in ENROLLED)
  {
    ReachableInv(schedule);
    var s := Run(Init(), schedule);
    var doc := s.submissions[d];
    assert SubmissionOk(s, d);
    assert AssignmentOk(s, doc.assignmentId);
    var p := Pair(doc.studentId, s.assignments[doc.assignmentId].courseId);
    assert EnrolledOk(s, p);
    assert EnrollmentOk(s, s.enrolled[p]);
    if NoDrops(schedule) {
      RunUndropped(Init(), schedule);
    }
  }

  // ----- The first-time race -----

  /** A step that leaves the course of the pair published, drops no row of the pair and fails no enrolment of the
      pair. */
  predicate Peaceful(s: State, a: Action, p: Pair) {
    match a
    case RemoveCourse(id) => id != p.target
    case PublishCourse(id, published) => published || id != p.target
    case Drop(id) => id in s.enrollments ==> EnrollmentPair(s.enrollments[id]) != p
    case Fail(r) => r in s.tasks ==> !Enrolling(s.tasks[r], p)
    case _ => true
  }

  predicate PeacefulRun(s: State, schedule: seq<Action>, p: Pair)
    decreases |schedule|
  {
    schedule == [] || (Peaceful(s, schedule[0], p) && PeacefulRun(Next(s, schedule[0]), schedule[1..], p))
  }

  predicate Enrolling(t: Task, p: Pair) { t.job == EnrollJob(p.studentId, p.target) }

  /** The course is open to the student, who has no row and no enrolment under way. */
  ghost predicate BeforeRace(s: State, p: Pair) {
    && p.target in s.courses && s.courses[p.target].isPublished && s.courses[p.target].tutorId != p.studentId
    && IsEnrollment(s.enrollments, p, ANY_STATUS, None)
    && forall r :: r in s.tasks ==> !Enrolling(s.tasks[r], p)
  }

  /** Where an enrolment of the pair can be. */
  ghost predicate RacerOk(s: State, at: At, p: Pair) {
    match at
    case SaveReactivated(_) => false
    case Ended(outcome) => p in s.enrolled && (outcome.Created? || outcome == Rejected(AlreadyEnrolled))
    case _ => true
  }

  ghost predicate RaceOk(s: State, p: Pair) {
    && p.target in s.courses && s.courses[p.target].isPublished && s.courses[p.target].tutorId != p.studentId
    && (forall id :: id in s.enrollments && EnrollmentPair(s.enrollments[id]) == p ==>
          s.enrollments[id].status != DROPPED)
    && (forall r :: r in s.tasks && Enrolling(s.tasks[r], p) ==> RacerOk(s, s.tasks[r].at, p))
  }

  lemma RowMeansEnrolled(s: State, p: Pair, wanted: set<EnrollmentStatus>, id: Text)
    requires Inv(s) && IsEnrollment(s.enrollments, p, wanted, Some(id))
    ensures p in s.enrolled
  {
    assert EnrollmentOk(s, id);
  }

  /** Where one call of an enrolment of the pair leads. */
  lemma RacerStep(s: State, t: State, r: nat, found: Option<Text>, newId: Text, p: Pair)
    requires Inv(s) && RaceOk(s, p) && QueryAllowed(s, r, found, newId) && Enrolling(s.tasks[r], p)
    requires CallEffect(s, t, r, found, newId)
    ensures RacerOk(t, t.tasks[r].at, p)
  {
    hide Inv, SubmissionEffect, IsSubmission;
    if found.Some? && s.tasks[r].at.CheckExisting? {
      RowMeansEnrolled(s, p, ENROLLED, found.value);
    }
    if found.Some? && s.tasks[r].at.InsertEnrollment? {
      RowMeansEnrolled(s, p, ANY_STATUS, found.value);
    }
  }

  /** A step changes the tables and the other tasks like this. */
  ghost predicate RaceFrame(s: State, t: State, r: nat, p: Pair) {
    && p.target in s.courses && p.target in t.courses
    && t.courses[p.target].isPublished && t.courses[p.target].tutorId == s.courses[p.target].tutorId
    && (forall q :: q in s.enrolled ==> q in t.enrolled)
    && (forall id :: id in t.enrollments && EnrollmentPair(t.enrollments[id]) == p ==>
          t.enrollments[id].status != DROPPED)
    && (forall q :: q in t.tasks && q != r ==> q in s.tasks && t.tasks[q] == s.tasks[q])
  }

  lemma RaceFrameKeeps(s: State, t: State, r: nat, p: Pair)
    requires RaceOk(s, p) && RaceFrame(s, t, r, p)
    requires r in t.tasks && Enrolling(t.tasks[r], p) ==> RacerOk(t, t.tasks[r].at, p)
    ensures RaceOk(t, p)
  {
    forall q | q in t.tasks && Enrolling(t.tasks[q], p) ensures RacerOk(t, t.tasks[q].at, p) {
      if q != r {
        assert RacerOk(s, s.tasks[q].at, p);
      }
    }
  }

  lemma QueryRaceFrame(s: State, t: State, r: nat, found: Option<Text>, newId: Text, p: Pair)
    requires Inv(s) && RaceOk(s, p) && r in s.tasks && Fits(s.tasks[r]) && CallEffect(s, t, r, found, newId)
    ensures RaceFrame(s, t, r, p)
  {
    hide RowsOk, HistoryOk, Fits, Leads, SubmissionEffect, IsEnrollment, RacerOk;
    assert TaskOk(s, r);
  }

  lemma QueryKeepsRace(s: State, r: nat, found: Option<Text>, newId: Text, p: Pair)
    requires Inv(s) && RaceOk(s, p) && QueryAllowed(s, r, found, newId)
    ensures RaceOk(DoQuery(s, r, found, newId), p)
  {
    hide Inv, RaceOk, DoQuery, RaceFrame, RacerOk;
    var t := DoQuery(s, r, found, newId);
    EveryCallEffect(s, r, found, newId);
    QueryRaceFrame(s, t, r, found, newId, p);
    if Enrolling(s.tasks[r], p) {
      RacerStep(s, t, r, found, newId, p);
    }
    RaceFrameKeeps(s, t, r, p);
  }

  /** Steps outside the bodies. */
  lemma OtherStepKeepsRace(s: State, t: State, p: Pair)
    requires RaceOk(s, p) && t.tasks == s.tasks && t.enrolled == s.enrolled
    requires p.target in t.courses && t.courses[p.target].isPublished
      && t.courses[p.target].tutorId == s.courses[p.target].tutorId
    requires forall id :: id in t.enrollments && EnrollmentPair(t.enrollments[id]) == p ==>
      id in s.enrollments && EnrollmentPair(s.enrollments[id]) == p
        && (s.enrollments[id].status != DROPPED ==> t.enrollments[id].status != DROPPED)
    ensures RaceOk(t, p)
  {
  }

  lemma BeginOrFailKeepsRace(s: State, a: Action, p: Pair)
    requires RaceOk(s, p) && Peaceful(s, a, p) && (a.Begin? || a.Fail?)
    ensures RaceOk(Next(s, a), p)
  {
    hide DoQuery, QueryAllowed, DoProgress, DoRemoveCourse, DoModerate;
  }

  lemma RaceFacts(s: State, p: Pair)
    requires RaceOk(s, p)
    ensures p.target in s.courses && s.courses[p.target].isPublished
  {
  }

  lemma DropKeepsRace(s: State, id: Text, p: Pair)
    requires RaceOk(s, p) && (id in s.enrollments ==> EnrollmentPair(s.enrollments[id]) != p)
    ensures RaceOk(DoDrop(s, id), p)
  {
    hide RaceOk;
    RaceFacts(s, p);
    OtherStepKeepsRace(s, DoDrop(s, id), p);
  }

  lemma AdvanceKeepsPair(e: Enrollment, progress: Percent)
    ensures EnrollmentPair(Advance(e, progress)) == EnrollmentPair(e)
    ensures e.status != DROPPED ==> Advance(e, progress).status != DROPPED
  {
  }

  lemma ProgressKeepsPairs(s: State, id: Text, studentId: Text, progress: Percent, e: Text)
    requires e in DoProgress(s, id, studentId, progress).enrollments
    ensures e in s.enrollments
    ensures var row := DoProgress(s, id, studentId, progress).enrollments[e];
      && EnrollmentPair(row) == EnrollmentPair(s.enrollments[e])
      && (s.enrollments[e].status != DROPPED ==> row.status != DROPPED)
  {
    hide Advance, EnrollmentPair;
    if id in s.enrollments {
      AdvanceKeepsPair(s.enrollments[id], progress);
    }
  }

  lemma ProgressKeepsRace(s: State, id: Text, studentId: Text, progress: Percent, p: Pair)
    requires RaceOk(s, p)
    ensures RaceOk(DoProgress(s, id, studentId, progress), p)
  {
    hide RaceOk, DoProgress, EnrollmentPair;
    RaceFacts(s, p);
    var t := DoProgress(s, id, studentId, progress);
    forall e | e in t.enrollments && EnrollmentPair(t.enrollments[e]) == p
      ensures e in s.enrollments && EnrollmentPair(s.enrollments[e]) == p
      ensures s.enrollments[e].status != DROPPED ==> t.enrollments[e].status != DROPPED
    {
      ProgressKeepsPairs(s, id, studentId, progress, e);
    }
    OtherStepKeepsRace(s, t, p);
  }

  lemma RemoveCourseKeepsRace(s: State, id: Text, p: Pair)
    requires RaceOk(s, p) && id != p.target
    ensures RaceOk(DoRemoveCourse(s, id), p)
  {
    hide RaceOk;
    RaceFacts(s, p);
    OtherStepKeepsRace(s, DoRemoveCourse(s, id), p);
  }

  lemma PlainStepKeepsRace(s: State, a: Action, p: Pair)
    requires RaceOk(s, p) && Peaceful(s, a, p) && p.target in s.used
    requires !a.Query? && !a.Begin? && !a.Fail? && !a.UpdateProgress? && !a.Drop? && !a.RemoveCourse?
    ensures RaceOk(Next(s, a), p)
  {
    hide Next, RacerOk;
    UntouchedRows(s, a);
    PublishedStays(s, a, p);
    OtherStepKeepsRace(s, Next(s, a), p);
  }

  lemma UntouchedRows(s: State, a: Action)
    requires !a.Query? && !a.Begin? && !a.Fail? && !a.UpdateProgress? && !a.Drop? && !a.RemoveCourse?
    ensures var t := Next(s, a); t.enrollments == s.enrollments && t.tasks == s.tasks && t.enrolled == s.enrolled
  {
    hide DoQuery, QueryAllowed, DoProgress, DoRemoveCourse, DoDrop, DoModerate, DoCreateCourse, DoPublishCourse,
      DoCreateAssignment,
      DoPublishAssignment;
  }

  lemma PublishedStays(s: State, a: Action, p: Pair)
    requires Peaceful(s, a, p) && p.target in s.courses && s.courses[p.target].isPublished && p.target in s.used
    requires !a.Query? && !a.Begin? && !a.Fail? && !a.UpdateProgress? && !a.Drop? && !a.RemoveCourse?
    ensures var t := Next(s, a);
      p.target in t.courses && t.courses[p.target].isPublished
        && t.courses[p.target].tutorId == s.courses[p.target].tutorId
  {
    if a.PublishCourse? || a.CreateCourse? {
      hide Next, Peaceful;
      CoursesAfter(s, a);
      if a.PublishCourse? && a.id == p.target {
        PublishesOnly(s, a, p);
      }
    } else {
      hide DoQuery, QueryAllowed, DoProgress, DoRemoveCourse, DoBegin, DoFail, DoDrop, DoModerate, DoCreateAssignment,
        DoPublishAssignment;
    }
  }

  lemma PublishesOnly(s: State, a: Action, p: Pair)
    requires Peaceful(s, a, p) && a.PublishCourse? && a.id == p.target
    ensures a.published
  {
  }

  lemma CoursesAfter(s: State, a: Action)
    requires a.PublishCourse? || a.CreateCourse?
    ensures Next(s, a).courses ==
      if a.PublishCourse? && a.id in s.courses then s.courses[a.id := Course(s.courses[a.id].tutorId, a.published)]
      else if a.CreateCourse? && a.id !in s.used then s.courses[a.id := Course(a.tutorId, a.published)]
      else s.courses
  {
    hide DoQuery, QueryAllowed;
  }

  lemma RaceCourse(s: State, p: Pair)
    requires Inv(s) && RaceOk(s, p)
    ensures p.target in s.courses && s.courses[p.target].isPublished && p.target in s.used
  {
    assert CourseOk(s, p.target);
  }

  lemma StepKeepsRace(s: State, a: Action, p: Pair)
    requires Inv(s) && RaceOk(s, p) && Peaceful(s, a, p)
    ensures RaceOk(Next(s, a), p)
  {
    hide RaceOk, Inv, QueryAllowed, DoQuery, DoProgress, DoRemoveCourse, DoModerate;
    RaceCourse(s, p);
    match a
    case Query(r, found, newId) =>
      if QueryAllowed(s, r, found, newId) {
        QueryKeepsRace(s, r, found, newId, p);
      }
    case Begin(r, job) => BeginOrFailKeepsRace(s, a, p);
    case Fail(r) => BeginOrFailKeepsRace(s, a, p);
    case UpdateProgress(id, studentId, progress) => ProgressKeepsRace(s, id, studentId, progress, p);
    case Drop(id) => DropKeepsRace(s, id, p);
    case RemoveCourse(id) => RemoveCourseKeepsRace(s, id, p);
    case _ => PlainStepKeepsRace(s, a, p);
  }

  lemma {:induction false} RunKeepsRace(s: State, schedule: seq<Action>, p: Pair)
    requires Inv(s) && RaceOk(s, p) && PeacefulRun(s, schedule, p)
    ensures RaceOk(Run(s, schedule), p)
    decreases |schedule|
  {
    if schedule != [] {
      NextKeepsInv(s, schedule[0]);
      StepKeepsRace(s, schedule[0], p);
      RunKeepsRace(Next(s, schedule[0]), schedule[1..], p);
    }
  }

  /** Of any number of concurrent first enrolments that have all ended, one created the row and the others were told
      ALREADY_ENROLLED. */
  lemma FirstTimeRace(s: State, schedule: seq<Action>, p: Pair)
    requires Inv(s) && BeforeRace(s, p) && PeacefulRun(s, schedule, p)
    requires exists r :: r in Run(s, schedule).tasks && Enrolling(Run(s, schedule).tasks[r], p)
    requires var t := Run(s, schedule); forall r :: r in t.tasks && Enrolling(t.tasks[r], p) ==> t.tasks[r].at.Ended?
    ensures var t := Run(s, schedule);
      exists winner ::
        && winner in t.tasks && Enrolling(t.tasks[winner], p) && t.tasks[winner].at.outcome.Created?
        && forall r :: r in t.tasks && Enrolling(t.tasks[r], p) && r != winner ==>
          t.tasks[r].at.outcome == Rejected(AlreadyEnrolled)
  {
    var t := Run(s, schedule);
    NoRowsBeforeRace(s, p);
    RunKeepsRace(s, schedule, p);
    RunKeepsInv(s, schedule);
    hide Inv, RaceOk, PeacefulRun, Run, BeforeRace;
    RaceWinner(t, p);
  }

  lemma RaceWinner(t: State, p: Pair)
    requires Inv(t) && RaceOk(t, p)
    requires exists r :: r in t.tasks && Enrolling(t.tasks[r], p)
    requires forall r :: r in t.tasks && Enrolling(t.tasks[r], p) ==> t.tasks[r].at.Ended?
    ensures exists winner ::
        && winner in t.tasks && Enrolling(t.tasks[winner], p) && t.tasks[winner].at.outcome.Created?
        && forall r :: r in t.tasks && Enrolling(t.tasks[r], p) && r != winner ==>
          t.tasks[r].at.outcome == Rejected(AlreadyEnrolled)
  {
    var some :| some in t.tasks && Enrolling(t.tasks[some], p);
    assert RacerOk(t, t.tasks[some].at, p);
    assert EnrolledOk(t, p);
    var winner := t.enrolledBy[t.enrolled[p]];
    assert EnrolledByOk(t, t.enrolled[p]);
    assert Enrolling(t.tasks[winner], p);
    forall r | r in t.tasks && Enrolling(t.tasks[r], p)
      && r != winner ensures t.tasks[r].at.outcome == Rejected(AlreadyEnrolled) {
      assert RacerOk(t, t.tasks[r].at, p);
      if t.tasks[r].at.outcome.Created? {
        OneCreates(t, r, winner);
      }
    }
  }

  lemma NoRowsBeforeRace(s: State, p: Pair)
    requires BeforeRace(s, p)
    ensures RaceOk(s, p)
  {
    forall id | id in s.enrollments ensures EnrollmentPair(s.enrollments[id]) != p {
      var status := s.enrollments[id].status;
      assert status == ACTIVE || status == COMPLETED || status == DROPPED;
    }
  }

  // ----- Feedback -----

  /** What a review leaves open: the moderation fields. */
  predicate SameReview(d: Submission, e: Submission) {
    e == d.(isAdminHidden := e.isAdminHidden, adminHiddenReason := e.adminHiddenReason,
      adminHiddenAt := e.adminHiddenAt)
  }

  lemma ReviewedCall(s: State, r: nat, found: Option<Text>, newId: Text, d: Text)
    requires Inv(s) && d in s.submissions && QueryAllowed(s, r, found, newId)
    ensures var t := DoQuery(s, r, found, newId);
      && d in t.submissions && SameOrigin(s.submissions[d], t.submissions[d])
      && (s.submissions[d].status == REVIEWED ==> t.submissions[d] == s.submissions[d])
  {
    hide DoQuery;
    EveryCallEffect(s, r, found, newId);
    assert SubmissionOk(s, d);
    hide QueryAllowed, Leads, EnrollmentEffect, Inv, IsSubmission;
  }

  lemma ReviewedStep(s: State, a: Action, d: Text)
    requires Inv(s) && d in s.submissions
    ensures var t := Next(s, a);
      && d in t.submissions && SameOrigin(s.submissions[d], t.submissions[d])
      && (s.submissions[d].status == REVIEWED ==> SameReview(s.submissions[d], t.submissions[d]))
  {
    hide DoQuery, QueryAllowed, Inv;
    if a.Query? {
      if QueryAllowed(s, a.r, a.found, a.newId) {
        ReviewedCall(s, a.r, a.found, a.newId, d);
      }
    } else {
      OtherStepKeepsReview(s, a, d);
    }
  }

  lemma OtherStepKeepsReview(s: State, a: Action, d: Text)
    requires !a.Query? && d in s.submissions
    ensures var t := Next(s, a);
      && d in t.submissions && SameOrigin(s.submissions[d], t.submissions[d])
      && SameReview(s.submissions[d], t.submissions[d])
  {
    hide DoQuery, QueryAllowed;
    if a.ModerateSubmission? {
      hide Next;
      ModerationWrites(s, a.id, a.isHidden, a.reason);
    } else {
      hide SameReview;
      assert Next(s, a).submissions == s.submissions;
      SameAsItself(s.submissions[d]);
    }
  }

  lemma SameAsItself(d: Submission)
    ensures SameReview(d, d)
  {
  }

  lemma ModerationWrites(s: State, id: Text, isHidden: bool, reason: Option<Text>)
    ensures Next(s, ModerateSubmission(id, isHidden, reason)).submissions ==
      if id in s.submissions then s.submissions[id := Moderate(s.submissions[id], isHidden, reason, s.clock)]
        else s.submissions
  {
    hide DoQuery, QueryAllowed, Moderate;
  }

  /** Documents are never deleted, and what a REVIEWED one says about its review is final. */
  lemma {:induction false} ReviewedIsFinal(s: State, schedule: seq<Action>, d: Text)
    requires Inv(s) && d in s.submissions
    ensures var t := Run(s, schedule);
      && d in t.submissions && SameOrigin(s.submissions[d], t.submissions[d])
      && (s.submissions[d].status == REVIEWED ==> SameReview(s.submissions[d], t.submissions[d]))
    decreases |schedule|
  {
    if schedule != [] {
      NextKeepsInv(s, schedule[0]);
      ReviewedStep(s, schedule[0], d);
      ReviewedIsFinal(Next(s, schedule[0]), schedule[1..], d);
    }
  }

  predicate Scored(t: Task, d: Text) { t.job.FeedbackJob? && t.job.score.Given? && t.at == Ended(Reviewed(d)) }

  /** At most one feedback with a score is accepted for a document, and its score stays. */
  lemma OneScoredFeedback(schedule: seq<Action>, q: nat, r: nat, d: Text)
    requires var s := Run(Init(), schedule);
      q in s.tasks && r in s.tasks && Scored(s.tasks[q], d) && Scored(s.tasks[r], d)
    ensures var s := Run(Init(), schedule);
      && q == r && d in s.submissions && s.submissions[d].status == REVIEWED
      && s.submissions[d].score == s.tasks[q].job.score.score
  {
    ReachableInv(schedule);
    var s := Run(Init(), schedule);
    assert TaskOk(s, q) && TaskOk(s, r);
  }

  /** What the status of a document says. */
  lemma ReviewStates(schedule: seq<Action>, d: Text)
    requires d in Run(Init(), schedule).submissions
    ensures var doc := Run(Init(), schedule).submissions[d];
      && (doc.status == SUBMITTED <==> doc.feedback.None?) && (doc.status == SUBMITTED <==> doc.reviewedAt.None?)
      && (doc.status == RETURNED ==> doc.score.None?)
  {
    ReachableInv(schedule);
    assert SubmissionOk(Run(Init(), schedule), d);
  }

  /** Moderation and feedback write different fields: the order of the two writes does not matter. */
  lemma ModerationCommutesWithFeedback(s: State, r: nat, found: Option<Text>, newId: Text, d: Text, isHidden: bool,
    reason: Option<Text>)
    requires r in s.tasks && s.tasks[r].at == UpdateFeedback && s.tasks[r].job.FeedbackJob?
    ensures var feedback, moderation := Query(r, found, newId), ModerateSubmission(d, isHidden, reason);
      Next(Next(s, feedback), moderation) == Next(Next(s, moderation), feedback)
  {
    hide Next, WriteFeedback;
    var job, moderation := s.tasks[r].job, ModerateSubmission(d, isHidden, reason);
    FeedbackCall(s, r, found, newId);
    ModerationTasks(s, d, isHidden, reason);
    FeedbackCall(Next(s, moderation), r, found, newId);
    ModeratedFeedback(s, r, job, d, isHidden, reason);
  }

  lemma FeedbackCall(s: State, r: nat, found: Option<Text>, newId: Text)
    requires r in s.tasks && s.tasks[r].at == UpdateFeedback && s.tasks[r].job.FeedbackJob?
    ensures Next(s, Query(r, found, newId)) == WriteFeedback(s, r, s.tasks[r].job)
  {
    hide WriteFeedback, IsEnrollment, IsSubmission;
  }

  lemma ModerationTasks(s: State, d: Text, isHidden: bool, reason: Option<Text>)
    ensures Next(s, ModerateSubmission(d, isHidden, reason)).tasks == s.tasks
  {
    hide DoQuery, QueryAllowed;
  }

  lemma ModeratedFeedback(s: State, r: nat, job: Job, d: Text, isHidden: bool, reason: Option<Text>)
    requires r in s.tasks && job.FeedbackJob?
    ensures var m :=
      ModerateSubmission(d, isHidden, reason); Next(WriteFeedback(s, r, job), m) == WriteFeedback(Next(s, m), r, job)
  {
    hide Next, WriteFeedback, DoModerate, Accepts;
    ModerateIs(s, d, isHidden, reason);
    ModerateIs(WriteFeedback(s, r, job), d, isHidden, reason);
    if Accepts(s, job) {
      AcceptedModerated(s, r, job, d, isHidden, reason);
    } else {
      RefusedModerated(s, r, job, d, isHidden, reason);
    }
  }

  lemma RefusedModerated(s: State, r: nat, job: Job, d: Text, isHidden: bool, reason: Option<Text>)
    requires r in s.tasks && job.FeedbackJob? && !Accepts(s, job)
    ensures DoModerate(WriteFeedback(s, r, job), d, isHidden, reason)
      == WriteFeedback(DoModerate(s, d, isHidden, reason), r, job)
  {
    var t := DoModerate(s, d, isHidden, reason);
    ModeratedAccepts(s, job, d, isHidden, reason);
    RefusedFeedback(s, r, job);
    RefusedFeedback(t, r, job);
    hide WriteFeedback, Moderate, Accepts;
  }

  lemma ModeratedAccepts(s: State, job: Job, d: Text, isHidden: bool, reason: Option<Text>)
    requires job.FeedbackJob?
    ensures Accepts(DoModerate(s, d, isHidden, reason), job) == Accepts(s, job)
  {
    if d in s.submissions {
      var m := Moderate(s.submissions[d], isHidden, reason, s.clock);
      assert DoModerate(s, d, isHidden, reason).submissions == s.submissions[d := m];
      assert m.assignmentId == s.submissions[d].assignmentId && m.status == s.submissions[d].status;
      hide Moderate, DoModerate;
    }
  }

  lemma RefusedFeedback(s: State, r: nat, job: Job)
    requires r in s.tasks && job.FeedbackJob? && !Accepts(s, job)
    ensures WriteFeedback(s, r, job) == Reject(s, r, AlreadyReviewed)
  {
  }

  lemma ModerateIs(s: State, d: Text, isHidden: bool, reason: Option<Text>)
    ensures Next(s, ModerateSubmission(d, isHidden, reason)) == DoModerate(s, d, isHidden, reason)
  {
    hide DoQuery, QueryAllowed, DoModerate;
  }

  lemma AcceptedModerated(s: State, r: nat, job: Job, d: Text, isHidden: bool, reason: Option<Text>)
    requires r in s.tasks && job.FeedbackJob? && Accepts(s, job)
    ensures DoModerate(WriteFeedback(s, r, job), d, isHidden, reason)
      == WriteFeedback(DoModerate(s, d, isHidden, reason), r, job)
  {
    var id := job.submissionId;
    var one, other := DoModerate(WriteFeedback(s, r, job), d, isHidden, reason),
      WriteFeedback(DoModerate(s, d, isHidden, reason), r, job);
    var docs := s.submissions;
    if d !in docs {
      return;
    }
    var reviewed := docs[id := Review(docs[id], job.feedback, job.score, s.clock)];
    assert one.submissions == reviewed[d := Moderate(reviewed[d], isHidden, reason, s.clock)];
    var hidden := docs[d := Moderate(docs[d], isHidden, reason, s.clock)];
    assert other.submissions == hidden[id := Review(hidden[id], job.feedback, job.score, s.clock)];
    assert one.submissions == other.submissions;
  }
}
