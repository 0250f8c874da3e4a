/** Every body ends after a bounded number of its own database calls. */
module LearningTermination {
  import opened Texts
  import opened Entities
  import opened Learning

  /** The most database calls a job can still make. */
  function CallsLeft(t: Task): nat {
    match t.at
    case Start => if t.job.EnrollJob? || t.job.SubmitJob? then 4 else if t.job.FeedbackJob? then 3 else 1
    case CheckExisting => 3
    case FindDropped => 2
    case CheckEnrolled(_) => 3
    case SaveReactivated(_) => 1
    case InsertEnrollment => 1
    case CheckDuplicate(_) => 2
    case CheckOwner => 2
    case CreateSubmission(_) => 1
    case UpdateFeedback => 1
    case Ended(_) => 0
  }

  lemma CallsDecrease(s: State, t: State, r: nat, found: Option<Text>, newId: Text)
    requires QueryAllowed(s, r, found, newId) && CallEffect(s, t, r, found, newId)
    ensures CallsLeft(t.tasks[r]) < CallsLeft(s.tasks[r])
  {
    hide QueryAllowed, EnrollmentEffect, SubmissionEffect;
  }

  lemma FailTasks(s: State, f: nat, r: nat)
    requires r in s.tasks
    ensures r in DoFail(s, f).tasks && DoFail(s, f).tasks[r].job == s.tasks[r].job
    ensures DoFail(s, f).tasks[r].at == s.tasks[r].at || (!s.tasks[r].at.Ended? && DoFail(s, f).tasks[r].at.Ended?)
  {
    if f in s.tasks && !s.tasks[f].at.Ended? {
      assert DoFail(s, f).tasks == s.tasks[f := Task(s.tasks[f].job, Ended(Rejected(StoreFailed)))];
      hide DoFail;
    }
  }

  lemma CallTasks(s: State, q: nat, found: Option<Text>, newId: Text, r: nat)
    requires r in s.tasks && QueryAllowed(s, q, found, newId)
    ensures r in DoQuery(s, q, found, newId).tasks && DoQuery(s, q, found, newId).tasks[r].job == s.tasks[r].job
    ensures q == r ==> CallsLeft(DoQuery(s, q, found, newId).tasks[r]) < CallsLeft(s.tasks[r])
    ensures q != r ==> DoQuery(s, q, found, newId).tasks[r] == s.tasks[r]
  {
    EveryCallEffect(s, q, found, newId);
    hide DoQuery, Leads, EnrollmentEffect, SubmissionEffect, CallsLeft;
    CallsDecrease(s, DoQuery(s, q, found, newId), q, found, newId);
    hide QueryAllowed;
  }

  /** Work comes only from the step that begins it. */
  lemma OnlyBeginAdds(s: State, a: Action, r: nat)
    requires r !in s.tasks && r in Next(s, a).tasks
    ensures a == Begin(r, Next(s, a).tasks[r].job)
  {
    hide QueryAllowed, DoQuery, DoFail;
    if a.Query? {
      if QueryAllowed(s, a.r, a.found, a.newId) {
        CallAdds(s, a.r, a.found, a.newId, r);
        assert false;
      }
    } else if a.Fail? {
      FailAdds(s, a.r, r);
      assert false;
    } else if !a.Begin? {
      OtherStepAdds(s, a, r);
      assert false;
    }
  }

  lemma CallAdds(s: State, q: nat, found: Option<Text>, newId: Text, r: nat)
    requires QueryAllowed(s, q, found, newId) && r !in s.tasks
    ensures r !in DoQuery(s, q, found, newId).tasks
  {
    hide DoQuery, Leads, EnrollmentEffect, SubmissionEffect;
    EveryCallEffect(s, q, found, newId);
  }

  lemma FailAdds(s: State, f: nat, r: nat)
    requires r !in s.tasks
    ensures r !in DoFail(s, f).tasks
  {
  }

  lemma OtherStepAdds(s: State, a: Action, r: nat)
    requires r !in s.tasks && !a.Query? && !a.Fail? && !a.Begin?
    ensures r !in Next(s, a).tasks
  {
    hide DoQuery, QueryAllowed, DoFail, DoProgress, DoRemoveCourse, DoDrop, DoModerate, DoCreateCourse, DoPublishCourse,
      DoCreateAssignment,
      DoPublishAssignment;
  }

  /** Each answer brings a job closer to its end, and no one else's step takes it further away: four calls at most. */
  lemma BodiesEnd(s: State, a: Action, r: nat)
    requires r in s.tasks
    ensures r in Next(s, a).tasks && Next(s, a).tasks[r].job == s.tasks[r].job
    ensures CallsLeft(Next(s, a).tasks[r]) <= CallsLeft(s.tasks[r]) <= 4
    ensures a.Query? && a.r == r && QueryAllowed(s, r, a.found, a.newId) ==>
      CallsLeft(Next(s, a).tasks[r]) < CallsLeft(s.tasks[r])
    ensures CallsLeft(s.tasks[r]) == 0 ==> Next(s, a).tasks[r] == s.tasks[r]
  {
    hide DoQuery, QueryAllowed, DoFail;
    if a.Query? {
      if QueryAllowed(s, a.r, a.found, a.newId) {
        CallTasks(s, a.r, a.found, a.newId, r);
      }
    } else if a.Fail? {
      FailTasks(s, a.r, r);
    } else {
      hide Next;
      OtherStepTasks(s, a, r);
    }
  }

  lemma OtherStepTasks(s: State, a: Action, r: nat)
    requires r in s.tasks && !a.Query? && !a.Fail?
    ensures r in Next(s, a).tasks && Next(s, a).tasks[r] == s.tasks[r]
  {
    hide DoQuery, QueryAllowed, DoFail, DoProgress, DoRemoveCourse, DoDrop, DoModerate, DoCreateCourse, DoPublishCourse,
      DoCreateAssignment,
      DoPublishAssignment;
  }

  /** A job that moved in any way is nearer to its end. */
  lemma ChangeIsProgress(s: State, a: Action, r: nat)
    requires r in s.tasks && r in Next(s, a).tasks && Next(s, a).tasks[r] != s.tasks[r]
    ensures CallsLeft(Next(s, a).tasks[r]) < CallsLeft(s.tasks[r])
  {
    hide DoQuery, QueryAllowed, DoFail;
    if a.Query? {
      if QueryAllowed(s, a.r, a.found, a.newId) {
        CallTasks(s, a.r, a.found, a.newId, r);
      }
    } else if a.Fail? {
      FailTasks(s, a.r, r);
      FailKeepsJob(s, a.r, r);
    } else {
      hide Next;
      OtherStepTasks(s, a, r);
    }
  }

  lemma FailKeepsJob(s: State, f: nat, r: nat)
    requires r in s.tasks && r in DoFail(s, f).tasks
    ensures DoFail(s, f).tasks[r].at == s.tasks[r].at ==> DoFail(s, f).tasks[r] == s.tasks[r]
  {
    FailTasks(s, f, r);
    hide DoFail;
  }

  // ----- No body is ever stuck -----

  lemma EnrollmentAnswer(rows: map<Text, Enrollment>, p: Pair,
    wanted: set<EnrollmentStatus>) returns (found: Option<Text>)
    ensures IsEnrollment(rows, p, wanted, found)
  {
    if id :| id in rows && EnrollmentPair(rows[id]) == p && rows[id].status in wanted {
      found := Some(id);
    } else {
      found := None;
    }
  }

  lemma SubmissionAnswer(docs: map<Text, Submission>, p: Pair) returns (found: Option<Text>)
    ensures IsSubmission(docs, p, found)
  {
    if id :| id in docs && SubmissionPair(docs[id]) == p {
      found := Some(id);
    } else {
      found := None;
    }
  }

  /** Every call that a body waits for can be answered. */
  lemma CallAnswers(s: State, r: nat) returns (found: Option<Text>, newId: Text)
    requires r in s.tasks && Fits(s.tasks[r]) && !s.tasks[r].at.Ended?
    ensures QueryAllowed(s, r, found, newId)
  {
    hide IsEnrollment, IsSubmission;
    newId := UnusedText(s.used);
    found := None;
    var job := s.tasks[r].job;
    match s.tasks[r].at
    case CheckExisting => found := EnrollmentAnswer(s.enrollments, JobPair(job), ENROLLED);
    case FindDropped => found := EnrollmentAnswer(s.enrollments, JobPair(job), {DROPPED});
    case InsertEnrollment => found := EnrollmentAnswer(s.enrollments, JobPair(job), ANY_STATUS);
    case CheckEnrolled(courseId) => found := EnrollmentAnswer(s.enrollments, Pair(job.studentId, courseId), ENROLLED);
    case CheckDuplicate(_) => found := SubmissionAnswer(s.submissions, JobPair(job));
    case CreateSubmission(_) => found := SubmissionAnswer(s.submissions, JobPair(job));
    case _ =>
  }

  // ----- What never changes -----

  /** A course that was removed does not come back. */
  lemma GoneStaysGone(s: State, a: Action, c: Text)
    requires c in s.used && c !in s.courses
    ensures c in Next(s, a).used && c !in Next(s, a).courses
  {
    hide DoQuery, QueryAllowed;
    if a.Query? {
      if QueryAllowed(s, a.r, a.found, a.newId) {
        CallKeepsCourses(s, a.r, a.found, a.newId);
      }
    } else {
      hide Next;
      OtherStepLeavesGone(s, a, c);
    }
  }

  lemma OtherStepLeavesGone(s: State, a: Action, c: Text)
    requires c in s.used && c !in s.courses && !a.Query?
    ensures c in Next(s, a).used && c !in Next(s, a).courses
  {
    hide DoQuery, QueryAllowed, DoBegin, DoFail, DoDrop, DoPublishAssignment, DoProgress, DoModerate, DoRemoveCourse,
      DoCreateCourse, DoPublishCourse, DoCreateAssignment;
    match a
    case CreateCourse(id, tutorId, published) => CreatedIsNew(s, id, tutorId, published, c);
    case PublishCourse(id, published) => PublishedWasThere(s, id, published, c);
    case RemoveCourse(id) => RemovedGoes(s, id, c);
    case CreateAssignment(id, courseId, dueDate) => AssignmentUses(s, id, courseId, dueDate, c);
    case _ =>
  }

  lemma CreatedIsNew(s: State, id: Text, tutorId: Text, published: bool, c: Text)
    requires c in s.used && c !in s.courses
    ensures c in DoCreateCourse(s, id, tutorId, published).used
    ensures c !in DoCreateCourse(s, id, tutorId, published).courses
  {
  }

  lemma PublishedWasThere(s: State, id: Text, published: bool, c: Text)
    requires c !in s.courses
    ensures c !in DoPublishCourse(s, id, published).courses
  {
  }

  lemma RemovedGoes(s: State, id: Text, c: Text)
    requires c !in s.courses
    ensures c !in DoRemoveCourse(s, id).courses
  {
  }

  lemma AssignmentUses(s: State, id: Text, courseId: Text, dueDate: Option<nat>, c: Text)
    requires c in s.used
    ensures c in DoCreateAssignment(s, id, courseId, dueDate).used
  {
  }

  lemma CallKeepsCourses(s: State, r: nat, found: Option<Text>, newId: Text)
    requires QueryAllowed(s, r, found, newId)
    ensures s.used <= DoQuery(s, r, found, newId).used && DoQuery(s, r, found, newId).courses == s.courses
  {
    hide SetAt, IsEnrollment, IsSubmission, WriteReactivated, WriteEnrollment, WriteSubmission, WriteFeedback,
      AfterStart, AfterCheckOwner;
    var job := s.tasks[r].job;
    match s.tasks[r].at
    case SaveReactivated(row) => UsedAfterReactivation(s, r, row);
    case InsertEnrollment =>
      UsedAfterInsert(s, r, JobPair(job), newId);
      SetAtParts(s, r, Ended(Rejected(AlreadyEnrolled)));
      SetAtParts(s, r, Ended(Rejected(StoreFailed)));
    case CreateSubmission(_) =>
      UsedAfterCreate(s, r, JobPair(job), job.work, newId);
      SetAtParts(s, r, Ended(Rejected(AlreadySubmitted)));
    case UpdateFeedback => UsedAfterFeedback(s, r, job);
    case Start => SetAtParts(s, r, AfterStart(s, job));
    case CheckExisting =>
      SetAtParts(s, r, FindDropped);
      SetAtParts(s, r, Ended(Rejected(AlreadyEnrolled)));
    case FindDropped =>
      SetAtParts(s, r, InsertEnrollment);
      if found.Some? {
        assert found.value in s.enrollments by { FoundIsRow(s.enrollments, JobPair(job), {DROPPED}, found.value); }
        SetAtParts(s, r, SaveReactivated(s.enrollments[found.value].(status := ACTIVE, progress := 0)));
      }
    case CheckEnrolled(courseId) =>
      SetAtParts(s, r, CheckDuplicate(courseId));
      SetAtParts(s, r, Ended(Rejected(NotEnrolled)));
    case CheckDuplicate(courseId) =>
      SetAtParts(s, r, CreateSubmission(courseId));
      SetAtParts(s, r, Ended(Rejected(AlreadySubmitted)));
    case CheckOwner => SetAtParts(s, r, AfterCheckOwner(s, job.assignmentId, job.userId));
  }

  lemma FoundIsRow(rows: map<Text, Enrollment>, p: Pair, wanted: set<EnrollmentStatus>, id: Text)
    requires IsEnrollment(rows, p, wanted, Some(id))
    ensures id in rows
  {
  }

  lemma UsedAfterReactivation(s: State, r: nat, row: Enrollment)
    requires r in s.tasks
    ensures WriteReactivated(s, r, row).used == s.used && WriteReactivated(s, r, row).courses == s.courses
  {
    hide SetAt;
    SetAtParts(s, r, Ended(Reactivated(row.id)));
    SetAtParts(s, r, Ended(Rejected(StoreFailed)));
  }

  lemma UsedAfterInsert(s: State, r: nat, p: Pair, newId: Text)
    requires r in s.tasks
    ensures s.used <= WriteEnrollment(s, r, p, newId).used && WriteEnrollment(s, r, p, newId).courses == s.courses
  {
  }

  lemma UsedAfterCreate(s: State, r: nat, p: Pair, work: Work, newId: Text)
    requires r in s.tasks
    ensures s.used <= WriteSubmission(s, r, p, work, newId).used
    ensures WriteSubmission(s, r, p, work, newId).courses == s.courses
  {
  }

  lemma UsedAfterFeedback(s: State, r: nat, job: Job)
    requires r in s.tasks && job.FeedbackJob?
    ensures WriteFeedback(s, r, job).used == s.used && WriteFeedback(s, r, job).courses == s.courses
  {
    hide Review, SetAt;
    SetAtParts(s, r, Ended(Reviewed(job.submissionId)));
    SetAtParts(s, r, Ended(Rejected(AlreadyReviewed)));
  }
}
