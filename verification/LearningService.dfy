/** Enrolments and submissions as an object: its tables are fields that each database call updates in place. */
module LearningService {
  import opened Texts
  import opened Entities
  import opened Learning
  import opened LearningResults
  import Alone = LearningAlone

  // ----- What the invariant tells a step -----

  /** The row that a reactivation writes back is the one of its pair. */
  lemma StaleRow(s: State, r: nat, row: Enrollment)
    requires Inv(s) && r in s.tasks && s.tasks[r].at == SaveReactivated(row) && row.id in s.enrollments
    ensures row == s.enrollments[row.id].(status := ACTIVE, progress := 0)
  {
    ReactivatedRow(s, r, row);
    assert TaskOk(s, r);
  }

  /** What the answer to an insert writes. */
  lemma InsertAnswer(s: State, r: nat, found: Option<Text>, newId: Text)
    requires QueryAllowed(s, r, found, newId) && s.tasks[r].at.InsertEnrollment?
    ensures s.tasks[r].job.EnrollJob?
    ensures DoQuery(s, r, found, newId) ==
      if found.Some? then SetAt(s, r, Ended(Rejected(AlreadyEnrolled)))
      else if s.tasks[r].job.courseId !in s.courses then SetAt(s, r, Ended(Rejected(StoreFailed)))
      else WriteEnrollment(s, r, JobPair(s.tasks[r].job), newId)
  {
    hide IsEnrollment, WriteEnrollment, SetAt;
  }

  lemma CreateAnswer(s: State, r: nat, found: Option<Text>, newId: Text)
    requires QueryAllowed(s, r, found, newId) && s.tasks[r].at.CreateSubmission?
    ensures s.tasks[r].job.SubmitJob?
    ensures DoQuery(s, r, found, newId) ==
      if found.Some? then SetAt(s, r, Ended(Rejected(AlreadySubmitted)))
      else WriteSubmission(s, r, JobPair(s.tasks[r].job), s.tasks[r].job.work, newId)
  {
    hide IsSubmission, WriteSubmission, SetAt;
  }

  lemma UnusedIsFree(s: State, newId: Text)
    requires Inv(s) && newId !in s.used
    ensures newId !in s.enrollments && newId !in s.submissions
  {
    KnownIdsAreUsed(s);
  }

  lemma NoRowOfPair(rows: map<Text, Enrollment>, p: Pair)
    requires IsEnrollment(rows, p, ANY_STATUS, None)
    ensures forall e :: e in rows ==> EnrollmentPair(rows[e]) != p
  {
    forall e | e in rows ensures EnrollmentPair(rows[e]) != p {
      if EnrollmentPair(rows[e]) == p {
        RowIsFound(rows, p, e);
      }
    }
  }

  ghost predicate HasRow(rows: map<Text, Enrollment>, p: Pair) {
    exists e :: e in rows && EnrollmentPair(rows[e]) == p
  }

  lemma RowIffFound(rows: map<Text, Enrollment>, p: Pair, found: Option<Text>)
    requires IsEnrollment(rows, p, ANY_STATUS, found)
    ensures HasRow(rows, p) <==> found.Some?
  {
    if found.None? {
      NoRowOfPair(rows, p);
    }
  }

  /** An insert that passes the unique key adds the only row of its pair, and changes no other. */
  ghost predicate AddsOnlyRow(before: map<Text, Enrollment>, after: map<Text, Enrollment>, p: Pair, id: Text) {
    && after.Keys == before.Keys + {id} && id !in before
    && (forall e :: e in before ==> after[e] == before[e])
    && (forall e :: e in after ==> (EnrollmentPair(after[e]) == p <==> e == id))
    && after[id] == Enrollment(id, p.studentId, p.target, ACTIVE, 0)
  }

  lemma RowAdded(before: map<Text, Enrollment>, p: Pair, id: Text)
    requires IsEnrollment(before, p, ANY_STATUS, None) && id !in before
    ensures AddsOnlyRow(before, before[id := Enrollment(id, p.studentId, p.target, ACTIVE, 0)], p, id)
  {
    NoRowOfPair(before, p);
  }

  /** Likewise for a document: it holds what was handed in, is not reviewed and not hidden. */
  ghost predicate AddsOnlyDocument(before: map<Text, Submission>, after: map<Text, Submission>, p: Pair, id: Text,
    work: Work) {
    && after.Keys == before.Keys + {id} && id !in before
    && (forall d :: d in before ==> after[d] == before[d])
    && (forall d :: d in after ==> (SubmissionPair(after[d]) == p <==> d == id))
    && after[id] == Submission(id, p.studentId, p.target, work, SUBMITTED, None, None, None, false, None, None)
  }

  lemma DocumentAdded(before: map<Text, Submission>, p: Pair, id: Text, work: Work)
    requires IsSubmission(before, p, None) && id !in before
    ensures AddsOnlyDocument(before, before[id := NewSubmission(id, p, work)], p, id, work)
  {
  }

  ghost predicate IsDropped(rows: map<Text, Enrollment>, p: Pair, e: Text) {
    e in rows && EnrollmentPair(rows[e]) == p && rows[e].status == DROPPED
  }

  ghost predicate HasDropped(rows: map<Text, Enrollment>, p: Pair) { exists e :: IsDropped(rows, p, e) }

  lemma DroppedIffFound(rows: map<Text, Enrollment>, p: Pair, found: Option<Text>)
    requires IsEnrollment(rows, p, {DROPPED}, found)
    ensures HasDropped(rows, p) <==> found.Some?
    ensures found.Some? ==> found.value in rows && IsDropped(rows, p, found.value)
  {
    if found.Some? {
      assert IsDropped(rows, p, found.value);
    }
  }

  lemma RowInRange(s: State, id: Text)
    requires Inv(s) && id in s.enrollments
    ensures ProgressOk(s.enrollments[id])
  {
    assert EnrollmentOk(s, id);
  }

  class Service {
    var clock: nat
    var courses: map<Text, Course>
    var assignments: map<Text, Assignment>
    var enrollments: map<Text, Enrollment>
    var submissions: map<Text, Submission>
    var tasks: map<nat, Task>
    // history
    var used: set<Text>
    var enrolled: map<Pair, Text>
    var submitted: map<Pair, Text>
    var enrolledBy: map<Text, nat>
    var submittedBy: map<Text, nat>
    var scoredBy: map<Text, nat>

    ghost function View(): State
      reads this
    {
      State(clock, courses, assignments, enrollments, submissions, tasks, used, enrolled, submitted, enrolledBy,
        submittedBy, scoredBy)
    }

    ghost predicate Valid()
      reads this
    {
      Inv(View())
    }

    /** Only job `r` moved, and it is still the same job. */
    ghost predicate OnlyMoved(before: map<nat, Task>, r: nat)
      reads this
    {
      && tasks.Keys == before.Keys
      && (forall q :: q in tasks && q != r ==> tasks[q] == before[q])
      && (r in tasks ==> tasks[r].job == before[r].job)
    }

    constructor ()
      ensures Valid() && View() == Init()
    {
      clock, courses, assignments, enrollments, submissions, tasks := 0, map[], map[], map[], map[], map[];
      used, enrolled, submitted, enrolledBy, submittedBy, scoredBy := {}, map[], map[], map[], map[], map[];
    }

    method MoveTo(r: nat, at: At)
      requires r in tasks
      modifies this`tasks
      ensures View() == SetAt(old(View()), r, at)
    {
      tasks := tasks[r := tasks[r].(at := at)];
    }

    // ----- enrollOnce -----

    /** `findPublishedCourseOrFail` and `assertNotSelfEnrollment`. */
    method FindPublishedCourse(r: nat)
      requires r in tasks && tasks[r].at == Start && tasks[r].job.EnrollJob?
      modifies this`tasks
      ensures View() == SetAt(old(View()), r, AfterStart(old(View()), old(tasks)[r].job))
      ensures OnlyMoved(old(tasks), r)
      ensures var EnrollJob(studentId, courseId) := old(tasks)[r].job;
        && (tasks[r].at == Ended(Rejected(CourseNotFound)) <==> courseId !in courses || !courses[courseId].isPublished)
        && (tasks[r].at == Ended(Rejected(CannotEnrollOwnCourse)) <==>
              courseId in courses && courses[courseId].isPublished && courses[courseId].tutorId == studentId)
        && (tasks[r].at == CheckExisting <==> Alone.Open(View(), Pair(studentId, courseId)))
    {
      var EnrollJob(studentId, courseId) := tasks[r].job;
      if courseId !in courses || !courses[courseId].isPublished {
        MoveTo(r, Ended(Rejected(CourseNotFound)));
      } else if courses[courseId].tutorId == studentId {
        MoveTo(r, Ended(Rejected(CannotEnrollOwnCourse)));
      } else {
        MoveTo(r, CheckExisting);
      }
    }

    /** `assertNoActiveOrCompletedEnrollment`. */
    method AssertNoEnrollment(r: nat, found: Option<Text>, newId: Text)
      requires QueryAllowed(View(), r, found, newId) && tasks[r].at == CheckExisting
      modifies this`tasks
      ensures View() == DoQuery(old(View()), r, found, newId)
      ensures OnlyMoved(old(tasks), r)
      ensures tasks[r].at == Ended(Rejected(AlreadyEnrolled)) <==>
        Alone.IsEnrolled(enrollments, JobPair(old(tasks)[r].job))
      ensures tasks[r].at == FindDropped <==> !Alone.IsEnrolled(enrollments, JobPair(old(tasks)[r].job))
    {
      Alone.EnrolledIffFound(enrollments, JobPair(tasks[r].job), found);
      hide IsEnrollment, Alone.IsEnrolled;
      MoveTo(r, if found.Some? then Ended(Rejected(AlreadyEnrolled)) else FindDropped);
    }

    /** `tryReactivateDroppedEnrollment` up to its save. */
    method FindDroppedEnrollment(r: nat, found: Option<Text>, newId: Text)
      requires QueryAllowed(View(), r, found, newId) && tasks[r].at == FindDropped
      modifies this`tasks
      ensures View() == DoQuery(old(View()), r, found, newId)
      ensures OnlyMoved(old(tasks), r)
      ensures tasks[r].at == InsertEnrollment || tasks[r].at.SaveReactivated?
      ensures tasks[r].at.SaveReactivated? <==> HasDropped(enrollments, JobPair(old(tasks)[r].job))
      ensures tasks[r].at.SaveReactivated? ==> exists e ::
        && IsDropped(enrollments, JobPair(old(tasks)[r].job), e)
        && tasks[r].at.row == enrollments[e].(status := ACTIVE, progress := 0)
    {
      DroppedIffFound(enrollments, JobPair(tasks[r].job), found);
      hide IsEnrollment, IsDropped, HasDropped;
      if found.None? {
        MoveTo(r, InsertEnrollment);
      } else {
        var dropped := enrollments[found.value];
        dropped := dropped.(status := ACTIVE);
        dropped := dropped.(progress := 0);
        MoveTo(r, SaveReactivated(dropped));
      }
    }

    /** The save of `tryReactivateDroppedEnrollment`: the row as it was read is written back. */
    method SaveReactivatedRow(r: nat)
      requires Valid() && r in tasks && tasks[r].at.SaveReactivated?
      modifies this`tasks, this`enrollments
      ensures View() == WriteReactivated(old(View()), r, old(tasks)[r].at.row)
      ensures OnlyMoved(old(tasks), r) && enrollments.Keys == old(enrollments).Keys
      ensures var row := old(tasks)[r].at.row;
        && tasks[r].at == Ended(if row.id in enrollments then Reactivated(row.id) else Rejected(StoreFailed))
        && (forall id :: id in enrollments && id != row.id ==> enrollments[id] == old(enrollments)[id])
        && (row.id in enrollments ==> enrollments[row.id] == old(enrollments)[row.id].(status := ACTIVE, progress := 0))
    {
      if tasks[r].at.row.id in enrollments {
        StaleRow(View(), r, tasks[r].at.row);
      }
      hide Inv;
      var row := tasks[r].at.row;
      if row.id in enrollments {
        enrollments := enrollments[row.id := row];
        MoveTo(r, Ended(Reactivated(row.id)));
      } else {
        MoveTo(r, Ended(Rejected(StoreFailed)));
      }
    }

    /** `createEnrollmentSafely`: the insert commits, or fails on the unique or the foreign key. */
    method CreateEnrollmentSafely(r: nat, found: Option<Text>, newId: Text)
      requires Valid() && QueryAllowed(View(), r, found, newId) && tasks[r].at == InsertEnrollment
      modifies this`tasks, this`enrollments, this`used, this`enrolled, this`enrolledBy
      ensures View() == DoQuery(old(View()), r, found, newId)
      ensures OnlyMoved(old(tasks), r)
      ensures found.Some? <==> HasRow(old(enrollments), JobPair(old(tasks)[r].job))
      ensures var job := old(tasks)[r].job;
        tasks[r].at == Ended(if found.Some? then Rejected(AlreadyEnrolled)
                             else if job.courseId in courses then Created(newId) else Rejected(StoreFailed))
      ensures tasks[r].at != Ended(Created(newId)) ==> enrollments == old(enrollments)
      ensures tasks[r].at == Ended(Created(newId)) ==>
        AddsOnlyRow(old(enrollments), enrollments, JobPair(old(tasks)[r].job), newId)
    {
      RowIffFound(enrollments, JobPair(tasks[r].job), found);
      if found.None? {
        UnusedIsFree(View(), newId);
        RowAdded(enrollments, JobPair(tasks[r].job), newId);
      }
      InsertAnswer(View(), r, found, newId);
      hide Inv, IsEnrollment, AddsOnlyRow, QueryAllowed, DoQuery, HasRow;
      if found.Some? {
        MoveTo(r, Ended(Rejected(AlreadyEnrolled)));
      } else if tasks[r].job.courseId !in courses {
        MoveTo(r, Ended(Rejected(StoreFailed)));
      } else {
        InsertRow(r, newId);
      }
    }

    method InsertRow(r: nat, newId: Text)
      requires r in tasks && tasks[r].job.EnrollJob?
      modifies this`tasks, this`enrollments, this`used, this`enrolled, this`enrolledBy
      ensures View() == WriteEnrollment(old(View()), r, JobPair(old(tasks)[r].job), newId)
      ensures var EnrollJob(studentId, courseId) := old(tasks)[r].job;
        enrollments == old(enrollments)[newId := Enrollment(newId, studentId, courseId, ACTIVE, 0)]
    {
      var EnrollJob(studentId, courseId) := tasks[r].job;
      enrollments := enrollments[newId := Enrollment(newId, studentId, courseId, ACTIVE, 0)];
      used := used + {newId};
      enrolled := enrolled[Pair(studentId, courseId) := newId];
      enrolledBy := enrolledBy[newId := r];
      MoveTo(r, Ended(Created(newId)));
    }

    // ----- updateProgress -----

    /** The transaction of `updateProgress` under the row lock. */
    method SetProgress(id: Text, studentId: Text, progress: Percent) returns (error: Option<Error>)
      requires Valid()
      modifies this`enrollments
      ensures View() == Next(old(View()), UpdateProgress(id, studentId, progress))
      ensures error.None? <==>
        id in old(enrollments) && old(enrollments)[id].studentId == studentId && old(enrollments)[id].status == ACTIVE
      ensures error == Some(EnrollmentNotFound) <==>
        id !in old(enrollments) || old(enrollments)[id].studentId != studentId
      ensures error == None || error == Some(EnrollmentNotFound) || error == Some(EnrollmentNotActive)
      ensures error.Some? ==> enrollments == old(enrollments)
      ensures enrollments.Keys == old(enrollments).Keys
      ensures forall e :: e in enrollments && e != id ==> enrollments[e] == old(enrollments)[e]
      ensures error.None? ==>
        && ProgressOk(enrollments[id]) && EnrollmentPair(enrollments[id]) == EnrollmentPair(old(enrollments)[id])
        && enrollments[id].progress >= progress && enrollments[id].progress >= old(enrollments)[id].progress
        && (enrollments[id].progress == progress || enrollments[id].progress == old(enrollments)[id].progress)
        && (enrollments[id].status == COMPLETED <==> progress == 100)
    {
      if id in enrollments {
        RowInRange(View(), id);
      }
      hide Inv;
      if id !in enrollments || enrollments[id].studentId != studentId {
        return Some(EnrollmentNotFound);
      }
      var enrollment := enrollments[id];
      if enrollment.status != ACTIVE {
        return Some(EnrollmentNotActive);
      }
      var nextProgress := Max(enrollment.progress, progress);
      enrollment := enrollment.(progress := nextProgress);
      if nextProgress == 100 {
        enrollment := enrollment.(status := COMPLETED);
      }
      enrollments := enrollments[id := enrollment];
      return None;
    }

    // ----- submitOnce -----

    /** `findOne` of the assignment, `assertAssignmentPublished` and `assertSubmissionWithinDeadline`. */
    method FindAssignment(r: nat)
      requires r in tasks && tasks[r].at == Start && tasks[r].job.SubmitJob?
      modifies this`tasks
      ensures View() == SetAt(old(View()), r, AfterStart(old(View()), old(tasks)[r].job))
      ensures OnlyMoved(old(tasks), r)
      ensures var p := JobPair(old(tasks)[r].job);
        && (tasks[r].at == Ended(Rejected(AssignmentNotFound)) <==> p.target !in assignments)
        && (tasks[r].at == Ended(Rejected(AssignmentNotPublished)) <==>
              p.target in assignments && !assignments[p.target].isPublished)
        && (tasks[r].at == Ended(Rejected(DeadlinePassed)) <==>
              && p.target in assignments && assignments[p.target].isPublished
              && assignments[p.target].dueDate.Some? && assignments[p.target].dueDate.value < clock)
        && (tasks[r].at.CheckEnrolled? <==> Alone.MaySubmit(View(), p))
        && (tasks[r].at.CheckEnrolled? ==> tasks[r].at.courseId == assignments[p.target].courseId)
    {
      var assignmentId := tasks[r].job.assignmentId;
      if assignmentId !in assignments {
        MoveTo(r, Ended(Rejected(AssignmentNotFound)));
        return;
      }
      var assignment := assignments[assignmentId];
      if !assignment.isPublished {
        MoveTo(r, Ended(Rejected(AssignmentNotPublished)));
      } else if assignment.dueDate.Some? && clock > assignment.dueDate.value {
        MoveTo(r, Ended(Rejected(DeadlinePassed)));
      } else {
        MoveTo(r, CheckEnrolled(assignment.courseId));
      }
    }

    /** `createSubmissionSafely`: the insert commits, or fails on the unique index. */
    method CreateSubmissionSafely(r: nat, found: Option<Text>, newId: Text)
      requires Valid() && QueryAllowed(View(), r, found, newId) && tasks[r].at.CreateSubmission?
      modifies this`tasks, this`submissions, this`used, this`submitted, this`submittedBy
      ensures View() == DoQuery(old(View()), r, found, newId)
      ensures OnlyMoved(old(tasks), r)
      ensures tasks[r].at == Ended(if found.Some? then Rejected(AlreadySubmitted) else Created(newId))
      ensures found.Some? <==> Alone.HasSubmitted(old(submissions), JobPair(old(tasks)[r].job))
      ensures found.Some? ==> submissions == old(submissions)
      ensures found.None? ==>
        AddsOnlyDocument(old(submissions), submissions, JobPair(old(tasks)[r].job), newId, old(tasks)[r].job.work)
    {
      Alone.SubmittedIffFound(submissions, JobPair(tasks[r].job), found);
      if found.None? {
        UnusedIsFree(View(), newId);
        DocumentAdded(submissions, JobPair(tasks[r].job), newId, tasks[r].job.work);
      }
      CreateAnswer(View(), r, found, newId);
      hide Inv, IsSubmission, AddsOnlyDocument, QueryAllowed, DoQuery, Alone.HasSubmitted;
      if found.Some? {
        MoveTo(r, Ended(Rejected(AlreadySubmitted)));
      } else {
        InsertDocument(r, newId);
      }
    }

    method InsertDocument(r: nat, newId: Text)
      requires r in tasks && tasks[r].job.SubmitJob?
      modifies this`tasks, this`submissions, this`used, this`submitted, this`submittedBy
      ensures View() == WriteSubmission(old(View()), r, JobPair(old(tasks)[r].job), old(tasks)[r].job.work, newId)
      ensures var p := JobPair(old(tasks)[r].job);
        submissions == old(submissions)[newId := NewSubmission(newId, p, old(tasks)[r].job.work)]
    {
      var SubmitJob(studentId, assignmentId, work) := tasks[r].job;
      submissions := submissions[newId :=
        Submission(newId, studentId, assignmentId, work, SUBMITTED, None, None, None, false, None, None)];
      used := used + {newId};
      submitted := submitted[Pair(studentId, assignmentId) := newId];
      submittedBy := submittedBy[newId := r];
      MoveTo(r, Ended(Created(newId)));
    }

    // ----- addFeedback -----

    /** `findSubmissionOrFail` and `assertSubmissionBelongsToAssignment`. */
    method FindSubmission(r: nat)
      requires r in tasks && tasks[r].at == Start && tasks[r].job.FeedbackJob?
      modifies this`tasks
      ensures View() == SetAt(old(View()), r, AfterStart(old(View()), old(tasks)[r].job))
      ensures OnlyMoved(old(tasks), r)
      ensures var FeedbackJob(id, assignmentId, _, _, _) := old(tasks)[r].job;
        && (tasks[r].at == Ended(Rejected(SubmissionNotFound)) <==> id !in submissions)
        && (tasks[r].at == Ended(Rejected(AssignmentMismatch)) <==>
              id in submissions && submissions[id].assignmentId != assignmentId)
        && (tasks[r].at == CheckOwner <==> id in submissions && submissions[id].assignmentId == assignmentId)
    {
      var FeedbackJob(submissionId, assignmentId, _, _, _) := tasks[r].job;
      if submissionId !in submissions {
        MoveTo(r, Ended(Rejected(SubmissionNotFound)));
      } else if submissions[submissionId].assignmentId != assignmentId {
        MoveTo(r, Ended(Rejected(AssignmentMismatch)));
      } else {
        MoveTo(r, CheckOwner);
      }
    }

    /** `updateFeedbackAtomically`. */
    method UpdateFeedbackAtomically(r: nat)
      requires r in tasks && tasks[r].at == UpdateFeedback && tasks[r].job.FeedbackJob?
      modifies this`tasks, this`submissions, this`scoredBy
      ensures View() == WriteFeedback(old(View()), r, old(tasks)[r].job)
      ensures submissions.Keys == old(submissions).Keys
      ensures forall d :: d in submissions ==> SameOrigin(old(submissions)[d], submissions[d])
      ensures forall d ::
        d in submissions && (d != old(tasks)[r].job.submissionId || old(submissions)[d].status == REVIEWED) ==>
        submissions[d] == old(submissions)[d]
      ensures var FeedbackJob(id, assignmentId, _, feedback, score) := old(tasks)[r].job;
        if id in old(submissions) && old(submissions)[id].assignmentId == assignmentId
          && old(submissions)[id].status != REVIEWED
        then
          && tasks[r].at == Ended(Reviewed(id))
          && submissions[id] == old(submissions)[id].(
               feedback := Some(feedback), reviewedAt := Some(clock),
               status := if score == Absent then RETURNED else REVIEWED,
               score := if score == Absent then None else score.score)
        else tasks[r].at == Ended(Rejected(AlreadyReviewed)) && submissions == old(submissions)
    {
      var FeedbackJob(submissionId, assignmentId, _, feedback, score) := tasks[r].job;
      if submissionId in submissions && submissions[submissionId].assignmentId == assignmentId
        && submissions[submissionId].status != REVIEWED {
        var updated := submissions[submissionId].(feedback := Some(feedback), reviewedAt := Some(clock));
        if score.Given? {
          updated := updated.(score := score.score);
          updated := updated.(status := REVIEWED);
          scoredBy := scoredBy[submissionId := r];
        } else {
          updated := updated.(score := None);
          updated := updated.(status := RETURNED);
        }
        submissions := submissions[submissionId := updated];
        MoveTo(r, Ended(Reviewed(submissionId)));
      } else {
        MoveTo(r, Ended(Rejected(AlreadyReviewed)));
      }
    }

    // ----- replayEnrollment and replaySubmission -----

    /** The row of the stored identifier is looked up. */
    method FindReplayed(r: nat)
      requires r in tasks && tasks[r].at == Start
        && (tasks[r].job.ReplayEnrollmentJob? || tasks[r].job.ReplaySubmissionJob?)
      modifies this`tasks
      ensures View() == SetAt(old(View()), r, AfterStart(old(View()), old(tasks)[r].job))
      ensures OnlyMoved(old(tasks), r)
      ensures var job := old(tasks)[r].job;
        var ids := if job.ReplayEnrollmentJob? then enrollments.Keys else submissions.Keys;
        var error := if job.ReplayEnrollmentJob? then EnrollmentNotFound else SubmissionNotFound;
        && (forall id :: tasks[r].at == Ended(Found(id)) <==> job.id == Some(id) && id in ids)
        && (job.id.None? || job.id.value !in ids ==> tasks[r].at == Ended(Rejected(error)))
    {
      var id := tasks[r].job.id;
      if tasks[r].job.ReplayEnrollmentJob? {
        MoveTo(r, Ended(if id.Some? && id.value in enrollments then Found(id.value) else Rejected(EnrollmentNotFound)));
      } else {
        MoveTo(r, Ended(if id.Some? && id.value in submissions then Found(id.value) else Rejected(SubmissionNotFound)));
      }
    }

    // ----- Any step -----

    method BeginBody(r: nat)
      requires r in tasks && tasks[r].at == Start
      modifies this`tasks
      ensures View() == SetAt(old(View()), r, AfterStart(old(View()), old(tasks)[r].job))
    {
      match tasks[r].job
      case EnrollJob(_, _) => FindPublishedCourse(r);
      case SubmitJob(_, _, _) => FindAssignment(r);
      case FeedbackJob(_, _, _, _, _) => FindSubmission(r);
      case _ => FindReplayed(r);
    }

    method AnswerQuery(r: nat, found: Option<Text>, newId: Text)
      requires Valid()
      modifies this
      ensures View() == Next(old(View()), Query(r, found, newId))
    {
      if QueryAllowed(State(clock, courses, assignments, enrollments, submissions, tasks, used, enrolled, submitted,
        enrolledBy, submittedBy, scoredBy),
          r, found, newId) {
        AnswerAllowedQuery(r, found, newId);
      }
    }

    method AnswerAllowedQuery(r: nat, found: Option<Text>, newId: Text)
      requires Valid() && QueryAllowed(View(), r, found, newId)
      modifies this
      ensures View() == DoQuery(old(View()), r, found, newId)
    {
      hide Inv, SetAt, AfterStart, WriteReactivated, WriteFeedback, WriteEnrollment, WriteSubmission, IsEnrollment,
        IsSubmission;
      match tasks[r].at
      case Start => BeginBody(r);
      case CheckExisting => AssertNoEnrollment(r, found, newId);
      case FindDropped => FindDroppedEnrollment(r, found, newId);
      case SaveReactivated(_) => SaveReactivatedRow(r);
      case InsertEnrollment => CreateEnrollmentSafely(r, found, newId);
      case CheckEnrolled(courseId) => MoveTo(r, if found.None? then Ended(Rejected(NotEnrolled))
        else CheckDuplicate(courseId));
      case CheckDuplicate(courseId) => MoveTo(r, if found.Some? then Ended(Rejected(AlreadySubmitted))
        else CreateSubmission(courseId));
      case CreateSubmission(_) => CreateSubmissionSafely(r, found, newId);
      case CheckOwner => MoveTo(r,
        AfterCheckOwner(State(clock, courses, assignments, enrollments, submissions, tasks, used, enrolled, submitted,
          enrolledBy, submittedBy, scoredBy), tasks[r].job.assignmentId, tasks[r].job.userId));
      case UpdateFeedback => UpdateFeedbackAtomically(r);
    }

    method RemoveCourseCascade(id: Text)
      modifies this`courses, this`enrollments, this`assignments
      ensures View() == DoRemoveCourse(old(View()), id)
      ensures courses == old(courses) - {id}
      ensures forall e :: e in enrollments <==> e in old(enrollments) && old(enrollments)[e].courseId != id
      ensures forall e :: e in enrollments ==> enrollments[e] == old(enrollments)[e]
      ensures forall a :: a in assignments <==> a in old(assignments) && old(assignments)[a].courseId != id
      ensures forall a :: a in assignments ==> assignments[a] == old(assignments)[a]
    {
      courses := courses - {id};
      enrollments := map e | e in enrollments && enrollments[e].courseId != id :: enrollments[e];
      assignments := map a | a in assignments && assignments[a].courseId != id :: assignments[a];
    }

    method Step(a: Action)
      requires Valid()
      modifies this
      ensures Valid() && View() == Next(old(View()), a)
    {
      NextKeepsInv(View(), a);
      hide Inv;
      match a
      case Query(r, found, newId) => AnswerQuery(r, found, newId);
      case UpdateProgress(id, studentId, progress) =>
        var _ := SetProgress(id, studentId, progress);
      case RemoveCourse(id) => RemoveCourseCascade(id);
      case _ => OtherStep(a);
    }

    method OtherStep(a: Action)
      requires !a.Query? && !a.UpdateProgress? && !a.RemoveCourse?
      modifies this`clock, this`tasks, this`enrollments, this`courses, this`used, this`assignments, this`submissions
      ensures View() == Next(old(View()), a)
    {
      hide DoQuery, QueryAllowed, DoBegin, DoFail, DoDrop, DoProgress, DoCreateCourse, DoPublishCourse, DoRemoveCourse,
        DoCreateAssignment, DoPublishAssignment, DoModerate;
      match a
      case Tick(ms) => PassTime(ms);
      case Begin(r, job) => BeginJob(r, job);
      case Fail(r) => FailJob(r);
      case Drop(id) => DropRow(id);
      case CreateCourse(id, tutorId, published) => AddCourse(id, tutorId, published);
      case PublishCourse(id, published) => SetCoursePublished(id, published);
      case CreateAssignment(id, courseId, dueDate) => AddAssignment(id, courseId, dueDate);
      case PublishAssignment(id, published) => SetAssignmentPublished(id, published);
      case ModerateSubmission(id, isHidden, reason) => HideSubmission(id, isHidden, reason);
    }

    method PassTime(ms: nat)
      modifies this`clock
      ensures View() == old(View()).(clock := old(clock) + ms)
    {
      clock := clock + ms;
    }

    method BeginJob(r: nat, job: Job)
      modifies this`tasks
      ensures View() == DoBegin(old(View()), r, job)
      ensures tasks == if r in old(tasks) then old(tasks) else old(tasks)[r := Task(job, Start)]
    {
      if r !in tasks {
        tasks := tasks[r := Task(job, Start)];
      }
    }

    /** The pending call of a job throws. */
    method FailJob(r: nat)
      modifies this`tasks
      ensures View() == DoFail(old(View()), r)
      ensures OnlyMoved(old(tasks), r)
      ensures r in tasks ==>
        tasks[r].at == if old(tasks)[r].at.Ended? then old(tasks)[r].at else Ended(Rejected(StoreFailed))
    {
      if r in tasks && !tasks[r].at.Ended? {
        MoveTo(r, Ended(Rejected(StoreFailed)));
      }
    }

    method DropRow(id: Text)
      modifies this`enrollments
      ensures View() == DoDrop(old(View()), id)
      ensures enrollments ==
        if id in old(enrollments) then old(enrollments)[id := old(enrollments)[id].(status := DROPPED)]
        else old(enrollments)
    {
      if id in enrollments {
        enrollments := enrollments[id := enrollments[id].(status := DROPPED)];
      }
    }

    method AddCourse(id: Text, tutorId: Text, published: bool)
      modifies this`courses, this`used
      ensures View() == DoCreateCourse(old(View()), id, tutorId, published)
      ensures courses == if id in old(used) then old(courses) else old(courses)[id := Course(tutorId, published)]
    {
      if id !in used {
        courses := courses[id := Course(tutorId, published)];
        used := used + {id};
      }
    }

    method SetCoursePublished(id: Text, published: bool)
      modifies this`courses
      ensures View() == DoPublishCourse(old(View()), id, published)
      ensures courses.Keys == old(courses).Keys
      ensures forall c :: c in courses && c != id ==> courses[c] == old(courses)[c]
      ensures id in courses ==> courses[id] == old(courses)[id].(isPublished := published)
    {
      if id in courses {
        courses := courses[id := courses[id].(isPublished := published)];
      }
    }

    method AddAssignment(id: Text, courseId: Text, dueDate: Option<nat>)
      modifies this`assignments, this`used
      ensures View() == DoCreateAssignment(old(View()), id, courseId, dueDate)
      ensures assignments ==
        if id in old(used) || courseId !in courses then old(assignments)
        else old(assignments)[id := Assignment(courseId, true, dueDate)]
    {
      if id !in used && courseId in courses {
        assignments := assignments[id := Assignment(courseId, true, dueDate)];
        used := used + {id};
      }
    }

    method SetAssignmentPublished(id: Text, published: bool)
      modifies this`assignments
      ensures View() == DoPublishAssignment(old(View()), id, published)
      ensures assignments.Keys == old(assignments).Keys
      ensures forall a :: a in assignments && a != id ==> assignments[a] == old(assignments)[a]
      ensures id in assignments ==> assignments[id] == old(assignments)[id].(isPublished := published)
    {
      if id in assignments {
        assignments := assignments[id := assignments[id].(isPublished := published)];
      }
    }

    /** The `$set` of a moderation. */
    method HideSubmission(id: Text, isHidden: bool, reason: Option<Text>)
      modifies this`submissions
      ensures View() == DoModerate(old(View()), id, isHidden, reason)
      ensures submissions.Keys == old(submissions).Keys
      ensures forall d :: d in submissions && d != id ==> submissions[d] == old(submissions)[d]
      ensures id in submissions ==> submissions[id] == old(submissions)[id].(isAdminHidden := isHidden,
        adminHiddenReason := if isHidden then reason else None,
        adminHiddenAt := if isHidden then Some(clock) else None)
    {
      if id in submissions {
        var hidden := submissions[id].(isAdminHidden := isHidden);
        hidden := hidden.(adminHiddenReason := if isHidden then reason else None);
        hidden := hidden.(adminHiddenAt := if isHidden then Some(clock) else None);
        submissions := submissions[id := hidden];
      }
    }

    /** Any schedule of steps keeps the invariant, every document, and every review with a score. */
    method Drive(schedule: seq<Action>)
      requires Valid()
      modifies this
      ensures Valid() && View() == Run(old(View()), schedule)
      ensures forall d :: d in old(submissions) ==> d in submissions && SameOrigin(old(submissions)[d], submissions[d])
      ensures forall d :: d in old(submissions) && old(submissions)[d].status == REVIEWED ==>
        d in submissions && SameReview(old(submissions)[d], submissions[d])
    {
      ghost var start := View();
      for i := 0 to |schedule|
        invariant Valid() && Run(start, schedule) == Run(View(), schedule[i..])
      {
        assert schedule[i..][0] == schedule[i] && schedule[i..][1..] == schedule[i + 1..];
        Step(schedule[i]);
      }
      hide Inv;
      forall d | d in start.submissions
        ensures d in submissions && SameOrigin(start.submissions[d], submissions[d])
        ensures start.submissions[d].status == REVIEWED ==> SameReview(start.submissions[d], submissions[d])
      {
        ReviewedIsFinal(start, schedule, d);
      }
    }
  }
}
