/** Enrolment, submission and feedback as a machine of interleaved steps over the two databases. */
module Learning {
  import opened Texts
  import opened Entities

  // ----- Work in flight -----

  datatype Job =
    | EnrollJob(studentId: Text, courseId: Text)                         // enrollOnce
    | SubmitJob(studentId: Text, assignmentId: Text, work: Work)      // submitOnce
    | ReplayEnrollmentJob(id: Option<Text>)
    | ReplaySubmissionJob(id: Option<Text>)
    | FeedbackJob(submissionId: Text, assignmentId: Text, userId: Text, feedback: Text, score: ScoreInput)

  datatype Error =
    | CourseNotFound | CannotEnrollOwnCourse | AlreadyEnrolled | EnrollmentNotFound
    | AssignmentNotFound | AssignmentNotPublished | DeadlinePassed | NotEnrolled | AlreadySubmitted
    | EnrollmentNotActive | SubmissionNotFound | AssignmentMismatch | NotCourseOwner | AlreadyReviewed | StoreFailed

  datatype Outcome =
    | Created(id: Text) | Reactivated(id: Text) | Found(id: Text) | Reviewed(id: Text) | Rejected(error: Error)

  /** The database call a job waits for. */
  datatype At =
    | Start
    | CheckExisting
    | FindDropped
    | SaveReactivated(row: Enrollment)
    | InsertEnrollment
    | CheckEnrolled(courseId: Text)
    | CheckDuplicate(courseId: Text)
    | CreateSubmission(courseId: Text)
    | CheckOwner
    | UpdateFeedback
    | Ended(outcome: Outcome)

  datatype Task = Task(job: Job, at: At)

  datatype State = State(
    clock: nat,
    courses: map<Text, Course>,
    assignments: map<Text, Assignment>,
    enrollments: map<Text, Enrollment>,
    submissions: map<Text, Submission>,
    tasks: map<nat, Task>,
    // history
    used: set<Text>,                  // every id ever handed out
    enrolled: map<Pair, Text>,        // the enrolment row first created for a pair
    submitted: map<Pair, Text>,       // the submission first created for a pair
    enrolledBy: map<Text, nat>,       // the job that created an enrolment row
    submittedBy: map<Text, nat>,      // the job that created a submission
    scoredBy: map<Text, nat>)         // the job that made a submission REVIEWED

  function Init(): State { State(0, map[], map[], map[], map[], map[], {}, map[], map[], map[], map[], map[]) }

  datatype Action =
    | Tick(ms: nat)
    | Begin(r: nat, job: Job)
    | Query(r: nat, found: Option<Text>, newId: Text)   // the pending database call is answered
    | Fail(r: nat)                                      // it throws, or the process stops
    | UpdateProgress(id: Text, studentId: Text, progress: Percent)
    | Drop(id: Text)                                    // nothing in the repository does this; the environment may
    | CreateCourse(id: Text, tutorId: Text, published: bool)
    | PublishCourse(id: Text, published: bool)
    | RemoveCourse(id: Text)
    | CreateAssignment(id: Text, courseId: Text, dueDate: Option<nat>)
    | PublishAssignment(id: Text, published: bool)
    | ModerateSubmission(id: Text, isHidden: bool, reason: Option<Text>)

  // ----- Queries -----

  /** `found` is a legal answer of the query for a row of the pair with one of the wanted states. */
  predicate IsEnrollment(rows: map<Text, Enrollment>, p: Pair, wanted: set<EnrollmentStatus>, found: Option<Text>) {
    if found.Some? then found.value in rows && EnrollmentPair(rows[found.value]) == p
      && rows[found.value].status in wanted
    else forall id :: id in rows ==> !(EnrollmentPair(rows[id]) == p && rows[id].status in wanted)
  }

  predicate IsSubmission(docs: map<Text, Submission>, p: Pair, found: Option<Text>) {
    if found.Some? then found.value in docs && SubmissionPair(docs[found.value]) == p
    else forall id :: id in docs ==> SubmissionPair(docs[id]) != p
  }

  const ENROLLED: set<EnrollmentStatus> := {ACTIVE, COMPLETED}
  const ANY_STATUS: set<EnrollmentStatus> := {ACTIVE, COMPLETED, DROPPED}

  function JobPair(job: Job): Pair
    requires job.EnrollJob? || job.SubmitJob?
  {
    if job.EnrollJob? then Pair(job.studentId, job.courseId) else Pair(job.studentId, job.assignmentId)
  }

  /** A job is only ever at the calls of its own body. */
  predicate Fits(t: Task) {
    match t.at
    case Start => true
    case CheckExisting => t.job.EnrollJob?
    case FindDropped => t.job.EnrollJob?
    case SaveReactivated(_) => t.job.EnrollJob?
    case InsertEnrollment => t.job.EnrollJob?
    case CheckEnrolled(_) => t.job.SubmitJob?
    case CheckDuplicate(_) => t.job.SubmitJob?
    case CreateSubmission(_) => t.job.SubmitJob?
    case CheckOwner => t.job.FeedbackJob?
    case UpdateFeedback => t.job.FeedbackJob?
    case Ended(_) => true
  }

  predicate QueryAllowed(s: State, r: nat, found: Option<Text>, newId: Text) {
    && r in s.tasks && Fits(s.tasks[r])
    && var job := s.tasks[r].job;
    match s.tasks[r].at
    case CheckExisting => IsEnrollment(s.enrollments, JobPair(job), ENROLLED, found)
    case FindDropped => IsEnrollment(s.enrollments, JobPair(job), {DROPPED}, found)
    case InsertEnrollment => IsEnrollment(s.enrollments, JobPair(job), ANY_STATUS, found) && newId !in s.used
    case CheckEnrolled(courseId) => IsEnrollment(s.enrollments, Pair(job.studentId, courseId), ENROLLED, found)
    case CheckDuplicate(_) => IsSubmission(s.submissions, JobPair(job), found)
    case CreateSubmission(_) => IsSubmission(s.submissions, JobPair(job), found) && newId !in s.used
    case Ended(_) => false
    case _ => true
  }

  // ----- Steps of a job -----

  function SetAt(s: State, r: nat, at: At): (t: State)
    requires r in s.tasks
    ensures r in t.tasks
  {
    s.(tasks := s.tasks[r := s.tasks[r].(at := at)])
  }

  function Reject(s: State, r: nat, error: Error): State
    requires r in s.tasks
  {
    SetAt(s, r, Ended(Rejected(error)))
  }

  /** The first query of a body and the synchronous checks after it. */
  function AfterStart(s: State, job: Job): At {
    match job
    case EnrollJob(studentId, courseId) =>
      if courseId !in s.courses || !s.courses[courseId].isPublished then Ended(Rejected(CourseNotFound))
      else if s.courses[courseId].tutorId == studentId then Ended(Rejected(CannotEnrollOwnCourse))
      else CheckExisting
    case SubmitJob(_, assignmentId, _) =>
      if assignmentId !in s.assignments then Ended(Rejected(AssignmentNotFound))
      else
        var a := s.assignments[assignmentId];
        if !a.isPublished then Ended(Rejected(AssignmentNotPublished))
        else if a.dueDate.Some? && s.clock > a.dueDate.value then Ended(Rejected(DeadlinePassed))
        else CheckEnrolled(a.courseId)
    case ReplayEnrollmentJob(id) =>
      Ended(if id.Some? && id.value in s.enrollments then Found(id.value) else Rejected(EnrollmentNotFound))
    case ReplaySubmissionJob(id) =>
      Ended(if id.Some? && id.value in s.submissions then Found(id.value) else Rejected(SubmissionNotFound))
    case FeedbackJob(submissionId, assignmentId, _, _, _) =>
      if submissionId !in s.submissions then Ended(Rejected(SubmissionNotFound))
      else if s.submissions[submissionId].assignmentId != assignmentId then Ended(Rejected(AssignmentMismatch))
      else CheckOwner
  }

  /** `findOne` of the assignment with its course, and the ownership policy. */
  function AfterCheckOwner(s: State, assignmentId: Text, userId: Text): At {
    if assignmentId !in s.assignments
      || s.assignments[assignmentId].courseId !in s.courses then Ended(Rejected(AssignmentNotFound))
    else if s.courses[s.assignments[assignmentId].courseId].tutorId != userId then Ended(Rejected(NotCourseOwner))
    else UpdateFeedback
  }

  /** `save(dropped)`: the row read before is written back as ACTIVE; a row that is gone cannot be written. */
  function WriteReactivated(s: State, r: nat, row: Enrollment): State
    requires r in s.tasks
  {
    if row.id in s.enrollments then
      SetAt(s, r, Ended(Reactivated(row.id))).(enrollments := s.enrollments[row.id := row])
    else Reject(s, r, StoreFailed)
  }

  function WriteEnrollment(s: State, r: nat, p: Pair, newId: Text): State
    requires r in s.tasks
  {
    SetAt(s, r, Ended(Created(newId))).(
      enrollments := s.enrollments[newId := NewEnrollment(newId, p)], used := s.used + {newId},
      enrolled := s.enrolled[p := newId], enrolledBy := s.enrolledBy[newId := r])
  }

  function WriteSubmission(s: State, r: nat, p: Pair, work: Work, newId: Text): State
    requires r in s.tasks
  {
    SetAt(s, r, Ended(Created(newId))).(
      submissions := s.submissions[newId := NewSubmission(newId, p, work)], used := s.used + {newId},
      submitted := s.submitted[p := newId], submittedBy := s.submittedBy[newId := r])
  }

  /** The conditional update: it matches a document of the assignment that is not REVIEWED. */
  function WriteFeedback(s: State, r: nat, job: Job): State
    requires r in s.tasks && job.FeedbackJob?
  {
    var id := job.submissionId;
    if id in s.submissions && s.submissions[id].assignmentId == job.assignmentId
      && s.submissions[id].status != REVIEWED then
      SetAt(s, r, Ended(Reviewed(id))).(
        submissions := s.submissions[id := Review(s.submissions[id], job.feedback, job.score, s.clock)],
        scoredBy := if job.score.Given? then s.scoredBy[id := r] else s.scoredBy)
    else Reject(s, r, AlreadyReviewed)
  }

  function DoQuery(s: State, r: nat, found: Option<Text>, newId: Text): State
    requires QueryAllowed(s, r, found, newId)
  {
    var job := s.tasks[r].job;
    match s.tasks[r].at
    case Start => SetAt(s, r, AfterStart(s, job))
    case CheckExisting => if found.Some? then Reject(s, r, AlreadyEnrolled) else SetAt(s, r, FindDropped)
    case FindDropped =>
      SetAt(s, r, if found.Some? then SaveReactivated(s.enrollments[found.value].(status := ACTIVE, progress := 0))
        else InsertEnrollment)
    case SaveReactivated(row) => WriteReactivated(s, r, row)
    case InsertEnrollment =>
      if found.Some? then Reject(s, r, AlreadyEnrolled)
      else if job.courseId !in s.courses then Reject(s, r, StoreFailed)
      else WriteEnrollment(s, r, JobPair(job), newId)
    case CheckEnrolled(courseId) => if found.None? then Reject(s, r, NotEnrolled)
      else SetAt(s, r, CheckDuplicate(courseId))
    case CheckDuplicate(courseId) => if found.Some? then Reject(s, r, AlreadySubmitted)
      else SetAt(s, r, CreateSubmission(courseId))
    case CreateSubmission(_) =>
      if found.Some? then Reject(s, r, AlreadySubmitted) else WriteSubmission(s, r, JobPair(job), job.work, newId)
    case CheckOwner => SetAt(s, r, AfterCheckOwner(s, job.assignmentId, job.userId))
    case UpdateFeedback => WriteFeedback(s, r, job)
  }

  // ----- Steps of the rest of the application -----

  /** The locked transaction of `updateProgress`. */
  function DoProgress(s: State, id: Text, studentId: Text, progress: Percent): (t: State)
    ensures t == s.(enrollments := t.enrollments)
  {
    if id in s.enrollments && s.enrollments[id].studentId == studentId && s.enrollments[id].status == ACTIVE then
      s.(enrollments := s.enrollments[id := Advance(s.enrollments[id], progress)])
    else s
  }

  /** Removing a course cascades over its enrolments and assignments; submissions are in the other database. */
  function DoRemoveCourse(s: State, id: Text): (t: State)
    ensures t == s.(courses := t.courses, enrollments := t.enrollments, assignments := t.assignments)
  {
    s.(courses := s.courses - {id},
       enrollments := map e | e in s.enrollments && s.enrollments[e].courseId != id :: s.enrollments[e],
       assignments := map a | a in s.assignments && s.assignments[a].courseId != id :: s.assignments[a])
  }

  function DoBegin(s: State, r: nat, job: Job): (t: State)
    ensures t == s.(tasks := t.tasks)
  {
    if r in s.tasks then s else s.(tasks := s.tasks[r := Task(job, Start)])
  }

  function DoFail(s: State, r: nat): (t: State)
    ensures t == s.(tasks := t.tasks)
  {
    if r in s.tasks && !s.tasks[r].at.Ended? then Reject(s, r, StoreFailed) else s
  }

  function DoDrop(s: State, id: Text): (t: State)
    ensures t == s.(enrollments := t.enrollments)
  {
    if id in s.enrollments then s.(enrollments := s.enrollments[id := s.enrollments[id].(status := DROPPED)]) else s
  }

  function DoCreateCourse(s: State, id: Text, tutorId: Text, published: bool): (t: State)
    ensures t == s.(courses := t.courses, used := t.used)
  {
    if id in s.used then s else s.(courses := s.courses[id := Course(tutorId, published)], used := s.used + {id})
  }

  function DoPublishCourse(s: State, id: Text, published: bool): (t: State)
    ensures t == s.(courses := t.courses)
  {
    if id in s.courses then s.(courses := s.courses[id := s.courses[id].(isPublished := published)]) else s
  }

  function DoCreateAssignment(s: State, id: Text, courseId: Text, dueDate: Option<nat>): (t: State)
    ensures t == s.(assignments := t.assignments, used := t.used)
  {
    if id in s.used || courseId !in s.courses then s
    else s.(assignments := s.assignments[id := Assignment(courseId, true, dueDate)], used := s.used + {id})
  }

  function DoPublishAssignment(s: State, id: Text, published: bool): (t: State)
    ensures t == s.(assignments := t.assignments)
  {
    if id in s.assignments then s.(assignments := s.assignments[id := s.assignments[id].(isPublished := published)])
      else s
  }

  function DoModerate(s: State, id: Text, isHidden: bool, reason: Option<Text>): (t: State)
    ensures t == s.(submissions := t.submissions)
  {
    if id in s.submissions then
      s.(submissions := s.submissions[id := Moderate(s.submissions[id], isHidden, reason, s.clock)]) else s
  }

  function Next(s: State, a: Action): State {
    match a
    case Tick(ms) => s.(clock := s.clock + ms)
    case Begin(r, job) => DoBegin(s, r, job)
    case Query(r, found, newId) => if QueryAllowed(s, r, found, newId) then DoQuery(s, r, found, newId) else s
    case Fail(r) => DoFail(s, r)
    case UpdateProgress(id, studentId, progress) => DoProgress(s, id, studentId, progress)
    case Drop(id) => DoDrop(s, id)
    case CreateCourse(id, tutorId, published) => DoCreateCourse(s, id, tutorId, published)
    case PublishCourse(id, published) => DoPublishCourse(s, id, published)
    case RemoveCourse(id) => DoRemoveCourse(s, id)
    case CreateAssignment(id, courseId, dueDate) => DoCreateAssignment(s, id, courseId, dueDate)
    case PublishAssignment(id, published) => DoPublishAssignment(s, id, published)
    case ModerateSubmission(id, isHidden, reason) => DoModerate(s, id, isHidden, reason)
  }

  function Run(s: State, schedule: seq<Action>): State
    decreases |schedule|
  {
    if schedule == [] then s else Run(Next(s, schedule[0]), schedule[1..])
  }

  // ----- What one call changes -----

  ghost predicate EnrollmentEffect(s: State, t: State, r: nat, newId: Text)
    requires r in s.tasks && Fits(s.tasks[r])
  {
    var job, at := s.tasks[r].job, s.tasks[r].at;
    || (t.enrollments == s.enrollments && t.enrolled == s.enrolled)
    || (at.SaveReactivated? && at.row.id in s.enrollments && t.enrolled == s.enrolled
          && t.enrollments == s.enrollments[at.row.id := at.row])
    || (at == InsertEnrollment && newId !in s.used && IsEnrollment(s.enrollments, JobPair(job), ANY_STATUS, None)
        && t.enrollments == s.enrollments[newId := NewEnrollment(newId, JobPair(job))]
        && t.enrolled == s.enrolled[JobPair(job) := newId])
  }

  /** The job's feedback is for a document of its assignment that is not REVIEWED. */
  predicate Accepts(s: State, job: Job)
    requires job.FeedbackJob?
  {
    && job.submissionId in s.submissions && s.submissions[job.submissionId].assignmentId == job.assignmentId
    && s.submissions[job.submissionId].status != REVIEWED
  }

  ghost predicate SubmissionEffect(s: State, t: State, r: nat, newId: Text)
    requires r in s.tasks && Fits(s.tasks[r])
  {
    var job, at := s.tasks[r].job, s.tasks[r].at;
    || (t.submissions == s.submissions && t.submitted == s.submitted)
    || (at.CreateSubmission? && newId !in s.used && IsSubmission(s.submissions, JobPair(job), None)
        && t.submissions == s.submissions[newId := NewSubmission(newId, JobPair(job), job.work)]
        && t.submitted == s.submitted[JobPair(job) := newId])
    || (at == UpdateFeedback && Accepts(s, job) && t.submitted == s.submitted
        && t.submissions
          == s.submissions[job.submissionId :=
            Review(s.submissions[job.submissionId], job.feedback, job.score, s.clock)])
  }

  /** Where one call can take a job. */
  ghost predicate Leads(s: State, r: nat, found: Option<Text>, newId: Text, to: At)
    requires r in s.tasks && Fits(s.tasks[r])
  {
    var job := s.tasks[r].job;
    match s.tasks[r].at
    case Start => to == AfterStart(s, job)
    case CheckExisting => to == if found.Some? then Ended(Rejected(AlreadyEnrolled)) else FindDropped
    case FindDropped =>
      if found.None? then to == InsertEnrollment
      else
        && to.SaveReactivated? && found.value in s.enrollments
        && to.row == s.enrollments[found.value].(status := ACTIVE, progress := 0)
    case SaveReactivated(row) =>
      to == Ended(if row.id in s.enrollments then Reactivated(row.id) else Rejected(StoreFailed))
    case InsertEnrollment =>
      if found.Some? then to == Ended(Rejected(AlreadyEnrolled))
      else if job.courseId !in s.courses then to == Ended(Rejected(StoreFailed))
      else to == Ended(Created(newId))
    case CheckEnrolled(courseId) => to == if found.None? then Ended(Rejected(NotEnrolled)) else CheckDuplicate(courseId)
    case CheckDuplicate(courseId) => to == if found.Some? then Ended(Rejected(AlreadySubmitted))
      else CreateSubmission(courseId)
    case CreateSubmission(_) => to == Ended(if found.Some? then Rejected(AlreadySubmitted) else Created(newId))
    case CheckOwner => to == AfterCheckOwner(s, job.assignmentId, job.userId)
    case UpdateFeedback =>
      to == Ended(if Accepts(s, job) then Reviewed(job.submissionId) else Rejected(AlreadyReviewed))
    case Ended(_) => false
  }

  /** One call of one job: who moves, where to, and what is written. */
  ghost predicate CallEffect(s: State, t: State, r: nat, found: Option<Text>, newId: Text)
    requires r in s.tasks && Fits(s.tasks[r])
  {
    && t.clock == s.clock && t.courses == s.courses && t.assignments == s.assignments
    && EnrollmentEffect(s, t, r, newId) && SubmissionEffect(s, t, r, newId)
    && r in t.tasks && t.tasks == s.tasks[r := Task(s.tasks[r].job, t.tasks[r].at)]
    && Leads(s, r, found, newId, t.tasks[r].at)
    && (s.tasks[r].at == InsertEnrollment && t.tasks[r].at == Ended(Created(newId)) ==>
          JobPair(s.tasks[r].job) in t.enrolled)
  }

  lemma MoveEffect(s: State, r: nat, found: Option<Text>, newId: Text, to: At)
    requires r in s.tasks && Fits(s.tasks[r]) && Leads(s, r, found, newId, to)
    requires s.tasks[r].at == InsertEnrollment ==> to != Ended(Created(newId))
    ensures CallEffect(s, SetAt(s, r, to), r, found, newId)
  {
    hide Leads, Fits;
  }

  lemma ReactivatedEffect(s: State, r: nat, row: Enrollment, found: Option<Text>, newId: Text)
    requires r in s.tasks && Fits(s.tasks[r]) && s.tasks[r].at == SaveReactivated(row)
    ensures CallEffect(s, WriteReactivated(s, r, row), r, found, newId)
  {
    hide Fits, SubmissionEffect;
    if row.id in s.enrollments {
      SubmissionsUntouched(s, WriteReactivated(s, r, row), r, newId);
    } else {
      assert WriteReactivated(s, r, row) == SetAt(s, r, Ended(Rejected(StoreFailed)));
      MoveEffect(s, r, found, newId, Ended(Rejected(StoreFailed)));
    }
  }

  lemma SubmissionsUntouched(s: State, t: State, r: nat, newId: Text)
    requires r in s.tasks && Fits(s.tasks[r]) && t.submissions == s.submissions && t.submitted == s.submitted
    ensures SubmissionEffect(s, t, r, newId)
  {
  }

  lemma EnrollmentsUntouched(s: State, t: State, r: nat, newId: Text)
    requires r in s.tasks && Fits(s.tasks[r]) && t.enrollments == s.enrollments && t.enrolled == s.enrolled
    ensures EnrollmentEffect(s, t, r, newId)
  {
  }

  lemma InsertEnrollmentEffect(s: State, r: nat, newId: Text)
    requires r in s.tasks && Fits(s.tasks[r]) && s.tasks[r].at == InsertEnrollment && newId !in s.used
    requires s.tasks[r].job.courseId in s.courses
      && IsEnrollment(s.enrollments, JobPair(s.tasks[r].job), ANY_STATUS, None)
    ensures CallEffect(s, WriteEnrollment(s, r, JobPair(s.tasks[r].job), newId), r, None, newId)
  {
    hide SubmissionEffect, IsEnrollment, NewEnrollment;
    SubmissionsUntouched(s, WriteEnrollment(s, r, JobPair(s.tasks[r].job), newId), r, newId);
  }

  lemma CreateSubmissionEffect(s: State, r: nat, newId: Text)
    requires r in s.tasks && Fits(s.tasks[r]) && s.tasks[r].at.CreateSubmission? && newId !in s.used
    requires IsSubmission(s.submissions, JobPair(s.tasks[r].job), None)
    ensures CallEffect(s, WriteSubmission(s, r, JobPair(s.tasks[r].job), s.tasks[r].job.work, newId), r, None, newId)
  {
    hide EnrollmentEffect, IsSubmission, NewSubmission;
    EnrollmentsUntouched(s, WriteSubmission(s, r, JobPair(s.tasks[r].job), s.tasks[r].job.work, newId), r, newId);
  }

  lemma FeedbackEffect(s: State, r: nat, found: Option<Text>, newId: Text)
    requires r in s.tasks && Fits(s.tasks[r]) && s.tasks[r].at == UpdateFeedback
    ensures CallEffect(s, WriteFeedback(s, r, s.tasks[r].job), r, found, newId)
  {
    var job := s.tasks[r].job;
    if Accepts(s, job) {
      hide EnrollmentEffect, Review, IsSubmission, Fits;
      EnrollmentsUntouched(s, WriteFeedback(s, r, job), r, newId);
    } else {
      hide CallEffect;
      assert WriteFeedback(s, r, job) == SetAt(s, r, Ended(Rejected(AlreadyReviewed)));
      MoveEffect(s, r, found, newId, Ended(Rejected(AlreadyReviewed)));
    }
  }

  /** Every call changes the state this way. */
  lemma EveryCallEffect(s: State, r: nat, found: Option<Text>, newId: Text)
    requires QueryAllowed(s, r, found, newId)
    ensures CallEffect(s, DoQuery(s, r, found, newId), r, found, newId)
  {
    hide CallEffect, WriteReactivated, WriteEnrollment, WriteSubmission, WriteFeedback, SetAt, AfterStart,
      AfterCheckOwner;
    var job := s.tasks[r].job;
    match s.tasks[r].at
    case SaveReactivated(row) => ReactivatedEffect(s, r, row, found, newId);
    case InsertEnrollment =>
      if found.Some? {
        MoveEffect(s, r, found, newId, Ended(Rejected(AlreadyEnrolled)));
      } else if job.courseId !in s.courses {
        MoveEffect(s, r, found, newId, Ended(Rejected(StoreFailed)));
      } else {
        InsertEnrollmentEffect(s, r, newId);
      }
    case CreateSubmission(_) =>
      if found.Some? {
        MoveEffect(s, r, found, newId, Ended(Rejected(AlreadySubmitted)));
      } else {
        CreateSubmissionEffect(s, r, newId);
      }
    case UpdateFeedback => FeedbackEffect(s, r, found, newId);
    case Start => MoveEffect(s, r, found, newId, AfterStart(s, job));
    case CheckExisting => MoveEffect(s, r, found, newId, if found.Some? then Ended(Rejected(AlreadyEnrolled))
      else FindDropped);
    case FindDropped =>
      MoveEffect(s, r, found, newId,
        if found.Some? then SaveReactivated(s.enrollments[found.value].(status := ACTIVE, progress := 0))
          else InsertEnrollment);
    case CheckEnrolled(courseId) =>
      MoveEffect(s, r, found, newId, if found.None? then Ended(Rejected(NotEnrolled)) else CheckDuplicate(courseId));
    case CheckDuplicate(courseId) =>
      MoveEffect(s, r, found, newId, if found.Some? then Ended(Rejected(AlreadySubmitted))
        else CreateSubmission(courseId));
    case CheckOwner => MoveEffect(s, r, found, newId, AfterCheckOwner(s, job.assignmentId, job.userId));
  }

  // ----- The invariant -----

  ghost predicate CourseOk(s: State, id: Text) { id in s.used }

  ghost predicate AssignmentOk(s: State, id: Text)
    requires id in s.assignments
  {
    id in s.used && s.assignments[id].courseId in s.courses
  }

  ghost predicate EnrollmentOk(s: State, id: Text)
    requires id in s.enrollments
  {
    var e := s.enrollments[id];
    && e.id == id && id in s.used && ProgressOk(e)
    && e.courseId in s.courses && s.courses[e.courseId].tutorId != e.studentId
    && EnrollmentPair(e) in s.enrolled && s.enrolled[EnrollmentPair(e)] == id
  }

  ghost predicate SubmissionOk(s: State, id: Text)
    requires id in s.submissions
  {
    var d := s.submissions[id];
    && d.id == id && id in s.used && d.assignmentId in s.used && ReviewOk(d)
    && SubmissionPair(d) in s.submitted && s.submitted[SubmissionPair(d)] == id
    && (d.assignmentId in s.assignments ==> Pair(d.studentId, s.assignments[d.assignmentId].courseId) in s.enrolled)
  }

  /** A pair keeps its one enrolment row for as long as its course exists. */
  ghost predicate EnrolledOk(s: State, p: Pair)
    requires p in s.enrolled
  {
    var id := s.enrolled[p];
    && p.target in s.used && id in s.used
    && id in s.enrolledBy && s.enrolledBy[id] in s.tasks
    && s.tasks[s.enrolledBy[id]].job.EnrollJob? && JobPair(s.tasks[s.enrolledBy[id]].job) == p
    && (p.target in s.courses ==> id in s.enrollments && EnrollmentPair(s.enrollments[id]) == p)
  }

  ghost predicate SubmittedOk(s: State, p: Pair)
    requires p in s.submitted
  {
    var id := s.submitted[p];
    id in s.used && id in s.submissions && SubmissionPair(s.submissions[id]) == p && id in s.submittedBy
  }

  ghost predicate EnrolledByOk(s: State, id: Text)
    requires id in s.enrolledBy
  {
    var r := s.enrolledBy[id];
    && r in s.tasks && s.tasks[r].job.EnrollJob? && s.tasks[r].at == Ended(Created(id))
    && JobPair(s.tasks[r].job) in s.enrolled && s.enrolled[JobPair(s.tasks[r].job)] == id
  }

  ghost predicate SubmittedByOk(s: State, id: Text)
    requires id in s.submittedBy
  {
    var r := s.submittedBy[id];
    && r in s.tasks && s.tasks[r].job.SubmitJob? && s.tasks[r].at == Ended(Created(id))
    && JobPair(s.tasks[r].job) in s.submitted && s.submitted[JobPair(s.tasks[r].job)] == id
    && id in s.submissions && s.submissions[id].work == s.tasks[r].job.work
  }

  /** The assignment the job read, if it still exists, is in the course the job read. */
  ghost predicate ReadAssignment(s: State, assignmentId: Text, courseId: Text) {
    assignmentId in s.used && (assignmentId in s.assignments ==> s.assignments[assignmentId].courseId == courseId)
  }

  /** The course the job read, if it still exists, is not the student's own. */
  ghost predicate ReadCourse(s: State, p: Pair) {
    p.target in s.used && (p.target in s.courses ==> s.courses[p.target].tutorId != p.studentId)
  }

  ghost predicate EndOk(s: State, r: nat, job: Job, outcome: Outcome) {
    match outcome
    case Created(id) =>
      || (job.EnrollJob? && JobPair(job) in s.enrolled && s.enrolled[JobPair(job)] == id && id in s.enrolledBy
            && s.enrolledBy[id] == r)
      || (job.SubmitJob? && JobPair(job) in s.submitted && s.submitted[JobPair(job)] == id && id in s.submittedBy
            && s.submittedBy[id] == r)
    case Reactivated(id) => job.EnrollJob? && JobPair(job) in s.enrolled && s.enrolled[JobPair(job)] == id
    case Found(id) => job == ReplayEnrollmentJob(Some(id)) || job == ReplaySubmissionJob(Some(id))
    case Reviewed(id) =>
      && job.FeedbackJob? && job.submissionId == id
      && (job.score.Given? ==>
            && id in s.scoredBy && s.scoredBy[id] == r && id in s.submissions
            && s.submissions[id].status == REVIEWED && s.submissions[id].score == job.score.score)
    case Rejected(_) => true
  }

  ghost predicate TaskOk(s: State, r: nat)
    requires r in s.tasks
  {
    var job := s.tasks[r].job;
    && Fits(s.tasks[r])
    && match s.tasks[r].at
       case Start => true
       case CheckExisting => ReadCourse(s, JobPair(job))
       case FindDropped => ReadCourse(s, JobPair(job))
       case InsertEnrollment => ReadCourse(s, JobPair(job))
       case SaveReactivated(row) =>
         && ReadCourse(s, JobPair(job)) && EnrollmentPair(row) == JobPair(job) && row.status == ACTIVE
         && row.progress == 0
         && JobPair(job) in s.enrolled && s.enrolled[JobPair(job)] == row.id
       case CheckEnrolled(courseId) => ReadAssignment(s, job.assignmentId, courseId)
       case CheckDuplicate(courseId) => ReadAssignment(s, job.assignmentId, courseId)
         && Pair(job.studentId, courseId) in s.enrolled
       case CreateSubmission(courseId) => ReadAssignment(s, job.assignmentId, courseId)
         && Pair(job.studentId, courseId) in s.enrolled
       case CheckOwner => true
       case UpdateFeedback => true
       case Ended(outcome) => EndOk(s, r, job, outcome)
  }

  ghost predicate RowsOk(s: State) {
    && (forall id {:trigger CourseOk(s, id)} :: id in s.courses ==> CourseOk(s, id))
    && (forall id {:trigger AssignmentOk(s, id)} :: id in s.assignments ==> AssignmentOk(s, id))
    && (forall id {:trigger EnrollmentOk(s, id)} :: id in s.enrollments ==> EnrollmentOk(s, id))
    && (forall id {:trigger SubmissionOk(s, id)} :: id in s.submissions ==> SubmissionOk(s, id))
  }

  ghost predicate HistoryOk(s: State) {
    && (forall p {:trigger EnrolledOk(s, p)} :: p in s.enrolled ==> EnrolledOk(s, p))
    && (forall p {:trigger SubmittedOk(s, p)} :: p in s.submitted ==> SubmittedOk(s, p))
    && (forall id {:trigger EnrolledByOk(s, id)} :: id in s.enrolledBy ==> EnrolledByOk(s, id))
    && (forall id {:trigger SubmittedByOk(s, id)} :: id in s.submittedBy ==> SubmittedByOk(s, id))
  }

  ghost predicate TasksOk(s: State) {
    forall r {:trigger TaskOk(s, r)} :: r in s.tasks ==> TaskOk(s, r)
  }

  ghost predicate Inv(s: State) { RowsOk(s) && HistoryOk(s) && TasksOk(s) }

  // ----- What every step respects -----

  /** Who handed in what never changes. */
  predicate SameOrigin(d: Submission, e: Submission) { SubmissionPair(e) == SubmissionPair(d) && e.work == d.work }

  /** How the tables and the history may change while a job waits. */
  ghost predicate Evolves(s: State, t: State) {
    && s.used <= t.used
    && (forall p :: p in s.enrolled ==> p in t.enrolled && t.enrolled[p] == s.enrolled[p])
    && (forall p :: p in s.submitted ==> p in t.submitted && t.submitted[p] == s.submitted[p])
    && (forall id :: id in s.enrolledBy ==> id in t.enrolledBy && t.enrolledBy[id] == s.enrolledBy[id])
    && (forall id :: id in s.submittedBy ==> id in t.submittedBy && t.submittedBy[id] == s.submittedBy[id])
    && (forall id :: id in t.courses ==>
          (id in s.courses && t.courses[id].tutorId == s.courses[id].tutorId) || id !in s.used)
    && (forall id :: id in t.assignments ==>
          (id in s.assignments && t.assignments[id].courseId == s.assignments[id].courseId) || id !in s.used)
    && (forall id :: id in s.submissions ==> id in t.submissions && SameOrigin(s.submissions[id], t.submissions[id]))
    && (forall id :: id in s.submissions && s.submissions[id].status == REVIEWED ==>
          t.submissions[id].status == REVIEWED && t.submissions[id].score == s.submissions[id].score
          && t.submissions[id].feedback == s.submissions[id].feedback
          && t.submissions[id].reviewedAt == s.submissions[id].reviewedAt
          && (id in s.scoredBy ==> id in t.scoredBy && t.scoredBy[id] == s.scoredBy[id]))
  }

  lemma OnlyAdds(s: State, t: State)
    requires s.used <= t.used && t.courses == s.courses && t.assignments == s.assignments && t.scoredBy == s.scoredBy
    requires forall id :: id in s.submissions ==> id in t.submissions && t.submissions[id] == s.submissions[id]
    requires forall p :: p in s.enrolled ==> p in t.enrolled && t.enrolled[p] == s.enrolled[p]
    requires forall p :: p in s.submitted ==> p in t.submitted && t.submitted[p] == s.submitted[p]
    requires forall id :: id in s.enrolledBy ==> id in t.enrolledBy && t.enrolledBy[id] == s.enrolledBy[id]
    requires forall id :: id in s.submittedBy ==> id in t.submittedBy && t.submittedBy[id] == s.submittedBy[id]
    ensures Evolves(s, t)
  {
  }

  lemma TaskFrame(s: State, t: State, q: nat)
    requires q in s.tasks && TaskOk(s, q) && Evolves(s, t) && q in t.tasks && t.tasks[q] == s.tasks[q]
    ensures TaskOk(t, q)
  {
  }

  /** The enrolment rows keep what the history relies on. */
  ghost predicate SameRows(s: State, t: State) {
    && (forall id :: id in t.courses <==> id in s.courses)
    && (forall id :: id in t.enrollments <==> id in s.enrollments)
    && (forall id :: id in s.enrollments ==> EnrollmentPair(t.enrollments[id]) == EnrollmentPair(s.enrollments[id]))
  }

  lemma HistoryFrame(s: State, t: State)
    requires HistoryOk(s) && Evolves(s, t) && SameRows(s, t)
    requires t.enrolled == s.enrolled && t.submitted == s.submitted && t.enrolledBy == s.enrolledBy
      && t.submittedBy == s.submittedBy
    requires forall r :: r in s.tasks && s.tasks[r].at.Ended? ==> r in t.tasks && t.tasks[r] == s.tasks[r]
    ensures HistoryOk(t)
  {
    forall p | p in t.enrolled ensures EnrolledOk(t, p) {
      assert EnrolledOk(s, p);
      assert EnrolledByOk(s, s.enrolled[p]);
    }
    forall p | p in t.submitted ensures SubmittedOk(t, p) {
      assert SubmittedOk(s, p);
    }
    forall id | id in t.enrolledBy ensures EnrolledByOk(t, id) {
      assert EnrolledByOk(s, id);
    }
    forall id | id in t.submittedBy ensures SubmittedByOk(t, id) {
      assert SubmittedByOk(s, id);
    }
  }

  lemma TasksFrame(s: State, t: State, r: nat)
    requires TasksOk(s) && Evolves(s, t)
    requires forall q :: q in t.tasks && q != r ==> q in s.tasks && t.tasks[q] == s.tasks[q]
    requires r in t.tasks ==> TaskOk(t, r)
    ensures TasksOk(t)
  {
    hide Evolves;
    forall q | q in t.tasks ensures TaskOk(t, q) {
      if q != r {
        assert TaskOk(s, q);
        TaskFrame(s, t, q);
      }
    }
  }

  lemma AllTasksFrame(s: State, t: State)
    requires TasksOk(s) && Evolves(s, t) && t.tasks == s.tasks
    ensures TasksOk(t)
  {
    hide Evolves;
    forall q | q in t.tasks ensures TaskOk(t, q) {
      assert TaskOk(s, q);
      TaskFrame(s, t, q);
    }
  }

  // ----- Every step keeps the invariant -----

  lemma MoveKeepsInv(s: State, r: nat, at: At)
    requires Inv(s) && r in s.tasks && !s.tasks[r].at.Ended? && TaskOk(SetAt(s, r, at), r)
    ensures Inv(SetAt(s, r, at))
  {
    var t := SetAt(s, r, at);
    hide Evolves, SameRows, TaskOk;
    RowsUntouched(s, t);
    HistoryFrame(s, t);
    TasksFrame(s, t, r);
  }

  lemma RowsUntouched(s: State, t: State)
    requires RowsOk(s) && t == s.(tasks := t.tasks, clock := t.clock)
    ensures RowsOk(t) && Evolves(s, t) && SameRows(s, t)
  {
    TablesUntouched(s, t);
    hide Evolves, SameRows;
    forall id | id in t.courses ensures CourseOk(t, id) {
      assert CourseOk(s, id);
    }
    forall id | id in t.assignments ensures AssignmentOk(t, id) {
      assert AssignmentOk(s, id);
    }
    forall id | id in t.enrollments ensures EnrollmentOk(t, id) {
      assert EnrollmentOk(s, id);
    }
    forall id | id in t.submissions ensures SubmissionOk(t, id) {
      assert SubmissionOk(s, id);
    }
  }

  lemma TablesUntouched(s: State, t: State)
    requires t == s.(tasks := t.tasks, clock := t.clock)
    ensures Evolves(s, t) && SameRows(s, t)
  {
  }

  lemma BeginKeepsInv(s: State, r: nat, job: Job)
    requires Inv(s) && r !in s.tasks
    ensures Inv(DoBegin(s, r, job))
  {
    var t := DoBegin(s, r, job);
    assert TaskOk(t, r);
    hide Evolves, SameRows, TaskOk;
    RowsUntouched(s, t);
    HistoryFrame(s, t);
    TasksFrame(s, t, r);
  }

  lemma TickKeepsInv(s: State, ms: nat)
    requires Inv(s)
    ensures Inv(s.(clock := s.clock + ms))
  {
    var t := s.(clock := s.clock + ms);
    hide Evolves, SameRows, TaskOk;
    RowsUntouched(s, t);
    HistoryFrame(s, t);
    AllTasksFrame(s, t);
  }

  /** One enrolment row is rewritten, keeping its identity. */
  lemma EnrollmentWriteKeepsRows(s: State, t: State, id: Text, row: Enrollment)
    requires RowsOk(s) && id in s.enrollments && ProgressOk(row)
    requires row == s.enrollments[id].(status := row.status, progress := row.progress)
    requires t == s.(enrollments := s.enrollments[id := row], tasks := t.tasks)
    ensures RowsOk(t)
  {
    forall c | c in t.courses ensures CourseOk(t, c) {
      assert CourseOk(s, c);
    }
    forall a | a in t.assignments ensures AssignmentOk(t, a) {
      assert AssignmentOk(s, a);
    }
    forall e | e in t.enrollments ensures EnrollmentOk(t, e) {
      assert EnrollmentOk(s, e);
    }
    forall d | d in t.submissions ensures SubmissionOk(t, d) {
      assert SubmissionOk(s, d);
    }
  }

  lemma EnrollmentWriteEvolves(s: State, t: State, id: Text, row: Enrollment)
    requires id in s.enrollments && EnrollmentPair(row) == EnrollmentPair(s.enrollments[id])
    requires t == s.(enrollments := s.enrollments[id := row], tasks := t.tasks)
    ensures Evolves(s, t) && SameRows(s, t)
  {
  }

  lemma EnrollmentWriteKeepsInv(s: State, id: Text, row: Enrollment)
    requires Inv(s) && id in s.enrollments && ProgressOk(row)
    requires row == s.enrollments[id].(status := row.status, progress := row.progress)
    ensures Inv(s.(enrollments := s.enrollments[id := row]))
  {
    var t := s.(enrollments := s.enrollments[id := row]);
    EnrollmentWriteKeepsRows(s, t, id, row);
    EnrollmentWriteEvolves(s, t, id, row);
    HistoryFrame(s, t);
    AllTasksFrame(s, t);
  }

  /** No two pairs have one enrolment row. */
  lemma EnrolledInjective(s: State, p: Pair, q: Pair)
    requires HistoryOk(s) && p in s.enrolled && q in s.enrolled && s.enrolled[p] == s.enrolled[q]
    ensures p == q
  {
    assert EnrolledOk(s, p) && EnrolledOk(s, q);
  }

  lemma ReactivatedKeepsInv(s: State, r: nat, row: Enrollment)
    requires Inv(s) && r in s.tasks && s.tasks[r].at == SaveReactivated(row)
    ensures Inv(WriteReactivated(s, r, row))
  {
    if row.id in s.enrollments {
      hide Evolves, SameRows;
      var t := WriteReactivated(s, r, row);
      ReactivatedRow(s, r, row);
      EnrollmentWriteKeepsRows(s, t, row.id, row);
      EnrollmentWriteEvolves(s, t, row.id, row);
      HistoryFrame(s, t);
      TasksFrame(s, t, r);
    } else {
      assert WriteReactivated(s, r, row) == SetAt(s, r, Ended(Rejected(StoreFailed)));
      MoveKeepsInv(s, r, Ended(Rejected(StoreFailed)));
    }
  }

  /** A stale reactivation writes to the row of its own pair. */
  lemma ReactivatedRow(s: State, r: nat, row: Enrollment)
    requires Inv(s) && r in s.tasks && s.tasks[r].at == SaveReactivated(row) && row.id in s.enrollments
    ensures ProgressOk(row) && row == s.enrollments[row.id].(status := row.status, progress := row.progress)
    ensures TaskOk(WriteReactivated(s, r, row), r)
  {
    assert TaskOk(s, r);
    assert EnrollmentOk(s, row.id);
    EnrolledInjective(s, JobPair(s.tasks[r].job), EnrollmentPair(s.enrollments[row.id]));
  }

  // ----- Inserting an enrolment -----

  /** A pair whose course exists and which has no row was never enrolled. */
  lemma NotEnrolledBefore(s: State, p: Pair)
    requires Inv(s) && p.target in s.courses && IsEnrollment(s.enrollments, p, ANY_STATUS, None)
    ensures p !in s.enrolled
  {
    if p in s.enrolled {
      assert EnrolledOk(s, p);
      RowIsFound(s.enrollments, p, s.enrolled[p]);
    }
  }

  lemma RowIsFound(rows: map<Text, Enrollment>, p: Pair, id: Text)
    requires id in rows && EnrollmentPair(rows[id]) == p
    ensures !IsEnrollment(rows, p, ANY_STATUS, None)
  {
    var status := rows[id].status;
    assert status == ACTIVE || status == COMPLETED || status == DROPPED;
  }

  /** Every id in the tables and in the history has been handed out. */
  lemma KnownIdsAreUsed(s: State)
    requires RowsOk(s) && HistoryOk(s)
    ensures forall id :: id in s.enrollments || id in s.submissions || id in s.enrolledBy || id in s.submittedBy ==>
      id in s.used
  {
    forall id | id in s.enrollments ensures id in s.used {
      assert EnrollmentOk(s, id);
    }
    forall id | id in s.submissions ensures id in s.used {
      assert SubmissionOk(s, id);
    }
    forall id | id in s.enrolledBy ensures id in s.used {
      assert EnrolledByOk(s, id);
      assert EnrolledOk(s, JobPair(s.tasks[s.enrolledBy[id]].job));
    }
    forall id | id in s.submittedBy ensures id in s.used {
      assert SubmittedByOk(s, id);
      assert SubmittedOk(s, JobPair(s.tasks[s.submittedBy[id]].job));
    }
  }

  lemma EnrollmentInsertRows(s: State, r: nat, p: Pair, newId: Text)
    requires RowsOk(s) && r in s.tasks && newId !in s.used && p !in s.enrolled
    requires p.target in s.courses && s.courses[p.target].tutorId != p.studentId
    ensures RowsOk(WriteEnrollment(s, r, p, newId))
  {
    var t := WriteEnrollment(s, r, p, newId);
    forall id | id in t.courses ensures CourseOk(t, id) {
      assert CourseOk(s, id);
    }
    forall id | id in t.assignments ensures AssignmentOk(t, id) {
      assert AssignmentOk(s, id);
    }
    forall id | id in t.enrollments ensures EnrollmentOk(t, id) {
      assert id != newId ==> EnrollmentOk(s, id);
    }
    forall id | id in t.submissions ensures SubmissionOk(t, id) {
      assert SubmissionOk(s, id);
    }
  }

  lemma EnrollmentInsertPairs(s: State, r: nat, p: Pair, newId: Text)
    requires RowsOk(s) && HistoryOk(s) && r in s.tasks && newId !in s.used && p !in s.enrolled && p.target in s.courses
    requires s.tasks[r].job.EnrollJob? && JobPair(s.tasks[r].job) == p && !s.tasks[r].at.Ended?
    ensures var t := WriteEnrollment(s, r, p, newId); forall q {:trigger EnrolledOk(t, q)} :: q in t.enrolled ==>
      EnrolledOk(t, q)
  {
    var t := WriteEnrollment(s, r, p, newId);
    assert CourseOk(s, p.target);
    forall q | q in t.enrolled ensures EnrolledOk(t, q) {
      if q != p {
        assert EnrolledOk(s, q);
        assert EnrolledByOk(s, s.enrolled[q]);
      }
    }
  }

  lemma EnrollmentInsertHistory(s: State, r: nat, p: Pair, newId: Text)
    requires RowsOk(s) && HistoryOk(s) && r in s.tasks && newId !in s.used && p !in s.enrolled && p.target in s.courses
    requires s.tasks[r].job.EnrollJob? && JobPair(s.tasks[r].job) == p && !s.tasks[r].at.Ended?
    ensures HistoryOk(WriteEnrollment(s, r, p, newId))
  {
    var t := WriteEnrollment(s, r, p, newId);
    EnrollmentInsertPairs(s, r, p, newId);
    hide EnrolledOk, RowsOk;
    forall q | q in t.submitted ensures SubmittedOk(t, q) {
      assert SubmittedOk(s, q);
    }
    forall id | id in t.enrolledBy ensures EnrolledByOk(t, id) {
      if id != newId {
        assert EnrolledByOk(s, id);
      }
    }
    forall id | id in t.submittedBy ensures SubmittedByOk(t, id) {
      assert SubmittedByOk(s, id);
    }
  }

  lemma EnrollmentInsertEvolves(s: State, r: nat, p: Pair, newId: Text)
    requires RowsOk(s) && HistoryOk(s) && r in s.tasks && newId !in s.used && p !in s.enrolled
    ensures Evolves(s, WriteEnrollment(s, r, p, newId))
  {
    KnownIdsAreUsed(s);
    hide RowsOk, HistoryOk;
    OnlyAdds(s, WriteEnrollment(s, r, p, newId));
  }

  lemma EnrollmentInsertKeepsInv(s: State, r: nat, newId: Text)
    requires Inv(s) && r in s.tasks && s.tasks[r].at == InsertEnrollment && newId !in s.used
    requires s.tasks[r].job.EnrollJob? && s.tasks[r].job.courseId in s.courses
    requires IsEnrollment(s.enrollments, JobPair(s.tasks[r].job), ANY_STATUS, None)
    ensures Inv(WriteEnrollment(s, r, JobPair(s.tasks[r].job), newId))
  {
    hide Evolves;
    var p := JobPair(s.tasks[r].job);
    assert TaskOk(s, r);
    NotEnrolledBefore(s, p);
    EnrollmentInsertRows(s, r, p, newId);
    EnrollmentInsertHistory(s, r, p, newId);
    EnrollmentInsertEvolves(s, r, p, newId);
    TasksFrame(s, WriteEnrollment(s, r, p, newId), r);
  }

  // ----- Inserting a submission -----

  lemma NotSubmittedBefore(s: State, p: Pair)
    requires HistoryOk(s) && IsSubmission(s.submissions, p, None)
    ensures p !in s.submitted
  {
    if p in s.submitted {
      assert SubmittedOk(s, p);
      SubmissionIsFound(s.submissions, p, s.submitted[p]);
    }
  }

  lemma SubmissionIsFound(docs: map<Text, Submission>, p: Pair, id: Text)
    requires id in docs && SubmissionPair(docs[id]) == p
    ensures !IsSubmission(docs, p, None)
  {
  }

  lemma SubmissionInsertRows(s: State, r: nat, p: Pair, work: Work, newId: Text)
    requires RowsOk(s) && r in s.tasks && newId !in s.used && p !in s.submitted && p.target in s.used
    requires p.target in s.assignments ==> Pair(p.studentId, s.assignments[p.target].courseId) in s.enrolled
    ensures RowsOk(WriteSubmission(s, r, p, work, newId))
  {
    var t := WriteSubmission(s, r, p, work, newId);
    forall id | id in t.courses ensures CourseOk(t, id) {
      assert CourseOk(s, id);
    }
    forall id | id in t.assignments ensures AssignmentOk(t, id) {
      assert AssignmentOk(s, id);
    }
    forall id | id in t.enrollments ensures EnrollmentOk(t, id) {
      assert EnrollmentOk(s, id);
    }
    forall id | id in t.submissions ensures SubmissionOk(t, id) {
      assert id != newId ==> SubmissionOk(s, id);
    }
  }

  lemma SubmissionInsertHistory(s: State, r: nat, p: Pair, work: Work, newId: Text)
    requires RowsOk(s) && HistoryOk(s) && r in s.tasks && newId !in s.used && p !in s.submitted
    requires s.tasks[r].job.SubmitJob? && s.tasks[r].job.work == work && JobPair(s.tasks[r].job) == p
      && !s.tasks[r].at.Ended?
    ensures HistoryOk(WriteSubmission(s, r, p, work, newId))
  {
    var t := WriteSubmission(s, r, p, work, newId);
    KnownIdsAreUsed(s);
    forall q | q in t.enrolled ensures EnrolledOk(t, q) {
      assert EnrolledOk(s, q);
      assert EnrolledByOk(s, s.enrolled[q]);
    }
    forall q | q in t.submitted ensures SubmittedOk(t, q) {
      assert q != p ==> SubmittedOk(s, q);
    }
    forall id | id in t.enrolledBy ensures EnrolledByOk(t, id) {
      assert EnrolledByOk(s, id);
    }
    forall id | id in t.submittedBy ensures SubmittedByOk(t, id) {
      assert id != newId ==> SubmittedByOk(s, id);
    }
  }

  lemma SubmissionInsertEvolves(s: State, r: nat, p: Pair, work: Work, newId: Text)
    requires RowsOk(s) && HistoryOk(s) && r in s.tasks && newId !in s.used && p !in s.submitted
    ensures Evolves(s, WriteSubmission(s, r, p, work, newId))
  {
    KnownIdsAreUsed(s);
    hide RowsOk, HistoryOk;
    OnlyAdds(s, WriteSubmission(s, r, p, work, newId));
  }

  lemma SubmissionInsertKeepsInv(s: State, r: nat, newId: Text)
    requires Inv(s) && r in s.tasks && s.tasks[r].at.CreateSubmission? && newId !in s.used && s.tasks[r].job.SubmitJob?
    requires IsSubmission(s.submissions, JobPair(s.tasks[r].job), None)
    ensures Inv(WriteSubmission(s, r, JobPair(s.tasks[r].job), s.tasks[r].job.work, newId))
  {
    hide Evolves;
    var p, work := JobPair(s.tasks[r].job), s.tasks[r].job.work;
    assert TaskOk(s, r);
    NotSubmittedBefore(s, p);
    SubmissionInsertRows(s, r, p, work, newId);
    SubmissionInsertHistory(s, r, p, work, newId);
    SubmissionInsertEvolves(s, r, p, work, newId);
    TasksFrame(s, WriteSubmission(s, r, p, work, newId), r);
  }

  // ----- Rewriting a submission -----

  ghost predicate SubmissionWrite(s: State, t: State, id: Text, doc: Submission) {
    && id in s.submissions && doc.id == id && SameOrigin(s.submissions[id], doc) && ReviewOk(doc)
    && t == s.(submissions := s.submissions[id := doc], tasks := t.tasks, scoredBy := t.scoredBy)
  }

  lemma SubmissionWriteKeepsRows(s: State, t: State, id: Text, doc: Submission)
    requires RowsOk(s) && SubmissionWrite(s, t, id, doc)
    ensures RowsOk(t)
  {
    forall c | c in t.courses ensures CourseOk(t, c) {
      assert CourseOk(s, c);
    }
    forall a | a in t.assignments ensures AssignmentOk(t, a) {
      assert AssignmentOk(s, a);
    }
    forall e | e in t.enrollments ensures EnrollmentOk(t, e) {
      assert EnrollmentOk(s, e);
    }
    forall d | d in t.submissions ensures SubmissionOk(t, d) {
      assert SubmissionOk(s, d);
    }
  }

  /** A document that is not REVIEWED may be rewritten at will, and may be marked as scored. */
  lemma SubmissionWriteEvolves(s: State, t: State, id: Text, doc: Submission)
    requires SubmissionWrite(s, t, id, doc)
    requires s.submissions[id].status != REVIEWED
      || doc == Moderate(s.submissions[id], doc.isAdminHidden, doc.adminHiddenReason, s.clock)
    requires forall d :: d in s.scoredBy && (d != id || s.submissions[id].status == REVIEWED) ==>
      d in t.scoredBy && t.scoredBy[d] == s.scoredBy[d]
    ensures Evolves(s, t) && SameRows(s, t)
  {
  }

  lemma AcceptedFeedback(s: State, r: nat, job: Job)
    requires Inv(s) && r in s.tasks && s.tasks[r].job == job && job.FeedbackJob? && Accepts(s, job)
    ensures var t := WriteFeedback(s, r, job);
      && SubmissionWrite(s, t, job.submissionId,
        Review(s.submissions[job.submissionId], job.feedback, job.score, s.clock))
      && t.tasks == s.tasks[r := Task(job, Ended(Reviewed(job.submissionId)))]
      && (forall d :: d in s.scoredBy && d != job.submissionId ==> d in t.scoredBy && t.scoredBy[d] == s.scoredBy[d])
      && TaskOk(t, r)
  {
    hide HistoryOk, TasksOk;
    assert SubmissionOk(s, job.submissionId);
  }

  lemma SubmissionWriteKeepsInv(s: State, t: State, r: nat, id: Text, doc: Submission)
    requires Inv(s) && SubmissionWrite(s, t, id, doc) && Evolves(s, t) && SameRows(s, t)
    requires r in s.tasks && r in t.tasks && t.tasks == s.tasks[r := t.tasks[r]]
    requires t.tasks[r] == s.tasks[r] || (!s.tasks[r].at.Ended? && TaskOk(t, r))
    ensures Inv(t)
  {
    hide Evolves, SameRows;
    assert TaskOk(s, r);
    SubmissionWriteKeepsRows(s, t, id, doc);
    HistoryFrame(s, t);
    if t.tasks[r] == s.tasks[r] {
      TaskFrame(s, t, r);
    }
    TasksFrame(s, t, r);
  }

  lemma FeedbackKeepsInv(s: State, r: nat, job: Job)
    requires Inv(s) && r in s.tasks && s.tasks[r] == Task(job, UpdateFeedback) && job.FeedbackJob?
    ensures Inv(WriteFeedback(s, r, job))
  {
    if Accepts(s, job) {
      AcceptedFeedbackKeepsInv(s, r, job);
    } else {
      assert WriteFeedback(s, r, job) == SetAt(s, r, Ended(Rejected(AlreadyReviewed)));
      MoveKeepsInv(s, r, Ended(Rejected(AlreadyReviewed)));
    }
  }

  lemma AcceptedFeedbackKeepsInv(s: State, r: nat, job: Job)
    requires Inv(s) && r in s.tasks && s.tasks[r] == Task(job, UpdateFeedback) && job.FeedbackJob? && Accepts(s, job)
    ensures Inv(WriteFeedback(s, r, job))
  {
    hide Inv, Evolves, SameRows, WriteFeedback, TaskOk, Review;
    var doc := Review(s.submissions[job.submissionId], job.feedback, job.score, s.clock);
    var t := WriteFeedback(s, r, job);
    AcceptedFeedback(s, r, job);
    SubmissionWriteEvolves(s, t, job.submissionId, doc);
    SubmissionWriteKeepsInv(s, t, r, job.submissionId, doc);
  }

  lemma ModerateKeepsInv(s: State, id: Text, isHidden: bool, reason: Option<Text>)
    requires Inv(s) && id in s.submissions
    ensures Inv(DoModerate(s, id, isHidden, reason))
  {
    hide Evolves, SameRows;
    var t := DoModerate(s, id, isHidden, reason);
    assert SubmissionOk(s, id);
    var doc := Moderate(s.submissions[id], isHidden, reason, s.clock);
    SubmissionWriteKeepsRows(s, t, id, doc);
    SubmissionWriteEvolves(s, t, id, doc);
    HistoryFrame(s, t);
    AllTasksFrame(s, t);
  }

  // ----- Courses and assignments -----

  /** Courses and assignments were created or changed; nothing that existed changed tutor, course or identity. */
  ghost predicate Catalogue(s: State, t: State) {
    && t == s.(courses := t.courses, assignments := t.assignments, used := t.used)
    && s.used <= t.used
    && (forall id :: id in s.courses ==> id in t.courses && t.courses[id].tutorId == s.courses[id].tutorId)
    && (forall id :: id in t.courses && id !in s.courses ==> id !in s.used && id in t.used)
    && (forall id :: id in t.assignments ==> t.assignments[id].courseId in t.courses)
    && (forall id :: id in t.assignments && id in s.assignments ==>
          t.assignments[id].courseId == s.assignments[id].courseId)
    && (forall id :: id in t.assignments && id !in s.assignments ==> id !in s.used && id in t.used)
  }

  lemma CatalogueRows(s: State, t: State)
    requires RowsOk(s) && Catalogue(s, t)
    ensures RowsOk(t)
  {
    forall id | id in t.courses ensures CourseOk(t, id) {
      assert id in s.courses ==> CourseOk(s, id);
    }
    forall id | id in t.assignments ensures AssignmentOk(t, id) {
      assert id in s.assignments ==> AssignmentOk(s, id);
    }
    forall id | id in t.enrollments ensures EnrollmentOk(t, id) {
      assert EnrollmentOk(s, id);
    }
    forall id | id in t.submissions ensures SubmissionOk(t, id) {
      assert SubmissionOk(s, id);
    }
  }

  lemma CatalogueHistory(s: State, t: State)
    requires HistoryOk(s) && Catalogue(s, t)
    ensures HistoryOk(t)
  {
    forall p | p in t.enrolled ensures EnrolledOk(t, p) {
      assert EnrolledOk(s, p);
    }
    forall p | p in t.submitted ensures SubmittedOk(t, p) {
      assert SubmittedOk(s, p);
    }
    forall id | id in t.enrolledBy ensures EnrolledByOk(t, id) {
      assert EnrolledByOk(s, id);
    }
    forall id | id in t.submittedBy ensures SubmittedByOk(t, id) {
      assert SubmittedByOk(s, id);
    }
  }

  lemma CatalogueKeepsInv(s: State, t: State)
    requires Inv(s) && Catalogue(s, t)
    ensures Inv(t)
  {
    CatalogueRows(s, t);
    CatalogueHistory(s, t);
    AllTasksFrame(s, t);
  }

  lemma RemoveCourseRows(s: State, id: Text)
    requires RowsOk(s)
    ensures RowsOk(DoRemoveCourse(s, id))
  {
    var t := DoRemoveCourse(s, id);
    forall c | c in t.courses ensures CourseOk(t, c) {
      assert CourseOk(s, c);
    }
    forall a | a in t.assignments ensures AssignmentOk(t, a) {
      assert AssignmentOk(s, a);
    }
    forall e | e in t.enrollments ensures EnrollmentOk(t, e) {
      assert EnrollmentOk(s, e);
    }
    forall d | d in t.submissions ensures SubmissionOk(t, d) {
      assert SubmissionOk(s, d);
    }
  }

  lemma RemoveCourseHistory(s: State, id: Text)
    requires HistoryOk(s)
    ensures HistoryOk(DoRemoveCourse(s, id))
  {
    var t := DoRemoveCourse(s, id);
    forall p | p in t.enrolled ensures EnrolledOk(t, p) {
      assert EnrolledOk(s, p);
    }
    forall p | p in t.submitted ensures SubmittedOk(t, p) {
      assert SubmittedOk(s, p);
    }
    forall e | e in t.enrolledBy ensures EnrolledByOk(t, e) {
      assert EnrolledByOk(s, e);
    }
    forall d | d in t.submittedBy ensures SubmittedByOk(t, d) {
      assert SubmittedByOk(s, d);
    }
  }

  lemma RemoveCourseKeepsInv(s: State, id: Text)
    requires Inv(s)
    ensures Inv(DoRemoveCourse(s, id))
  {
    RemoveCourseRows(s, id);
    RemoveCourseHistory(s, id);
    AllTasksFrame(s, DoRemoveCourse(s, id));
  }

  // ----- All together -----

  /** What the first query of a body establishes. */
  lemma StartTaskOk(s: State, r: nat)
    requires RowsOk(s) && r in s.tasks && s.tasks[r].at == Start
    ensures TaskOk(SetAt(s, r, AfterStart(s, s.tasks[r].job)), r)
  {
    hide SetAt, AfterStart, TaskOk, AssignmentOk, CourseOk;
    var job, at := s.tasks[r].job, AfterStart(s, s.tasks[r].job);
    SetAtParts(s, r, at);
    match job
    case EnrollJob(_, courseId) =>
      assert courseId in s.courses ==> CourseOk(s, courseId);
      StartEnrollTask(s, SetAt(s, r, at), r, job, at);
    case SubmitJob(_, assignmentId, _) =>
      assert assignmentId in s.assignments ==> AssignmentOk(s, assignmentId);
      StartSubmitTask(s, SetAt(s, r, at), r, job, at);
    case _ => StartOtherTask(s, SetAt(s, r, at), r, job, at);
  }

  lemma SetAtParts(s: State, r: nat, at: At)
    requires r in s.tasks
    ensures var t := SetAt(s, r, at); r in t.tasks && t.tasks[r] == Task(s.tasks[r].job, at)
    ensures var t := SetAt(s, r, at); t.used == s.used && t.courses == s.courses && t.assignments == s.assignments
  {
  }

  lemma StartEnrollTask(s: State, t: State, r: nat, job: Job, at: At)
    requires job.EnrollJob? && at == AfterStart(s, job)
    requires r in t.tasks && t.tasks[r] == Task(job, at) && t.used == s.used && t.courses == s.courses
    requires job.courseId in s.courses ==> CourseOk(s, job.courseId)
    ensures TaskOk(t, r)
  {
  }

  lemma StartSubmitTask(s: State, t: State, r: nat, job: Job, at: At)
    requires job.SubmitJob? && at == AfterStart(s, job)
    requires r in t.tasks && t.tasks[r] == Task(job, at) && t.used == s.used && t.assignments == s.assignments
    requires job.assignmentId in s.assignments ==> AssignmentOk(s, job.assignmentId)
    ensures TaskOk(t, r)
  {
  }

  lemma StartOtherTask(s: State, t: State, r: nat, job: Job, at: At)
    requires !job.EnrollJob? && !job.SubmitJob? && at == AfterStart(s, job)
    requires r in t.tasks && t.tasks[r] == Task(job, at)
    ensures TaskOk(t, r)
  {
  }

  lemma StartKeepsInv(s: State, r: nat)
    requires Inv(s) && r in s.tasks && s.tasks[r].at == Start
    ensures Inv(SetAt(s, r, AfterStart(s, s.tasks[r].job)))
  {
    hide AfterStart, TaskOk;
    StartTaskOk(s, r);
    MoveKeepsInv(s, r, AfterStart(s, s.tasks[r].job));
  }

  lemma EnrollQueryKeepsInv(s: State, r: nat, found: Option<Text>, newId: Text)
    requires Inv(s) && QueryAllowed(s, r, found, newId) && s.tasks[r].job.EnrollJob? && s.tasks[r].at != Start
    ensures Inv(DoQuery(s, r, found, newId))
  {
    assert TaskOk(s, r);
    match s.tasks[r].at
    case FindDropped =>
      if found.Some? {
        assert EnrollmentOk(s, found.value);
      }
      MoveKeepsInv(s, r, DoQuery(s, r, found, newId).tasks[r].at);
    case SaveReactivated(row) => ReactivatedKeepsInv(s, r, row);
    case InsertEnrollment =>
      if found.None? && s.tasks[r].job.courseId in s.courses {
        EnrollmentInsertKeepsInv(s, r, newId);
      } else {
        MoveKeepsInv(s, r, DoQuery(s, r, found, newId).tasks[r].at);
      }
    case CheckExisting => MoveKeepsInv(s, r, DoQuery(s, r, found, newId).tasks[r].at);
  }

  lemma SubmitQueryKeepsInv(s: State, r: nat, found: Option<Text>, newId: Text)
    requires Inv(s) && QueryAllowed(s, r, found, newId) && s.tasks[r].job.SubmitJob? && s.tasks[r].at != Start
    ensures Inv(DoQuery(s, r, found, newId))
  {
    assert TaskOk(s, r);
    match s.tasks[r].at
    case CheckEnrolled(_) =>
      if found.Some? {
        assert EnrollmentOk(s, found.value);
      }
      MoveKeepsInv(s, r, DoQuery(s, r, found, newId).tasks[r].at);
    case CreateSubmission(_) =>
      if found.None? {
        SubmissionInsertKeepsInv(s, r, newId);
      } else {
        MoveKeepsInv(s, r, DoQuery(s, r, found, newId).tasks[r].at);
      }
    case CheckDuplicate(_) => MoveKeepsInv(s, r, DoQuery(s, r, found, newId).tasks[r].at);
  }

  lemma FeedbackQueryKeepsInv(s: State, r: nat, found: Option<Text>, newId: Text)
    requires Inv(s) && QueryAllowed(s, r, found, newId) && s.tasks[r].job.FeedbackJob? && s.tasks[r].at != Start
    ensures Inv(DoQuery(s, r, found, newId))
  {
    assert TaskOk(s, r);
    match s.tasks[r].at
    case UpdateFeedback => FeedbackKeepsInv(s, r, s.tasks[r].job);
    case CheckOwner => MoveKeepsInv(s, r, DoQuery(s, r, found, newId).tasks[r].at);
  }

  lemma QueryKeepsInv(s: State, r: nat, found: Option<Text>, newId: Text)
    requires Inv(s) && QueryAllowed(s, r, found, newId)
    ensures Inv(DoQuery(s, r, found, newId))
  {
    hide Inv;
    if s.tasks[r].at == Start {
      StartKeepsInv(s, r);
    } else {
      match s.tasks[r].job
      case EnrollJob(_, _) => EnrollQueryKeepsInv(s, r, found, newId);
      case SubmitJob(_, _, _) => SubmitQueryKeepsInv(s, r, found, newId);
      case FeedbackJob(_, _, _, _, _) => FeedbackQueryKeepsInv(s, r, found, newId);
    }
  }

  lemma ProgressKeepsInv(s: State, id: Text, studentId: Text, progress: Percent)
    requires Inv(s)
    ensures Inv(DoProgress(s, id, studentId, progress))
  {
    if id in s.enrollments && s.enrollments[id].studentId == studentId && s.enrollments[id].status == ACTIVE {
      assert EnrollmentOk(s, id);
      EnrollmentWriteKeepsInv(s, id, Advance(s.enrollments[id], progress));
    }
  }

  lemma DropKeepsInv(s: State, id: Text)
    requires Inv(s) && id in s.enrollments
    ensures Inv(DoDrop(s, id))
  {
    assert EnrollmentOk(s, id);
    EnrollmentWriteKeepsInv(s, id, s.enrollments[id].(status := DROPPED));
  }

  lemma CatalogueAction(s: State, a: Action)
    requires RowsOk(s) && (a.CreateCourse? || a.PublishCourse? || a.CreateAssignment? || a.PublishAssignment?)
    ensures Catalogue(s, Next(s, a))
  {
    hide EnrollmentOk, SubmissionOk;
    forall id | id in s.assignments ensures s.assignments[id].courseId in s.courses && id in s.used {
      assert AssignmentOk(s, id);
    }
    forall id | id in s.courses ensures id in s.used {
      assert CourseOk(s, id);
    }
    CatalogueStep(s, a);
  }

  lemma CatalogueStep(s: State, a: Action)
    requires a.CreateCourse? || a.PublishCourse? || a.CreateAssignment? || a.PublishAssignment?
    requires forall id :: id in s.assignments ==> s.assignments[id].courseId in s.courses && id in s.used
    requires forall id :: id in s.courses ==> id in s.used
    ensures Catalogue(s, Next(s, a))
  {
    hide Catalogue, DoQuery, QueryAllowed, DoProgress, DoRemoveCourse, DoBegin, DoFail, DoDrop, DoModerate,
      DoCreateCourse, DoPublishCourse,
      DoCreateAssignment, DoPublishAssignment;
    match a
    case CreateCourse(id, tutorId, published) => CourseCreated(s, id, tutorId, published);
    case PublishCourse(id, published) => CoursePublished(s, id, published);
    case CreateAssignment(id, courseId, dueDate) => AssignmentCreated(s, id, courseId, dueDate);
    case PublishAssignment(id, published) => AssignmentPublished(s, id, published);
  }

  lemma CourseCreated(s: State, id: Text, tutorId: Text, published: bool)
    requires forall a :: a in s.assignments ==> s.assignments[a].courseId in s.courses
    requires forall c :: c in s.courses ==> c in s.used
    ensures Catalogue(s, DoCreateCourse(s, id, tutorId, published))
  {
    hide Catalogue;
    CourseWritten(s, DoCreateCourse(s, id, tutorId, published), id);
  }

  lemma CoursePublished(s: State, id: Text, published: bool)
    requires forall a :: a in s.assignments ==> s.assignments[a].courseId in s.courses
    ensures Catalogue(s, DoPublishCourse(s, id, published))
  {
    hide Catalogue;
    CourseWritten(s, DoPublishCourse(s, id, published), id);
  }

  lemma AssignmentCreated(s: State, id: Text, courseId: Text, dueDate: Option<nat>)
    requires forall a :: a in s.assignments ==> s.assignments[a].courseId in s.courses && a in s.used
    ensures Catalogue(s, DoCreateAssignment(s, id, courseId, dueDate))
  {
    hide Catalogue;
    AssignmentWritten(s, DoCreateAssignment(s, id, courseId, dueDate), id);
  }

  lemma AssignmentPublished(s: State, id: Text, published: bool)
    requires forall a :: a in s.assignments ==> s.assignments[a].courseId in s.courses
    ensures Catalogue(s, DoPublishAssignment(s, id, published))
  {
    hide Catalogue;
    AssignmentWritten(s, DoPublishAssignment(s, id, published), id);
  }

  lemma CourseWritten(s: State, t: State, id: Text)
    requires forall a :: a in s.assignments ==> s.assignments[a].courseId in s.courses
    requires t == s || (id in t.courses && t == s.(courses := s.courses[id := t.courses[id]], used := s.used + {id}))
      || (id in s.courses && id in t.courses && t == s.(courses := s.courses[id := t.courses[id]]))
    requires t != s ==> if id in s.courses then t.courses[id].tutorId == s.courses[id].tutorId else id !in s.used
    ensures Catalogue(s, t)
  {
  }

  lemma AssignmentWritten(s: State, t: State, id: Text)
    requires forall a :: a in s.assignments ==> s.assignments[a].courseId in s.courses
    requires t == s
      || (id in t.assignments && t == s.(assignments := s.assignments[id := t.assignments[id]], used := s.used + {id}))
      || (id in s.assignments && id in t.assignments && t == s.(assignments := s.assignments[id := t.assignments[id]]))
    requires t != s ==> t.assignments[id].courseId in s.courses
    requires t != s ==>
      if id in s.assignments then t.assignments[id].courseId == s.assignments[id].courseId else id !in s.used
    ensures Catalogue(s, t)
  {
  }

  lemma CatalogueActionKeepsInv(s: State, a: Action)
    requires Inv(s) && (a.CreateCourse? || a.PublishCourse? || a.CreateAssignment? || a.PublishAssignment?)
    ensures Inv(Next(s, a))
  {
    hide Next, Catalogue;
    CatalogueAction(s, a);
    CatalogueKeepsInv(s, Next(s, a));
  }

  /** Every step keeps the invariant. */
  lemma NextKeepsInv(s: State, a: Action)
    requires Inv(s)
    ensures Inv(Next(s, a))
  {
    hide Inv, QueryAllowed, DoQuery, DoProgress, DoRemoveCourse;
    match a
    case Tick(ms) => TickKeepsInv(s, ms);
    case Begin(r, job) =>
      if r !in s.tasks {
        BeginKeepsInv(s, r, job);
      }
    case Query(r, found, newId) =>
      if QueryAllowed(s, r, found, newId) {
        QueryKeepsInv(s, r, found, newId);
      }
    case Fail(r) =>
      if r in s.tasks && !s.tasks[r].at.Ended? {
        MoveKeepsInv(s, r, Ended(Rejected(StoreFailed)));
      }
    case UpdateProgress(id, studentId, progress) => ProgressKeepsInv(s, id, studentId, progress);
    case Drop(id) =>
      if id in s.enrollments {
        DropKeepsInv(s, id);
      }
    case RemoveCourse(id) => RemoveCourseKeepsInv(s, id);
    case ModerateSubmission(id, isHidden, reason) =>
      if id in s.submissions {
        ModerateKeepsInv(s, id, isHidden, reason);
      }
    case _ => CatalogueActionKeepsInv(s, a);
  }

  lemma {:induction false} RunKeepsInv(s: State, schedule: seq<Action>)
    requires Inv(s)
    ensures Inv(Run(s, schedule))
    decreases |schedule|
  {
    if schedule != [] {
      NextKeepsInv(s, schedule[0]);
      RunKeepsInv(Next(s, schedule[0]), schedule[1..]);
    }
  }
}
