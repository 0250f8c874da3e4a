/** Which feedback a REVIEWED document comes from, in every interleaving. */
module LearningReviews {
  import opened Texts
  import opened Entities
  import opened Learning
  import opened LearningResults
  import opened LearningTermination

  ghost predicate HasScored(s: State, d: Text) { exists r :: r in s.tasks && Scored(s.tasks[r], d) }

  ghost predicate ReviewsScored(s: State) {
    forall d :: d in s.submissions && s.submissions[d].status == REVIEWED ==> HasScored(s, d)
  }

  /** Work that ended stays. */
  lemma ScoredStays(s: State, a: Action, d: Text)
    requires HasScored(s, d)
    ensures HasScored(Next(s, a), d)
  {
    hide Next;
    var r :| r in s.tasks && Scored(s.tasks[r], d);
    BodiesEnd(s, a, r);
    assert Scored(Next(s, a).tasks[r], d);
  }

  /** A document becomes REVIEWED only by a feedback update that carries a score. */
  lemma CallReviews(s: State, t: State, r: nat, found: Option<Text>, newId: Text, d: Text)
    requires r in s.tasks && Fits(s.tasks[r]) && CallEffect(s, t, r, found, newId)
    requires d in t.submissions && t.submissions[d].status == REVIEWED
    ensures (d in s.submissions && s.submissions[d].status == REVIEWED) || Scored(t.tasks[r], d)
  {
    hide EnrollmentEffect, IsSubmission;
  }

  lemma StepReviews(s: State, a: Action, d: Text)
    requires d in Next(s, a).submissions && Next(s, a).submissions[d].status == REVIEWED
    ensures (d in s.submissions && s.submissions[d].status == REVIEWED) || HasScored(Next(s, a), d)
  {
    if a.Query? {
      if QueryAllowed(s, a.r, a.found, a.newId) {
        EveryCallEffect(s, a.r, a.found, a.newId);
        CallReviews(s, DoQuery(s, a.r, a.found, a.newId), a.r, a.found, a.newId, d);
        hide DoQuery, CallEffect, QueryAllowed;
      }
    } else if d in s.submissions {
      OtherStepKeepsReview(s, a, d);
      hide Next;
    } else {
      OtherStepAddsNoDocument(s, a, d);
      assert false;
    }
  }

  lemma OtherStepAddsNoDocument(s: State, a: Action, d: Text)
    requires !a.Query? && d !in s.submissions
    ensures d !in Next(s, a).submissions
  {
    hide DoQuery, QueryAllowed, DoBegin, DoFail, DoDrop, DoCreateCourse, DoPublishCourse, DoCreateAssignment,
      DoPublishAssignment, DoProgress, DoRemoveCourse;
  }

  lemma {:induction false} ReviewsKeepScored(s: State, schedule: seq<Action>)
    requires ReviewsScored(s)
    ensures ReviewsScored(Run(s, schedule))
    decreases |schedule|
  {
    if schedule != [] {
      hide Next, HasScored;
      var t := Next(s, schedule[0]);
      forall d | d in t.submissions && t.submissions[d].status == REVIEWED ensures HasScored(t, d) {
        StepReviews(s, schedule[0], d);
        if d in s.submissions && s.submissions[d].status == REVIEWED {
          ScoredStays(s, schedule[0], d);
        }
      }
      ReviewsKeepScored(t, schedule[1..]);
    }
  }

  /** In every reachable state a document is REVIEWED if and only if a feedback with a score argument was accepted
      for it, its score is the argument of that feedback, and so it has none exactly when that argument was null. */
  lemma ReviewedIffScored(schedule: seq<Action>, d: Text)
    requires d in Run(Init(), schedule).submissions
    ensures var s := Run(Init(), schedule);
      && (s.submissions[d].status == REVIEWED <==> HasScored(s, d))
      && (forall r :: r in s.tasks && Scored(s.tasks[r], d) ==> s.submissions[d].score == s.tasks[r].job.score.score)
      && (s.submissions[d].status == REVIEWED && s.submissions[d].score == None <==>
            exists r :: r in s.tasks && Scored(s.tasks[r], d) && s.tasks[r].job.score == Given(None))
  {
    ReachableInv(schedule);
    ReviewsKeepScored(Init(), schedule);
    var s := Run(Init(), schedule);
    forall r | r in s.tasks && Scored(s.tasks[r], d)
      ensures s.submissions[d].status == REVIEWED && s.submissions[d].score == s.tasks[r].job.score.score
    {
      assert TaskOk(s, r);
    }
    hide Inv, Run;
  }

  // ----- A reachable document that is REVIEWED without a score -----

  /** A schedule and the state it leads to. */
  datatype Trace = Trace(schedule: seq<Action>, state: State)

  ghost predicate Valid(t: Trace) { Run(Init(), t.schedule) == t.state }

  lemma {:induction false} RunAppend(s: State, schedule: seq<Action>, a: Action)
    ensures Run(s, schedule + [a]) == Next(Run(s, schedule), a)
    decreases |schedule|
  {
    hide Next;
    if schedule == [] {
      assert (schedule + [a])[1..] == [];
      assert Run(Next(s, a), []) == Next(s, a);
    } else {
      assert (schedule + [a])[1..] == schedule[1..] + [a];
      RunAppend(Next(s, schedule[0]), schedule[1..], a);
    }
  }

  lemma Step(t: Trace, a: Action, s: State) returns (u: Trace)
    requires Valid(t) && Next(t.state, a) == s
    ensures Valid(u) && u.state == s
  {
    hide Next;
    RunAppend(Init(), t.schedule, a);
    u := Trace(t.schedule + [a], s);
  }

  /** A call that writes nothing. */
  predicate OnlyMoves(at: At) {
    !at.SaveReactivated? && !at.InsertEnrollment? && !at.CreateSubmission? && !at.UpdateFeedback?
  }

  /** A call that only moves its job. */
  lemma Move(t: Trace, r: nat, found: Option<Text>, to: At) returns (u: Trace)
    requires Valid(t) && QueryAllowed(t.state, r, found, []) && Leads(t.state, r, found, [], to)
    requires OnlyMoves(t.state.tasks[r].at)
    ensures Valid(u) && u.state == SetAt(t.state, r, to)
  {
    hide Next, Valid;
    assert Next(t.state, Query(r, found, [])) == SetAt(t.state, r, to) by {
      hide IsEnrollment, IsSubmission, AfterStart, AfterCheckOwner, SetAt;
      MoveIs(t.state, r, found, to);
    }
    u := Step(t, Query(r, found, []), SetAt(t.state, r, to));
  }

  lemma MoveIs(s: State, r: nat, found: Option<Text>, to: At)
    requires QueryAllowed(s, r, found, []) && Leads(s, r, found, [], to)
    requires OnlyMoves(s.tasks[r].at)
    ensures Next(s, Query(r, found, [])) == SetAt(s, r, to)
  {
    hide IsEnrollment, IsSubmission, AfterStart, AfterCheckOwner, SetAt;
  }

  /** A course of the tutor, with an assignment. */
  lemma CourseOpens(tutor: Text, c: Text, a: Text) returns (t: Trace)
    requires c != a
    ensures Valid(t)
    ensures t.state == Init().(
      courses := map[c := Course(tutor, true)], assignments := map[a := Assignment(c, true, None)], used := {c, a})
  {
    hide Valid;
    t := Trace([], Init());
    assert Valid(t) by { NoSteps(); }
    t := Step(t, CreateCourse(c, tutor, true), Init().(courses := map[c := Course(tutor, true)], used := {c}));
    var s := t.state.(assignments := map[a := Assignment(c, true, None)], used := {c, a});
    t := Step(t, CreateAssignment(a, c, None), s);
  }

  lemma NoSteps()
    ensures Valid(Trace([], Init()))
  {
  }

  lemma Begins(t: Trace, r: nat, job: Job) returns (u: Trace)
    requires Valid(t) && r !in t.state.tasks
    ensures Valid(u) && u.state == t.state.(tasks := t.state.tasks[r := Task(job, Start)])
  {
    hide Valid, QueryAllowed, DoQuery;
    u := Step(t, Begin(r, job), t.state.(tasks := t.state.tasks[r := Task(job, Start)]));
  }

  lemma Enrols(t: Trace, student: Text, c: Text, e: Text) returns (u: Trace)
    requires Valid(t) && t.state.tasks == map[] && t.state.enrollments == map[] && e !in t.state.used
    requires c in t.state.courses && t.state.courses[c].isPublished && t.state.courses[c].tutorId != student
    ensures Valid(u) && u.state.clock == t.state.clock && u.state.courses == t.state.courses
    ensures u.state.assignments == t.state.assignments && u.state.submissions == t.state.submissions
    ensures u.state.enrollments == map[e := NewEnrollment(e, Pair(student, c))] && u.state.used == t.state.used + {e}
    ensures u.state.tasks.Keys == {0}
  {
    hide Valid, Next;
    u := Begins(t, 0, EnrollJob(student, c));
    u := Move(u, 0, None, CheckExisting);
    u := Move(u, 0, None, FindDropped);
    u := Move(u, 0, None, InsertEnrollment);
    InsertIs(u.state, 0, Pair(student, c), e);
    u := Step(u, Query(0, None, e), WriteEnrollment(u.state, 0, Pair(student, c), e));
  }

  lemma InsertIs(s: State, r: nat, p: Pair, e: Text)
    requires r in s.tasks && s.tasks[r] == Task(EnrollJob(p.studentId, p.target), InsertEnrollment) && e !in s.used
    requires IsEnrollment(s.enrollments, p, ANY_STATUS, None) && p.target in s.courses
    ensures Next(s, Query(r, None, e)) == WriteEnrollment(s, r, p, e)
  {
    hide WriteEnrollment, IsEnrollment;
  }

  lemma Submits(t: Trace, student: Text, c: Text, a: Text, e: Text, d: Text, work: Work) returns (u: Trace)
    requires Valid(t) && t.state.tasks.Keys == {0} && t.state.submissions == map[] && d !in t.state.used
    requires t.state.enrollments == map[e := NewEnrollment(e, Pair(student, c))]
    requires t.state.assignments == map[a := Assignment(c, true, None)]
    ensures Valid(u) && u.state.clock == t.state.clock && u.state.courses == t.state.courses
    ensures u.state.assignments == t.state.assignments && u.state.tasks.Keys == {0, 1}
    ensures u.state.submissions == map[d := NewSubmission(d, Pair(student, a), work)]
  {
    hide Valid, Next;
    u := Begins(t, 1, SubmitJob(student, a, work));
    u := Move(u, 1, None, CheckEnrolled(c));
    u := Move(u, 1, Some(e), CheckDuplicate(c));
    u := Move(u, 1, None, CreateSubmission(c));
    CreateIs(u.state, 1, Pair(student, a), work, d);
    u := Step(u, Query(1, None, d), WriteSubmission(u.state, 1, Pair(student, a), work, d));
  }

  lemma CreateIs(s: State, r: nat, p: Pair, work: Work, d: Text)
    requires r in s.tasks && s.tasks[r].job == SubmitJob(p.studentId, p.target, work) && s.tasks[r].at.CreateSubmission?
    requires IsSubmission(s.submissions, p, None) && d !in s.used
    ensures Next(s, Query(r, None, d)) == WriteSubmission(s, r, p, work, d)
  {
    hide WriteSubmission, IsSubmission;
  }

  /** The tutor's feedback with `score: null`. */
  lemma Reviews(t: Trace, tutor: Text, c: Text, a: Text, d: Text, feedback: Text) returns (u: Trace)
    requires Valid(t) && t.state.tasks.Keys == {0, 1} && d in t.state.submissions
    requires t.state.submissions[d].assignmentId == a && t.state.submissions[d].status == SUBMITTED
    requires a in t.state.assignments && t.state.assignments[a].courseId == c
    requires c in t.state.courses && t.state.courses[c].tutorId == tutor
    ensures Valid(u) && d in u.state.submissions
    ensures u.state.submissions[d].status == REVIEWED && u.state.submissions[d].score == None
  {
    hide Valid, Next;
    var job := FeedbackJob(d, a, tutor, feedback, Given(None));
    u := Begins(t, 2, job);
    u := Move(u, 2, None, CheckOwner);
    u := Move(u, 2, None, UpdateFeedback);
    FeedbackCall(u.state, 2, None, []);
    u := Step(u, Query(2, None, []), WriteFeedback(u.state, 2, job));
  }

  /** A course, an enrolment, a submission and feedback with a null score lead to a REVIEWED document without a
      score. */
  lemma NullScoreIsReachable(
    tutor: Text, student: Text, c: Text, a: Text, e: Text, d: Text, work: Work, feedback: Text)
    returns (schedule: seq<Action>)
    requires tutor != student && c != a && e != c && e != a && d != c && d != a && d != e
    ensures var s := Run(Init(), schedule);
      d in s.submissions && s.submissions[d].status == REVIEWED && s.submissions[d].score == None
  {
    hide Run, NewSubmission, NewEnrollment;
    var t := CourseOpens(tutor, c, a);
    t := Enrols(t, student, c, e);
    t := Submits(t, student, c, a, e, d, work);
    Handed(d, Pair(student, a), work);
    t := Reviews(t, tutor, c, a, d, feedback);
    schedule := t.schedule;
  }

  lemma Handed(d: Text, p: Pair, work: Work)
    ensures NewSubmission(d, p, work).assignmentId == p.target && NewSubmission(d, p, work).status == SUBMITTED
  {
  }
}
