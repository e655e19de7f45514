/**
 * A submitted solution of an exercise assignment: the guards that decide
 * whether it may be created, the entity it creates, and its evaluation.
 */
module Submissions {
  import opened Wrappers
  import opened ExerciseAssignments

  /** The four ForbiddenRequestExceptions `createSubmission` can throw, by cause. */
  datatype Rejection = CannotSubmit | NoValidLicence | AfterDeadline | LimitReached

  /** A solution evaluation, seen through its total points. */
  datatype Evaluation = Evaluation(totalPoints: int)

  /**
   * The identity check of `createSubmission` as written: it rejects only a
   * user who is not a student of the group, submits for themselves and is
   * no supervisor either.
   */
  predicate AsWrittenIdentityRejects(a: Assignment, user: UserId, loggedIn: UserId) {
    user !in a.students && (user == loggedIn && loggedIn !in a.supervisors)
  }

  /**
   * The identity check its comment describes: the user must be a student
   * of the group, and the logged-in user that student or a supervisor.
   */
  predicate IdentityRejects(a: Assignment, user: UserId, loggedIn: UserId) {
    !(user in a.students && (user == loggedIn || loggedIn in a.supervisors))
  }

  /**
   * The checks after the identity check: the group's licence for everyone,
   * then the deadline and the submission limit unless the logged-in user
   * supervises the group.
   */
  function LaterChecks(a: Assignment, user: UserId, loggedIn: UserId, now: Time): Option<Rejection> {
    if !a.groupHasValidLicence then Some(NoValidLicence)
    else if loggedIn !in a.supervisors && IsAfterDeadline(a, now) then Some(AfterDeadline)
    else if loggedIn !in a.supervisors && HasReachedSubmissionsCountLimit(a, user) then Some(LimitReached)
    else None
  }

  /** The guards of `createSubmission` as written: the first exception thrown, or None. */
  function AsWrittenAdmission(a: Assignment, user: UserId, loggedIn: UserId, now: Time): Option<Rejection> {
    if AsWrittenIdentityRejects(a, user, loggedIn) then Some(CannotSubmit) else LaterChecks(a, user, loggedIn, now)
  }

  /** The guards with the identity check its comment describes. */
  function Admission(a: Assignment, user: UserId, loggedIn: UserId, now: Time): Option<Rejection> {
    if IdentityRejects(a, user, loggedIn) then Some(CannotSubmit) else LaterChecks(a, user, loggedIn, now)
  }

  /**
   * As written, a non-student submitting for themselves without supervisor
   * rights is refused, whatever else holds; an invalid licence refuses
   * everyone else; the deadline and the limit bind only non-supervisors.
   */
  lemma AsWrittenAdmissionRules(a: Assignment, user: UserId, loggedIn: UserId, now: Time)
    ensures user !in a.students && user == loggedIn && loggedIn !in a.supervisors ==>
              AsWrittenAdmission(a, user, loggedIn, now) == Some(CannotSubmit)
    ensures !AsWrittenIdentityRejects(a, user, loggedIn) && !a.groupHasValidLicence ==>
              AsWrittenAdmission(a, user, loggedIn, now) == Some(NoValidLicence)
    ensures loggedIn in a.supervisors && a.groupHasValidLicence ==>
              AsWrittenAdmission(a, user, loggedIn, now).None?
  {
  }

  /**
   * As written, anybody may submit in a student's name: a logged-in user who
   * is neither that student nor a supervisor passes every check.
   */
  lemma AsWrittenAdmitsStranger()
    ensures var a := Assignment(100, 10, 200, 5, 3, None, [], true, {"student"}, {"teacher"}, []);
            AsWrittenAdmission(a, "student", "stranger", 50).None? &&
            Admission(a, "student", "stranger", 50) == Some(CannotSubmit)
  {
    var a := Assignment(100, 10, 200, 5, 3, None, [], true, {"student"}, {"teacher"}, []);
    assert ValidSubmissions(a.submissions, "student") == [];
  }

  /**
   * A submission is admitted exactly when the user is a student, the
   * logged-in user is that student or a supervisor, the licence is valid,
   * and a non-supervisor is before the deadline and under the limit.
   */
  lemma AdmissionMeans(a: Assignment, user: UserId, loggedIn: UserId, now: Time)
    ensures Admission(a, user, loggedIn, now).None? <==>
              user in a.students && (user == loggedIn || loggedIn in a.supervisors) &&
              a.groupHasValidLicence &&
              (loggedIn in a.supervisors || (now <= a.secondDeadline && !HasReachedSubmissionsCountLimit(a, user)))
  {
  }

  /** Every submission the corrected guards admit, the guards as written admit too. */
  lemma AdmissionNarrowsAsWritten(a: Assignment, user: UserId, loggedIn: UserId, now: Time)
    ensures Admission(a, user, loggedIn, now).None? ==> AsWrittenAdmission(a, user, loggedIn, now).None?
  {
  }

  /**
   * A student submitting their own solution is admitted exactly when the
   * assignment can receive submissions from them.
   */
  lemma StudentAdmittedIffReceiving(a: Assignment, user: UserId, now: Time)
    requires user in a.students && user !in a.supervisors
    ensures Admission(a, user, user, now).None? <==> CanReceiveSubmissions(a, Some(user), now)
  {
  }

  /** The submission entity; the solution's evaluated flag is kept here as `solutionEvaluated`. */
  class Submission {
    var note: string
    var assignment: Assignment
    var user: UserId
    var submittedAt: Time
    var hardwareGroup: string
    var asynchronous: bool
    var files: seq<string>
    var resultsUrl: Option<string>
    var evaluation: Option<Evaluation>
    var solutionEvaluated: bool

    /** The entity built by the last part of `createSubmission`. */
    constructor (note: string, assignment: Assignment, user: UserId, now: Time,
                 hardwareGroup: string, asynchronous: bool, files: seq<string>)
      ensures this.note == note && this.assignment == assignment && this.user == user
      ensures submittedAt == now && this.hardwareGroup == hardwareGroup
      ensures this.asynchronous == asynchronous && this.files == files
      ensures resultsUrl.None? && evaluation.None? && !solutionEvaluated
    {
      this.note := note;
      this.assignment := assignment;
      this.user := user;
      submittedAt := now;
      this.hardwareGroup := hardwareGroup;
      this.asynchronous := asynchronous;
      this.files := files;
      resultsUrl := None;
      evaluation := None;
      solutionEvaluated := false;
    }

    /** `canBeEvaluated`. */
    predicate CanBeEvaluated()
      reads this
    {
      resultsUrl.Some?
    }

    /** `hasEvaluation`. */
    predicate HasEvaluation()
      reads this
    {
      evaluation.Some?
    }

    /** `getTotalPoints`: the evaluation's points, 0 without an evaluation. */
    function GetTotalPoints(): (p: int)
      reads this
      ensures HasEvaluation() ==> p == evaluation.value.totalPoints
      ensures !HasEvaluation() ==> p == 0
    {
      match evaluation
      case None => 0
      case Some(e) => e.totalPoints
    }

    /** `getMaxPoints`: the assignment's maximum at the time of submission. */
    function GetMaxPoints(): (p: int)
      reads this
      ensures IsAfterDeadline(assignment, submittedAt) && assignment.firstDeadline <= assignment.secondDeadline ==> p == 0
    {
      MaxPointsAfterDeadlineAt(assignment, submittedAt);
      MaxPoints(assignment, Some(submittedAt))
    }

    /** What the assignment's queries see of this submission, given its evaluation status. */
    function AsAttempt(status: string): (t: Attempt)
      reads this
      ensures t.user == user && t.evaluated == HasEvaluation() && t.totalPoints == GetTotalPoints()
      ensures t.resultsUrl.Some? == CanBeEvaluated()
    {
      Attempt(user, resultsUrl, evaluation.Some?, status, GetTotalPoints())
    }

    /** `setEvaluation`: stores the evaluation and marks the solution evaluated. */
    method SetEvaluation(e: Evaluation)
      modifies this
      ensures evaluation == Some(e) && solutionEvaluated
      ensures HasEvaluation() && GetTotalPoints() == e.totalPoints
      ensures note == old(note) && assignment == old(assignment) && user == old(user)
      ensures submittedAt == old(submittedAt) && hardwareGroup == old(hardwareGroup)
      ensures asynchronous == old(asynchronous) && files == old(files) && resultsUrl == old(resultsUrl)
    {
      evaluation := Some(e);
      solutionEvaluated := true;
    }
  }

  /** The points maximum at a moment after the second of two ordered deadlines is zero. */
  lemma MaxPointsAfterDeadlineAt(a: Assignment, t: Time)
    ensures IsAfterDeadline(a, t) && a.firstDeadline <= a.secondDeadline ==> MaxPoints(a, Some(t)) == 0
  {
    if IsAfterDeadline(a, t) && a.firstDeadline <= a.secondDeadline {
      MaxPointsAfterDeadline(a, t);
    }
  }

  /**
   * `createSubmission` as written: the first rejection of the guards as
   * written, or a fresh entity holding the given data and no evaluation.
   */
  method CreateSubmission(note: string, a: Assignment, user: UserId, loggedIn: UserId, hardwareGroup: string,
                          files: seq<string>, asynchronous: bool, now: Time)
    returns (r: Result<Submission, Rejection>)
    ensures r.Failure? <==> AsWrittenAdmission(a, user, loggedIn, now).Some?
    ensures r.Failure? ==> r.error == AsWrittenAdmission(a, user, loggedIn, now).value
    ensures r.Success? ==> fresh(r.value) && r.value.assignment == a && r.value.user == user &&
                           r.value.note == note && r.value.hardwareGroup == hardwareGroup &&
                           r.value.asynchronous == asynchronous && r.value.files == files &&
                           r.value.submittedAt == now && !r.value.HasEvaluation()
  {
    r := Admit(AsWrittenAdmission(a, user, loggedIn, now), note, a, user, hardwareGroup, files, asynchronous, now);
  }

  /** `createSubmission` with the identity check its comment describes. */
  method CorrectedCreateSubmission(note: string, a: Assignment, user: UserId, loggedIn: UserId, hardwareGroup: string,
                                   files: seq<string>, asynchronous: bool, now: Time)
    returns (r: Result<Submission, Rejection>)
    ensures r.Failure? <==> Admission(a, user, loggedIn, now).Some?
    ensures r.Failure? ==> r.error == Admission(a, user, loggedIn, now).value
    ensures r.Success? ==> fresh(r.value) && r.value.assignment == a && r.value.user == user &&
                           r.value.note == note && r.value.hardwareGroup == hardwareGroup &&
                           r.value.asynchronous == asynchronous && r.value.files == files &&
                           r.value.submittedAt == now && !r.value.HasEvaluation()
  {
    r := Admit(Admission(a, user, loggedIn, now), note, a, user, hardwareGroup, files, asynchronous, now);
  }

  /** The rejection when there is one, otherwise the new entity. */
  method Admit(rejection: Option<Rejection>, note: string, a: Assignment, user: UserId, hardwareGroup: string,
               files: seq<string>, asynchronous: bool, now: Time)
    returns (r: Result<Submission, Rejection>)
    ensures r.Failure? <==> rejection.Some?
    ensures r.Failure? ==> r.error == rejection.value
    ensures r.Success? ==> fresh(r.value) && r.value.assignment == a && r.value.user == user &&
                           r.value.note == note && r.value.hardwareGroup == hardwareGroup &&
                           r.value.asynchronous == asynchronous && r.value.files == files &&
                           r.value.submittedAt == now && !r.value.HasEvaluation()
  {
    if rejection.Some? {
      return Failure(rejection.value);
    }
    var entity := new Submission(note, a, user, now, hardwareGroup, asynchronous, files);
    return Success(entity);
  }
}
