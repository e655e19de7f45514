/**
 * An exercise assignment: two deadlines with their point maxima, a limit on
 * the number of evaluated submissions, and the rules that decide whether a
 * user may still submit and which of their submissions is the best one.
 * Times are timestamps in seconds; the clock is the parameter `now`.
 */
module ExerciseAssignments {
  import opened Wrappers

  type UserId = string
  type Time = int

  /** The evaluation status under which a submission may become the best one. */
  const DONE := "done"

  /**
   * What the assignment's collection queries read of one submission: its
   * author, its results URL, whether it has an evaluation, its evaluation
   * status and its total points.
   */
  datatype Attempt = Attempt(user: UserId, resultsUrl: Option<string>, evaluated: bool,
                             status: string, totalPoints: int)

  /**
   * The assignment's columns, the descriptions along its exercise chain
   * (its exercise first, then that exercise's own exercise, and so on), the
   * group's licence and membership, and its submissions newest first.
   */
  datatype Assignment = Assignment(
    firstDeadline: Time, maxPointsBeforeFirstDeadline: int,
    secondDeadline: Time, maxPointsBeforeSecondDeadline: int,
    submissionsCountLimit: int,
    description: Option<string>, exerciseDescriptions: seq<Option<string>>,
    groupHasValidLicence: bool, students: set<UserId>, supervisors: set<UserId>,
    submissions: seq<Attempt>)

  /** `isAfterDeadline`: the second deadline has passed. */
  predicate IsAfterDeadline(a: Assignment, now: Time) {
    a.secondDeadline < now
  }

  /** `getMaxPoints`: the points that can be earned at `time` (no time: before the first deadline). */
  function MaxPoints(a: Assignment, time: Option<Time>): (p: int)
    ensures p == a.maxPointsBeforeFirstDeadline || p == a.maxPointsBeforeSecondDeadline || p == 0
  {
    if time.None? || time.value < a.firstDeadline then a.maxPointsBeforeFirstDeadline
    else if time.value < a.secondDeadline then a.maxPointsBeforeSecondDeadline
    else 0
  }

  /** Asking without a time is asking at any moment before the first deadline. */
  lemma MaxPointsWithoutTime(a: Assignment, t: Time)
    requires t < a.firstDeadline
    ensures MaxPoints(a, None) == MaxPoints(a, Some(t)) == a.maxPointsBeforeFirstDeadline
  {
  }

  /** With ordered deadlines nothing can be earned once the second one has passed. */
  lemma MaxPointsAfterDeadline(a: Assignment, t: Time)
    requires a.firstDeadline <= a.secondDeadline && IsAfterDeadline(a, t)
    ensures MaxPoints(a, Some(t)) == 0
  {
  }

  /** Between the two deadlines the second maximum applies. */
  lemma MaxPointsBetween(a: Assignment, t: Time)
    requires a.firstDeadline <= t < a.secondDeadline
    ensures MaxPoints(a, Some(t)) == a.maxPointsBeforeSecondDeadline
  {
  }

  /**
   * From the second deadline on, once the first has passed too, nothing can
   * be earned: the comparison with the second deadline is strict, so the
   * deadline's own moment already gives 0.
   */
  lemma MaxPointsFromSecondDeadline(a: Assignment, t: Time)
    requires a.firstDeadline <= t && a.secondDeadline <= t
    ensures MaxPoints(a, Some(t)) == 0
  {
  }

  /**
   * With ordered deadlines and a non-negative schedule that does not grow,
   * a later submission can never earn more than an earlier one.
   */
  lemma MaxPointsNonIncreasing(a: Assignment, t1: Time, t2: Time)
    requires t1 <= t2 && a.firstDeadline <= a.secondDeadline
    requires 0 <= a.maxPointsBeforeSecondDeadline <= a.maxPointsBeforeFirstDeadline
    ensures 0 <= MaxPoints(a, Some(t2)) <= MaxPoints(a, Some(t1))
  {
  }

  /** `getValidSubmissions`: the user's submissions with a results URL, in collection order. */
  function ValidSubmissions(subs: seq<Attempt>, user: UserId): (r: seq<Attempt>)
    ensures |r| <= |subs|
    ensures forall x :: x in r <==> x in subs && x.user == user && x.resultsUrl.Some?
  {
    if subs == [] then []
    else (if subs[0].user == user && subs[0].resultsUrl.Some? then [subs[0]] else [])
         + ValidSubmissions(subs[1..], user)
  }

  /** `hasReachedSubmissionsCountLimit`. */
  predicate HasReachedSubmissionsCountLimit(a: Assignment, user: UserId) {
    |ValidSubmissions(a.submissions, user)| >= a.submissionsCountLimit
  }

  /** `canReceiveSubmissions` for an optional user. */
  predicate CanReceiveSubmissions(a: Assignment, user: Option<UserId>, now: Time) {
    a.groupHasValidLicence && !IsAfterDeadline(a, now) &&
    (user.Some? && !HasReachedSubmissionsCountLimit(a, user.value))
  }

  /**
   * Receiving is monotone in time: an assignment that still receives a
   * user's submissions at `t2` received them at every earlier moment, and
   * once the second deadline has passed it receives nothing.
   */
  lemma ReceivingEarlier(a: Assignment, user: Option<UserId>, t1: Time, t2: Time)
    requires t1 <= t2
    ensures CanReceiveSubmissions(a, user, t2) ==> CanReceiveSubmissions(a, user, t1)
    ensures IsAfterDeadline(a, t1) ==> IsAfterDeadline(a, t2) && !CanReceiveSubmissions(a, user, t2)
  {
  }

  /**
   * A new submission never reopens an assignment: with one more submission
   * the user's valid submissions are at least as many, and exactly one more
   * when it is theirs and has a results URL, so an assignment that receives
   * afterwards received before.
   */
  lemma {:induction false} SubmissionNeverReopens(a: Assignment, x: Attempt, user: UserId, now: Time)
    ensures var b := a.(submissions := [x] + a.submissions);
            |ValidSubmissions(b.submissions, user)| ==
              |ValidSubmissions(a.submissions, user)| + (if x.user == user && x.resultsUrl.Some? then 1 else 0)
    ensures var b := a.(submissions := [x] + a.submissions);
            (HasReachedSubmissionsCountLimit(a, user) ==> HasReachedSubmissionsCountLimit(b, user)) &&
            (CanReceiveSubmissions(b, Some(user), now) ==> CanReceiveSubmissions(a, Some(user), now))
  {
    assert ([x] + a.submissions)[1..] == a.submissions;
  }

  /**
   * A submission without a results URL does not count towards the limit:
   * adding one leaves the decision unchanged.
   */
  lemma {:induction false} UnevaluableDoesNotCount(a: Assignment, x: Attempt, user: UserId)
    requires x.resultsUrl.None?
    ensures ValidSubmissions([x] + a.submissions, user) == ValidSubmissions(a.submissions, user)
    ensures HasReachedSubmissionsCountLimit(a.(submissions := [x] + a.submissions), user) ==
            HasReachedSubmissionsCountLimit(a, user)
  {
    assert ([x] + a.submissions)[1..] == a.submissions;
  }

  /**
   * `getDescription`: the assignment's own description unless it is empty,
   * otherwise the first non-empty description up the exercise chain; when
   * all are empty, the last one read.
   */
  method GetDescription(a: Assignment) returns (d: Option<string>)
    ensures var chain := [a.description] + a.exerciseDescriptions;
            exists i :: 0 <= i < |chain| && d == chain[i] &&
                        (forall j :: 0 <= j < i ==> IsEmpty(chain[j])) &&
                        (!IsEmpty(d) || i == |chain| - 1)
  {
    ghost var chain := [a.description] + a.exerciseDescriptions;
    d := a.description;
    var k := 0;
    while IsEmpty(d) && k < |a.exerciseDescriptions|
      invariant 0 <= k <= |a.exerciseDescriptions|
      invariant d == chain[k]
      invariant forall j :: 0 <= j < k ==> IsEmpty(chain[j])
    {
      d := a.exerciseDescriptions[k];
      k := k + 1;
    }
  }

  /** The user's submissions that have an evaluation, in collection order. */
  function EvaluatedOf(subs: seq<Attempt>, user: UserId): (r: seq<Attempt>)
    ensures forall x :: x in r <==> x in subs && x.user == user && x.evaluated
  {
    if subs == [] then []
    else (if subs[0].user == user && subs[0].evaluated then [subs[0]] else [])
         + EvaluatedOf(subs[1..], user)
  }

  /**
   * The `array_reduce` of `getBestSolution` over the first `n` candidates:
   * the index of the best so far. The first candidate is taken whatever its
   * status; a later one replaces the best when it is done and has at least
   * as many points.
   */
  function BestIndex(c: seq<Attempt>, n: nat): (r: Option<nat>)
    requires n <= |c|
    ensures r.Some? ==> r.value < n
  {
    if n == 0 then None
    else match BestIndex(c, n - 1)
      case None => Some(n - 1)
      case Some(b) =>
        if c[n - 1].status != DONE || c[b].totalPoints > c[n - 1].totalPoints then Some(b) else Some(n - 1)
  }

  /**
   * `b` is what the reduction can pick among the first `n` candidates: the
   * first candidate or a done one, with at least the points of the first
   * and of every done candidate, and strictly more than every later done one.
   */
  ghost predicate IsBest(c: seq<Attempt>, n: nat, b: nat) {
    b < n <= |c| &&
    (b == 0 || c[b].status == DONE) &&
    c[0].totalPoints <= c[b].totalPoints &&
    (forall j :: 0 <= j < n && c[j].status == DONE ==> c[j].totalPoints <= c[b].totalPoints) &&
    (forall j :: b < j < n && c[j].status == DONE ==> c[j].totalPoints < c[b].totalPoints)
  }

  lemma BestStep(c: seq<Attempt>, n: nat, b: nat)
    requires n < |c| && BestIndex(c, n) == Some(b) && IsBest(c, n, b)
    ensures IsBest(c, n + 1, BestIndex(c, n + 1).value)
  {
  }

  /** The reduction picks a candidate exactly when there is one, and it is the best. */
  lemma {:induction false} BestSolutionIsBest(c: seq<Attempt>, n: nat)
    requires n <= |c|
    ensures BestIndex(c, n).Some? <==> n > 0
    ensures BestIndex(c, n).Some? ==> IsBest(c, n, BestIndex(c, n).value)
  {
    if n > 1 {
      BestSolutionIsBest(c, n - 1);
      BestStep(c, n - 1, BestIndex(c, n - 1).value);
    }
  }

  /** `getBestSolution`: the best evaluated submission of `user`, None when there is none. */
  function GetBestSolution(a: Assignment, user: UserId): (r: Option<Attempt>)
    ensures r.Some? ==> r.value in a.submissions && r.value.user == user && r.value.evaluated
    ensures r.None? <==> EvaluatedOf(a.submissions, user) == []
  {
    var c := EvaluatedOf(a.submissions, user);
    match BestIndex(c, |c|)
    case None => None
    case Some(b) => assert c[b] in c; Some(c[b])
  }

  /** No evaluated, done submission of `user` has more points than the best one. */
  lemma BestSolutionDominates(a: Assignment, user: UserId, x: Attempt)
    requires x in a.submissions && x.user == user && x.evaluated && x.status == DONE
    ensures GetBestSolution(a, user).Some?
    ensures x.totalPoints <= GetBestSolution(a, user).value.totalPoints
  {
    var c := EvaluatedOf(a.submissions, user);
    assert x in c;
    BestSolutionIsBest(c, |c|);
    var j :| 0 <= j < |c| && c[j] == x;
  }
}
