/** How long a merged change took, and doing what (src/rail/flow.py). */
module Flow {
  import opened Wrappers
  import opened Sequences

  /** Instants and durations are whole microseconds. */
  type Interval = (int, int)

  datatype Pull = Pull(createdAt: int, mergedAt: int)
  datatype Suite = Suite(appSlug: Option<string>, createdAt: int)
  datatype Run = Run(id: int, name: string, appId: Option<int>, appSlug: Option<string>,
                     startedAt: Option<int>, completedAt: Option<int>)

  /** What a status description says of its judge. */
  datatype Said = CarriedFrom | RanSince(provider: string, at: int) | Unreadable
  datatype CommitStatus = CommitStatus(id: int, context: string, state: string, said: Said, createdAt: int)

  datatype Evidence = Evidence(
    pull: Pull, suites: Option<seq<Suite>>, runs: Option<seq<Run>>, statuses: Option<seq<CommitStatus>>)
  datatype ReviewFacts = ReviewFacts(carried: Option<bool>, checkRunId: Option<int>)
  datatype Holder = Holder(startedAt: int, mergedAt: int)

  datatype Segments = Segments(
    flow: int, ciStart: Option<int>, ci: Option<int>, ciLongest: Option<int>,
    reviewStart: Option<int>, review: Option<int>,
    judgeWait: Option<int>, judge: Option<int>, idle: Option<int>, holder: Option<int>)

  datatype Timeline = Timeline(pushAt: int, segments: Segments)

  function Max(a: int, b: int): int {
    if a < b then b else a
  }

  function Min(a: int, b: int): int {
    if a < b then a else b
  }

  function OrEmpty<T>(s: Option<seq<T>>): seq<T> {
    if s.None? then [] else s.value
  }

  // ---------------------------------------------------------------- occupied time

  /** The microseconds that begin in [a, b). */
  function Cells(a: int, b: int): set<int> {
    set t | a <= t < b && Covers((a, b), t)
  }

  lemma {:induction false} CellsCount(a: int, b: int)
    requires a <= b
    ensures |Cells(a, b)| == b - a
    decreases b - a
  {
    if a < b {
      CellsCount(a, b - 1);
      assert Cells(a, b) == Cells(a, b - 1) + {b - 1};
    } else {
      assert Cells(a, b) == {};
    }
  }

  predicate Covers(i: Interval, t: int) {
    i.0 <= t < i.1
  }

  predicate CoveredBy(s: seq<Interval>, t: int) {
    exists i :: i in s && Covers(i, t)
  }

  /** The microseconds of a window that some interval covers. */
  function Occupied(intervals: seq<Interval>, start: int, end: int): set<int> {
    set t | start <= t < end && CoveredBy(intervals, t)
  }

  predicate MeetsWindow(i: Interval, start: int, end: int) {
    i.0 <= i.1 && Max(i.0, start) <= Min(i.1, end)
  }

  function Clip(i: Interval, start: int, end: int): Interval {
    (Max(i.0, start), Min(i.1, end))
  }

  ghost predicate IsByStart(s: seq<Interval>) {
    forall i, j :: 0 <= i < j < |s| ==> s[i].0 <= s[j].0
  }

  function InsertByStart(x: Interval, s: seq<Interval>): (r: seq<Interval>)
    ensures forall i :: i in r <==> i == x || i in s
    ensures IsByStart(s) ==> IsByStart(r)
  {
    if s == [] then [x]
    else if x.0 < s[0].0 || (x.0 == s[0].0 && x.1 <= s[0].1) then [x] + s
    else
      assert s == [s[0]] + s[1..];
      var rest := InsertByStart(x, s[1..]);
      assert forall k :: 0 <= k < |rest| ==> rest[k] in rest;
      [s[0]] + rest
  }

  /** `sorted`. */
  function SortByStart(s: seq<Interval>): (r: seq<Interval>)
    ensures forall i :: i in r <==> i in s
    ensures IsByStart(r)
  {
    if s == [] then []
    else
      assert s == [s[0]] + s[1..];
      InsertByStart(s[0], SortByStart(s[1..]))
  }

  /** The intervals that meet the window, clipped to it, by their start. */
  function Clipped(intervals: seq<Interval>, start: int, end: int): (r: seq<Interval>)
    ensures forall i :: i in r ==> i.0 <= i.1
    ensures IsByStart(r)
  {
    var meeting := Filter(i => MeetsWindow(i, start, end), intervals);
    assert forall k :: 0 <= k < |meeting| ==> meeting[k] in meeting;
    SortByStart(Map(i => Clip(i, start, end), meeting))
  }

  lemma ClippedCovers(intervals: seq<Interval>, start: int, end: int, t: int)
    ensures CoveredBy(Clipped(intervals, start, end), t) <==> t in Occupied(intervals, start, end)
  {
    var meeting := Filter(i => MeetsWindow(i, start, end), intervals);
    var clipped := Map(i => Clip(i, start, end), meeting);
    if c :| c in clipped && Covers(c, t) {
      var k :| 0 <= k < |clipped| && clipped[k] == c;
      assert meeting[k] in meeting && Covers(meeting[k], t);
    }
    if t in Occupied(intervals, start, end) {
      var i :| i in intervals && Covers(i, t);
      assert i in meeting;
      var k :| 0 <= k < |meeting| && meeting[k] == i;
      assert clipped[k] in clipped && Covers(clipped[k], t);
    }
  }

  /** What the merged run [left, right) and the runs before it cover. */
  ghost predicate IsMerged(done: seq<Interval>, before: set<int>, left: int, right: int) {
    && left <= right
    && (forall t :: t in before ==> t < left)
    && (forall t :: CoveredBy(done, t) <==> t in before + Cells(left, right))
    && (forall i :: i in done ==> i.0 <= i.1 <= right)
  }

  lemma CoveredBySnoc(done: seq<Interval>, x: Interval, t: int)
    ensures CoveredBy(done + [x], t) <==> CoveredBy(done, t) || Covers(x, t)
  {
  }

  /** The next interval touches the run: the run grows. */
  lemma RunGrows(done: seq<Interval>, before: set<int>, left: int, right: int, x: Interval)
    requires IsMerged(done, before, left, right) && left <= x.0 <= right && x.0 <= x.1
    ensures IsMerged(done + [x], before, left, Max(right, x.1))
  {
    forall t ensures CoveredBy(done + [x], t) <==> t in before + Cells(left, Max(right, x.1)) {
      CoveredBySnoc(done, x, t);
    }
  }

  /** The next interval lies beyond the run: another run begins. */
  lemma RunEnds(done: seq<Interval>, before: set<int>, left: int, right: int, x: Interval)
    requires IsMerged(done, before, left, right) && right < x.0 <= x.1
    ensures IsMerged(done + [x], before + Cells(left, right), x.0, x.1)
    ensures |before + Cells(left, right)| == |before| + (right - left)
  {
    CellsCount(left, right);
    assert before !! Cells(left, right);
    forall t ensures CoveredBy(done + [x], t) <==> t in (before + Cells(left, right)) + Cells(x.0, x.1) {
      CoveredBySnoc(done, x, t);
    }
  }

  /**
   * `union_minutes`, in microseconds: for any order and any overlaps, the measure of the union
   * of the intervals inside the window.
   */
  method UnionTime(intervals: seq<Interval>, start: int, end: int) returns (time: int)
    ensures time == |Occupied(intervals, start, end)|
  {
    hide CoveredBy, Occupied, Clipped, IsMerged, Cells;
    var clipped := Clipped(intervals, start, end);
    if clipped == [] {
      NothingClipped(intervals, start, end);
      return 0;
    }
    assert clipped[0] in clipped && clipped[..1] == [clipped[0]];
    var (left, right) := clipped[0];
    var passed := 0;
    ghost var before: set<int> := {};
    FirstRun(clipped[0]);
    for n := 1 to |clipped|
      invariant IsMerged(clipped[..n], before, left, right) && passed == |before|
      invariant left <= clipped[n - 1].0
    {
      var next := clipped[n];
      assert next in clipped && clipped[..n + 1] == clipped[..n] + [next];
      assert left <= clipped[n - 1].0 <= next.0;
      if next.0 <= right {
        RunGrows(clipped[..n], before, left, right, next);
        right := Max(right, next.1);
      } else {
        RunEnds(clipped[..n], before, left, right, next);
        passed := passed + (right - left);
        before := before + Cells(left, right);
        left, right := next.0, next.1;
      }
    }
    assert clipped[..|clipped|] == clipped;
    LastRun(intervals, start, end, before, left, right);
    return passed + (right - left);
  }

  lemma NothingClipped(intervals: seq<Interval>, start: int, end: int)
    requires Clipped(intervals, start, end) == []
    ensures Occupied(intervals, start, end) == {}
  {
  }

  lemma FirstRun(x: Interval)
    requires x.0 <= x.1
    ensures IsMerged([x], {}, x.0, x.1)
  {
  }

  lemma LastRun(intervals: seq<Interval>, start: int, end: int, before: set<int>, left: int, right: int)
    requires IsMerged(Clipped(intervals, start, end), before, left, right)
    ensures |Occupied(intervals, start, end)| == |before| + (right - left)
  {
    CellsCount(left, right);
    assert before !! Cells(left, right);
    forall t ensures t in Occupied(intervals, start, end) <==> t in before + Cells(left, right) {
      ClippedCovers(intervals, start, end, t);
    }
    assert Occupied(intervals, start, end) == before + Cells(left, right);
  }

  lemma OccupiedFits(intervals: seq<Interval>, start: int, end: int)
    requires start <= end
    ensures |Occupied(intervals, start, end)| <= end - start
  {
    CellsCount(start, end);
    var occupied, all := Occupied(intervals, start, end), Cells(start, end);
    assert all == occupied + (all - occupied);
  }

  // ---------------------------------------------------------------- evidence

  const ACTIONS := Some("github-actions")
  const REVIEW_CHECK := "red-rail/review"
  const REVIEW_CONTEXT := "independent-review"

  /** The least and the greatest of a non-empty list. */
  function Least(s: seq<int>): (m: int)
    requires s != []
    ensures m in s && forall x :: x in s ==> m <= x
  {
    if |s| == 1 then s[0]
    else
      assert s == [s[0]] + s[1..];
      Min(s[0], Least(s[1..]))
  }

  function Greatest(s: seq<int>): (m: int)
    requires s != []
    ensures m in s && forall x :: x in s ==> x <= m
  {
    if |s| == 1 then s[0]
    else
      assert s == [s[0]] + s[1..];
      Max(s[0], Greatest(s[1..]))
  }

  predicate IsPushSuite(s: Suite, mergedAt: int) {
    s.appSlug == ACTIONS && s.createdAt <= mergedAt
  }

  /** `push_proxy`. */
  function PushProxy(pull: Pull, suites: Option<seq<Suite>>): (p: Option<int>)
    ensures p.Some? ==> pull.createdAt <= p.value <= pull.mergedAt
  {
    var candidates := Map((s: Suite) => s.createdAt, Filter(s => IsPushSuite(s, pull.mergedAt), OrEmpty(suites)));
    if candidates == [] then None
    else
      var push := Max(Least(candidates), pull.createdAt);
      if push <= pull.mergedAt then Some(push) else None
  }

  /** The push is the earliest suite of the Actions app up to the merge, no earlier than the pull
      request itself; it is unknown without such a suite, or when creation comes after the merge. */
  lemma PushMeans(pull: Pull, suites: Option<seq<Suite>>, push: int)
    ensures PushProxy(pull, suites) == Some(push) <==>
      && pull.createdAt <= push <= pull.mergedAt
      && (exists s :: s in OrEmpty(suites) && s.appSlug == Some("github-actions") && s.createdAt <= push)
      && (push > pull.createdAt ==>
            forall s :: s in OrEmpty(suites) && s.appSlug == Some("github-actions") && s.createdAt <= pull.mergedAt ==>
              push <= s.createdAt)
  {
    var kept := Filter(s => IsPushSuite(s, pull.mergedAt), OrEmpty(suites));
    CandidatesMean(kept);
  }

  lemma CandidatesMean(kept: seq<Suite>)
    ensures var candidates := Map((s: Suite) => s.createdAt, kept);
      && (forall s :: s in kept ==> s.createdAt in candidates)
      && (forall t :: t in candidates ==> exists s :: s in kept && s.createdAt == t)
  {
    var candidates := Map((s: Suite) => s.createdAt, kept);
    forall s | s in kept ensures s.createdAt in candidates {
      var k :| 0 <= k < |kept| && kept[k] == s;
      assert candidates[k] == s.createdAt;
    }
    forall t | t in candidates ensures exists s :: s in kept && s.createdAt == t {
      var k :| 0 <= k < |candidates| && candidates[k] == t;
      assert kept[k] in kept;
    }
  }

  /** `_run_interval`. */
  function RunInterval(run: Run, push: int, mergedAt: int): (r: Option<Interval>)
    ensures r.Some? ==> push <= r.value.0 <= r.value.1 <= mergedAt
  {
    if run.startedAt.None? || run.startedAt.value >= mergedAt then None
    else
      var start := Max(run.startedAt.value, push);
      var end := Min(if run.completedAt.None? then mergedAt else run.completedAt.value, mergedAt);
      if start <= end then Some((start, end)) else None
  }

  /** A run's interval holds exactly the instants between push and merge at which it ran, a run
      without an end running on; and a run that never ran between them has none. */
  lemma RunIntervalMeans(run: Run, push: int, mergedAt: int, t: int)
    ensures var r := RunInterval(run, push, mergedAt);
      (r.Some? && r.value.0 <= t < r.value.1) <==>
        && push <= t < mergedAt
        && run.startedAt.Some? && run.startedAt.value <= t && (run.completedAt.None? || t < run.completedAt.value)
    ensures push <= mergedAt ==>
      (RunInterval(run, push, mergedAt).Some? <==>
         && run.startedAt.Some? && run.startedAt.value < mergedAt
         && (run.completedAt.None? || (run.startedAt.value <= run.completedAt.value && push <= run.completedAt.value)))
    ensures var r := RunInterval(run, push, mergedAt);
      r.Some? ==> r.value.0 == push || Some(r.value.0) == run.startedAt
  {
  }

  /** The intervals of the runs that have one. */
  function IntervalsOf(runs: seq<Run>, push: int, mergedAt: int): (r: seq<Interval>)
    ensures forall i :: i in r ==> push <= i.0 <= i.1 <= mergedAt
    ensures r == [] <==> forall run :: run in runs ==> RunInterval(run, push, mergedAt).None?
  {
    if runs == [] then []
    else
      var last := RunInterval(runs[|runs| - 1], push, mergedAt);
      assert runs == runs[..|runs| - 1] + [runs[|runs| - 1]];
      IntervalsOf(runs[..|runs| - 1], push, mergedAt) + (if last.Some? then [last.value] else [])
  }

  /** The intervals come from the runs, and every run with one gives it. */
  lemma {:induction false} IntervalsMean(runs: seq<Run>, push: int, mergedAt: int, i: Interval)
    ensures i in IntervalsOf(runs, push, mergedAt) <==>
      exists r :: r in runs && RunInterval(r, push, mergedAt) == Some(i)
  {
    if runs != [] {
      var init, last := runs[..|runs| - 1], runs[|runs| - 1];
      assert runs == init + [last];
      IntervalsMean(init, push, mergedAt, i);
    }
  }

  predicate IsJudgeStatus(s: CommitStatus, mergedAt: int) {
    s.context == REVIEW_CONTEXT && s.state == "success" && s.createdAt <= mergedAt
  }

  predicate IsLater(x: CommitStatus, y: CommitStatus) {
    x.createdAt > y.createdAt || (x.createdAt == y.createdAt && x.id > y.id)
  }

  /** The latest status by instant, then by id. */
  function LatestStatus(s: seq<CommitStatus>): (m: CommitStatus)
    requires s != []
    ensures m in s && forall x :: x in s ==> x == m || !IsLater(x, m)
  {
    if |s| == 1 then s[0]
    else
      assert s == [s[0]] + s[1..];
      var m := LatestStatus(s[1..]);
      if s[0].createdAt > m.createdAt || (s[0].createdAt == m.createdAt && s[0].id >= m.id) then s[0] else m
  }

  /** `judge_facts`: when the latest success was posted, and when its own judge started. */
  function JudgeFacts(statuses: Option<seq<CommitStatus>>, mergedAt: int): (r: (Option<int>, Option<int>))
    ensures r.0.Some? ==> r.0.value <= mergedAt
    ensures r.1.Some? ==> r.0.Some? && r.1.value <= r.0.value
  {
    var candidates := Filter(s => IsJudgeStatus(s, mergedAt), OrEmpty(statuses));
    if candidates == [] then (None, None)
    else
      var verdict := LatestStatus(candidates);
      match verdict.said
      case RanSince(_, at) => (Some(verdict.createdAt), if at > verdict.createdAt then None else Some(at))
      case _ => (Some(verdict.createdAt), None)
  }

  /** A success the judge posted up to the merge. */
  predicate IsSuccess(e: Evidence, s: CommitStatus) {
    && s in OrEmpty(e.statuses) && s.context == "independent-review" && s.state == "success"
    && s.createdAt <= e.pull.mergedAt
  }

  /** The last of them, by instant and then by id. */
  ghost predicate IsLastSuccess(e: Evidence, s: CommitStatus) {
    && IsSuccess(e, s)
    && forall x :: IsSuccess(e, x) && x != s ==>
         x.createdAt < s.createdAt || (x.createdAt == s.createdAt && x.id < s.id)
  }

  /** What is read is the latest success up to the merge with its own start, when that is not after
      it, and nothing without a success. */
  lemma JudgeFactsMean(e: Evidence, s: CommitStatus)
    ensures JudgeFacts(e.statuses, e.pull.mergedAt).0.Some? <==> exists x :: IsSuccess(e, x)
    ensures IsLastSuccess(e, s) ==>
      JudgeFacts(e.statuses, e.pull.mergedAt) ==
      (Some(s.createdAt), if s.said.RanSince? && s.said.at <= s.createdAt then Some(s.said.at) else None)
    ensures forall x :: IsSuccess(e, x) ==> x.createdAt <= JudgeFacts(e.statuses, e.pull.mergedAt).0.value
  {
    var candidates := Filter(x => IsJudgeStatus(x, e.pull.mergedAt), OrEmpty(e.statuses));
    HasMember(candidates);
    assert forall x :: x in candidates <==> IsSuccess(e, x);
  }

  // ---------------------------------------------------------------- the timeline

  function CiRuns(e: Evidence): seq<Run> {
    Filter((r: Run) => r.appSlug == ACTIONS, OrEmpty(e.runs))
  }

  function ReviewerRuns(e: Evidence, app: int): seq<Run> {
    Filter((r: Run) => r.appId == Some(app) && r.name == REVIEW_CHECK, OrEmpty(e.runs))
  }

  predicate AllStarted(runs: seq<Run>) {
    forall r :: r in runs ==> r.startedAt.Some?
  }

  /** The judge's interval, when its verdict came after the push and its start is known. */
  function JudgeIntervals(e: Evidence, push: int): (r: seq<Interval>)
    ensures forall i :: i in r ==> push <= i.0 <= i.1 <= e.pull.mergedAt
  {
    var (verdict, started) := JudgeFacts(e.statuses, e.pull.mergedAt);
    if verdict.Some? && verdict.value >= push && started.Some? then [(Max(started.value, push), verdict.value)] else []
  }

  /** Everything that ran between the push and the merge. */
  function Busy(e: Evidence, app: int, push: int): seq<Interval> {
    IntervalsOf(CiRuns(e), push, e.pull.mergedAt)
      + IntervalsOf(ReviewerRuns(e, app), push, e.pull.mergedAt)
      + JudgeIntervals(e, push)
  }

  /** A run of the CI app, or of the reviewer under its own name. */
  predicate IsMeasured(r: Run, app: int) {
    || r.appSlug == Some("github-actions")
    || (r.appId == Some(app) && r.name == "red-rail/review")
  }

  predicate IsRunning(r: Run, t: int) {
    r.startedAt.Some? && r.startedAt.value <= t && (r.completedAt.None? || t < r.completedAt.value)
  }

  /** The judge behind a status posted after the push was at work. */
  predicate IsJudging(s: CommitStatus, push: int, t: int) {
    push <= s.createdAt && s.said.RanSince? && s.said.at <= t < s.createdAt
  }

  /** The runs measured are those of the two apps. */
  lemma MeasuredRuns(e: Evidence, app: int, r: Run)
    ensures r in CiRuns(e) <==> r in OrEmpty(e.runs) && r.appSlug == Some("github-actions")
    ensures r in ReviewerRuns(e, app) <==>
      r in OrEmpty(e.runs) && r.appId == Some(app) && r.name == "red-rail/review"
  {
  }

  /** An instant between push and merge is occupied exactly when a run of the CI app or of the
      reviewer is on, or the judge of the last success is at work. */
  lemma BusyMeans(e: Evidence, app: int, push: int, t: int, s: CommitStatus)
    requires push <= e.pull.mergedAt
    requires IsLastSuccess(e, s) || !exists x :: IsSuccess(e, x)
    ensures t in Occupied(Busy(e, app, push), push, e.pull.mergedAt) <==>
      && push <= t < e.pull.mergedAt
      && ((exists r :: r in OrEmpty(e.runs) && IsMeasured(r, app) && IsRunning(r, t))
          || (IsLastSuccess(e, s) && IsJudging(s, push, t)))
  {
    hide JudgeFacts, IntervalsOf, RunInterval, CiRuns, ReviewerRuns;
    var ci := IntervalsOf(CiRuns(e), push, e.pull.mergedAt);
    var reviewer := IntervalsOf(ReviewerRuns(e, app), push, e.pull.mergedAt);
    CoveredConcat(ci + reviewer, JudgeIntervals(e, push), t);
    CoveredConcat(ci, reviewer, t);
    if push <= t < e.pull.mergedAt {
      RunsCover(CiRuns(e), push, e.pull.mergedAt, t);
      RunsCover(ReviewerRuns(e, app), push, e.pull.mergedAt, t);
      JudgeCovers(e, push, t, s);
      MeasuredAre(e, app, t);
    }
  }

  lemma CoveredConcat(a: seq<Interval>, b: seq<Interval>, t: int)
    ensures CoveredBy(a + b, t) <==> CoveredBy(a, t) || CoveredBy(b, t)
  {
  }

  lemma RunsCover(runs: seq<Run>, push: int, mergedAt: int, t: int)
    requires push <= t < mergedAt
    ensures CoveredBy(IntervalsOf(runs, push, mergedAt), t) <==> exists r :: r in runs && IsRunning(r, t)
  {
    hide IntervalsOf, RunInterval;
    if CoveredBy(IntervalsOf(runs, push, mergedAt), t) {
      var i :| i in IntervalsOf(runs, push, mergedAt) && Covers(i, t);
      IntervalsMean(runs, push, mergedAt, i);
      var r :| r in runs && RunInterval(r, push, mergedAt) == Some(i);
      RunIntervalMeans(r, push, mergedAt, t);
      assert IsRunning(r, t);
    }
    if r :| r in runs && IsRunning(r, t) {
      RunIntervalMeans(r, push, mergedAt, t);
      var i := RunInterval(r, push, mergedAt).value;
      IntervalsMean(runs, push, mergedAt, i);
      assert Covers(i, t);
    }
  }

  lemma MeasuredAre(e: Evidence, app: int, t: int)
    ensures (exists r :: r in OrEmpty(e.runs) && IsMeasured(r, app) && IsRunning(r, t)) <==>
      || (exists r :: r in CiRuns(e) && IsRunning(r, t))
      || (exists r :: r in ReviewerRuns(e, app) && IsRunning(r, t))
  {
    hide CiRuns, ReviewerRuns, IsRunning;
    forall r ensures r in CiRuns(e) || r in ReviewerRuns(e, app) <==> r in OrEmpty(e.runs) && IsMeasured(r, app) {
      MeasuredRuns(e, app, r);
    }
  }

  lemma JudgeCovers(e: Evidence, push: int, t: int, s: CommitStatus)
    requires push <= t < e.pull.mergedAt
    requires IsLastSuccess(e, s) || !exists x :: IsSuccess(e, x)
    ensures CoveredBy(JudgeIntervals(e, push), t) <==> IsLastSuccess(e, s) && IsJudging(s, push, t)
  {
    JudgeFactsMean(e, s);
    hide JudgeFacts;
    if JudgeIntervals(e, push) != [] {
      assert JudgeIntervals(e, push)[0] in JudgeIntervals(e, push);
    }
  }

  predicate IsDuration(d: Option<int>, bound: int) {
    d.None? || 0 <= d.value <= bound
  }

  /** What every timeline keeps to: parts of the flow, and parts of those parts. */
  predicate IsConsistent(s: Segments) {
    && s.flow >= 0
    && (s.ciStart.Some? <==> s.ci.Some?) && (s.ci.Some? <==> s.ciLongest.Some?)
    && (s.ci.Some? ==> 0 <= s.ciStart.value && 0 <= s.ciLongest.value <= s.ci.value
                       && s.ciStart.value + s.ci.value <= s.flow)
    && IsDuration(s.reviewStart, s.flow) && IsDuration(s.review, s.flow)
    && (s.reviewStart.Some? ==> s.review.Some? && s.reviewStart.value + s.review.value <= s.flow)
    && IsDuration(s.judgeWait, s.flow)
    && (s.judge.Some? ==> s.judgeWait.Some? && 0 <= s.judge.value <= s.judgeWait.value)
    && IsDuration(s.idle, s.flow)
    && (s.holder.Some? ==> s.holder.value >= 0)
  }

  function StartOf(i: Interval): int { i.0 }
  function EndOf(i: Interval): int { i.1 }
  function LengthOf(i: Interval): int { i.1 - i.0 }

  lemma LeastIsAttained(s: seq<Interval>, f: Interval -> int)
    requires s != []
    ensures forall i :: i in s ==> Least(Map(f, s)) <= f(i)
    ensures exists i :: i in s && f(i) == Least(Map(f, s))
  {
    var values := Map(f, s);
    forall i | i in s ensures Least(values) <= f(i) {
      var k :| 0 <= k < |s| && s[k] == i;
      assert values[k] in values;
    }
    var k :| 0 <= k < |values| && values[k] == Least(values);
    assert s[k] in s;
  }

  lemma GreatestIsAttained(s: seq<Interval>, f: Interval -> int)
    requires s != []
    ensures forall i :: i in s ==> f(i) <= Greatest(Map(f, s))
    ensures exists i :: i in s && f(i) == Greatest(Map(f, s))
  {
    var values := Map(f, s);
    forall i | i in s ensures f(i) <= Greatest(values) {
      var k :| 0 <= k < |s| && s[k] == i;
      assert values[k] in values;
    }
    var k :| 0 <= k < |values| && values[k] == Greatest(values);
    assert s[k] in s;
  }

  /** The interval of a run of the CI app. */
  ghost predicate IsCiInterval(e: Evidence, push: int, i: Interval) {
    exists r :: r in OrEmpty(e.runs) && r.appSlug == Some("github-actions")
                && RunInterval(r, push, e.pull.mergedAt) == Some(i)
  }

  /** The CI segments of the evidence: how long until the first run began, from then to the end of
      the last, and the longest; known when every run of the CI app has a start and one ran. */
  ghost predicate CiMeans(e: Evidence, push: int, ciStart: Option<int>, ci: Option<int>, longest: Option<int>) {
    && (ci.Some? <==>
          && (forall r :: r in OrEmpty(e.runs) && r.appSlug == Some("github-actions") ==> r.startedAt.Some?)
          && exists i :: IsCiInterval(e, push, i))
    && (ciStart.Some? <==> ci.Some?) && (longest.Some? <==> ci.Some?)
    && (ci.Some? ==>
          var first, last := push + ciStart.value, push + ciStart.value + ci.value;
          && (forall i :: IsCiInterval(e, push, i) ==> first <= i.0 && i.1 <= last && i.1 - i.0 <= longest.value)
          && (exists i :: IsCiInterval(e, push, i) && i.0 == first)
          && (exists i :: IsCiInterval(e, push, i) && i.1 == last)
          && (exists i :: IsCiInterval(e, push, i) && i.1 - i.0 == longest.value))
  }

  lemma CiIntervalsMean(e: Evidence, push: int, i: Interval)
    ensures IsCiInterval(e, push, i) <==> i in IntervalsOf(CiRuns(e), push, e.pull.mergedAt)
  {
    hide IntervalsOf, RunInterval;
    IntervalsMean(CiRuns(e), push, e.pull.mergedAt, i);
  }

  lemma CiIsKnown(e: Evidence, push: int)
    ensures (forall r :: r in OrEmpty(e.runs) && r.appSlug == Some("github-actions") ==> r.startedAt.Some?) <==>
      AllStarted(CiRuns(e))
    ensures IntervalsOf(CiRuns(e), push, e.pull.mergedAt) != [] <==> exists i :: IsCiInterval(e, push, i)
    ensures forall i :: IsCiInterval(e, push, i) <==> i in IntervalsOf(CiRuns(e), push, e.pull.mergedAt)
  {
    hide IntervalsOf, IsCiInterval;
    HasMember(IntervalsOf(CiRuns(e), push, e.pull.mergedAt));
    forall i ensures IsCiInterval(e, push, i) <==> i in IntervalsOf(CiRuns(e), push, e.pull.mergedAt) {
      CiIntervalsMean(e, push, i);
    }
  }

  /** The CI segments, as `CiMeans` tells them. */
  method CiSegments(e: Evidence, push: int) returns (ciStart: Option<int>, ci: Option<int>, longest: Option<int>)
    requires push <= e.pull.mergedAt
    ensures CiMeans(e, push, ciStart, ci, longest)
    ensures (ciStart.Some? <==> ci.Some?) && (longest.Some? <==> ci.Some?)
    ensures ci.Some? ==> 0 <= ciStart.value && 0 <= longest.value <= ci.value
                         && ciStart.value + ci.value <= e.pull.mergedAt - push
  {
    hide IntervalsOf, AllStarted, CiRuns, IsCiInterval;
    ciStart, ci, longest := None, None, None;
    var intervals := IntervalsOf(CiRuns(e), push, e.pull.mergedAt);
    CiIsKnown(e, push);
    if intervals != [] && AllStarted(CiRuns(e)) {
      var starts, ends, lengths := Map(StartOf, intervals), Map(EndOf, intervals), Map(LengthOf, intervals);
      var first, last, most := Least(starts), Greatest(ends), Greatest(lengths);
      LeastIsAttained(intervals, StartOf);
      GreatestIsAttained(intervals, EndOf);
      GreatestIsAttained(intervals, LengthOf);
      ciStart, ci, longest := Some(first - push), Some(last - first), Some(most);
    }
  }

  /** The first run under the id a receipt names. */
  predicate IsNamedFirst(runs: seq<Run>, id: Option<int>, k: nat)
    requires k < |runs|
  {
    Some(runs[k].id) == id && forall j :: 0 <= j < k ==> Some(runs[j].id) != id
  }

  /** The review segments: when the reviewer's run the receipt names began and how long it took,
      unknown without such a run; and a carried review took no time. */
  ghost predicate ReviewMeans(
    e: Evidence, review: ReviewFacts, app: int, push: int, start: Option<int>, duration: Option<int>)
  {
    && (forall k | 0 <= k < |ReviewerRuns(e, app)| && IsNamedFirst(ReviewerRuns(e, app), review.checkRunId, k) ::
          var interval := RunInterval(ReviewerRuns(e, app)[k], push, e.pull.mergedAt);
          && start == (if interval.Some? then Some(interval.value.0 - push) else None)
          && (review.carried != Some(true) ==>
                duration == if interval.Some? then Some(interval.value.1 - interval.value.0) else None))
    && ((forall r :: r in OrEmpty(e.runs) && r.appId == Some(app) && r.name == "red-rail/review" ==>
           Some(r.id) != review.checkRunId) ==>
          start.None? && (review.carried != Some(true) ==> duration.None?))
    && (review.carried == Some(true) ==> duration == Some(0))
  }

  /** The review segments, as `ReviewMeans` tells them. */
  method ReviewSegments(e: Evidence, review: ReviewFacts, app: int, push: int)
    returns (start: Option<int>, duration: Option<int>)
    requires push <= e.pull.mergedAt
    ensures ReviewMeans(e, review, app, push, start, duration)
    ensures var flow := e.pull.mergedAt - push;
      && IsDuration(start, flow) && IsDuration(duration, flow)
      && (start.Some? ==> duration.Some? && start.value + duration.value <= flow)
  {
    hide ReviewerRuns, RunInterval, ReviewMeans;
    start, duration := None, None;
    var runs := ReviewerRuns(e, app);
    ghost var named: Option<nat> := None;
    for k := 0 to |runs|
      invariant start.None? && duration.None? && named.None?
      invariant forall j :: 0 <= j < k ==> Some(runs[j].id) != review.checkRunId
    {
      assert runs[k] in runs;
      if Some(runs[k].id) == review.checkRunId {
        var interval := RunInterval(runs[k], push, e.pull.mergedAt);
        if interval.Some? {
          start := Some(interval.value.0 - push);
          duration := Some(interval.value.1 - interval.value.0);
        }
        named := Some(k);
        break;
      }
    }
    if review.carried == Some(true) {
      duration := Some(0);
    }
    ReviewIsMeant(e, review, app, push, named, start, duration);
  }

  lemma ReviewIsMeant(e: Evidence, review: ReviewFacts, app: int, push: int, named: Option<nat>,
                      start: Option<int>, duration: Option<int>)
    requires var runs := ReviewerRuns(e, app);
      if named.None? then start.None? && forall j :: 0 <= j < |runs| ==> Some(runs[j].id) != review.checkRunId
      else
        && named.value < |runs| && IsNamedFirst(runs, review.checkRunId, named.value)
        && var interval := RunInterval(runs[named.value], push, e.pull.mergedAt);
           start == if interval.Some? then Some(interval.value.0 - push) else None
    requires duration ==
      if review.carried == Some(true) then Some(0)
      else if named.None? then None
      else
        var interval := RunInterval(ReviewerRuns(e, app)[named.value], push, e.pull.mergedAt);
        if interval.Some? then Some(interval.value.1 - interval.value.0) else None
    ensures ReviewMeans(e, review, app, push, start, duration)
  {
    hide ReviewerRuns, RunInterval;
    var runs := ReviewerRuns(e, app);
    if named.Some? {
      assert runs[named.value] in runs;
      MeasuredRuns(e, app, runs[named.value]);
    }
  }

  /** The judge segments: from the push to the last success, and from the judge's own start, cut at
      the push, to that success; unknown without a success after the push. */
  ghost predicate JudgeMeans(e: Evidence, push: int, wait: Option<int>, judge: Option<int>) {
    && (wait.Some? <==> exists s :: IsSuccess(e, s) && push <= s.createdAt)
    && (judge.Some? ==> wait.Some?)
    && (forall s :: IsLastSuccess(e, s) && push <= s.createdAt ==>
          && wait == Some(s.createdAt - push)
          && (judge.Some? <==> s.said.RanSince? && s.said.at <= s.createdAt)
          && (judge.Some? ==> judge.value == s.createdAt - if s.said.at < push then push else s.said.at))
  }

  lemma JudgeIsMeant(e: Evidence, push: int, wait: Option<int>, judge: Option<int>)
    requires var (verdict, started) := JudgeFacts(e.statuses, e.pull.mergedAt);
      if verdict.Some? && verdict.value >= push then
        && wait == Some(verdict.value - push)
        && judge == if started.Some? then Some(verdict.value - Max(started.value, push)) else None
      else wait.None? && judge.None?
    ensures JudgeMeans(e, push, wait, judge)
  {
    hide JudgeFacts, IsSuccess, IsLastSuccess;
    LastIsSuccess(e);
    forall s ensures IsLastSuccess(e, s) ==>
        JudgeFacts(e.statuses, e.pull.mergedAt) ==
        (Some(s.createdAt), if s.said.RanSince? && s.said.at <= s.createdAt then Some(s.said.at) else None)
    {
      JudgeFactsMean(e, s);
    }
  }

  lemma LastIsSuccess(e: Evidence)
    ensures var verdict := JudgeFacts(e.statuses, e.pull.mergedAt).0;
      && (verdict.Some? <==> exists s :: IsSuccess(e, s))
      && (verdict.Some? ==> exists s :: IsSuccess(e, s) && s.createdAt == verdict.value)
      && (forall s :: IsSuccess(e, s) ==> s.createdAt <= verdict.value)
  {
    var candidates := Filter(x => IsJudgeStatus(x, e.pull.mergedAt), OrEmpty(e.statuses));
    HasMember(candidates);
    assert forall x :: x in candidates <==> IsSuccess(e, x);
  }

  /** The holder's segment runs from its start to its own merge or this one, whichever is first, and
      is unknown when it began after that. */
  predicate HolderMeans(e: Evidence, holder: Option<Holder>, time: Option<int>) {
    && (time.Some? <==>
          holder.Some? && holder.value.startedAt <= holder.value.mergedAt && holder.value.startedAt <= e.pull.mergedAt)
    && (time.Some? ==>
          var end := holder.value.startedAt + time.value;
          && end <= holder.value.mergedAt && end <= e.pull.mergedAt
          && (end == holder.value.mergedAt || end == e.pull.mergedAt))
  }

  /** Everything that was read was measured: each run of the two apps has a start. */
  ghost predicate IdleIsKnown(e: Evidence, app: int) {
    && e.runs.Some? && e.statuses.Some?
    && forall r :: r in e.runs.value && IsMeasured(r, app) ==> r.startedAt.Some?
  }

  lemma IdleIsKnownWhen(e: Evidence, app: int)
    ensures IdleIsKnown(e, app) <==>
      e.runs.Some? && e.statuses.Some? && AllStarted(CiRuns(e)) && AllStarted(ReviewerRuns(e, app))
  {
    hide CiRuns, ReviewerRuns;
    forall r ensures r in CiRuns(e) || r in ReviewerRuns(e, app) <==> r in OrEmpty(e.runs) && IsMeasured(r, app) {
      MeasuredRuns(e, app, r);
    }
  }

  /**
   * `compute_timeline`. Whatever the evidence, every known segment is a part of the flow, and
   * idle plus occupied time is exactly the flow.
   */
  method ComputeTimeline(e: Evidence, review: ReviewFacts, holder: Option<Holder>, app: int)
    returns (t: Option<Timeline>)
    ensures t.None? <==> PushProxy(e.pull, e.suites).None?
    ensures t.Some? ==>
      var push, s := t.value.pushAt, t.value.segments;
      && Some(push) == PushProxy(e.pull, e.suites)
      && s.flow == e.pull.mergedAt - push
      && IsConsistent(s)
      && CiMeans(e, push, s.ciStart, s.ci, s.ciLongest)
      && ReviewMeans(e, review, app, push, s.reviewStart, s.review)
      && JudgeMeans(e, push, s.judgeWait, s.judge)
      && HolderMeans(e, holder, s.holder)
      && (s.idle.Some? <==> IdleIsKnown(e, app))
      && (s.idle.Some? ==> s.idle.value + |Occupied(Busy(e, app, push), push, e.pull.mergedAt)| == s.flow)
  {
    hide CiRuns, ReviewerRuns, IntervalsOf, Busy, Occupied, JudgeFacts, PushProxy, AllStarted, RunInterval,
      CiMeans, ReviewMeans, JudgeMeans, IdleIsKnown;
    var proxy := PushProxy(e.pull, e.suites);
    if proxy.None? {
      return None;
    }
    var push, mergedAt := proxy.value, e.pull.mergedAt;
    var flow := mergedAt - push;
    var ciStart, ci, longest := CiSegments(e, push);
    var reviewStart, reviewDuration := ReviewSegments(e, review, app, push);
    var (verdict, started) := JudgeFacts(e.statuses, mergedAt);
    var judgeWait, judge: Option<int> := None, None;
    if verdict.Some? && verdict.value >= push {
      judgeWait := Some(verdict.value - push);
      if started.Some? {
        judge := Some(verdict.value - Max(started.value, push));
      }
    }
    JudgeIsMeant(e, push, judgeWait, judge);
    IdleIsKnownWhen(e, app);
    var idle := None;
    if e.runs.Some? && e.statuses.Some? && AllStarted(CiRuns(e)) && AllStarted(ReviewerRuns(e, app)) {
      var occupied := UnionTime(Busy(e, app, push), push, mergedAt);
      OccupiedFits(Busy(e, app, push), push, mergedAt);
      idle := Some(flow - occupied);
    }
    var holderTime := None;
    if holder.Some? {
      var holderEnd := Min(holder.value.mergedAt, mergedAt);
      if holder.value.startedAt <= holderEnd {
        holderTime := Some(holderEnd - holder.value.startedAt);
      }
    }
    return Some(Timeline(push, Segments(
      flow, ciStart, ci, longest, reviewStart, reviewDuration, judgeWait, judge, idle, holderTime)));
  }
}
