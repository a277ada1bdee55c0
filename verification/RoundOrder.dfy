/** The judged rounds of a pull request count up to three (src/rail/reviewer/rounds.py). */
module RoundOrder {
  import opened Wrappers
  import opened Sequences
  import opened Findings
  import opened Rounds
  import opened Service
  import opened Runs

  /** The verdicts that spent a round, oldest first. */
  function OwnRounds(h: seq<Verdict>): seq<Verdict> {
    Filter(SpendsRound, h)
  }

  /** Round 3 or a closure: the loop is open-ended from here on. */
  predicate IsLastRound(v: Verdict) {
    v.round == Closure || v.round == Round(3)
  }

  /** The n-th judged round is labelled n, or 3; and the third comes before anything open-ended. */
  ghost predicate CountsUp(h: seq<Verdict>) {
    && (forall n :: 0 <= n < |OwnRounds(h)| ==> OwnRounds(h)[n].round == Round(Min(n + 1, 3)))
    && ((exists v :: v in h && IsLastRound(v)) ==> |OwnRounds(h)| >= 3)
  }

  ghost predicate AllCountUp(vs: seq<Verdict>) {
    forall repo, pr :: CountsUp(History(vs, repo, pr))
  }

  /** `v` may come next: a new round has the next label, and nothing is open-ended too early. */
  ghost predicate IsNextLabel(h: seq<Verdict>, v: Verdict) {
    && (SpendsRound(v) ==> v.round == Round(Min(|OwnRounds(h)| + 1, 3)))
    && (IsLastRound(v) && !SpendsRound(v) ==> |OwnRounds(h)| >= 3)
  }

  lemma OwnRoundsSnoc(h: seq<Verdict>, v: Verdict)
    ensures OwnRounds(h + [v]) == if SpendsRound(v) then OwnRounds(h) + [v] else OwnRounds(h)
  {
    FilterSnoc(SpendsRound, h, v);
  }

  lemma SnocCountsUp(h: seq<Verdict>, v: Verdict)
    requires CountsUp(h) && IsNextLabel(h, v)
    ensures CountsUp(h + [v])
  {
    hide OwnRounds;
    OwnRoundsSnoc(h, v);
    var own, all := OwnRounds(h), OwnRounds(h + [v]);
    forall n | 0 <= n < |all| ensures all[n].round == Round(Min(n + 1, 3)) {
      if n < |own| {
        assert own[n].round == Round(Min(n + 1, 3));
      }
    }
    if u :| u in h + [v] && IsLastRound(u) {
      assert u in h || u == v;
    }
  }

  lemma AppendCountsUp(vs: seq<Verdict>, v: Verdict)
    requires AllCountUp(vs)
    requires IsLoop(v) ==> IsNextLabel(History(vs, v.repo, v.pr), v)
    ensures AllCountUp(vs + [v])
  {
    hide History, CountsUp, IsNextLabel;
    forall repo, pr ensures CountsUp(History(vs + [v], repo, pr)) {
      HistoryGrows(vs, v, repo, pr);
      if IsIn(v, repo, pr) {
        SnocCountsUp(History(vs, repo, pr), v);
      }
    }
  }

  /** What the state knows of the rounds. */
  lemma StateCounts(vs: seq<Verdict>, rs: seq<Ruling>, repo: string, pr: nat)
    ensures var h, s := History(vs, repo, pr), StateFor(vs, rs, repo, pr);
      && s.judged == |OwnRounds(h)|
      && (s.awaiting ==> exists v :: v in h && IsLastRound(v))
  {
    var h, s := History(vs, repo, pr), StateFor(vs, rs, repo, pr);
    var judging := Filter(IsJudging, h);
    if s.awaiting {
      assert judging[|judging| - 1] in judging;
    }
  }

  lemma LabelIsNext(s: LoopState, h: seq<Verdict>, v: Verdict)
    requires CountsUp(h) && s.judged == |OwnRounds(h)| && (s.awaiting ==> exists u :: u in h && IsLastRound(u))
    requires v.round == LabelOf(NextStep(s)) && v.carried.None?
    ensures IsNextLabel(h, v)
  {
  }

  lemma DecidedLabel(q: Request, s: LoopState, open: seq<Id>)
    requires Decide(q, s, open).Some?
    ensures var v := Decide(q, s, open).value;
      v.round == LabelOf(NextStep(s)) && v.carried.None? && v.repo == q.repo && v.pr == q.pr
  {
    hide Await, Close, Finish, NextStep;
  }

  lemma PassCountsUp(w: World, q: Request)
    requires AllCountUp(w.verdicts) && Review(q, w.verdicts, w.rulings).Some?
    ensures AllCountUp(w.verdicts + [Review(q, w.verdicts, w.rulings).value])
  {
    hide Decide, StateFor, OpenFor, History, CountsUp, NextStep, IsNextLabel;
    var s := StateRead(w, q);
    var v := Review(q, w.verdicts, w.rulings).value;
    DecidedLabel(q, s, OpenRead(w, q));
    StateCounts(w.verdicts, RulingsBefore(w.rulings, q.readAt), q.repo, q.pr);
    LabelIsNext(s, History(w.verdicts, q.repo, q.pr), v);
    AppendCountsUp(w.verdicts, v);
  }

  /** A copy stands beside its source, and spends nothing. */
  lemma CopyCountsUp(w: World, source: nat, sha: string, check: int, at: int)
    requires AllCountUp(w.verdicts) && source < |w.verdicts|
    ensures AllCountUp(w.verdicts + [Carried(w.verdicts[source], sha, check, at)])
  {
    var v := w.verdicts[source];
    var h := History(w.verdicts, v.repo, v.pr);
    HistoryMeans(w.verdicts, v.repo, v.pr);
    assert CountsUp(h);
    assert IsLoop(v) ==> v in h;
    AppendCountsUp(w.verdicts, Carried(v, sha, check, at));
  }

  lemma StepCountsUp(w: World, e: Event)
    requires AllCountUp(w.verdicts) && Enabled(w, e)
    ensures AllCountUp(Next(w, e).verdicts)
  {
    hide Review, StateFor, Unruled, AllCountUp, IsNextLabel;
    match e
    case Pass(q) =>
      if Review(q, w.verdicts, w.rulings).Some? {
        PassCountsUp(w, q);
      }
    case RecordsPass(v) => AppendCountsUp(w.verdicts, v);
    case Rule(r) =>
    case CarryOver(source, sha, check, at) => CopyCountsUp(w, source, sha, check, at);
  }

  lemma NothingCounts()
    ensures AllCountUp([])
  {
  }

  lemma {:induction false} RunCountsUp(run: seq<Moment>, k: nat)
    requires IsRun(run) && k < |run|
    ensures AllCountUp(run[k].before.verdicts) && AllCountUp(run[k].after.verdicts)
    decreases k
  {
    hide Enabled, Next, AllCountUp, StateRead, OpenRead;
    assert Follows(run, k) && Happens(run[k]);
    if k > 0 {
      RunCountsUp(run, k - 1);
    } else {
      NothingCounts();
    }
    StepCountsUp(run[k].before, run[k].event);
  }

  /**
   * In every run, the n-th judged round of a pull request is labelled n, and every later one 3;
   * copies spend none, and a closure comes only after the third.
   */
  lemma RoundsCountUp(run: seq<Moment>, k: nat, repo: string, pr: nat, n: nat)
    requires IsRun(run) && k < |run|
    requires n < |OwnRounds(History(run[k].after.verdicts, repo, pr))|
    ensures OwnRounds(History(run[k].after.verdicts, repo, pr))[n].round == Round(Min(n + 1, 3))
  {
    hide OwnRounds, History;
    RunCountsUp(run, k);
    assert CountsUp(History(run[k].after.verdicts, repo, pr));
  }

  lemma ClosureComesAfterThree(run: seq<Moment>, k: nat, repo: string, pr: nat, v: Verdict)
    requires IsRun(run) && k < |run|
    requires v in History(run[k].after.verdicts, repo, pr) && v.round == Closure
    ensures |OwnRounds(History(run[k].after.verdicts, repo, pr))| >= 3
  {
    hide OwnRounds, History;
    RunCountsUp(run, k);
    assert CountsUp(History(run[k].after.verdicts, repo, pr));
  }
}
