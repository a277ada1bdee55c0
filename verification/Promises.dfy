/** What the review loop promises of every run. */
module Promises {
  import opened Wrappers
  import opened Sequences
  import opened Findings
  import opened Carry
  import opened Rounds
  import opened Admission
  import opened Service
  import opened PassShape
  import opened Blockers
  import opened Runs

  // ---------------------------------------------------------------- ids

  /**
   * Ids are distinct within a verdict, and an id never names two findings over the whole life
   * of a pull request: not after a cap dropped its holder, not across the two numberings.
   */
  lemma IdsAreForever(run: seq<Moment>, k: nat, u: Verdict, v: Verdict, f: Finding, g: Finding)
    requires IsRun(run) && k < |run|
    requires u in run[k].after.verdicts && v in run[k].after.verdicts
    requires IsLoop(u) && IsIn(v, u.repo, u.pr)
    requires f in u.findings && g in v.findings && f.id == g.id
    ensures f.id.Some? && f.id.value.pr == u.pr
    ensures SameClaim(f, g)
    ensures DistinctIds(u.findings)
  {
    RunKeepsInv(run, k);
  }

  /** A pass that records an id some verdict already held finds it in the latest list, and
      changes the class of the finding behind it only through a carry_forward ruling. */
  lemma RecordedIdIsCurrent(run: seq<Moment>, k: nat, v: Verdict, u: Verdict, f: Finding, g: Finding)
    requires IsRun(run) && k < |run| && Appends(run[k], v)
    requires u in run[k].before.verdicts && IsIn(u, v.repo, v.pr)
    requires f in u.findings && g in v.findings && f.id == g.id
    ensures exists o ::
      && o in run[k].state.findings && o.id == g.id
      && (|| g.klass == o.klass
          || (IsDeferredBy(o, run[k].state.rulings) && g.klass == Some(CarryForward) && g.status == Ruled))
  {
    var m := run[k];
    var w, q := m.before, m.event.q;
    assert Happens(m);
    RunKeepsInv(run, k);
    RecordedIsDecided(run, k, v);
    DecisionIsSound(q, m.state, m.open);
    PassIsLawful(q, m.state, m.open);
    LatestIsIn(w, q.repo, q.pr, RulingsBefore(w.rulings, q.readAt));
    assert f.id.value.n <= m.state.highest;
    assert ContinuesSome(m.state, g);
  }

  // ---------------------------------------------------------------- open blockers

  /** In every run: a recorded blocker of a judge stops being open in the next verdict exactly
      when a closure applies a carry_forward ruling to it or the judges settle it. */
  lemma BlockerStaysUntilSettled(run: seq<Moment>, k: nat, v: Verdict, f: Finding)
    requires IsRun(run) && k < |run| && Appends(run[k], v)
    requires f in run[k].state.findings && IsJudged(f) && OpenBlocker(f)
    ensures f.id.Some?
    ensures OpenIn(v.findings, f.id.value) <==>
      !DeferredByRuling(run[k].state, f) && !SettledByJudges(run[k].event.q, run[k].state, f.id.value)
  {
    RecordedIsDecided(run, k, v);
    BlockerFate(run[k].event.q, run[k].state, run[k].open, f);
  }

  /** In every run: a closed blocker opens again exactly when judges report a fixed one, unless
      the closure defers it; what the operator ruled stays ruled. */
  lemma ClosedStaysUnlessReported(run: seq<Moment>, k: nat, v: Verdict, f: Finding)
    requires IsRun(run) && k < |run| && Appends(run[k], v)
    requires f in run[k].state.findings && IsJudged(f) && !IsOpen(f.status) && f.klass == Some(Blocker)
    ensures f.id.Some?
    ensures OpenIn(v.findings, f.id.value) <==>
      ReopenedByJudges(run[k].event.q, run[k].state, f) && !DeferredByRuling(run[k].state, f)
  {
    RecordedIsDecided(run, k, v);
    ClosedFate(run[k].event.q, run[k].state, run[k].open, f);
  }

  /** In every run: what opens a closed blocker again is a reply that saw its location, or was
      quoted its excerpt. */
  lemma ReopenedWasSeen(run: seq<Moment>, k: nat, v: Verdict, f: Finding)
    requires IsRun(run) && k < |run| && Appends(run[k], v)
    requires f in run[k].state.findings && IsJudged(f) && !IsOpen(f.status) && f.klass == Some(Blocker) && f.id.Some?
    requires OpenIn(v.findings, f.id.value)
    ensures var q, s := run[k].event.q, run[k].state;
      && f.id.value in Known(s)
      && exists n: nat, g :: Reports(q, s, n, g) && g.id == f.id && SawOrWasQuoted(q, s, n, f.id.value)
  {
    var q, s := run[k].event.q, run[k].state;
    ClosedStaysUnlessReported(run, k, v, f);
    KnownHolds(s, f);
    hide Known, Reports, OpenIn, SawOrWasQuoted, Happens, MergedRepeats;
    MergedRepeatIsReported(q, s, f.id.value);
    var n: nat, g :| Reports(q, s, n, g) && g.id == Some(f.id.value);
    ReportsSaw(q, s, n, g);
  }

  lemma KnownHolds(s: LoopState, f: Finding)
    requires f in s.findings && IsJudged(f) && f.id.Some?
    ensures f.id.value in Known(s)
  {
    assert f in Earlier(s);
  }

  /** In every run: a gap of the description is open in the next verdict on code exactly when
      the description still earns it and no closure defers it. */
  lemma GapStaysWhileEarned(run: seq<Moment>, k: nat, v: Verdict, f: Finding)
    requires IsRun(run) && k < |run| && Appends(run[k], v) && v.artifact == Code
    requires f in run[k].state.findings && IsMechanical(f) && f.status != Ruled
    ensures f.id.Some?
    ensures OpenIn(v.findings, f.id.value) <==>
      !DeferredByRuling(run[k].state, f) && StillEarned(run[k].event.q, run[k].state, run[k].open, f)
  {
    RecordedIsDecided(run, k, v);
    DecidedFor(run[k].event.q, run[k].state, run[k].open);
    GapFate(run[k].event.q, run[k].state, run[k].open, f);
  }

  lemma DecidedFor(q: Request, s: LoopState, open: seq<Id>)
    requires Decide(q, s, open).Some?
    ensures Decide(q, s, open).value.artifact == q.artifact
  {
  }

  /**
   * In every run: a judged blocker that closes without a ruling was answered "fixed" by a judge
   * that saw its location or was quoted its window, and no such judge kept it open or reported
   * it again.
   */
  lemma ClosedWasSeenFixed(run: seq<Moment>, k: nat, v: Verdict, f: Finding)
    requires IsRun(run) && k < |run| && Appends(run[k], v)
    requires f in run[k].state.findings && IsJudged(f) && OpenBlocker(f) && f.id.Some?
    requires !OpenIn(v.findings, f.id.value) && !DeferredByRuling(run[k].state, f)
    ensures var q, s := run[k].event.q, run[k].state;
      && f.id.value in Known(s)
      && (exists n: nat :: Answers(q, s, n, f.id.value, AnsweredFixed) && SawOrWasQuoted(q, s, n, f.id.value))
      && !SomeAnswers(q, s, f.id.value, AnsweredOpen)
      && !ReportsAgain(q, s, f.id.value)
  {
    RecordedIsDecided(run, k, v);
    ClosedBlockerWasSeenFixed(run[k].event.q, run[k].state, run[k].open, f);
  }

  /** In every run: a pass approves exactly when it leaves no blocker open, unless it awaits a ruling. */
  lemma ApprovalIsNoOpenBlocker(run: seq<Moment>, k: nat, v: Verdict)
    requires IsRun(run) && k < |run| && Appends(run[k], v)
    ensures v.approve <==> v.round != AwaitingRuling && forall f :: f in v.findings && f.klass == Some(Blocker) ==>
      f.status == Fixed || f.status == Ruled
    ensures v.round == AwaitingRuling <==> NextStep(run[k].state) == Waiting
    ensures forall f :: f in v.findings ==> f.klass.Some?
  {
    hide Decide, NextStep, GoodState;
    RecordedIsDecided(run, k, v);
    PassIsLawful(run[k].event.q, run[k].state, run[k].open);
    ApproveMeansNoOpenBlocker(run[k].event.q, run[k].state, run[k].open);
    AwaitingMeansWaiting(run[k].event.q, run[k].state, run[k].open);
  }

  /** In every run: a label is one of the three rounds, an awaiting ruling, a closure or a form. */
  lemma RoundsNeverExceedThree(run: seq<Moment>, k: nat, v: Verdict)
    requires IsRun(run) && k < |run| && v in run[k].after.verdicts && v.round.Round?
    ensures 1 <= v.round.n <= 3
  {
    RunKeepsInv(run, k);
  }

  /** In every run: from round 3 on, a blocker the judges raise lies on a line the change since
      the last judged head touched, and a closure on the judged head raises none. */
  lemma NoLateSurprise(run: seq<Moment>, k: nat, v: Verdict, g: Finding)
    requires IsRun(run) && k < |run| && Appends(run[k], v)
    requires v.round != Round(1) && v.round != Round(2)
    requires g in v.findings && IsRaised(run[k].state, g)
    ensures IsOnAChange(run[k].event.q, g)
    ensures v.round == Round(3) || (v.round == Closure && !IsOnJudgedHead(run[k].event.q, run[k].state))
  {
    RecordedIsDecided(run, k, v);
    LateByLabel(run[k].event.q, run[k].state, run[k].open);
    LateBlockersAreInsideTheDelta(run[k].event.q, run[k].state, run[k].open, g);
  }

  lemma LateByLabel(q: Request, s: LoopState, open: seq<Id>)
    requires Decide(q, s, open).Some?
    ensures var l := Decide(q, s, open).value.round;
      && l == LabelOf(NextStep(s)) && (l != Round(1) && l != Round(2) ==> IsLate(q, s))
      && (WakesJudge(q, s) ==> l != AwaitingRuling) && l != Mechanical && (l.Round? ==> 1 <= l.n <= 3)
  {
    hide Await, Close, Finish, Unruled;
  }

  // ---------------------------------------------------------------- confirmed claims

  /** A reply of this pass answers the carry-forward. */
  ghost predicate CfAnswered(q: Request, s: LoopState, i: Id, status: AnswerStatus) {
    WakesJudge(q, s) && exists v :: v in HeardAll(q, s) && Answer(CF(i), status) in v.previous
  }

  lemma ConfirmedMeans(q: Request, s: LoopState, answers: map<Ref, AnswerStatus>, i: Id)
    requires answers == if WakesJudge(q, s) then MergedAnswers(HeardAll(q, s)) else map[]
    ensures IsConfirmed(s, i, answers) <==>
      !CfAnswered(q, s, i, AnsweredOpen) && (CfAnswered(q, s, i, AnsweredFixed) || i in s.confirmed)
  {
    hide WakesJudge, HeardAll;
    FoldedAnswerMeans(HeardAll(q, s), CF(i));
  }

  lemma AddressedMeans(q: Request, s: LoopState, open: seq<Id>, i: Id)
    requires Decide(q, s, open).Some? && Decide(q, s, open).value.accounting.Some?
    ensures i in Decide(q, s, open).value.accounting.value.addressed <==>
      && i in open && i in q.section && q.section[i].Addressed?
      && IsConfirmed(s, i, if WakesJudge(q, s) then MergedAnswers(HeardAll(q, s)) else map[])
  {
    hide FinishedFindings, MechanicalRecomputed, Capped, DeferredIds, Approves, HeardVerdicts, MergedFindings,
      MergedAnswers, IsConfirmed, LocationsOf;
  }

  /** An earlier judging verdict of the pull request recorded the carry-forward as addressed. */
  predicate WasConfirmed(vs: seq<Verdict>, repo: string, pr: nat, i: Id) {
    exists u :: u in vs && IsIn(u, repo, pr) && IsJudging(u) && i in Accounted(u).addressed
  }

  lemma ConfirmedIsOnRecord(vs: seq<Verdict>, rs: seq<Ruling>, repo: string, pr: nat, i: Id)
    ensures i in StateFor(vs, rs, repo, pr).confirmed <==> WasConfirmed(vs, repo, pr, i)
  {
    var h := History(vs, repo, pr);
    HistoryMeans(vs, repo, pr);
    assert StateFor(vs, rs, repo, pr).confirmed == ConfirmedBy(Filter(IsJudging, h));
  }

  /**
   * In every run: a claim counts as addressed exactly when no reply of the pass says it is still
   * open, and one says it is fixed or an earlier judging verdict recorded it. Silence loses no
   * confirmation, and a claim alone is none.
   */
  lemma ClaimIsAddressedWhen(run: seq<Moment>, k: nat, v: Verdict, i: Id)
    requires IsRun(run) && k < |run| && Appends(run[k], v) && v.accounting.Some?
    ensures var q, s := run[k].event.q, run[k].state;
      i in v.accounting.value.addressed <==>
        && i in run[k].open && i in q.section && q.section[i].Addressed?
        && !CfAnswered(q, s, i, AnsweredOpen)
        && (CfAnswered(q, s, i, AnsweredFixed) || WasConfirmed(run[k].before.verdicts, q.repo, q.pr, i))
  {
    hide Decide, CfAnswered, WasConfirmed, StateFor, HeardAll, WakesJudge, IsConfirmed, MergedAnswers;
    var w, q, s := run[k].before, run[k].event.q, run[k].state;
    RecordedIsDecided(run, k, v);
    assert Happens(run[k]);
    AddressedMeans(q, s, run[k].open, i);
    ConfirmedMeans(q, s, if WakesJudge(q, s) then MergedAnswers(HeardAll(q, s)) else map[], i);
    ConfirmedIsOnRecord(w.verdicts, RulingsBefore(w.rulings, q.readAt), q.repo, q.pr, i);
  }

  // ---------------------------------------------------------------- no fourth round

  /** An awaiting verdict keeps every open blocker of a judge that the verdict before it held. */
  ghost predicate KeepsOpen(u: Verdict, v: Verdict) {
    forall f :: f in u.findings && IsJudged(f) && OpenBlocker(f) ==> f.id.Some? && OpenIn(v.findings, f.id.value)
  }

  ghost predicate AwaitingKeepsOpen(h: seq<Verdict>) {
    forall k :: 0 < k < |h| && h[k].round == AwaitingRuling ==> KeepsOpen(h[k - 1], h[k])
  }

  ghost predicate AllAwaitingKeepOpen(vs: seq<Verdict>) {
    forall repo, pr :: AwaitingKeepsOpen(History(vs, repo, pr))
  }

  lemma LastIsLatest(w: World, repo: string, pr: nat, rs: seq<Ruling>)
    ensures var h := History(w.verdicts, repo, pr);
      StateFor(w.verdicts, rs, repo, pr).findings == if h == [] then [] else h[|h| - 1].findings
  {
    hide RuledAfter, JudgedAt, ConfirmedBy, HighestOf, Approves;
  }

  lemma AwaitingReviewKeepsOpen(w: World, q: Request, u: Verdict)
    requires Inv(w) && Review(q, w.verdicts, w.rulings).Some?
    requires Review(q, w.verdicts, w.rulings).value.round == AwaitingRuling
    requires u.findings == StateRead(w, q).findings
    ensures KeepsOpen(u, Review(q, w.verdicts, w.rulings).value)
  {
    var s := StateRead(w, q);
    var read := RulingsBefore(w.rulings, q.readAt);
    StateIsGood(w, q.repo, q.pr, read);
    forall f | f in u.findings && IsJudged(f) && OpenBlocker(f)
      ensures f.id.Some? && OpenIn(Review(q, w.verdicts, w.rulings).value.findings, f.id.value)
    {
      BlockerFate(q, s, OpenFor(q, w.verdicts, read), f);
      AwaitingMeansWaiting(q, s, OpenFor(q, w.verdicts, read));
    }
  }

  lemma AwaitingMeansWaiting(q: Request, s: LoopState, open: seq<Id>)
    requires Decide(q, s, open).Some?
    ensures Decide(q, s, open).value.round == AwaitingRuling <==> NextStep(s) == Waiting
  {
    hide NextStep, Await, Close, Finish, Merge, LocationsOf;
  }

  lemma SnocKeepsAwaiting(h: seq<Verdict>, v: Verdict)
    requires AwaitingKeepsOpen(h)
    requires v.round == AwaitingRuling && h != [] ==> KeepsOpen(h[|h| - 1], v)
    ensures AwaitingKeepsOpen(h + [v])
  {
  }

  lemma AppendKeepsAwaiting(vs: seq<Verdict>, v: Verdict)
    requires AllAwaitingKeepOpen(vs)
    requires IsLoop(v) && v.round == AwaitingRuling ==>
      var h := History(vs, v.repo, v.pr);
      h != [] ==> KeepsOpen(h[|h| - 1], v)
    ensures AllAwaitingKeepOpen(vs + [v])
  {
    forall repo, pr ensures AwaitingKeepsOpen(History(vs + [v], repo, pr)) {
      var h := History(vs, repo, pr);
      assert AwaitingKeepsOpen(h);
      HistoryGrows(vs, v, repo, pr);
      if IsIn(v, repo, pr) {
        SnocKeepsAwaiting(h, v);
      }
    }
  }

  lemma StepKeepsAwaiting(w: World, e: Event)
    requires Inv(w) && AllAwaitingKeepOpen(w.verdicts) && Enabled(w, e)
    ensures AllAwaitingKeepOpen(Next(w, e).verdicts)
  {
    hide AllAwaitingKeepOpen, Review, StateFor, Unruled;
    match e
    case Pass(q) =>
      if Review(q, w.verdicts, w.rulings).Some? {
        ReviewKeepsAwaiting(w, q);
      }
    case RecordsPass(v) => AppendKeepsAwaiting(w.verdicts, v);
    case Rule(r) =>
    case CarryOver(source, sha, check, at) =>
      assert w.verdicts[source] in w.verdicts && IsSound(w.verdicts[source]);
      AppendKeepsAwaiting(w.verdicts, Carried(w.verdicts[source], sha, check, at));
  }

  lemma ReviewKeepsAwaiting(w: World, q: Request)
    requires Inv(w) && AllAwaitingKeepOpen(w.verdicts) && q.readAt <= q.at
    requires Review(q, w.verdicts, w.rulings).Some?
    ensures AllAwaitingKeepOpen(w.verdicts + [Review(q, w.verdicts, w.rulings).value])
  {
    var v := Review(q, w.verdicts, w.rulings).value;
    var read := RulingsBefore(w.rulings, q.readAt);
    DecisionIsSound(q, StateRead(w, q), OpenFor(q, w.verdicts, read));
    var h := History(w.verdicts, v.repo, v.pr);
    if v.round == AwaitingRuling && h != [] {
      LastIsLatest(w, q.repo, q.pr, read);
      AwaitingReviewKeepsOpen(w, q, h[|h| - 1]);
    }
    AppendKeepsAwaiting(w.verdicts, v);
  }

  lemma NothingAwaits()
    ensures AllAwaitingKeepOpen([])
  {
  }

  lemma {:induction false} RunKeepsAwaiting(run: seq<Moment>, k: nat)
    requires IsRun(run) && k < |run|
    ensures AllAwaitingKeepOpen(run[k].before.verdicts) && AllAwaitingKeepOpen(run[k].after.verdicts)
    decreases k
  {
    hide Enabled, Next, Inv, AwaitingKeepsOpen, History, StateRead, OpenRead;
    assert Follows(run, k) && Happens(run[k]);
    if k > 0 {
      RunKeepsAwaiting(run, k - 1);
    } else {
      NothingAwaits();
    }
    RunKeepsInv(run, k);
    StepKeepsAwaiting(run[k].before, run[k].event);
  }

  /** From a verdict on, awaiting verdicts only: its open judged blockers are open in the last. */
  lemma {:induction false} OpenThroughAwaiting(h: seq<Verdict>, j: nat, k: nat, f: Finding)
    requires AwaitingKeepsOpen(h) && j <= k < |h|
    requires forall n :: j < n <= k ==> h[n].round == AwaitingRuling
    requires forall n :: 0 <= n < |h| ==> forall g :: g in h[n].findings && IsMechanical(g) ==> g.id != f.id
    requires f in h[j].findings && IsJudged(f) && OpenBlocker(f) && f.id.Some?
    ensures OpenIn(h[k].findings, f.id.value)
  {
    if k > j {
      OpenThroughAwaiting(h, j, k - 1, f);
      var g :| g in h[k - 1].findings && g.id == f.id && OpenBlocker(g);
      assert IsJudged(g);
      assert KeepsOpen(h[k - 1], h[k]);
    }
  }

  // the state rebuilt from a history that ends in awaiting verdicts

  lemma {:induction false} LastJudging(h: seq<Verdict>, j: nat)
    requires j < |h| && IsJudging(h[j])
    requires forall n :: j < n < |h| ==> !IsJudging(h[n])
    ensures Filter(IsJudging, h) == Filter(IsJudging, h[..j]) + [h[j]]
    decreases |h|
  {
    var init := h[..|h| - 1];
    if j < |h| - 1 {
      LastJudging(init, j);
      assert init[..j] == h[..j];
    }
  }

  /** The state after a last judging verdict that is not carried. */
  lemma StateAfterSnoc(vs: seq<Verdict>, before: seq<Verdict>, v: Verdict, judged: nat, rulings: seq<Ruling>)
    requires vs != [] && v.carried.None?
    ensures var s := StateFrom(vs, before + [v], judged, rulings);
      && s.lastJudged == Some(v)
      && s.findings == vs[|vs| - 1].findings
      && s.rulings == RuledAfter(rulings, Some(v.at))
  {
    assert (before + [v])[..|before + [v]| - 1] == before;
    OwnOrigin(v, before);
  }

  predicate IsRuledSince(rs: seq<Ruling>, repo: string, pr: nat, i: Id, t: int) {
    exists r :: r in rs && r.repo == repo && r.pr == pr && r.finding == i && r.at > t
  }

  /** The last judged verdict leaves the loop open-ended, and only awaiting verdicts follow it. */
  ghost predicate IsStuckAt(h: seq<Verdict>, j: nat, f: Finding) {
    && j < |h| && (h[j].round == Round(3) || h[j].round == Closure)
    && (forall n :: j < n < |h| ==> !IsJudging(h[n]))
    && f in h[j].findings && OpenBlocker(f) && !IsBodyDerived(f)
  }

  /** What the invariants say of one pull request's history. */
  ghost predicate GoodHistory(h: seq<Verdict>, pr: nat) {
    && (forall n :: 0 <= n < |h| ==> IsLoop(h[n]) && IsSound(h[n]) && GoodFindings(h[n].findings, pr))
    && (forall m, n, f, g :: (0 <= m < |h| && 0 <= n < |h| && f in h[m].findings && g in h[n].findings
                              && f.id == g.id) ==> SameClaim(f, g))
    && AwaitingKeepsOpen(h)
  }

  lemma HistoryIsGood(w: World, repo: string, pr: nat)
    requires Inv(w) && AllAwaitingKeepOpen(w.verdicts)
    ensures GoodHistory(History(w.verdicts, repo, pr), pr)
  {
    var h := History(w.verdicts, repo, pr);
    HistoryMeans(w.verdicts, repo, pr);
    forall n | 0 <= n < |h| ensures IsLoop(h[n]) && IsSound(h[n]) && GoodFindings(h[n].findings, pr) {
      assert h[n] in h;
    }
    forall m, n, f, g | 0 <= m < |h| && 0 <= n < |h| && f in h[m].findings && g in h[n].findings && f.id == g.id
      ensures SameClaim(f, g)
    {
      assert h[m] in h && h[n] in h;
    }
  }

  /** An open blocker no description resolves: the loop waits, or the blocker is ruled. */
  lemma OpenBlockerIsRuled(s: LoopState, g: Finding)
    requires g in s.findings && OpenBlocker(g) && !IsBodyDerived(g) && s.awaiting
    ensures NextStep(s) != Waiting ==> IsRuledIn(s, g)
  {
  }

  lemma StuckFacts(h: seq<Verdict>, pr: nat, j: nat, f: Finding)
    requires GoodHistory(h, pr) && IsStuckAt(h, j, f)
    ensures f.id.Some? && h[j].carried.None? && IsJudging(h[j])
    ensures forall n :: j < n < |h| ==> h[n].round == AwaitingRuling
    ensures IsMechanical(f) ==> f.title.NotAddressed?
  {
  }

  lemma JudgedStaysOpen(h: seq<Verdict>, pr: nat, j: nat, f: Finding)
    requires GoodHistory(h, pr) && IsStuckAt(h, j, f) && IsJudged(f)
    ensures f.id.Some? && OpenIn(h[|h| - 1].findings, f.id.value)
  {
    StuckFacts(h, pr, j, f);
    forall n, g | 0 <= n < |h| && g in h[n].findings && IsMechanical(g) ensures g.id != f.id {
      assert g.id == f.id ==> SameClaim(f, g);
    }
    OpenThroughAwaiting(h, j, |h| - 1, f);
  }

  /** While the blocker is open in the latest verdict, only its ruling lets the loop go on. */
  lemma OpenNeedsRuling(verdicts: seq<Verdict>, rulings: seq<Ruling>, h: seq<Verdict>, pr: nat, j: nat, f: Finding)
    requires h == Filter(IsLoop, verdicts) && GoodHistory(h, pr) && IsStuckAt(h, j, f)
    requires f.id.Some? && OpenIn(h[|h| - 1].findings, f.id.value)
    ensures NextStep(StateOf(verdicts, rulings)) != Waiting ==>
      f.id.value in RuledAfter(rulings, Some(h[j].at))
  {
    hide Filter, RuledAfter, AwaitingKeepsOpen, GoodFindings;
    StuckFacts(h, pr, j, f);
    LastJudging(h, j);
    StateAfterSnoc(h, Filter(IsJudging, h[..j]), h[j], |Filter(SpendsRound, h)|, rulings);
    var g :| g in h[|h| - 1].findings && g.id == f.id && OpenBlocker(g);
    assert SameClaim(f, g);
    assert StateOf(verdicts, rulings).awaiting;
    OpenBlockerIsRuled(StateOf(verdicts, rulings), g);
  }

  lemma RuledAfterMeans(rs: seq<Ruling>, repo: string, pr: nat, i: Id, t: int)
    requires i in RuledAfter(RulingsOf(rs, repo, pr), Some(t))
    ensures IsRuledSince(rs, repo, pr, i, t)
  {
    var r := RuledAfter(RulingsOf(rs, repo, pr), Some(t))[i];
    assert r in RulingsOf(rs, repo, pr);
  }

  lemma StuckNeedsRuling(vs: seq<Verdict>, rs: seq<Ruling>, repo: string, pr: nat, h: seq<Verdict>, j: nat, f: Finding)
    requires h == History(vs, repo, pr) && GoodHistory(h, pr) && IsStuckAt(h, j, f)
    ensures f.id.Some?
    ensures NextStep(StateFor(vs, rs, repo, pr)) != Waiting ==>
        || IsRuledSince(rs, repo, pr, f.id.value, h[j].at)
        || (IsMechanical(f) && f.title.NotAddressed? && !OpenIn(h[|h| - 1].findings, f.id.value))
  {
    StuckFacts(h, pr, j, f);
    if IsJudged(f) {
      JudgedStaysOpen(h, pr, j, f);
    }
    if OpenIn(h[|h| - 1].findings, f.id.value) {
      OpenNeedsRuling(VerdictsOf(vs, repo, pr), RulingsOf(rs, repo, pr), h, pr, j, f);
      if NextStep(StateFor(vs, rs, repo, pr)) != Waiting {
        RuledAfterMeans(rs, repo, pr, f.id.value, h[j].at);
      }
    }
  }

  lemma StillStuck(h: seq<Verdict>, v: Verdict, j: nat, f: Finding)
    requires IsStuckAt(h, j, f) && !IsJudging(v)
    ensures IsStuckAt(h + [v], j, f)
  {
  }

  /** An approval whose copy ends the wait is older than the verdict that began it. */
  lemma ApprovalIsOlder(h: seq<Verdict>, pr: nat, j: nat, f: Finding, source: Verdict)
    requires GoodHistory(h, pr) && IsStuckAt(h, j, f) && source in h && source.approve && IsJudging(source)
    ensures exists n :: 0 <= n < j && h[n] == source
  {
    var n :| 0 <= n < |h| && h[n] == source;
    assert IsSound(h[j]);
  }

  lemma CopyIsOlder(w: World, e: Event, repo: string, pr: nat, h: seq<Verdict>, j: nat, f: Finding)
    requires h == History(w.verdicts, repo, pr) && GoodHistory(h, pr) && IsStuckAt(h, j, f)
    requires e.CarryOver? && Enabled(w, e)
    requires var c := Carried(w.verdicts[e.source], e.sha, e.check, e.at); IsIn(c, repo, pr) && IsJudging(c)
    ensures exists n :: 0 <= n < j && h[n] == w.verdicts[e.source] && h[n].approve
  {
    hide GoodHistory, IsStuckAt;
    var source := w.verdicts[e.source];
    assert source in w.verdicts && IsIn(source, repo, pr) && IsJudging(source);
    HistoryMeans(w.verdicts, repo, pr);
    ApprovalIsOlder(h, pr, j, f, source);
  }

  lemma JudgingMeansNotWaiting(q: Request, s: LoopState, open: seq<Id>)
    requires Decide(q, s, open).Some? && IsJudging(Decide(q, s, open).value)
    ensures NextStep(s) != Waiting
  {
    hide Await, Close, Finish;
  }

  /** What the blocker waits for: a ruling since the verdict, or, for a "not addressed" gap, a
      description that no longer earns it. */
  ghost predicate IsReleased(w: World, repo: string, pr: nat, h: seq<Verdict>, j: nat, f: Finding)
    requires j < |h| && f.id.Some?
  {
    || IsRuledSince(w.rulings, repo, pr, f.id.value, h[j].at)
    || (IsMechanical(f) && f.title.NotAddressed? && !OpenIn(h[|h| - 1].findings, f.id.value))
  }

  /** A pass of the pull request that records anything but another wait. */
  lemma PassIsReleased(w: World, q: Request, h: seq<Verdict>, j: nat, f: Finding)
    requires Inv(w) && AllAwaitingKeepOpen(w.verdicts) && h == History(w.verdicts, q.repo, q.pr) && IsStuckAt(h, j, f)
    requires NextStep(StateRead(w, q)) != Waiting
    ensures f.id.Some? && IsReleased(w, q.repo, q.pr, h, j, f)
  {
    hide NextStep, IsStuckAt, GoodHistory, Inv, OpenIn, StateFor, History, IsRuledSince,
      AllAwaitingKeepOpen, RulingsBefore;
    HistoryIsGood(w, q.repo, q.pr);
    var read := RulingsBefore(w.rulings, q.readAt);
    StuckIsInside(h, j, f);
    StuckNeedsRuling(w.verdicts, read, q.repo, q.pr, h, j, f);
    RuledEarlierIsRuled(w.rulings, q.readAt, q.repo, q.pr, f.id.value, h[j].at);
  }

  lemma RuledEarlierIsRuled(rs: seq<Ruling>, readAt: int, repo: string, pr: nat, i: Id, t: int)
    ensures IsRuledSince(RulingsBefore(rs, readAt), repo, pr, i, t) ==> IsRuledSince(rs, repo, pr, i, t)
  {
  }

  lemma StuckIsInside(h: seq<Verdict>, j: nat, f: Finding)
    requires IsStuckAt(h, j, f)
    ensures j < |h|
  {
  }

  /**
   * No fourth round: after round 3 or a closure leaves a blocker the description cannot resolve
   * by itself, no judge runs again until the blocker has a ruling recorded after that verdict,
   * or, for a "not addressed" gap, a later description no longer earns it.
   */
  lemma NoJudgeUntilRuled(run: seq<Moment>, k: nat, h: seq<Verdict>, j: nat, f: Finding)
    requires IsRun(run) && k < |run| && run[k].event.Pass?
    requires h == History(run[k].before.verdicts, run[k].event.q.repo, run[k].event.q.pr) && IsStuckAt(h, j, f)
    ensures f.id.Some?
    ensures WakesJudge(run[k].event.q, run[k].state) ==>
      || IsRuledSince(run[k].before.rulings, run[k].event.q.repo, run[k].event.q.pr, f.id.value, h[j].at)
      || (IsMechanical(f) && f.title.NotAddressed? && !OpenIn(h[|h| - 1].findings, f.id.value))
  {
    hide IsStuckAt, NextStep, OpenIn, IsRuledSince, StateFor, History, Inv, AllAwaitingKeepOpen, IsRun, GoodHistory,
      Enabled, Next, ClosesWithoutJudge;
    var w, q := run[k].before, run[k].event.q;
    MomentOf(run, k);
    HistoryIsGood(w, q.repo, q.pr);
    StuckIsInside(h, j, f);
    StuckFacts(h, q.pr, j, f);
    StateIsRead(run, k);
    if WakesJudge(q, run[k].state) {
      PassIsReleased(w, q, h, j, f);
    }
  }

  /**
   * What ends the wait of round 3 or a closure, in every run: a pass of the pull request once the
   * blocker is released, or a copy of an approval older than the verdict that waits. Nothing else
   * records a judging verdict.
   */
  lemma WaitEndsBy(run: seq<Moment>, k: nat, repo: string, pr: nat, h: seq<Verdict>, j: nat, f: Finding)
    requires IsRun(run) && k < |run|
    requires h == History(run[k].before.verdicts, repo, pr) && IsStuckAt(h, j, f)
    requires !IsStuckAt(History(run[k].after.verdicts, repo, pr), j, f)
    ensures j < |h| && f.id.Some?
    ensures match run[k].event
      case Pass(q) => q.repo == repo && q.pr == pr && IsReleased(run[k].before, repo, pr, h, j, f)
      case CarryOver(source, sha, check, at) =>
        source < |run[k].before.verdicts|
        && exists n :: 0 <= n < j && h[n] == run[k].before.verdicts[source] && h[n].approve
      case _ => false
  {
    hide IsStuckAt, Inv, StateFor, OpenFor, Decide, Unruled, GoodHistory, IsReleased, AllAwaitingKeepOpen,
      IsJudging, IsRun;
    var w := run[k].before;
    StuckIsInside(h, j, f);
    MomentOf(run, k);
    HistoryIsGood(w, repo, pr);
    StuckFacts(h, pr, j, f);
    match run[k].event
    case Pass(q) =>
      if Review(q, w.verdicts, w.rulings).Some? {
        var v := Review(q, w.verdicts, w.rulings).value;
        NewHistory(w, v, repo, pr, h, j, f);
        DecisionIsSound(q, StateRead(w, q), OpenRead(w, q));
        JudgingMeansNotWaiting(q, StateRead(w, q), OpenRead(w, q));
        PassIsReleased(w, q, h, j, f);
      }
    case RecordsPass(v) =>
      NewHistory(w, v, repo, pr, h, j, f);
    case Rule(r) =>
    case CarryOver(source, sha, check, at) =>
      NewHistory(w, Carried(w.verdicts[source], sha, check, at), repo, pr, h, j, f);
      CopyIsOlder(w, run[k].event, repo, pr, h, j, f);
  }

  lemma StateIsRead(run: seq<Moment>, k: nat)
    requires IsRun(run) && k < |run| && run[k].event.Pass?
    ensures run[k].state == StateRead(run[k].before, run[k].event.q)
  {
    assert Happens(run[k]);
  }

  lemma MomentOf(run: seq<Moment>, k: nat)
    requires IsRun(run) && k < |run|
    ensures Enabled(run[k].before, run[k].event) && run[k].after == Next(run[k].before, run[k].event)
    ensures Inv(run[k].before) && AllAwaitingKeepOpen(run[k].before.verdicts)
  {
    hide Enabled, Next, Inv, AllAwaitingKeepOpen;
    assert Happens(run[k]);
    RunKeepsInv(run, k);
    RunKeepsAwaiting(run, k);
  }

  lemma NewHistory(w: World, v: Verdict, repo: string, pr: nat, h: seq<Verdict>, j: nat, f: Finding)
    requires h == History(w.verdicts, repo, pr) && IsStuckAt(h, j, f)
    requires !IsStuckAt(History(w.verdicts + [v], repo, pr), j, f)
    ensures IsIn(v, repo, pr) && IsJudging(v)
  {
    hide IsStuckAt, IsJudging;
    HistoryGrows(w.verdicts, v, repo, pr);
    if IsIn(v, repo, pr) && !IsJudging(v) {
      StillStuck(h, v, j, f);
    }
  }
}
