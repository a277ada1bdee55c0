/** What a pass does, in the words of what it reads (src/rail/reviewer/service.py, rounds.py). */
module PassRules {
  import opened Wrappers
  import opened Sequences
  import opened Findings
  import opened Carry
  import opened Rounds
  import opened Admission
  import opened Service
  import opened PassShape
  import opened Blockers
  import opened NewClaims
  import opened Runs
  import Exceptions
  import Promises

  // ---------------------------------------------------------------- which step

  /** An open blocker the operator has to rule on: not one of the description's own shape. */
  predicate WantsRuling(f: Finding) {
    && OpenBlocker(f)
    && !(f.file == Description && (f.title.NotAccounted? || f.title.DeferredNoReason?))
  }

  predicate HasRuling(s: LoopState, f: Finding) {
    exists i :: f.id == Some(i) && i in s.rulings
  }

  lemma UnruledMeans(s: LoopState)
    ensures Unruled(s) != [] <==> exists f :: f in s.findings && WantsRuling(f) && !HasRuling(s, f)
  {
    HasMember(Unruled(s));
    forall f ensures f in Unruled(s) <==> f in s.findings && WantsRuling(f) && !HasRuling(s, f) {
      if f.id.Some? {
        assert IsRuledIn(s, f) <==> HasRuling(s, f);
      }
    }
  }

  /**
   * The label of a recorded verdict. Outside the open-ended phase rounds count up to three. Within
   * it the pass waits while a blocker wants a ruling and has none; closes when every such blocker
   * has one, and there is one; and otherwise judges round 3 again.
   */
  lemma LabelMeans(q: Request, s: LoopState, open: seq<Id>)
    requires Decide(q, s, open).Some?
    ensures var l := Decide(q, s, open).value.round;
      && (!s.awaiting ==> l == Round(if s.judged < 3 then s.judged + 1 else 3))
      && (s.awaiting ==>
            && (l == AwaitingRuling <==> exists f :: f in s.findings && WantsRuling(f) && !HasRuling(s, f))
            && (l == Closure <==>
                  && (exists f :: f in s.findings && WantsRuling(f))
                  && forall f :: f in s.findings && WantsRuling(f) ==> HasRuling(s, f))
            && (l == Round(3) <==> forall f :: f in s.findings ==> !WantsRuling(f)))
  {
    hide Decide, Unruled, OpenBlocker;
    Promises.LateByLabel(q, s, open);
    UnruledMeans(s);
  }

  /** What the state of a pull request is, from its verdicts in order. */
  lemma StateMeans(vs: seq<Verdict>, rs: seq<Ruling>, repo: string, pr: nat)
    ensures var h, s := History(vs, repo, pr), StateFor(vs, rs, repo, pr);
      && (forall v :: v in h <==> v in vs && v.repo == repo && v.pr == pr && v.round != Mechanical)
      && s.findings == (if h == [] then [] else h[|h| - 1].findings)
      && (s.hasFindingsList <==> h != [])
      && (s.lastJudged.None? <==> forall v :: v in h ==> !Judges(v))
      && (s.lastJudged.Some? ==> exists j :: IsLastJudged(h, j) && h[j] == s.lastJudged.value)
      && (s.awaiting <==>
            && (exists f :: f in s.findings && OpenBlocker(f))
            && s.lastJudged.Some? && s.lastJudged.value.round in {Closure, Round(3)})
  {
    var h := History(vs, repo, pr);
    HistoryMeans(vs, repo, pr);
    LastIsLast(h);
    StateIs(vs, rs, repo, pr);
    hide StateFor, History, OpenBlocker, IsJudging;
    HasMember(Filter(IsJudging, h));
    forall v ensures IsJudging(v) <==> Judges(v) {
      JudgesMeans(v);
    }
  }

  lemma StateIs(vs: seq<Verdict>, rs: seq<Ruling>, repo: string, pr: nat)
    ensures var h, s := History(vs, repo, pr), StateFor(vs, rs, repo, pr);
      var judging := Filter(IsJudging, h);
      && s.findings == (if h == [] then [] else h[|h| - 1].findings)
      && (s.hasFindingsList <==> h != [])
      && s.lastJudged == (if judging == [] then None else Some(judging[|judging| - 1]))
      && (s.awaiting <==>
            && !Approves(s.findings) && s.lastJudged.Some?
            && (s.lastJudged.value.round == Closure || s.lastJudged.value.round == Round(3)))
  {
    hide RuledAfter, JudgedAt, ConfirmedBy, HighestOf, Approves, Filter;
  }

  /** The label of a judged round or of a closure. */
  predicate Judges(v: Verdict) {
    v.round in {Round(1), Round(2), Round(3), Closure}
  }

  lemma JudgesMeans(v: Verdict)
    ensures IsJudging(v) <==> Judges(v)
  {
  }

  ghost predicate IsLastJudged(h: seq<Verdict>, j: int) {
    0 <= j < |h| && Judges(h[j]) && forall n :: j < n < |h| ==> !Judges(h[n])
  }

  /** Recorded at growing instants. */
  ghost predicate AreInOrder(rs: seq<Ruling>) {
    forall m, n :: 0 <= m < n < |rs| ==> rs[m].at < rs[n].at
  }

  /** The rulings a pass goes by: those recorded since the last judged verdict, or all of them before
      any, and of several on one finding the newest. */
  lemma RulingsMean(vs: seq<Verdict>, rs: seq<Ruling>, repo: string, pr: nat, j: int, i: Id)
    requires AreInOrder(rs)
    requires var h := History(vs, repo, pr);
      (IsLastJudged(h, j) && h[j].carried.None?) || (j == -1 && forall v :: v in h ==> !Judges(v))
    ensures var h, s := History(vs, repo, pr), StateFor(vs, rs, repo, pr);
      && (i in s.rulings <==> exists r :: r in rs && Counts(h, j, repo, pr, i, r))
      && (i in s.rulings ==>
            && s.rulings[i] in rs && Counts(h, j, repo, pr, i, s.rulings[i])
            && forall r :: r in rs && Counts(h, j, repo, pr, i, r) ==> r.at <= s.rulings[i].at)
  {
    hide StateFor, History, RuledAfter, RulingsOf, JudgedAt, IsLastJudged, Judges, AreInOrder;
    var h := History(vs, repo, pr);
    LastJudgedAt(h, j);
    var own := RulingsOf(rs, repo, pr);
    OwnKeepTimes(rs, repo, pr);
    NewestCounts(own, JudgedAt(Filter(IsJudging, h)));
    RulingsAre(vs, rs, repo, pr);
    forall r ensures r in own <==> r in rs && r.repo == repo && r.pr == pr {
      OwnMeans(rs, repo, pr, r);
    }
  }

  lemma RulingsAre(vs: seq<Verdict>, rs: seq<Ruling>, repo: string, pr: nat)
    ensures StateFor(vs, rs, repo, pr).rulings ==
      RuledAfter(RulingsOf(rs, repo, pr), JudgedAt(Filter(IsJudging, History(vs, repo, pr))))
  {
    hide RuledAfter, JudgedAt;
  }

  lemma OwnMeans(rs: seq<Ruling>, repo: string, pr: nat, r: Ruling)
    ensures r in RulingsOf(rs, repo, pr) <==> r in rs && r.repo == repo && r.pr == pr
  {
  }

  /** A ruling on the finding, recorded after the `j`-th verdict of the history. */
  predicate Counts(h: seq<Verdict>, j: int, repo: string, pr: nat, i: Id, r: Ruling)
    requires -1 <= j < |h|
  {
    r.repo == repo && r.pr == pr && r.finding == i && (j == -1 || r.at > h[j].at)
  }

  lemma LastJudgedAt(h: seq<Verdict>, j: int)
    requires (IsLastJudged(h, j) && h[j].carried.None?) || (j == -1 && forall v :: v in h ==> !Judges(v))
    ensures JudgedAt(Filter(IsJudging, h)) == if j == -1 then None else Some(h[j].at)
  {
    hide Origin;
    if j == -1 {
      HasMember(Filter(IsJudging, h));
    } else {
      Promises.LastJudging(h, j);
      var before := Filter(IsJudging, h[..j]);
      assert (before + [h[j]])[..|before|] == before;
      OwnOrigin(h[j], before);
    }
  }

  lemma {:induction false} OwnKeepTimes(rs: seq<Ruling>, repo: string, pr: nat)
    requires AreInOrder(rs)
    ensures AreInOrder(RulingsOf(rs, repo, pr))
  {
    hide AreInOrder;
    if rs == [] {
      NoneOutOfOrder();
    } else {
      var init, last := rs[..|rs| - 1], rs[|rs| - 1];
      InOrderBefore(rs);
      OwnKeepTimes(init, repo, pr);
      assert rs == init + [last];
      FilterSnoc((r: Ruling) => r.repo == repo && r.pr == pr, init, last);
      InOrderSnoc(RulingsOf(init, repo, pr), last);
    }
  }

  lemma NoneOutOfOrder()
    ensures AreInOrder([])
  {
  }

  lemma InOrderBefore(rs: seq<Ruling>)
    requires AreInOrder(rs) && rs != []
    ensures AreInOrder(rs[..|rs| - 1])
    ensures forall r :: r in rs[..|rs| - 1] ==> r.at < rs[|rs| - 1].at
  {
  }

  lemma InOrderSnoc(rs: seq<Ruling>, r: Ruling)
    requires AreInOrder(rs) && forall x :: x in rs ==> x.at < r.at
    ensures AreInOrder(rs + [r])
  {
  }

  lemma RuledSnoc(rs: seq<Ruling>, r: Ruling, after: Option<int>)
    ensures RuledAfter(rs + [r], after) ==
      if after.Some? && r.at <= after.value then RuledAfter(rs, after) else RuledAfter(rs, after)[r.finding := r]
  {
  }

  lemma {:induction false} NewestCounts(rs: seq<Ruling>, after: Option<int>)
    requires AreInOrder(rs)
    ensures forall r :: r in rs && (after.None? || r.at > after.value) ==>
      r.finding in RuledAfter(rs, after) && r.at <= RuledAfter(rs, after)[r.finding].at
  {
    hide AreInOrder;
    if rs != [] {
      var init, last := rs[..|rs| - 1], rs[|rs| - 1];
      assert rs == init + [last];
      InOrderBefore(rs);
      NewestCounts(init, after);
      hide RuledAfter;
      RuledSnoc(init, last, after);
    }
  }

  lemma {:induction false} LastIsLast(h: seq<Verdict>)
    ensures var judging := Filter(IsJudging, h);
      judging != [] ==> exists j :: IsLastJudged(h, j) && h[j] == judging[|judging| - 1]
  {
    if h != [] {
      var init, last := h[..|h| - 1], h[|h| - 1];
      assert h == init + [last];
      LastIsLast(init);
      JudgesMeans(last);
      if IsJudging(last) {
        assert IsLastJudged(h, |init|);
      } else if Filter(IsJudging, init) != [] {
        var j :| IsLastJudged(init, j) && init[j] == Filter(IsJudging, init)[|Filter(IsJudging, init)| - 1];
        assert IsLastJudged(h, j) && h[j] == init[j];
        assert Filter(IsJudging, h) == Filter(IsJudging, init);
      }
    }
  }

  // ---------------------------------------------------------------- who is heard

  /** A closure has something for judges to read: another head, or a fix the operator asked for. */
  predicate HasNewToRead(q: Request, s: LoopState) {
    || s.lastJudged == None || s.lastJudged.value.sha != q.sha
    || exists i :: i in s.rulings && s.rulings[i].kind == RuledFix
  }

  /**
   * Who is heard. A judged round hears its judges, and so does a closure with something new to
   * read: no merge, no verdict. A pass that waits, and a closure with nothing new, hear nobody.
   */
  lemma HeardWhen(q: Request, s: LoopState, open: seq<Id>)
    ensures NextStep(s).JudgedRound? || (NextStep(s) == Closing && HasNewToRead(q, s)) ==>
      (Decide(q, s, open).Some? <==> Merge(q.judgement, Known(s)).Some?)
    ensures NextStep(s) == Waiting || (NextStep(s) == Closing && !HasNewToRead(q, s)) ==>
      forall other :: Decide(q.(judgement := other), s, open) == Decide(q, s, open)
  {
    ListensWhen(q, s);
    hide NextStep, Merge, Finish, Await, Close, HasNewToRead, LocationsOf, WakesJudge;
    if !WakesJudge(q, s) {
      forall other ensures Decide(q.(judgement := other), s, open) == Decide(q, s, open) {
        NoJudgeNoSay(q, other, s, open);
      }
    } else {
      JudgedNeedsMerge(q, s, open);
    }
  }

  lemma ListensWhen(q: Request, s: LoopState)
    ensures WakesJudge(q, s) <==> NextStep(s).JudgedRound? || (NextStep(s) == Closing && HasNewToRead(q, s))
  {
    hide NextStep;
  }

  lemma JudgedNeedsMerge(q: Request, s: LoopState, open: seq<Id>)
    requires WakesJudge(q, s)
    ensures Decide(q, s, open).Some? <==> Merge(q.judgement, Known(s)).Some?
  {
    hide NextStep, Merge, Finish, LocationsOf;
  }

  /** What a closure with something new to read records of the claims it hears. */
  lemma ClosureRecordsClaims(q: Request, s: LoopState, open: seq<Id>, f: Finding)
    requires GoodState(s, q.pr) && NextStep(s) == Closing && HasNewToRead(q, s)
    requires Merge(q.judgement, Known(s)).Some?
    requires f in Merge(q.judgement, Known(s)).value.findings && IsNewClaim(s, f)
    ensures Decide(q, s, open).Some?
    ensures exists g :: g in Decide(q, s, open).value.findings && IsRecordOf(q, s, f, g)
  {
    hide NextStep, Merge, Decide, IsRecordOf, GoodState, HasNewToRead, IsNewClaim, Known, WakesJudge;
    HeardWhen(q, s, open);
    ListensWhen(q, s);
    NewClaimIsRecorded(q, s, open, f);
  }

  /** Some reply of the pass may speak. */
  ghost predicate IsHeard(q: Request, s: LoopState) {
    exists n: nat :: n < |q.judgement.replies| && HeardFrom(q, s, n).Some?
  }

  lemma MergeIsHeard(q: Request, s: LoopState)
    requires Merge(q.judgement, Known(s)).Some?
    ensures IsHeard(q, s)
  {
    HasMember(HeardAll(q, s));
    var v :| v in HeardAll(q, s);
    var n := HeardIsReply(q, s, v);
  }

  /**
   * No head is approved unread: in every run, a pass that approves a head other than the last
   * judged one heard some reply about it, and recorded every new claim the replies made.
   */
  lemma ApprovedHeadWasHeard(run: seq<Moment>, k: nat, v: Verdict)
    requires IsRun(run) && k < |run| && Appends(run[k], v) && v.approve
    requires var h := History(run[k].before.verdicts, run[k].event.q.repo, run[k].event.q.pr);
      forall j :: IsLastJudged(h, j) ==> h[j].sha != v.sha
    ensures IsHeard(run[k].event.q, run[k].state)
    ensures Merge(run[k].event.q.judgement, Known(run[k].state)).Some?
    ensures forall f :: f in Merge(run[k].event.q.judgement, Known(run[k].state)).value.findings
                        && IsNewClaim(run[k].state, f) ==>
      exists g :: g in v.findings && IsRecordOf(run[k].event.q, run[k].state, f, g)
  {
    var m := run[k];
    var q, s, open := m.event.q, m.state, m.open;
    RecordedIsDecided(run, k, v);
    assert Happens(m);
    StateMeans(m.before.verdicts, RulingsBefore(m.before.rulings, q.readAt), q.repo, q.pr);
    hide Decide, NextStep, Merge, GoodState, IsRecordOf, IsNewClaim, Known, IsHeard, WakesJudge, StateFor, IsRun,
      Happens, History, IsLastJudged;
    DecidedKey(q, s, open);
    ApprovalHears(q, s, open);
    MergeIsHeard(q, s);
    ListensWhen(q, s);
    forall f | f in Merge(q.judgement, Known(s)).value.findings && IsNewClaim(s, f)
      ensures exists g :: g in v.findings && IsRecordOf(q, s, f, g)
    {
      NewClaimIsRecorded(q, s, open, f);
    }
  }

  lemma ApprovalHears(q: Request, s: LoopState, open: seq<Id>)
    requires Decide(q, s, open).Some? && Decide(q, s, open).value.approve
    requires s.lastJudged == None || s.lastJudged.value.sha != q.sha
    ensures WakesJudge(q, s) && Merge(q.judgement, Known(s)).Some?
  {
    hide NextStep, Merge, Finish, Close, LocationsOf;
  }

  // ---------------------------------------------------------------- the accounting

  /**
   * A verdict accounts for the carry-forwards exactly when it is on code and does not wait, and then
   * lists as deferred the open ones the description defers with a reason, and those whose gap on
   * record is ruled, before or by this closure.
   */
  lemma AccountingMeans(q: Request, s: LoopState, open: seq<Id>)
    requires GoodState(s, q.pr) && Decide(q, s, open).Some?
    ensures var v := Decide(q, s, open).value;
      && (v.accounting.Some? <==> q.artifact == Code && v.round != AwaitingRuling)
      && (v.accounting.Some? ==> forall i :: i in v.accounting.value.deferred <==>
            && i in open
            && (|| (i in q.section && q.section[i].Deferred? && q.section[i].reason != "")
                || exists f :: f in s.findings && Exceptions.IsRuledBy(s, f, i)))
  {
    hide Decide, Exceptions.IsRuledBy, GoodState;
    var v := Decide(q, s, open).value;
    AccountedWhen(q, s, open);
    if v.accounting.Some? {
      forall i ensures i in v.accounting.value.deferred <==>
        && i in open
        && (|| (i in q.section && q.section[i].Deferred? && q.section[i].reason != "")
            || exists f :: f in s.findings && Exceptions.IsRuledBy(s, f, i))
      {
        DeferredWhen(q, s, open, i);
      }
    }
  }

  lemma DeferredWhen(q: Request, s: LoopState, open: seq<Id>, i: Id)
    requires GoodState(s, q.pr) && Decide(q, s, open).Some? && Decide(q, s, open).value.accounting.Some?
    ensures i in Decide(q, s, open).value.accounting.value.deferred <==>
      && i in open
      && (|| (i in q.section && q.section[i].Deferred? && q.section[i].reason != "")
          || exists f :: f in s.findings && Exceptions.IsRuledBy(s, f, i))
  {
    hide Decide, Uncapped, Exceptions.IsRuledBy, UsableAnswers, GoodState, NextStep, DeferredIds, Confirmed;
    Exceptions.AccountingIs(q, s, open);
    Exceptions.RuledInRecorded(q, s, open, i);
    Exceptions.DeferredMeans(open, q.section, Uncapped(q, s, open), i);
  }

  lemma AccountedWhen(q: Request, s: LoopState, open: seq<Id>)
    requires Decide(q, s, open).Some?
    ensures var v := Decide(q, s, open).value;
      v.accounting.Some? <==> q.artifact == Code && v.round != AwaitingRuling
  {
    hide NextStep, Merge, FinishedFindings, MechanicalRecomputed, Capped, LocationsOf, Confirmed, DeferredIds;
  }

  /** In every run. */
  lemma EveryVerdictAccounts(run: seq<Moment>, k: nat, v: Verdict)
    requires IsRun(run) && k < |run| && Appends(run[k], v)
    ensures v.accounting.Some? <==> v.artifact == Code && v.round != AwaitingRuling
    ensures v.accounting.Some? ==> forall i :: i in v.accounting.value.deferred <==>
      var q, s := run[k].event.q, run[k].state;
      && i in run[k].open
      && (|| (i in q.section && q.section[i].Deferred? && q.section[i].reason != "")
          || exists f :: f in s.findings && Exceptions.IsRuledBy(s, f, i))
  {
    hide Decide, GoodState, Exceptions.IsRuledBy;
    RecordedIsDecided(run, k, v);
    AccountingMeans(run[k].event.q, run[k].state, run[k].open);
    ArtifactIsKept(run[k].event.q, run[k].state, run[k].open);
  }

  lemma ArtifactIsKept(q: Request, s: LoopState, open: seq<Id>)
    requires Decide(q, s, open).Some?
    ensures Decide(q, s, open).value.artifact == q.artifact
  {
    hide NextStep, Merge, Finish, Close, Await;
  }

  // ---------------------------------------------------------------- only what a judge saw blocks

  /** A reply kept says so, in these words. */
  ghost predicate Says(q: Request, n: nat, f: Finding) {
    && n < |q.judgement.replies| && q.judgement.replies[n].reply.verdict.Some?
    && f in q.judgement.replies[n].reply.verdict.value.findings
  }

  /** The judge had the place in front of it: its piece could not be read as one, so nothing is known
      of what it saw; or the place is in no judged file, where that is not held against it; or the
      file was shown whole, or the line was. */
  ghost predicate HadInFront(q: Request, n: nat, f: Finding)
    requires n < |q.judgement.replies|
  {
    || !q.judgement.replies[n].readable
    || match Resolve(f.file, q.judgement.judgedFiles)
       case Missing => !q.judgement.replies[n].outsideIsUnseen
       case Ambiguous => false
       case At(path) => WasShown(SightOf(q, n), path, f.line)
  }

  /** The recorded claim is the judge's: the same words, at the same place unless that is where the
      loop files its own blockers. */
  predicate IsSaidAs(f: Finding, g: Finding) {
    && f.severity == g.severity && f.title == g.title && f.evidence == g.evidence && f.line == g.line
    && (g.file == f.file || (f.file == Description && g.file == JudgeDescription))
  }

  /** A reply's new claim that is owed a blocker was not demoted, so its judge had it in front of it. */
  lemma UndemotedWasSeen(q: Request, s: LoopState, n: nat, f: Finding)
    requires Reports(q, s, n, f) && IsNewClaim(s, f) && IsOwed(f, q.artifact, Blocker)
    ensures Says(q, n, f) && (f.file == Description || HadInFront(q, n, f))
  {
    hide Resolve, Heard, MayAnswer;
    var p := q.judgement.replies[n];
    var known := Known(s).Keys;
    PassedThePart(q, s, n, f);
    if p.readable {
      var v := p.reply.verdict.value;
      var sight := if p.reply.sight.None? then Some(p.wholeSight) else p.reply.sight;
      var i :| 0 <= i < |v.findings|
        && f == SeenOrDemoted(v.findings[i], sight, known, q.judgement.judgedFiles, p.outsideIsUnseen);
      assert v.findings[i] == f && !IsUnseenClaim(f, sight, known, q.judgement.judgedFiles, p.outsideIsUnseen);
    }
  }

  lemma PassedThePart(q: Request, s: LoopState, n: nat, f: Finding)
    requires Reports(q, s, n, f)
    ensures q.judgement.replies[n].reply.verdict.Some?
    ensures var p := q.judgement.replies[n];
      var v := WithinPart(p, Known(s).Keys, q.judgement.judgedFiles).verdict;
      v.Some? && f in v.value.findings
  {
    hide SeenOrDemoted, MayAnswer;
  }

  lemma RaisedIsFresh(q: Request, s: LoopState, m: Merged, g: Finding) returns (k: nat)
    requires GoodState(s, q.pr)
    requires g in JudgedFindings(q, s, NextStep(s), SameHead(q, s), m) && IsRaised(s, g)
    ensures |Earlier(s)| <= k < |Assigned(q, s, m)| == |JudgedFindings(q, s, NextStep(s), SameHead(q, s), m)|
    ensures JudgedFindings(q, s, NextStep(s), SameHead(q, s), m)[k] == g
  {
    hide Assigned, JudgedFindings, NextStep, GoodState, SameHead, IsRaised, Earlier;
    var r := JudgedFindings(q, s, NextStep(s), SameHead(q, s), m);
    k :| 0 <= k < |r| && r[k] == g;
    SameLength(q, s, m);
    if k < |Earlier(s)| {
      EarlierIsNotRaised(q, s, NextStep(s), SameHead(q, s), m, k);
    }
  }

  /** A blocker the pass raises comes from a merged claim that is owed one. */
  lemma RaisedIsMerged(q: Request, s: LoopState, m: Merged, g: Finding) returns (f: Finding)
    requires GoodState(s, q.pr)
    requires g in JudgedFindings(q, s, NextStep(s), SameHead(q, s), m) && IsRaised(s, g)
    ensures f in m.findings && IsNewClaim(s, f) && IsSaidAs(f, g) && IsOwed(f, q.artifact, Blocker)
  {
    hide Assigned, Limited, NextStep, GoodState, Fresh, IsLimitOf, IsOwed, EnforceClass, MayBlock, JudgedFindings,
      SameHead, Earlier, Ids, Settled, IsSaidAs, IsNewClaim;
    var k := RaisedIsFresh(q, s, m, g);
    JudgedIs(q, s, m);
    f := AssignedIsSaid(q, s, m, k);
    var n: nat :| n > s.highest && Assigned(q, s, m)[k] == Fresh(Settled(f, q.artifact), Id(q.pr, n), q.artifact);
    SettledTwice(f, Id(q.pr, n), q.artifact);
    NumberIsFree(q, s, n);
    LimitedFresh(q, s, Ids(Earlier(s)), Assigned(q, s, m), k);
    SettledIsOwed(f, q.artifact);
    SettledIsSaid(f, Id(q.pr, n), q.artifact);
  }

  lemma SameLength(q: Request, s: LoopState, m: Merged)
    ensures |JudgedFindings(q, s, NextStep(s), SameHead(q, s), m)| == |Assigned(q, s, m)|
  {
    hide Assigned, NextStep;
  }

  lemma SettledIsSaid(f: Finding, id: Id, artifact: Artifact)
    ensures forall g: Finding :: g == Fresh(Settled(f, artifact), id, artifact).(klass := g.klass) ==> IsSaidAs(f, g)
  {
  }

  lemma AssignedIsSaid(q: Request, s: LoopState, m: Merged, k: nat) returns (f: Finding)
    requires GoodState(s, q.pr) && |Earlier(s)| <= k < |Assigned(q, s, m)|
    ensures f in m.findings && IsNewClaim(s, f)
    ensures exists n: nat ::
      n > s.highest && Assigned(q, s, m)[k] == Fresh(Settled(f, q.artifact), Id(q.pr, n), q.artifact)
  {
    hide Unknown, Classified, Fresh, Assign, Assigned, Earlier, AnsweredAll, Settled, IsNewClaim, Ids, GoodState;
    var e, new_ := Earlier(s), Classified(m.findings, q.artifact);
    EarlierAreNumbered(s, q.pr);
    AssignedIs(q, s, m);
    AssignParts(new_, m.answers, e, q.pr, q.artifact, s.highest);
    var unknown := Unknown(new_, Ids(e));
    var j := k - |e|;
    assert unknown[j] in unknown;
    f := UnknownIsNew(q, s, m, unknown[j]);
    assert Numbered(unknown, s.highest, q.pr, q.artifact)[j]
        == Fresh(unknown[j], Id(q.pr, s.highest + 1 + j), q.artifact);
  }

  lemma UnknownIsNew(q: Request, s: LoopState, m: Merged, u: Finding) returns (f: Finding)
    requires u in Unknown(Classified(m.findings, q.artifact), Ids(Earlier(s)))
    ensures f in m.findings && IsNewClaim(s, f) && u == Settled(f, q.artifact)
  {
    hide EnforceClass, Filter, Ids;
    var c := Classified(m.findings, q.artifact);
    var i :| 0 <= i < |c| && c[i] == u;
    f := m.findings[i];
    ClassKeepsId(Relocated(f), q.artifact);
  }

  lemma ClassKeepsId(f: Finding, artifact: Artifact)
    ensures EnforceClass(f, artifact).id == f.id
  {
  }

  /**
   * Only what a judge saw blocks: each blocker the judges raise in a recorded verdict is, in its own
   * words, a claim of a reply that had the place in front of it.
   */
  lemma RaisedWasSeen(q: Request, s: LoopState, open: seq<Id>, g: Finding)
    requires GoodState(s, q.pr) && Decide(q, s, open).Some?
    requires g in Decide(q, s, open).value.findings && IsRaised(s, g)
    ensures exists n: nat, f :: Says(q, n, f) && IsSaidAs(f, g) && (f.file == Description || HadInFront(q, n, f))
  {
    hide NextStep, Merge, JudgedFindings, FinishedFindings, GoodState, Says, HadInFront, IsOwed, IsNewClaim, Heard,
      LocationsOf, IsSaidAs, Decide, Uncapped, IsRaised, WakesJudge;
    RaisedIsJudged(q, s, open, g);
    var m := Merge(q.judgement, Known(s)).value;
    var f := RaisedIsMerged(q, s, m, g);
    var n := MergedIsReported(q, s, f);
    UndemotedWasSeen(q, s, n, f);
  }

  lemma RaisedIsJudged(q: Request, s: LoopState, open: seq<Id>, g: Finding)
    requires GoodState(s, q.pr) && Decide(q, s, open).Some?
    requires g in Decide(q, s, open).value.findings && IsRaised(s, g)
    ensures Merge(q.judgement, Known(s)).Some?
    ensures g in JudgedFindings(q, s, NextStep(s), SameHead(q, s), Merge(q.judgement, Known(s)).value)
  {
    hide NextStep, Merge, GoodState, JudgedFindings, AccountingOf, Capped, MechanicalRecomputed;
    RecordedIsCapped(q, s, open);
    if WakesJudge(q, s) {
      JudgedNeedsMerge(q, s, open);
      FinishedJudgedPart(q, s, NextStep(s), SameHead(q, s), Merge(q.judgement, Known(s)).value, open, g);
    } else {
      UnjudgedPassRaisesNothing(q, s, open, g);
    }
  }

  lemma MergedIsReported(q: Request, s: LoopState, f: Finding) returns (n: nat)
    requires Merge(q.judgement, Known(s)).Some? && f in Merge(q.judgement, Known(s)).value.findings
    ensures Reports(q, s, n, f)
  {
    hide Heard;
    var v :| v in HeardAll(q, s) && f in v.findings;
    n := HeardIsReply(q, s, v);
  }

  /** In every run. */
  lemma OnlySeenBlocks(run: seq<Moment>, k: nat, v: Verdict, g: Finding)
    requires IsRun(run) && k < |run| && Appends(run[k], v)
    requires g in v.findings && IsRaised(run[k].state, g)
    ensures exists n: nat, f ::
      Says(run[k].event.q, n, f) && IsSaidAs(f, g) && (f.file == Description || HadInFront(run[k].event.q, n, f))
  {
    hide Decide, GoodState, Says, HadInFront, IsSaidAs, IsRaised;
    RecordedIsDecided(run, k, v);
    RaisedWasSeen(run[k].event.q, run[k].state, run[k].open, g);
  }
}
