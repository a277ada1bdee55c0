/** How long a recorded list may be (src/rail/reviewer/service.py, verdict.py). */
module LongLists {
  import opened Wrappers
  import opened Sequences
  import opened Findings
  import opened Carry
  import opened Rounds
  import opened Admission
  import opened Service
  import opened PassShape
  import opened Blockers
  import opened NewClaims
  import opened Runs
  import Receipt
  import opened ExamplePasses

  // ---------------------------------------------------------------- the cap

  function CountClosed(fs: seq<Finding>): nat {
    if fs == [] then 0 else (if IsClosed(fs[0]) then 1 else 0) + CountClosed(fs[1..])
  }

  lemma {:induction false} DropClosedLength(fs: seq<Finding>, k: nat)
    ensures |DropClosed(fs, k)| == |fs| - if k < CountClosed(fs) then k else CountClosed(fs)
    decreases |fs|
  {
    if fs != [] && k != 0 {
      DropClosedLength(fs[1..], if IsClosed(fs[0]) then k - 1 else k);
    }
  }

  /** Only the oldest closed findings go: behind them the list is untouched. */
  lemma {:induction false} DropsOldestFirst(a: seq<Finding>, b: seq<Finding>, k: nat)
    requires CountClosed(a) >= k
    ensures DropClosed(a + b, k) == DropClosed(a, k) + b
    decreases |a|
  {
    hide IsClosed;
    if k != 0 {
      var rest := if IsClosed(a[0]) then k - 1 else k;
      assert (a + b)[0] == a[0] && (a + b)[1..] == a[1..] + b;
      DropsOldestFirst(a[1..], b, rest);
      assert [a[0]] + DropClosed(a[1..], rest) + b == [a[0]] + (DropClosed(a[1..], rest) + b);
    }
  }

  predicate IsOpenFinding(f: Finding) {
    IsOpen(f.status)
  }

  function CountOpen(fs: seq<Finding>): nat {
    |Filter(IsOpenFinding, fs)|
  }

  lemma {:induction false} OpenAndClosed(fs: seq<Finding>)
    ensures CountOpen(fs) + CountClosed(fs) == |fs|
  {
    if fs != [] {
      OpenAndClosed(fs[1..]);
      assert fs == [fs[0]] + fs[1..];
      FilterConcat(IsOpenFinding, [fs[0]], fs[1..]);
      FilterSnoc(IsOpenFinding, [], fs[0]);
      assert [] + [fs[0]] == [fs[0]];
    }
  }

  /** A capped list is within the limit exactly when its open findings are. */
  lemma CappedIsWithinLimit(fs: seq<Finding>)
    ensures |Capped(fs)| <= 100 <==> CountOpen(fs) <= 100
    ensures |fs| <= 100 ==> Capped(fs) == fs
    ensures |fs| > 100 ==> |Capped(fs)| == if CountOpen(fs) > 100 then CountOpen(fs) else 100
  {
    OpenAndClosed(fs);
    DropClosedLength(fs, if |fs| > MAX_FINDINGS then |fs| - MAX_FINDINGS else 0);
  }

  lemma CountConcat(a: seq<Finding>, b: seq<Finding>)
    ensures CountOpen(a + b) == CountOpen(a) + CountOpen(b)
  {
    FilterConcat(IsOpenFinding, a, b);
  }

  lemma AllOpen(fs: seq<Finding>)
    requires forall k :: 0 <= k < |fs| ==> IsOpen(fs[k].status)
    ensures CountOpen(fs) == |fs|
  {
    FilterAll(IsOpenFinding, fs);
  }

  // ---------------------------------------------------------------- the merge

  /** A verdict that may speak: a kept reply's, after both filters. */
  ghost predicate IsHeardVerdict(j: Judgement, known: Locations, v: JudgeVerdict) {
    exists k :: 0 <= k < |j.replies| && HeardAt(j, known, k) == Some(v)
  }

  /** Every finding of the verdicts that may speak, once. */
  ghost function HeardFindings(j: Judgement, known: Locations): seq<Finding> {
    MergedFindings(HeardVerdicts(j, known, |j.replies|))
  }

  ghost predicate IsOnce(fs: seq<Finding>) {
    forall i, k :: 0 <= i < k < |fs| ==> fs[i] != fs[k]
  }

  lemma {:induction false} ExtendIsOnce(fs: seq<Finding>, more: seq<Finding>)
    requires IsOnce(fs)
    ensures IsOnce(Extend(fs, more))
    decreases |more|
  {
    if more != [] {
      ExtendIsOnce(if more[0] in fs then fs else fs + [more[0]], more[1..]);
    }
  }

  lemma {:induction false} MergedIsOnce(vs: seq<JudgeVerdict>)
    ensures IsOnce(MergedFindings(vs))
  {
    hide IsOnce, Extend;
    if vs == [] {
      NothingIsOnce();
    } else {
      MergedIsOnce(vs[..|vs| - 1]);
      ExtendIsOnce(MergedFindings(vs[..|vs| - 1]), vs[|vs| - 1].findings);
    }
  }

  lemma NothingIsOnce()
    ensures IsOnce([])
  {
  }

  lemma TailIsOnce(fs: seq<Finding>)
    requires IsOnce(fs) && fs != []
    ensures IsOnce(fs[1..]) && fs[0] !in fs[1..]
  {
  }

  lemma FirstIsOnce(f: Finding, fs: seq<Finding>)
    requires IsOnce(fs) && f !in fs
    ensures IsOnce([f] + fs)
  {
  }

  lemma {:induction false} DropIsOnce(fs: seq<Finding>, k: nat)
    requires IsOnce(fs)
    ensures IsOnce(DropClosed(fs, k))
    decreases |fs|
  {
    hide IsOnce, IsClosed;
    if fs != [] && k != 0 {
      TailIsOnce(fs);
      if IsClosed(fs[0]) {
        DropIsOnce(fs[1..], k - 1);
      } else {
        DropIsOnce(fs[1..], k);
        FirstIsOnce(fs[0], DropClosed(fs[1..], k));
      }
    }
  }

  /**
   * What the judges of a pass are merged into. There is a merge exactly when a reply may speak and
   * at most a hundred of the findings heard are open. It holds findings heard, each once, every
   * open one of them, and all of them when they are at most a hundred; of the answers heard to one
   * name, "still open" wins.
   */
  lemma MergeMeans(j: Judgement, known: Locations)
    ensures Merge(j, known).Some? <==>
      (exists v :: IsHeardVerdict(j, known, v)) && CountOpen(HeardFindings(j, known)) <= 100
    ensures forall f :: f in HeardFindings(j, known) <==> exists v :: IsHeardVerdict(j, known, v) && f in v.findings
    ensures Merge(j, known).Some? ==>
      var fs, answers := Merge(j, known).value.findings, Merge(j, known).value.answers;
      && IsOnce(fs) && (forall f :: f in fs ==> f in HeardFindings(j, known))
      && (forall f :: f in HeardFindings(j, known) && IsOpen(f.status) ==> f in fs)
      && (|HeardFindings(j, known)| <= 100 ==> fs == HeardFindings(j, known))
      && (forall x :: x in answers <==> exists v, a :: IsHeardVerdict(j, known, v) && a in v.previous && a.ref == x)
      && (forall x :: x in answers ==>
            (answers[x] == AnsweredOpen <==>
               exists v :: IsHeardVerdict(j, known, v) && Answer(x, AnsweredOpen) in v.previous))
  {
    hide Heard, MergedFindings, MergedAnswers, Capped, CountOpen, IsOnce;
    var vs := HeardVerdicts(j, known, |j.replies|);
    forall v ensures v in vs <==> IsHeardVerdict(j, known, v) {
    }
    HasMember(vs);
    var all := MergedFindings(vs);
    MergedIsOnce(vs);
    CappedIsOnce(all);
    CappedIsWithinLimit(all);
    if |all| <= MAX_FINDINGS {
      WithinTheLimit(all);
    }
  }

  lemma CappedIsOnce(fs: seq<Finding>)
    requires IsOnce(fs)
    ensures IsOnce(Capped(fs))
  {
    DropIsOnce(fs, if |fs| > MAX_FINDINGS then |fs| - MAX_FINDINGS else 0);
  }

  // ---------------------------------------------------------------- what stays open, by the inputs

  /** An earlier judged finding stays open, or opens again, in a pass that listens. */
  ghost predicate StaysOpen(q: Request, s: LoopState, f: Finding) {
    && f.id.Some? && f.status != Ruled && !DeferredByRuling(s, f)
    && if f.status == Fixed then MergedRepeats(q, s, f.id.value) else !SettledByJudges(q, s, f.id.value)
  }

  /** A gap on record is open after a pass. */
  ghost predicate GapStays(q: Request, s: LoopState, open: seq<Id>, f: Finding) {
    f.status != Ruled && !DeferredByRuling(s, f) && StillEarned(q, s, open, f)
  }

  /** A gap the description earns that is on no record. */
  predicate IsNewGap(s: LoopState, b: Finding) {
    b.title !in Titles(Filter(IsMechanical, s.findings))
  }

  /** How many findings are open after a pass that listens: the earlier ones that stay open, the
      new claims, and on code the gaps that stay and the new ones. */
  ghost function OpenAfter(q: Request, s: LoopState, open: seq<Id>): nat
    requires Merge(q.judgement, Known(s)).Some?
  {
    |Filter(f => StaysOpen(q, s, f), Earlier(s))|
    + |Filter(f => IsNewClaim(s, f), Merge(q.judgement, Known(s)).value.findings)|
    + (if q.artifact == Code then OpenGaps(q, s, open) else 0)
  }

  ghost function OpenGaps(q: Request, s: LoopState, open: seq<Id>): nat {
    |Filter(f => GapStays(q, s, open, f), Filter(IsMechanical, s.findings))|
    + |Filter(b => IsNewGap(s, b), Gaps(q, s, UsableAnswers(q, s), open))|
  }

  lemma FateStays(q: Request, s: LoopState, f: Finding)
    requires GoodState(s, q.pr) && WakesJudge(q, s) && Merge(q.judgement, Known(s)).Some? && f in Earlier(s)
    ensures var m := Merge(q.judgement, Known(s)).value;
      IsOpen(JudgedFate(f, s, NextStep(s), m.answers, Repeated(q, s, m)).status) <==> StaysOpen(q, s, f)
  {
    hide Merge, NextStep, Repeated, GoodState, SomeAnswers, WakesJudge, Known;
    var m := Merge(q.judgement, Known(s)).value;
    EarlierAreNumbered(s, q.pr);
    MergedAnswerMeans(q, s, f.id.value);
    RepeatedMeans(q, s, m, f.id.value);
  }

  lemma NewAreCounted(q: Request, s: LoopState, m: Merged)
    ensures |Unknown(Classified(m.findings, q.artifact), Ids(Earlier(s)))| ==
      |Filter(f => IsNewClaim(s, f), m.findings)|
  {
    hide Filter;
    var known := Ids(Earlier(s));
    FilterMatches((f: Finding) => f.id.None? || f.id.value !in known, Classified(m.findings, q.artifact),
                  (f: Finding) => IsNewClaim(s, f), m.findings);
  }

  lemma AssignedLength(q: Request, s: LoopState, m: Merged)
    requires GoodState(s, q.pr)
    ensures |Assigned(q, s, m)| == |Earlier(s)| + |Unknown(Classified(m.findings, q.artifact), Ids(Earlier(s)))|
  {
    hide Unknown, Classified, GoodState, Earlier;
    EarlierAreNumbered(s, q.pr);
    AssignedIs(q, s, m);
    AssignParts(Classified(m.findings, q.artifact), m.answers, Earlier(s), q.pr, q.artifact, s.highest);
  }

  lemma JudgedLength(q: Request, s: LoopState, m: Merged)
    ensures |JudgedFindings(q, s, NextStep(s), SameHead(q, s), m)| == |Assigned(q, s, m)|
  {
    hide Assigned, NextStep;
  }

  /** The open findings among those judges speak of. */
  lemma JudgedOpen(q: Request, s: LoopState)
    requires GoodState(s, q.pr) && WakesJudge(q, s) && Merge(q.judgement, Known(s)).Some?
    ensures var m := Merge(q.judgement, Known(s)).value;
      CountOpen(JudgedFindings(q, s, NextStep(s), SameHead(q, s), m)) ==
        |Filter(f => StaysOpen(q, s, f), Earlier(s))| + |Filter(f => IsNewClaim(s, f), m.findings)|
  {
    hide Merge, Filter, JudgedFindings, JudgedFate, StaysOpen, Assigned, GoodState, NextStep, SameHead, Earlier, Known,
      WakesJudge, CountOpen, Repeated;
    var m, e := Merge(q.judgement, Known(s)).value, Earlier(s);
    var r := JudgedFindings(q, s, NextStep(s), SameHead(q, s), m);
    JudgedShape(q, s, NextStep(s), SameHead(q, s), m);
    AssignedLength(q, s, m);
    JudgedLength(q, s, m);
    NewAreCounted(q, s, m);
    var kept, added := r[..|e|], r[|e|..];
    assert r == kept + added;
    CountConcat(kept, added);
    AllOpen(added);
    forall k | 0 <= k < |e| ensures IsOpenFinding(kept[k]) == StaysOpen(q, s, e[k]) {
      FateStays(q, s, e[k]);
    }
    CountIs(kept);
    FilterMatches(IsOpenFinding, kept, f => StaysOpen(q, s, f), e);
  }

  lemma CountIs(fs: seq<Finding>)
    ensures CountOpen(fs) == |Filter(IsOpenFinding, fs)|
  {
  }

  // ---------------------------------------------------------------- the gaps

  lemma KeptOpen(q: Request, s: LoopState, open: seq<Id>)
    ensures CountOpen(Kept(MechanicalOnRecord(s, NextStep(s)), Gaps(q, s, UsableAnswers(q, s), open))) ==
      |Filter(f => GapStays(q, s, open, f), Filter(IsMechanical, s.findings))|
  {
    hide Gaps, UsableAnswers, NextStep, Filter, CountOpen;
    var onRecord, current := Filter(IsMechanical, s.findings), Gaps(q, s, UsableAnswers(q, s), open);
    var kept := Kept(MechanicalOnRecord(s, NextStep(s)), current);
    CountIs(kept);
    FilterMatches(IsOpenFinding, kept, f => GapStays(q, s, open, f), onRecord);
  }

  lemma SameTitles(s: LoopState, step: Step)
    ensures Titles(MechanicalOnRecord(s, step)) == Titles(Filter(IsMechanical, s.findings))
  {
    var onRecord := Filter(IsMechanical, s.findings);
    if step == Closing {
      var ruled := ApplyRulings(onRecord, s.rulings);
      forall t ensures t in Titles(ruled) <==> t in Titles(onRecord) {
        if f :| f in ruled && f.title == t {
          var k :| 0 <= k < |ruled| && ruled[k] == f;
          assert onRecord[k] in onRecord;
        }
        if f :| f in onRecord && f.title == t {
          AppliedHolds(onRecord, s.rulings, f);
        }
      }
    }
  }

  lemma UnseenCount(s: LoopState, step: Step, current: seq<Finding>)
    ensures |Unseen(MechanicalOnRecord(s, step), current)| == |Filter(b => IsNewGap(s, b), current)|
  {
    hide Filter, Titles;
    SameTitles(s, step);
    var seen := Titles(MechanicalOnRecord(s, step));
    FilterMatches((b: Finding) => b.title !in seen, current, (b: Finding) => IsNewGap(s, b), current);
  }

  lemma AppendedOpen(findings: seq<Finding>, extra: seq<Finding>, pr: nat, artifact: Artifact, floor: nat)
    ensures CountOpen(AppendNew(findings, extra, pr, artifact, floor)) == CountOpen(findings) + |extra|
  {
    hide CountOpen;
    var more := Numbered(extra, Max(Highest(findings), floor), pr, artifact);
    CountConcat(findings, more);
    AllOpen(more);
  }

  /** The open findings of the whole list, by the pass's inputs. */
  lemma FinishedOpen(q: Request, s: LoopState, open: seq<Id>)
    requires GoodState(s, q.pr) && WakesJudge(q, s) && Merge(q.judgement, Known(s)).Some?
    ensures CountOpen(FinishedFindings(q, s, NextStep(s), SameHead(q, s), Merge(q.judgement, Known(s)).value, open))
      == OpenAfter(q, s, open)
  {
    hide Merge, JudgedFindings, Kept, Unseen, AppendNew, Gaps, GoodState, NextStep, SameHead, WakesJudge, Known,
      CountOpen, MechanicalOnRecord, StaysOpen, GapStays, IsNewClaim, IsNewGap, Filter, Earlier;
    var m := Merge(q.judgement, Known(s)).value;
    var judged := JudgedFindings(q, s, NextStep(s), SameHead(q, s), m);
    JudgedOpen(q, s);
    if q.artifact == Code {
      var onRecord, current := MechanicalOnRecord(s, NextStep(s)), Gaps(q, s, m.answers, open);
      KeptOpen(q, s, open);
      CountConcat(judged, Kept(onRecord, current));
      UnseenCount(s, NextStep(s), current);
      AppendedOpen(judged + Kept(onRecord, current), Unseen(onRecord, current), q.pr, q.artifact, s.highest);
    }
  }

  // ---------------------------------------------------------------- validation, and the receipt

  /** The verdict is recorded: the pass decides one, and its receipt fits beside `meta` bytes. */
  ghost predicate IsPublished(q: Request, s: LoopState, open: seq<Id>, meta: nat) {
    Decide(q, s, open).Some? && Receipt.MinimalFits(meta, [], Decide(q, s, open).value.findings)
  }

  /**
   * Nothing checks the length of a judged pass's list: it passes the limit exactly when more than
   * a hundred findings are open after the pass, and such a list is recorded exactly when, besides,
   * its minimal receipt fits.
   */
  lemma LongListsPassValidation(q: Request, s: LoopState, open: seq<Id>, meta: nat)
    requires GoodState(s, q.pr) && WakesJudge(q, s)
    ensures Decide(q, s, open).Some? <==> Merge(q.judgement, Known(s)).Some?
    ensures Decide(q, s, open).Some? ==>
      var fs := Decide(q, s, open).value.findings;
      && (|fs| > 100 <==> OpenAfter(q, s, open) > 100)
      && (IsPublished(q, s, open, meta) && |fs| > 100 <==>
            OpenAfter(q, s, open) > 100 && Receipt.MinimalFits(meta, [], fs))
  {
    JudgedDecides(q, s, open);
    hide Merge, FinishedFindings, Capped, CountOpen, NextStep, Decide, GoodState, WakesJudge, Known, OpenAfter,
      Receipt.MinimalFits;
    if Merge(q.judgement, Known(s)).Some? {
      FinishedOpen(q, s, open);
      var m := Merge(q.judgement, Known(s)).value;
      CappedIsWithinLimit(FinishedFindings(q, s, NextStep(s), SameHead(q, s), m, open));
    }
  }

  lemma JudgedDecides(q: Request, s: LoopState, open: seq<Id>)
    requires WakesJudge(q, s)
    ensures Decide(q, s, open).Some? <==> Merge(q.judgement, Known(s)).Some?
    ensures Decide(q, s, open).Some? ==>
      var m := Merge(q.judgement, Known(s)).value;
      Decide(q, s, open).value.findings == Capped(FinishedFindings(q, s, NextStep(s), SameHead(q, s), m, open))
  {
    hide Merge, FinishedFindings, Capped, AccountingOf, NextStep, LocationsOf, Filter;
  }

  /** A pass that wakes no judge validates its list: it decides nothing exactly when more than a
      hundred findings are open in it. */
  lemma ShortListsOnly(q: Request, s: LoopState, open: seq<Id>)
    requires !WakesJudge(q, s)
    ensures Decide(q, s, open).Some? <==> CountOpen(Uncapped(q, s, open)) <= 100
    ensures Decide(q, s, open).Some? ==> |Decide(q, s, open).value.findings| <= 100
  {
    hide Merge, MechanicalRecomputed, Capped, AccountingOf, NextStep, CountOpen;
    CappedIsWithinLimit(Uncapped(q, s, open));
  }

  // ---------------------------------------------------------------- a hundred and one

  const OPEN_FINDINGS := 100

  function Claim(n: nat): Finding {
    Finding(Blocking, Path("f"), Some(n + 1), Said("t"), "e", None, None, New)
  }

  /** A hundred claims, each about a line of its own. */
  function Claims(): (fs: seq<Finding>)
    ensures |fs| == OPEN_FINDINGS && forall n :: 0 <= n < |fs| ==> fs[n] == Claim(n)
  {
    seq(OPEN_FINDINGS, n requires 0 <= n < OPEN_FINDINGS => Claim(n))
  }

  /** A second round on a pull request with a hundred open findings. */
  ghost predicate IsCrowded(s: LoopState) {
    && s.findings == RecordsOf(Claims(), 1) && s.rulings == map[] && !s.awaiting
    && s.hasFindingsList && s.judged == 1 && s.highest == OPEN_FINDINGS
  }

  lemma CrowdedFinding(n: nat)
    requires n < OPEN_FINDINGS
    ensures RecordsOf(Claims(), 1)[n] == Claim(n).(id := Some(Id(1, n + 1)), klass := Some(Blocker))
  {
  }

  lemma CrowdedIsGood(s: LoopState)
    requires IsCrowded(s)
    ensures GoodState(s, 1)
  {
    forall n | 0 <= n < OPEN_FINDINGS ensures IsRecorded(s.findings[n], 1) && s.findings[n].id == Some(Id(1, n + 1)) {
      CrowdedFinding(n);
    }
    assert forall f :: f in s.findings ==> exists n :: 0 <= n < OPEN_FINDINGS && s.findings[n] == f;
  }

  lemma CrowdedEarlier(s: LoopState)
    requires IsCrowded(s)
    ensures Earlier(s) == s.findings
  {
    forall f | f in s.findings ensures IsJudged(f) {
      var n :| 0 <= n < OPEN_FINDINGS && s.findings[n] == f;
      CrowdedFinding(n);
    }
    FilterAll(IsJudged, s.findings);
  }

  /** One reply, and in it one claim no earlier finding is. */
  ghost predicate IsOneMore(q: Request) {
    q == PassOf(1, q.sha, SpecPlan, [Claim(OPEN_FINDINGS)], q.readAt, q.at)
  }

  lemma OneIsClaims(f: Finding)
    requires IsClaim(f)
    ensures AreClaims([f])
  {
  }

  lemma CrowdedMerge(q: Request, s: LoopState)
    requires IsCrowded(s) && IsOneMore(q)
    ensures NextStep(s) == JudgedRound(2) && WakesJudge(q, s)
    ensures Merge(q.judgement, Known(s)) == Some(Merged([Claim(OPEN_FINDINGS)], map[]))
  {
    hide Merge, Known, AreClaims;
    OneIsClaims(Claim(OPEN_FINDINGS));
    ClaimsMerge([Claim(OPEN_FINDINGS)], Known(s));
  }

  /** The list after such a pass: 101 findings, all of them open and in plain text. */
  ghost function CrowdedList(s: LoopState): seq<Finding> {
    AnsweredAll(s.findings, map[], {}) + Numbered([Claim(OPEN_FINDINGS)], OPEN_FINDINGS, 1, SpecPlan)
  }

  /** The hundred stay open, and the new claim makes one more. */
  lemma CrowdedFinish(q: Request, s: LoopState)
    requires IsCrowded(s) && IsOneMore(q)
    ensures FinishedFindings(q, s, JudgedRound(2), SameHead(q, s), Merged([Claim(OPEN_FINDINGS)], map[]), [])
         == CrowdedList(s)
  {
    hide Assigned, AnsweredAll, Numbered, GoodState, SameHead, AreClaims, RecordsOf, Claims, Fresh;
    CrowdedIsGood(s);
    EarlierAreNumbered(s, 1);
    CrowdedEarlier(s);
    OneIsClaims(Claim(OPEN_FINDINGS));
    ClaimsAssigned(q, s, [Claim(OPEN_FINDINGS)], map[]);
  }

  lemma CrowdedListMeans(s: LoopState)
    requires IsCrowded(s)
    ensures |CrowdedList(s)| == OPEN_FINDINGS + 1
    ensures forall n :: 0 <= n <= OPEN_FINDINGS ==>
      CrowdedList(s)[n] == Claim(n).(id := Some(Id(1, n + 1)), klass := Some(Blocker),
                                     status := if n < OPEN_FINDINGS then StillOpen else New)
  {
    forall n | 0 <= n < OPEN_FINDINGS
      ensures CrowdedList(s)[n] == Claim(n).(id := Some(Id(1, n + 1)), klass := Some(Blocker), status := StillOpen)
    {
      CrowdedFinding(n);
    }
  }

  lemma CrowdedListIsPlain(s: LoopState, n: nat)
    requires IsCrowded(s) && n <= OPEN_FINDINGS
    ensures |CrowdedList(s)| == OPEN_FINDINGS + 1
    ensures IsOpen(CrowdedList(s)[n].status) && Receipt.IsPlainFinding(CrowdedList(s)[n])
  {
    CrowdedListMeans(s);
  }

  /**
   * A pass that records more than a hundred findings: a hundred open ones on record, one new
   * claim, and a receipt with room for them.
   */
  lemma OneMoreThanAHundred(q: Request, s: LoopState, meta: nat)
    requires IsCrowded(s) && IsOneMore(q) && meta <= 13_233
    ensures GoodState(s, 1) && IsPublished(q, s, [], meta)
    ensures |Decide(q, s, []).value.findings| == OPEN_FINDINGS + 1 > MAX_FINDINGS
  {
    hide Merge, FinishedFindings, Capped, CountOpen, CountClosed, NextStep, Decide, GoodState, WakesJudge, Known,
      CrowdedList, Receipt.FindingsSize, Receipt.NamesSize, Receipt.Minimal, Receipt.IsPlainFinding, IsCrowded,
      SameHead;
    var fs := CrowdedList(s);
    CrowdedIsGood(s);
    CrowdedMerge(q, s);
    CrowdedFinish(q, s);
    JudgedDecides(q, s, []);
    forall n | 0 <= n < |fs| ensures IsOpen(fs[n].status) && Receipt.IsPlainFinding(fs[n]) {
      CrowdedListSize(s);
      CrowdedListIsPlain(s, n);
    }
    CrowdedListSize(s);
    AllOpen(fs);
    OpenAndClosed(fs);
    NothingToDrop(fs);
    Receipt.PlainListSize(fs);
    Receipt.NoNames();
  }

  lemma CrowdedListSize(s: LoopState)
    requires IsCrowded(s)
    ensures |CrowdedList(s)| == OPEN_FINDINGS + 1
  {
  }

  lemma NothingToDrop(fs: seq<Finding>)
    requires CountClosed(fs) == 0
    ensures Capped(fs) == fs
  {
    hide IsClosed;
    NothingClosed(fs, if |fs| > MAX_FINDINGS then |fs| - MAX_FINDINGS else 0);
  }

  lemma {:induction false} NothingClosed(fs: seq<Finding>, k: nat)
    requires CountClosed(fs) == 0
    ensures DropClosed(fs, k) == fs
    decreases |fs|
  {
    if fs != [] && k != 0 {
      NothingClosed(fs[1..], k);
    }
  }

  // ---------------------------------------------------------------- a run that gets there

  function FirstQ(): Request { PassOf(1, "h1", SpecPlan, Claims(), 1, 2) }
  function SecondQ(): Request { PassOf(1, "h2", SpecPlan, [Claim(OPEN_FINDINGS)], 3, 4) }
  function FirstV(): Verdict { ClaimVerdict(FirstQ(), 1, Claims()) }
  function FirstWorld(): World { World([FirstV()], []) }

  lemma ClaimsAreClaims()
    ensures AreClaims(Claims())
  {
  }

  lemma FirstPass()
    ensures Review(FirstQ(), [], []) == Some(FirstV())
  {
    hide StateFor, Decide, RulingsBefore, Claims, ClaimVerdict;
    NothingRead([], FirstQ());
    QuietState([], [], REPO, 1);
    ClaimsAreClaims();
    ClaimPass(FirstQ(), StateFor([], [], REPO, 1), Claims());
  }

  lemma FirstHighest()
    ensures HighestOf([FirstV()]) == OPEN_FINDINGS
  {
    var fs := FirstV().findings;
    forall f | f in fs ensures f.id.Some? && f.id.value.n <= OPEN_FINDINGS {
      var n :| 0 <= n < OPEN_FINDINGS && fs[n] == f;
      CrowdedFinding(n);
    }
    CrowdedFinding(OPEN_FINDINGS - 1);
    assert FirstV() in [FirstV()] && fs[OPEN_FINDINGS - 1] in fs;
  }

  lemma FirstState()
    ensures IsCrowded(StateFor([FirstV()], [], REPO, 1))
  {
    hide RecordsOf, Claims, HighestOf, Approves;
    OwnState([FirstV()], [], REPO, 1);
    FirstHighest();
  }

  ghost function SecondV(): Verdict {
    var v := Decide(SecondQ(), StateRead(FirstWorld(), SecondQ()), []);
    if v.Some? then v.value else FirstV()
  }

  ghost function SecondWorld(): World { World([FirstV(), SecondV()], []) }

  ghost function PassMoment(w: World, q: Request, after: World): Moment {
    Moment(w, Event.Pass(q), StateRead(w, q), OpenRead(w, q), after)
  }

  /** The two passes. */
  ghost function CrowdedRun(): (run: seq<Moment>)
    ensures |run| == 2
  {
    [PassMoment(World([], []), FirstQ(), FirstWorld()), PassMoment(FirstWorld(), SecondQ(), SecondWorld())]
  }

  lemma SecondState()
    ensures StateRead(FirstWorld(), SecondQ()) == StateFor([FirstV()], [], REPO, 1)
    ensures IsCrowded(StateRead(FirstWorld(), SecondQ())) && IsOneMore(SecondQ())
    ensures OpenRead(FirstWorld(), SecondQ()) == []
  {
    hide StateFor, IsCrowded, FirstV;
    NothingRead([FirstV()], SecondQ());
    FirstState();
  }

  lemma SecondPass(meta: nat)
    requires meta <= 13_233
    ensures IsPublished(SecondQ(), StateRead(FirstWorld(), SecondQ()), [], meta)
    ensures Decide(SecondQ(), StateRead(FirstWorld(), SecondQ()), []) == Some(SecondV())
    ensures |SecondV().findings| > MAX_FINDINGS
  {
    hide StateRead, Decide, IsCrowded, IsOneMore, FirstV, IsPublished;
    SecondState();
    OneMoreThanAHundred(SecondQ(), StateRead(FirstWorld(), SecondQ()), meta);
    PublishedIsDecided(SecondQ(), StateRead(FirstWorld(), SecondQ()), [], meta);
  }

  lemma PublishedIsDecided(q: Request, s: LoopState, open: seq<Id>, meta: nat)
    requires IsPublished(q, s, open, meta)
    ensures Decide(q, s, open).Some?
  {
    hide Decide;
  }

  lemma BothHappen()
    requires Decide(SecondQ(), StateRead(FirstWorld(), SecondQ()), []) == Some(SecondV())
    ensures Happens(PassMoment(World([], []), FirstQ(), FirstWorld()))
    ensures Happens(PassMoment(FirstWorld(), SecondQ(), SecondWorld()))
  {
    hide StateFor, Decide, FirstV, SecondV, Enabled, Next, IsCrowded, Review, StateRead, OpenRead;
    FirstPass();
    FirstAt();
    SecondReview();
    FirstHappens();
    SecondHappens();
  }

  lemma FirstHappens()
    requires Review(FirstQ(), [], []) == Some(FirstV())
    ensures var w, e := World([], []), Event.Pass(FirstQ()); Enabled(w, e) && Next(w, e) == FirstWorld()
  {
    hide Review, FirstV, StateRead, OpenRead;
    PassHappens(World([], []), FirstQ(), FirstV());
  }

  lemma SecondReview()
    requires Decide(SecondQ(), StateRead(FirstWorld(), SecondQ()), []) == Some(SecondV())
    ensures Review(SecondQ(), [FirstV()], []) == Some(SecondV())
  {
    hide StateFor, Decide, FirstV, SecondV, IsCrowded;
    SecondState();
  }

  lemma SecondHappens()
    requires Review(SecondQ(), [FirstV()], []) == Some(SecondV())
    requires FirstV().at == 2 && FirstV().sha == "h1"
    ensures var w, e := FirstWorld(), Event.Pass(SecondQ()); Enabled(w, e) && Next(w, e) == SecondWorld()
  {
    hide Review, FirstV, SecondV, StateRead, OpenRead;
    PassHappens(FirstWorld(), SecondQ(), SecondV());
    assert [FirstV()] + [SecondV()] == [FirstV(), SecondV()];
  }

  lemma FirstAt()
    ensures FirstV().at == 2 && FirstV().sha == "h1"
  {
  }

  /** In two passes a pull request gets a recorded list of more than a hundred findings. */
  lemma ARunOfLongLists(meta: nat)
    requires meta <= 13_233
    ensures IsRun(CrowdedRun())
    ensures var m := CrowdedRun()[1];
      Appends(m, SecondV()) && |SecondV().findings| > MAX_FINDINGS && IsPublished(m.event.q, m.state, m.open, meta)
  {
    hide StateFor, Decide, Happens, FirstV, SecondV, StateRead, OpenRead, IsPublished, IsCrowded;
    SecondState();
    SecondPass(meta);
    BothHappen();
    assert [FirstV()] + [SecondV()] == [FirstV(), SecondV()];
  }
}
