/** A run that lists a carry-forward both as addressed and as deferred. */
module TwiceListed {
  import opened Wrappers
  import opened Sequences
  import opened Findings
  import opened Carry
  import opened Rounds
  import opened Admission
  import opened Service
  import opened Runs
  import opened ExamplePasses
  import opened Exceptions
  import Start = CarriedRace

  /** A pass on the code pull request, whose description claims the carry-forward throughout. */
  function CodePass(sha: string, findings: seq<Finding>, answers: seq<Answer>, readAt: int, at: int): Request {
    Request(REPO, 2, sha, at, Code, map[CF_ID := Addressed], None, map["f" := {1}], JudgedWith(findings, answers),
            readAt, at)
  }

  /** Round 2 raises a blocker and says the carry-forward is fixed. */
  function Q2(): Request { CodePass("h3", [Raised()], [Answer(CF(CF_ID), AnsweredFixed)], 5, 6) }

  /** Round 3 says the blocker is fixed, and the carry-forward open after all. */
  function Q3(): Request {
    CodePass("h4", [], [Answer(F(Id(2, 1)), AnsweredFixed), Answer(CF(CF_ID), AnsweredOpen)], 7, 8)
  }

  /** The operator defers the gap, and a closure on the same head applies the ruling. */
  function TheRuling(): Ruling { Ruling(REPO, 2, Id(2, 2), RuledCarryForward, 9) }
  function Q5(): Request { CodePass("h4", [], [], 10, 11) }

  function OpenClaim(): Finding { ClosedClaim().(status := New) }

  function V0(): Verdict { Start.CodeV() }
  function V1(): Verdict { Start.PlanV() }
  function V2(): Verdict {
    Verdict(REPO, 2, "h3", 6, Round(2), Code, false, [OpenClaim()], Some(CarryForwards([CF_ID], [])), None, 6, 5)
  }
  function V3(): Verdict {
    Verdict(REPO, 2, "h4", 8, Round(3), Code, false, [ClosedClaim(), OpenGap(2)], Some(CarryForwards([], [])), None,
            8, 7)
  }

  // ---------------------------------------------------------------- what each pass reads

  /** The plan's carry-forward is the one open, whatever the rejected code verdicts hold. */
  lemma OnlyHandedOn(vs: seq<Verdict>, rs: seq<Ruling>)
    requires V1() in vs && forall v :: v in vs ==> v == V0() || v == V1() || !v.approve
    requires forall r :: r in rs ==> r.finding.pr == 2
    ensures OpenList(vs, rs, REPO, Some(2)) == [CF_ID]
  {
    hide Start.CodeV, Start.PlanV, OpenList;
    Start.VerdictsAre();
    var f := Fresh(Start.HandedOn(), CF_ID, SpecPlan);
    assert f in V1().findings;
    forall i ensures IsOpenCarryForward(vs, rs, REPO, Some(2), i) <==> i == CF_ID {
    }
    SortedListUnique(OpenList(vs, rs, REPO, Some(2)), [CF_ID]);
  }

  lemma OwnVerdicts()
    ensures VerdictsOf([V0(), V1()], REPO, 2) == [V0()]
    ensures VerdictsOf([V0(), V1(), V2()], REPO, 2) == [V0(), V2()]
    ensures VerdictsOf([V0(), V1(), V2(), V3()], REPO, 2) == [V0(), V2(), V3()]
  {
    hide Start.CodeV, Start.PlanV, Filter;
    Start.VerdictsAre();
    var p := (v: Verdict) => v.repo == REPO && v.pr == 2;
    OwnIs();
    FilterSnoc(p, [V0()], V1());
    assert [V0()] + [V1()] == [V0(), V1()];
    FilterSnoc(p, [V0(), V1()], V2());
    assert [V0(), V1()] + [V2()] == [V0(), V1(), V2()] && [V0()] + [V2()] == [V0(), V2()];
    FilterSnoc(p, [V0(), V1(), V2()], V3());
    assert [V0(), V1(), V2()] + [V3()] == [V0(), V1(), V2(), V3()] && [V0(), V2()] + [V3()] == [V0(), V2(), V3()];
  }

  lemma OwnIs()
    ensures Filter((v: Verdict) => v.repo == REPO && v.pr == 2, [V0()]) == [V0()]
  {
    hide Start.CodeV;
    Start.VerdictsAre();
    FilterAll((v: Verdict) => v.repo == REPO && v.pr == 2, [V0()]);
  }

  lemma NoRulings()
    ensures RulingsOf([], REPO, 2) == [] && RulingsOf([TheRuling()], REPO, 2) == [TheRuling()]
  {
    FilterAll((r: Ruling) => r.repo == REPO && r.pr == 2, [TheRuling()]);
  }

  lemma SecondState()
    ensures var s := StateFor([V0(), V1()], [], REPO, 2);
      s.findings == [] && s.judged == 1 && s.highest == 0 && !s.awaiting && s.rulings == map[]
  {
    hide Start.CodeV, Start.PlanV, VerdictsOf, StateFor;
    Start.VerdictsAre();
    OwnVerdicts();
    NoRulings();
    MixedState([V0(), V1()], [V0()], [], REPO, 2);
    FirstOnly(V0());
  }

  lemma FirstOnly(v: Verdict)
    requires SpendsRound(v) && v.findings == []
    ensures var s := StateFrom([v], [v], 1, []);
      s.findings == [] && s.judged == 1 && s.highest == 0 && !s.awaiting && s.rulings == map[]
  {
  }

  lemma ThirdState()
    ensures var s := StateFor([V0(), V1(), V2()], [], REPO, 2);
      && s.findings == [OpenClaim()] && s.judged == 2 && s.highest == 1 && !s.awaiting && s.rulings == map[]
      && s.confirmed == {CF_ID}
  {
    hide Start.CodeV, Start.PlanV, VerdictsOf, StateFor;
    Start.VerdictsAre();
    OwnVerdicts();
    NoRulings();
    MixedState([V0(), V1(), V2()], [V0(), V2()], [], REPO, 2);
    TwoRounds(V0());
  }

  lemma TwoRounds(v: Verdict)
    requires SpendsRound(v) && v.findings == [] && Accounted(v) == CarryForwards([], [])
    ensures var s := StateFrom([v, V2()], [v, V2()], 2, []);
      && s.findings == [OpenClaim()] && s.judged == 2 && s.highest == 1 && !s.awaiting && s.rulings == map[]
      && s.confirmed == {CF_ID}
  {
    assert V2() in [v, V2()] && OpenClaim() in V2().findings;
    assert V2().findings[..0] == [];
  }

  lemma LastState(rs: seq<Ruling>)
    requires rs == [] || rs == [TheRuling()]
    ensures var s := StateFor([V0(), V1(), V2(), V3()], rs, REPO, 2);
      && s.findings == [ClosedClaim(), OpenGap(2)] && s.awaiting && s.hasFindingsList && s.highest == 2
      && s.confirmed == {CF_ID} && s.lastJudged == Some(V3())
      && s.rulings == if rs == [] then map[] else map[Id(2, 2) := TheRuling()]
  {
    hide Start.CodeV, Start.PlanV, VerdictsOf, StateFor;
    Start.VerdictsAre();
    OwnVerdicts();
    NoRulings();
    MixedState([V0(), V1(), V2(), V3()], [V0(), V2(), V3()], rs, REPO, 2);
    ThreeRounds(V0(), rs);
  }

  lemma ThreeRounds(v: Verdict, rs: seq<Ruling>)
    requires SpendsRound(v) && v.findings == [] && Accounted(v) == CarryForwards([], [])
    requires rs == [] || rs == [TheRuling()]
    ensures var vs := [v, V2(), V3()];
      var s := StateFrom(vs, vs, 3, rs);
      && s.findings == [ClosedClaim(), OpenGap(2)] && s.awaiting && s.hasFindingsList && s.highest == 2
      && s.confirmed == {CF_ID} && s.lastJudged == Some(V3())
      && s.rulings == if rs == [] then map[] else map[Id(2, 2) := TheRuling()]
  {
    hide ConfirmedBy, HighestOf, JudgedAt, Approves, RuledAfter;
    var vs := [v, V2(), V3()];
    RoundsConfirm(v);
    RoundsHighest(v);
    RoundsJudgedAt(v);
    GapIsOpen();
    RulingHolds(rs);
  }

  lemma RoundsConfirm(v: Verdict)
    requires Accounted(v) == CarryForwards([], [])
    ensures ConfirmedBy([v, V2(), V3()]) == {CF_ID}
  {
    assert V2() in [v, V2(), V3()];
  }

  lemma RoundsHighest(v: Verdict)
    requires v.findings == []
    ensures HighestOf([v, V2(), V3()]) == 2
  {
    var vs := [v, V2(), V3()];
    assert vs[2] in vs && V3().findings[1] in V3().findings && V3().findings[1].id == Some(Id(2, 2));
    forall u, f | u in vs && f in u.findings && f.id.Some? ensures f.id.value.n <= 2 {
    }
  }

  lemma RoundsJudgedAt(v: Verdict)
    ensures JudgedAt([v, V2(), V3()]) == Some(8)
  {
    OwnOrigin(V3(), [v, V2(), V3()][..2]);
  }

  lemma GapIsOpen()
    ensures OpenBlocker(OpenGap(2)) && OpenGap(2) in [ClosedClaim(), OpenGap(2)]
    ensures !Approves([ClosedClaim(), OpenGap(2)])
  {
    assert [ClosedClaim(), OpenGap(2)][1] == OpenGap(2);
  }

  lemma RulingHolds(rs: seq<Ruling>)
    requires rs == [] || rs == [TheRuling()]
    ensures RuledAfter(rs, Some(8)) == if rs == [] then map[] else map[Id(2, 2) := TheRuling()]
  {
    assert [TheRuling()][..0] == [];
  }

  // ---------------------------------------------------------------- round 2

  function SaidFixed(): map<Ref, AnswerStatus> { map[CF(CF_ID) := AnsweredFixed] }

  lemma SecondMerge()
    ensures Merge(Q2().judgement, LocationsOf([])) == Some(Merged([Raised()], SaidFixed()))
  {
    hide Merge, Fold;
    ToldMerge([Raised()], [Answer(CF(CF_ID), AnsweredFixed)], LocationsOf([]));
    FoldOne(Answer(CF(CF_ID), AnsweredFixed));
  }

  lemma FoldOne(a: Answer)
    ensures Fold(map[], [a]) == map[a.ref := a.status]
  {
    assert [a][..0] == [];
  }

  lemma SecondJudged(s: LoopState, sameHead: bool)
    requires s.findings == [] && s.highest == 0
    ensures JudgedFindings(Q2(), s, JudgedRound(2), sameHead, Merged([Raised()], SaidFixed())) == [OpenClaim()]
  {
    hide Assigned, Numbered, AnsweredAll;
    NoneEarlier(s);
    ClaimsAssigned(Q2(), s, [Raised()], SaidFixed());
    FirstNumber();
  }

  lemma FirstNumber()
    ensures AnsweredAll([], SaidFixed(), {}) + Numbered([Raised()], 0, 2, Code) == [OpenClaim()]
  {
  }

  lemma NothingMechanical(q: Request, s: LoopState, step: Step)
    requires q.artifact == Code && step != Closing && Filter(IsMechanical, s.findings) == []
    ensures MechanicalOnRecord(s, step) == []
  {
  }

  lemma NothingDeferred(fs: seq<Finding>)
    requires forall f :: f in fs ==> !IsRuledGap(f)
    ensures DeferredIds([CF_ID], map[CF_ID := Addressed], fs) == []
  {
    HasMember(DeferredIds([CF_ID], map[CF_ID := Addressed], fs));
  }

  lemma ConfirmedIsAll(q: Request, s: LoopState, answers: map<Ref, AnswerStatus>)
    requires q.section == map[CF_ID := Addressed]
    ensures Confirmed(q, s, answers, [CF_ID]) == if IsConfirmed(s, CF_ID, answers) then [CF_ID] else []
  {
    hide IsConfirmed;
    assert [CF_ID][..0] == [];
    assert Claimed([CF_ID], q.section) == [CF_ID];
  }

  lemma SecondFinish(s: LoopState, sameHead: bool)
    requires s.findings == [] && s.highest == 0
    ensures var m := Merged([Raised()], SaidFixed());
      && FinishedFindings(Q2(), s, JudgedRound(2), sameHead, m, [CF_ID]) == [OpenClaim()]
      && AccountingOf(Q2(), s, SaidFixed(), [CF_ID], [OpenClaim()]) == Some(CarryForwards([CF_ID], []))
  {
    hide JudgedFindings, Gaps, MechanicalOnRecord, Confirmed, DeferredIds;
    SecondJudged(s, sameHead);
    NothingMechanical(Q2(), s, JudgedRound(2));
    ConfirmedEarnsNoGap(Q2(), s, SaidFixed());
    ConfirmedIsAll(Q2(), s, SaidFixed());
    NothingDeferred([OpenClaim()]);
    NothingMore([OpenClaim()]);
  }

  lemma NothingMore(fs: seq<Finding>)
    ensures WithMechanical(fs, [], [], 2, Code, 0) == fs
  {
    hide Highest, Max;
    assert Kept([], []) == [] && Unseen([], []) == [];
  }

  lemma SecondPass(s: LoopState)
    requires s.findings == [] && s.judged == 1 && s.highest == 0 && !s.awaiting
    ensures Decide(Q2(), s, [CF_ID]) == Some(V2())
  {
    hide Merge, FinishedFindings, AccountingOf, LocationsOf, Capped, Approves;
    assert Filter(IsJudged, s.findings) == [];
    SecondMerge();
    SecondFinish(s, SameHead(Q2(), s));
    WithinTheLimit([OpenClaim()]);
    ClaimBlocks();
  }

  lemma ClaimBlocks()
    ensures !Approves([OpenClaim()])
  {
    assert OpenClaim() in [OpenClaim()] && OpenBlocker(OpenClaim());
  }

  // ---------------------------------------------------------------- round 3

  function SaidOpen(): map<Ref, AnswerStatus> {
    map[F(Id(2, 1)) := AnsweredFixed, CF(CF_ID) := AnsweredOpen]
  }

  lemma ThirdMerge()
    ensures Merge(Q3().judgement, LocationsOf([OpenClaim()])) == Some(Merged([], SaidOpen()))
  {
    hide Merge, Fold;
    var known := LocationsOf([OpenClaim()]);
    assert OpenClaim() in [OpenClaim()];
    assert Id(2, 1) in Ids([OpenClaim()]);
    ToldMerge([], [Answer(F(Id(2, 1)), AnsweredFixed), Answer(CF(CF_ID), AnsweredOpen)], known);
    FoldTwo(Answer(F(Id(2, 1)), AnsweredFixed), Answer(CF(CF_ID), AnsweredOpen));
  }

  lemma FoldTwo(a: Answer, b: Answer)
    requires a.ref != b.ref
    ensures Fold(map[], [a, b]) == map[a.ref := a.status, b.ref := b.status]
  {
    FoldOne(a);
    assert [a, b][..1] == [a];
  }

  lemma OneJudged(f: Finding)
    requires f == OpenClaim()
    ensures Filter(IsJudged, [f]) == [f] && Filter(IsMechanical, [f]) == []
  {
  }

  lemma ThirdJudged(s: LoopState, sameHead: bool)
    requires s.findings == [OpenClaim()] && s.highest == 1
    ensures JudgedFindings(Q3(), s, JudgedRound(3), sameHead, Merged([], SaidOpen())) == [ClosedClaim()]
  {
    hide Assigned, Numbered, AnsweredAll, Filter;
    OneJudged(OpenClaim());
    ClaimsAssigned(Q3(), s, [], SaidOpen());
    ClaimIsClosed();
  }

  lemma ClaimIsClosed()
    ensures AnsweredAll([OpenClaim()], SaidOpen(), {}) + Numbered([], 1, 2, Code) == [ClosedClaim()]
  {
  }

  lemma GapIsEarned(s: LoopState)
    ensures Gaps(Q3(), s, SaidOpen(), [CF_ID]) == [NotAddressedBlocker(CF_ID)]
  {
    hide MechanicalBlockers, Unconfirmed, Claimed, Confirmed;
    ConfirmedIsAll(Q3(), s, SaidOpen());
    NoGapInText();
    ClaimIsUnconfirmed();
  }

  lemma NoGapInText()
    ensures MechanicalBlockers([CF_ID], map[CF_ID := Addressed]) == []
    ensures Claimed([CF_ID], map[CF_ID := Addressed]) == [CF_ID]
  {
    HasMember(MechanicalBlockers([CF_ID], map[CF_ID := Addressed]));
    assert [CF_ID][..0] == [];
  }

  lemma ClaimIsUnconfirmed()
    ensures Unconfirmed([CF_ID], []) == [NotAddressedBlocker(CF_ID)]
  {
    hide Filter;
    var none: seq<Id> := [];
    FilterAll(i => i !in none, [CF_ID]);
  }

  lemma GapIsNumbered()
    ensures WithMechanical([ClosedClaim()], [], [NotAddressedBlocker(CF_ID)], 2, Code, 1) == [ClosedClaim(), OpenGap(2)]
  {
    hide Highest;
    HighestIsOne();
    var gap := NotAddressedBlocker(CF_ID);
    assert Kept([], [gap]) == [] && Titles([]) == {};
    FilterAll((f: Finding) => f.title !in Titles([]), [gap]);
    assert [ClosedClaim()] + [] == [ClosedClaim()];
  }

  lemma HighestIsOne()
    ensures Highest([ClosedClaim()]) == 1
  {
    assert ClosedClaim() in [ClosedClaim()];
  }

  lemma ThirdFinish(s: LoopState, sameHead: bool)
    requires s.findings == [OpenClaim()] && s.highest == 1
    ensures var m := Merged([], SaidOpen());
      && FinishedFindings(Q3(), s, JudgedRound(3), sameHead, m, [CF_ID]) == [ClosedClaim(), OpenGap(2)]
      && AccountingOf(Q3(), s, SaidOpen(), [CF_ID], [ClosedClaim(), OpenGap(2)]) == Some(CarryForwards([], []))
  {
    hide JudgedFindings, Gaps, MechanicalOnRecord, Confirmed, DeferredIds, WithMechanical, Filter;
    ThirdJudged(s, sameHead);
    OneJudged(OpenClaim());
    NothingMechanical(Q3(), s, JudgedRound(3));
    GapIsEarned(s);
    GapIsNumbered();
    ConfirmedIsAll(Q3(), s, SaidOpen());
    NothingDeferred([ClosedClaim(), OpenGap(2)]);
  }

  lemma ThirdPass(s: LoopState)
    requires s.findings == [OpenClaim()] && s.judged == 2 && s.highest == 1 && !s.awaiting
    ensures Decide(Q3(), s, [CF_ID]) == Some(V3())
  {
    hide Merge, FinishedFindings, AccountingOf, LocationsOf, Capped, Approves, Filter;
    OneJudged(OpenClaim());
    ThirdMerge();
    ThirdFinish(s, SameHead(Q3(), s));
    WithinTheLimit([ClosedClaim(), OpenGap(2)]);
    GapIsOpen();
  }

  // ---------------------------------------------------------------- the ruling and the closure

  lemma GapAwaits()
    ensures var s := StateFor([V0(), V1(), V2(), V3()], [], REPO, 2); s.awaiting && OpenGap(2) in Unruled(s)
  {
    hide StateFor, Start.CodeV, Start.PlanV;
    LastState([]);
    GapIsOpen();
  }

  lemma ClosureReads()
    ensures IsRuledClosure(Q5(), StateRead(LedgerAt(5), Q5())) && OpenRead(LedgerAt(5), Q5()) == [CF_ID]
  {
    hide StateFor, Start.CodeV, Start.PlanV, V2, V3, OpenList, IsRuledClosure, RulingsBefore, ClosedClaim, OpenGap;
    RulingIsRead();
    LastState([TheRuling()]);
    ThirdIsRead();
    StateIsClosure(StateFor([V0(), V1(), V2(), V3()], [TheRuling()], REPO, 2));
    OpenAt([V0(), V1(), V2(), V3()], [TheRuling()]);
  }

  lemma RulingIsRead()
    ensures RulingsBefore([TheRuling()], 10) == [TheRuling()]
  {
    FilterAll((r: Ruling) => r.at < 10, [TheRuling()]);
  }

  lemma ThirdIsRead()
    ensures V3().sha == "h4"
  {
  }

  lemma StateIsClosure(s: LoopState)
    requires s.findings == [ClosedClaim(), OpenGap(2)] && s.awaiting && s.hasFindingsList && s.highest == 2
    requires s.confirmed == {CF_ID} && s.lastJudged.Some? && s.lastJudged.value.sha == "h4"
    requires s.rulings == map[Id(2, 2) := TheRuling()]
    ensures IsRuledClosure(Q5(), s)
  {
    hide ClosedClaim, OpenGap;
  }

  lemma OpenAt(vs: seq<Verdict>, rs: seq<Ruling>)
    requires vs == [V0(), V1()] || vs == [V0(), V1(), V2()] || vs == [V0(), V1(), V2(), V3()]
    requires rs == [] || rs == [TheRuling()]
    ensures OpenList(vs, rs, REPO, Some(2)) == [CF_ID]
  {
    hide OpenList, Start.CodeV, Start.PlanV;
    assert vs[1] in vs;
    OnlyHandedOn(vs, rs);
  }

  ghost function V5(): Verdict {
    var v := Decide(Q5(), StateRead(LedgerAt(5), Q5()), [CF_ID]);
    if v.Some? then v.value else V3()
  }

  /** The closure lists the carry-forward twice. */
  lemma ClosurePass()
    ensures Decide(Q5(), StateRead(LedgerAt(5), Q5()), [CF_ID]) == Some(V5())
    ensures V5().accounting.Some? && CF_ID in V5().accounting.value.addressed && CF_ID in V5().accounting.value.deferred
  {
    hide Decide, StateRead, IsRuledClosure, LedgerAt, OpenRead;
    ClosureReads();
    ListedTwice(Q5(), StateRead(LedgerAt(5), Q5()));
  }

  // ---------------------------------------------------------------- the run

  /** The ledger after the first `n` events. */
  function LedgerAt(n: nat): World {
    if n == 0 then World([], [])
    else if n == 1 then World([V0()], [])
    else if n == 2 then World([V0(), V1()], [])
    else if n == 3 then World([V0(), V1(), V2()], [])
    else if n == 4 then World([V0(), V1(), V2(), V3()], [])
    else World([V0(), V1(), V2(), V3()], [TheRuling()])
  }

  function QAt(n: nat): Request {
    if n == 0 then Start.CodeQ() else if n == 1 then Start.PlanQ() else if n == 2 then Q2()
    else if n == 3 then Q3() else Q5()
  }

  function EventAt(n: nat): Event {
    if n == 4 then Event.Rule(TheRuling()) else Event.Pass(QAt(n))
  }

  ghost function WorldAfter(n: nat): World {
    if n < 6 then LedgerAt(n) else World(LedgerAt(5).verdicts + [V5()], [TheRuling()])
  }

  lemma Instants()
    ensures V0().at == 2 && V1().at == 4 && V0().sha == "h1" && V1().sha == "h2"
  {
    hide Start.CodeV, Start.PlanV;
    Start.VerdictsAre();
  }

  lemma FirstTwoHappen()
    ensures forall n :: 0 <= n < 2 ==>
      Enabled(LedgerAt(n), EventAt(n)) && LedgerAt(n + 1) == Next(LedgerAt(n), EventAt(n))
  {
    hide Enabled, Next, Start.CodeV, Start.PlanV;
    Start.TwoPassesHappen();
    assert forall n :: 0 <= n < 3 ==> LedgerAt(n) == Start.LedgerAt(n);
    assert forall n :: 0 <= n < 2 ==> EventAt(n) == Start.EventAt(n);
  }

  lemma SecondHappens()
    ensures Enabled(LedgerAt(2), EventAt(2)) && LedgerAt(3) == Next(LedgerAt(2), EventAt(2))
  {
    hide Enabled, Next, Start.CodeV, Start.PlanV, StateFor, Decide, OpenList;
    assert RulingsBefore([], 5) == [];
    OpenAt([V0(), V1()], []);
    SecondState();
    SecondPass(StateFor([V0(), V1()], [], REPO, 2));
    Instants();
    PassHappens(LedgerAt(2), Q2(), V2());
  }

  lemma ThirdHappens()
    ensures Enabled(LedgerAt(3), EventAt(3)) && LedgerAt(4) == Next(LedgerAt(3), EventAt(3))
  {
    hide Enabled, Next, Start.CodeV, Start.PlanV, StateFor, Decide, OpenList;
    assert RulingsBefore([], 7) == [];
    OpenAt([V0(), V1(), V2()], []);
    ThirdState();
    ThirdPass(StateFor([V0(), V1(), V2()], [], REPO, 2));
    Instants();
    PassHappens(LedgerAt(3), Q3(), V3());
  }

  lemma RulingHappens()
    ensures Enabled(LedgerAt(4), EventAt(4)) && LedgerAt(5) == Next(LedgerAt(4), EventAt(4))
  {
    hide Enabled, Next, Start.CodeV, Start.PlanV, StateFor, Unruled;
    GapAwaits();
    Instants();
    RuleHappens(LedgerAt(4), TheRuling(), OpenGap(2));
  }

  lemma ClosureHappens()
    ensures Enabled(LedgerAt(5), EventAt(5)) && WorldAfter(6) == Next(LedgerAt(5), EventAt(5))
  {
    hide Enabled, Next, Start.CodeV, Start.PlanV, StateFor, Decide, OpenList, V5, IsRuledClosure;
    ClosureReads();
    ClosurePass();
    Instants();
    PassHappens(LedgerAt(5), Q5(), V5());
  }

  ghost function MomentAt(n: nat): Moment {
    Moment(WorldAfter(n), EventAt(n), StateRead(WorldAfter(n), QAt(n)), OpenRead(WorldAfter(n), QAt(n)),
           WorldAfter(n + 1))
  }

  ghost function TheRun(): (run: seq<Moment>)
    ensures |run| == 6 && forall n :: 0 <= n < 6 ==> run[n] == MomentAt(n)
  {
    seq(6, n requires 0 <= n < 6 => MomentAt(n))
  }

  lemma MomentHappens(n: nat)
    requires n < 6 && Enabled(WorldAfter(n), EventAt(n)) && WorldAfter(n + 1) == Next(WorldAfter(n), EventAt(n))
    ensures Happens(MomentAt(n))
  {
    hide Enabled, Next, WorldAfter, StateRead, OpenRead;
  }

  lemma AllHappen(n: nat)
    requires n < 6
    ensures Enabled(WorldAfter(n), EventAt(n)) && WorldAfter(n + 1) == Next(WorldAfter(n), EventAt(n))
  {
    hide Enabled, Next, LedgerAt, EventAt, V5;
    FirstTwoHappen();
    SecondHappens();
    ThirdHappens();
    RulingHappens();
    ClosureHappens();
  }

  lemma LedgerStarts()
    ensures WorldAfter(0) == World([], [])
  {
  }

  lemma TheRunIsARun()
    ensures IsRun(TheRun())
  {
    hide Enabled, Next, WorldAfter, EventAt, StateRead, OpenRead, TheRun;
    var run := TheRun();
    forall k | 0 <= k < |run| ensures Happens(run[k]) {
      AllHappen(k);
      MomentHappens(k);
    }
    LedgerStarts();
  }

  /**
   * In a run of six events the last verdict, a closure without a judge, lists the carry-forward
   * both as addressed, by round 2, and as deferred, by the ruling on its gap.
   */
  lemma ARunListsTwice()
    ensures IsRun(TheRun()) && Appends(TheRun()[5], V5())
    ensures ClosesWithoutJudge(TheRun()[5].event.q, TheRun()[5].state)
    ensures V5().accounting.Some? && CF_ID in V5().accounting.value.addressed && CF_ID in V5().accounting.value.deferred
  {
    hide StateRead, OpenRead, V5, LedgerAt, IsRun, ClosesWithoutJudge, IsRuledClosure, TheRun, Decide;
    TheRunIsARun();
    ClosurePass();
    ClosureReads();
    ClosesAlone(Q5(), StateRead(LedgerAt(5), Q5()));
  }

  lemma ClosesAlone(q: Request, s: LoopState)
    requires IsRuledClosure(q, s)
    ensures ClosesWithoutJudge(q, s)
  {
    hide IsRuledClosure, ClosesWithoutJudge;
    RuledClosureIsGood(q, s);
  }
}
