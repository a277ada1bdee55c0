/** A run the gate rejects though every pass accounted for all it read. */
module Race {
  import opened Wrappers
  import opened Sequences
  import opened Findings
  import opened Rounds
  import opened Admission
  import opened Service
  import opened Runs
  import opened ExamplePasses
  import Gate

  function Numbered1(): Finding {
    Fresh(Raised(), Id(1, 1), SpecPlan)
  }

  // ---------------------------------------------------------------- the run

  function Q1(): Request { PassOf(1, "h1", SpecPlan, [], 1, 2) }
  function Q2(): Request { PassOf(1, "h2", SpecPlan, [], 3, 4) }
  function Q3(): Request { PassOf(1, "h3", SpecPlan, [Raised()], 5, 6) }
  function Q4(): Request { PassOf(2, "h4", Code, [], 7, 9) }
  function TheRuling(): Ruling { Ruling(REPO, 1, Id(1, 1), RuledCarryForward, 8) }

  function V1(): Verdict { QuietVerdict(Q1(), 1) }
  function V2(): Verdict { QuietVerdict(Q2(), 2) }
  function V3(): Verdict { ClaimVerdict(Q3(), 3, [Raised()]) }
  function V4(): Verdict { QuietVerdict(Q4(), 1) }

  /** The ledger after the first `n` events. */
  function LedgerAt(n: nat): World {
    if n == 0 then World([], [])
    else if n == 1 then World([V1()], [])
    else if n == 2 then World([V1(), V2()], [])
    else if n == 3 then World([V1(), V2(), V3()], [])
    else if n == 4 then World([V1(), V2(), V3()], [TheRuling()])
    else World([V1(), V2(), V3(), V4()], [TheRuling()])
  }

  function QAt(n: nat): Request {
    if n == 0 then Q1() else if n == 1 then Q2() else if n == 2 then Q3() else Q4()
  }

  function EventAt(n: nat): Event {
    if n == 3 then Event.Rule(TheRuling()) else Event.Pass(QAt(n))
  }

  lemma FirstPasses()
    ensures Review(Q1(), [], []) == Some(V1())
    ensures Review(Q2(), [V1()], []) == Some(V2())
    ensures Review(Q3(), [V1(), V2()], []) == Some(V3())
  {
    hide StateFor, Decide, OpenFor, RulingsBefore;
    NothingRead([], Q1());
    NothingRead([V1()], Q2());
    NothingRead([V1(), V2()], Q3());
    QuietState([], [], REPO, 1);
    QuietPass(Q1(), StateFor([], [], REPO, 1));
    QuietState([V1()], [], REPO, 1);
    QuietPass(Q2(), StateFor([V1()], [], REPO, 1));
    QuietState([V1(), V2()], [], REPO, 1);
    ClaimPass(Q3(), StateFor([V1(), V2()], [], REPO, 1), [Raised()]);
  }

  /** What the first three verdicts hold. */
  lemma ThreeVerdicts()
    ensures V1().findings == [] && V2().findings == []
    ensures V3().findings == [Numbered1()] && OpenBlocker(Numbered1()) && !Approves([Numbered1()]) && !V3().approve
    ensures Numbered1().id == Some(Id(1, 1))
    ensures V3().round == Round(3) && IsRound(V3())
  {
    assert Numbered1() in [Numbered1()];
  }

  lemma LoudState(s: LoopState, vs: seq<Verdict>)
    requires vs == [V1(), V2(), V3()] && s == StateFrom(vs, vs, 3, [])
    ensures s.findings == [Numbered1()] && s.rulings == map[] && s.awaiting
  {
    hide V1, V2, V3, Numbered1, Approves, OpenBlocker, JudgedAt, ConfirmedBy, HighestOf;
    ThreeVerdicts();
  }

  lemma ThirdState()
    ensures var vs := [V1(), V2(), V3()]; StateFor(vs, [], REPO, 1) == StateFrom(vs, vs, 3, [])
  {
    hide StateFrom, StateFor;
    OwnState([V1(), V2(), V3()], [], REPO, 1);
    assert RulingsOf([], REPO, 1) == [];
  }

  lemma AwaitsRuling()
    ensures var s := StateFor([V1(), V2(), V3()], [], REPO, 1);
      s.awaiting && Numbered1() in Unruled(s)
  {
    hide StateFrom, StateFor, ClaimVerdict, QuietVerdict, Filter;
    ThirdState();
    var s := StateFor([V1(), V2(), V3()], [], REPO, 1);
    LoudState(s, [V1(), V2(), V3()]);
    assert Numbered1() in s.findings;
  }

  lemma NothingOpenYet()
    ensures OpenList([V1(), V2(), V3()], [], REPO, Some(2)) == []
  {
    hide V1, V2, V3, Numbered1, OpenList, IsAddressed;
    ThreeVerdicts();
    HasMember(OpenList([V1(), V2(), V3()], [], REPO, Some(2)));
  }

  lemma LastState()
    ensures var s := StateFor([V1(), V2(), V3()], [], REPO, 2); s.findings == [] && !s.awaiting && s.judged == 0
  {
    NoState([V1(), V2(), V3()], [], REPO, 2);
  }

  lemma LastPass()
    ensures Review(Q4(), [V1(), V2(), V3()], [TheRuling()]) == Some(V4())
    ensures OpenRead(LedgerAt(4), Q4()) == []
  {
    hide StateFor, Decide, OpenList, StateFrom, Filter;
    NothingRuledYet();
    NothingOpenYet();
    LastState();
    QuietPass(Q4(), StateFor([V1(), V2(), V3()], [], REPO, 2));
  }

  lemma NothingRuledYet()
    ensures RulingsBefore([TheRuling()], 7) == []
  {
  }

  lemma FourHappen()
    ensures forall n :: 0 <= n < 4 ==>
      Enabled(LedgerAt(n), EventAt(n)) && LedgerAt(n + 1) == Next(LedgerAt(n), EventAt(n))
  {
    hide Review, StateFor, Unruled, Enabled, Next, V1, V2, V3, Numbered1;
    FirstPasses();
    AwaitsRuling();
    ThreeInstants();
    ThreeVerdicts();
    PassHappens(LedgerAt(0), Q1(), V1());
    PassHappens(LedgerAt(1), Q2(), V2());
    PassHappens(LedgerAt(2), Q3(), V3());
    RuleHappens(LedgerAt(3), TheRuling(), Numbered1());
  }

  lemma ThreeInstants()
    ensures V1().at == 2 && V2().at == 4 && V3().at == 6
    ensures V1().sha == "h1" && V2().sha == "h2" && V3().sha == "h3"
  {
  }

  lemma LastIsNew()
    ensures IsAfterAll(LedgerAt(4), 9) && IsUnusedCheck(LedgerAt(4), "h4", 9)
    ensures forall v :: v in LedgerAt(4).verdicts ==> v.at < 7
  {
    hide V1, V2, V3;
    ThreeInstants();
  }

  lemma LastHappens()
    ensures Enabled(LedgerAt(4), EventAt(4)) && LedgerAt(5) == Next(LedgerAt(4), EventAt(4))
  {
    hide Review, Enabled, Next, V1, V2, V3, V4, IsAfterAll, IsUnusedCheck;
    LastPass();
    LastIsNew();
    PassHappens(LedgerAt(4), Q4(), V4());
  }

  ghost function MomentAt(n: nat): Moment {
    Moment(LedgerAt(n), EventAt(n), StateRead(LedgerAt(n), QAt(n)), OpenRead(LedgerAt(n), QAt(n)), LedgerAt(n + 1))
  }

  ghost function TheRun(): seq<Moment> {
    seq(5, n requires 0 <= n < 5 => MomentAt(n))
  }

  lemma TheRunIsARun()
    ensures IsRun(TheRun())
  {
    hide Enabled, Next, LedgerAt, EventAt, StateRead, OpenRead;
    FourHappen();
    LastHappens();
    var run := TheRun();
    forall k | 0 <= k < |run| ensures Happens(run[k]) {
      MomentHappens(k);
    }
    LedgerStarts();
  }

  lemma LedgerStarts()
    ensures LedgerAt(0) == World([], [])
  {
  }

  lemma MomentHappens(n: nat)
    requires n < 5 && Enabled(LedgerAt(n), EventAt(n)) && LedgerAt(n + 1) == Next(LedgerAt(n), EventAt(n))
    ensures Happens(MomentAt(n))
  {
    hide Enabled, Next, LedgerAt, StateRead, OpenRead;
  }

  /** The ruling opens a carry-forward after the pass read what was open. */
  lemma RulingOpensLate()
    ensures Gate.OpensDuring(LedgerAt(5).verdicts, LedgerAt(5).rulings, 3, TheRuling())
  {
    hide IsMechanicalId, IsAddressed, OpenList;
    assert LedgerAt(5).verdicts[..3] == [V1(), V2(), V3()];
    RulingIsEffective();
    NothingRuledYet();
    NothingOpenYet();
    NotInNothing();
  }

  lemma RulingIsEffective()
    ensures RulingOpens([V1(), V2(), V3()], REPO, TheRuling())
    ensures !IsAddressed([V1(), V2(), V3()], REPO, Id(1, 1))
  {
    var vs := [V1(), V2(), V3()];
    assert V1() in vs;
    assert EverApproved(vs, REPO, 1);
  }

  /** The carry-forward is open by the code, and not by its documentation: the pull request was
      approved before the ruling and never after it. */
  lemma RulingOpensTooEarly()
    ensures IsOpenCarryForward([V1(), V2(), V3()], [TheRuling()], REPO, Some(2), Id(1, 1))
    ensures !IsOpenAsDocumented([V1(), V2(), V3()], [TheRuling()], REPO, Some(2), Id(1, 1))
  {
    hide V1, V2, V3, RulingOpens, IsAddressed, OpensByVerdict, Numbered1;
    RulingIsEffective();
    ThreeInstants();
    NotByVerdict();
    assert TheRuling() in [TheRuling()];
  }

  lemma NotByVerdict()
    ensures !OpensByVerdict([V1(), V2(), V3()], REPO, Id(1, 1))
  {
    hide V1, V2, V3, Numbered1;
    ThreeVerdicts();
  }

  lemma NotInNothing()
    requires OpenList([V1(), V2(), V3()], [], REPO, Some(2)) == []
    ensures Id(1, 1) !in OpenSet([V1(), V2(), V3()], [], REPO, Some(2))
  {
  }

  /**
   * A legal run the gate rejects: no verdict is carried and every approving pass accounted for
   * all it read, and a ruling recorded while the last pass judged opened one more.
   */
  lemma GateRejectsARace()
    ensures IsRun(TheRun()) && |TheRun()| == 5
    ensures var w := TheRun()[4].after;
      && (forall v :: v in w.verdicts ==> v.carried.None?)
      && !Gate.GatePasses(w.verdicts, w.rulings)
  {
    hide Gate.GatePasses, Gate.OpensDuring, TheRun, LedgerAt, IsRun, Happens;
    TheRunIsARun();
    RulingOpensLate();
    FinalLedger();
    Gate.GatePassesWhen(TheRun(), 4);
  }

  lemma FinalLedger()
    ensures |TheRun()| == 5 && TheRun()[4].after == LedgerAt(5)
    ensures var vs := LedgerAt(5).verdicts;
      |vs| == 4 && Gate.IsApprovingCode(vs[3]) && forall v :: v in vs ==> v.carried.None?
  {
    hide StateRead, OpenRead, Judged;
  }
}
