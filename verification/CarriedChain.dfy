/** Moving a branch never spends a round or expires a ruling (src/rail/reviewer/rounds.py). */
module CarriedChain {
  import opened Wrappers
  import opened Sequences
  import opened Findings
  import opened Rounds
  import opened Runs

  /** `c` is the verdict `source` copied to another head. */
  predicate IsCopyOf(c: Verdict, source: Verdict) {
    c == Carried(source, c.sha, c.check, c.at)
  }

  /** Each verdict of the chain copies the source or an earlier verdict of the chain. */
  ghost predicate IsChain(source: Verdict, chain: seq<Verdict>) {
    forall k :: 0 <= k < |chain| ==> CopiesOne(source, chain[..k], chain[k])
  }

  ghost predicate CopiesOne(source: Verdict, earlier: seq<Verdict>, c: Verdict) {
    IsCopyOf(c, source) || exists e :: e in earlier && IsCopyOf(c, e)
  }

  /** What a copy shares with the verdict the whole chain comes from. */
  predicate SharesJudgment(c: Verdict, source: Verdict) {
    && c.round == source.round && c.findings == source.findings && c.accounting == source.accounting
    && c.approve == source.approve && c.repo == source.repo && c.pr == source.pr
  }

  lemma ChainPrefix(source: Verdict, chain: seq<Verdict>, n: nat)
    requires IsChain(source, chain) && n <= |chain|
    ensures IsChain(source, chain[..n])
  {
    forall k | 0 <= k < n ensures CopiesOne(source, chain[..n][..k], chain[..n][k]) {
      assert chain[..n][..k] == chain[..k];
    }
  }

  lemma {:induction false} ChainShares(source: Verdict, chain: seq<Verdict>)
    requires IsChain(source, chain)
    ensures forall c :: c in chain ==> SharesJudgment(c, source) && c.carried.Some?
  {
    if chain != [] {
      var init := chain[..|chain| - 1];
      var c := chain[|chain| - 1];
      ChainPrefix(source, chain, |chain| - 1);
      ChainShares(source, init);
      assert CopiesOne(source, init, c);
      assert chain == init + [c];
    }
  }

  // ---------------------------------------------------------------- provenance reaches the judgment

  /** `v` is the source, or was copied from it through the chain. */
  ghost predicate Descends(source: Verdict, chain: seq<Verdict>, v: Verdict) {
    v == source || CopiesOne(source, chain, v)
  }

  lemma DescendsBack(source: Verdict, init: seq<Verdict>, last: Verdict, v: Verdict)
    requires source.carried.None? && Descends(source, init, last) && Descends(source, init + [last], v)
    ensures Descends(source, init, if LinksTo(v, last) then last else v)
  {
  }

  lemma OriginBase(before: seq<Verdict>, source: Verdict, v: Verdict)
    requires source.carried.None? && Descends(source, [], v)
    ensures Origin(v, before + [source]) == source
  {
    hide Origin;
    OriginBack(v, before, source);
    OwnOrigin(source, before);
  }

  lemma {:induction false} OriginIsSource(before: seq<Verdict>, source: Verdict, chain: seq<Verdict>, v: Verdict)
    requires source.carried.None? && IsChain(source, chain) && Descends(source, chain, v)
    ensures Origin(v, before + [source] + chain) == source
    decreases |chain|
  {
    hide Origin, IsCopyOf, LinksTo, Descends;
    if chain == [] {
      assert before + [source] + chain == before + [source];
      OriginBase(before, source, v);
    } else {
      var init, last := chain[..|chain| - 1], chain[|chain| - 1];
      ChainPrefix(source, chain, |chain| - 1);
      LastDescends(source, chain);
      assert chain == init + [last];
      assert before + [source] + chain == before + [source] + init + [last];
      DescendsBack(source, init, last, v);
      OriginBack(v, before + [source] + init, last);
      OriginIsSource(before, source, init, if LinksTo(v, last) then last else v);
    }
  }

  lemma LastDescends(source: Verdict, chain: seq<Verdict>)
    requires IsChain(source, chain) && chain != []
    ensures Descends(source, chain[..|chain| - 1], chain[|chain| - 1])
  {
    assert CopiesOne(source, chain[..|chain| - 1], chain[|chain| - 1]);
  }

  // ---------------------------------------------------------------- the state does not move

  lemma {:induction false} FilterChain(p: Verdict -> bool, keep: bool, vs: seq<Verdict>, chain: seq<Verdict>)
    requires forall c :: c in chain ==> p(c) == keep
    ensures Filter(p, vs + chain) == if keep then Filter(p, vs) + chain else Filter(p, vs)
  {
    hide Filter;
    if chain == [] {
      assert vs + chain == vs;
    } else {
      var init := chain[..|chain| - 1];
      var c := chain[|chain| - 1];
      assert chain == init + [c];
      assert vs + chain == (vs + init) + [c];
      FilterChain(p, keep, vs, init);
      FilterSnoc(p, vs + init, c);
    }
  }

  lemma {:induction false} HighestUnmoved(vs: seq<Verdict>, source: Verdict, chain: seq<Verdict>)
    requires source in vs && forall c :: c in chain ==> c.findings == source.findings
    ensures HighestOf(vs + chain) == HighestOf(vs)
  {
  }

  lemma ConfirmedUnmoved(judging: seq<Verdict>, source: Verdict, chain: seq<Verdict>)
    requires source in judging && forall c :: c in chain ==> c.accounting == source.accounting
    ensures ConfirmedBy(judging + chain) == ConfirmedBy(judging)
  {
  }

  lemma JudgedAtUnmoved(judging: seq<Verdict>, source: Verdict, chain: seq<Verdict>)
    requires judging != [] && judging[|judging| - 1] == source && source.carried.None? && IsChain(source, chain)
    ensures JudgedAt(judging + chain) == JudgedAt(judging) == Some(source.at)
  {
    var before := judging[..|judging| - 1];
    assert judging == before + [source];
    OwnOrigin(source, before);
    if chain == [] {
      assert judging + chain == judging;
    } else {
      var init := chain[..|chain| - 1];
      var last := chain[|chain| - 1];
      var all := judging + chain;
      assert all[|all| - 1] == last;
      assert all[..|all| - 1] == before + [source] + init;
      ChainPrefix(source, chain, |chain| - 1);
      LastDescends(source, chain);
      OriginIsSource(before, source, init, last);
    }
  }

  /** Two states a pull request's author and operator cannot tell apart. */
  predicate SameLoop(a: LoopState, b: LoopState) {
    && a.judged == b.judged && a.findings == b.findings && a.rulings == b.rulings
    && a.awaiting == b.awaiting && a.hasFindingsList == b.hasFindingsList
    && a.confirmed == b.confirmed && a.highest == b.highest
  }

  lemma SameLoopSameStep(a: LoopState, b: LoopState)
    requires SameLoop(a, b)
    ensures NextStep(a) == NextStep(b)
  {
    assert Unruled(a) == Unruled(b) by {
      UnruledSame(a, b, a.findings);
    }
  }

  lemma {:induction false} UnruledSame(a: LoopState, b: LoopState, fs: seq<Finding>)
    requires a.rulings == b.rulings
    ensures Filter(f => NeedsRuling(a, f), fs) == Filter(f => NeedsRuling(b, f), fs)
  {
    if fs != [] {
      UnruledSame(a, b, fs[..|fs| - 1]);
    }
  }

  lemma LastStays(p: Verdict -> bool, vs: seq<Verdict>)
    requires vs != [] && p(vs[|vs| - 1])
    ensures Filter(p, vs) != [] && Filter(p, vs)[|Filter(p, vs)| - 1] == vs[|vs| - 1]
  {
  }

  /** A chain adds itself to the loop and to the judging verdicts, and spends no round. */
  lemma ChainJoins(verdicts: seq<Verdict>, source: Verdict, chain: seq<Verdict>)
    requires verdicts != [] && verdicts[|verdicts| - 1] == source && IsJudging(source) && IsChain(source, chain)
    ensures var vs := Filter(IsLoop, verdicts);
      && Filter(IsLoop, verdicts + chain) == vs + chain && vs != [] && vs[|vs| - 1] == source
      && Filter(IsJudging, vs + chain) == Filter(IsJudging, vs) + chain
      && Filter(IsJudging, vs) != [] && Filter(IsJudging, vs)[|Filter(IsJudging, vs)| - 1] == source
      && Filter(SpendsRound, vs + chain) == Filter(SpendsRound, vs)
  {
    hide Filter, IsChain;
    ChainShares(source, chain);
    FilterChain(IsLoop, true, verdicts, chain);
    LastStays(IsLoop, verdicts);
    var vs := Filter(IsLoop, verdicts);
    FilterChain(IsJudging, true, vs, chain);
    LastStays(IsJudging, vs);
    FilterChain(SpendsRound, false, vs, chain);
  }

  /**
   * A chain of carried verdicts after the judged, approving verdict it copies changes nothing
   * the loop decides on: no round is spent, no ruling expires, no id is reused.
   */
  lemma CarryingChangesNothing(verdicts: seq<Verdict>, chain: seq<Verdict>, rulings: seq<Ruling>)
    requires verdicts != []
    requires var source := verdicts[|verdicts| - 1];
      && IsJudging(source) && source.carried.None? && IsSound(source) && source.approve
      && IsChain(source, chain)
    ensures var a := StateOf(verdicts + chain, rulings);
      var b := StateOf(verdicts, rulings);
      SameLoop(a, b) && NextStep(a) == NextStep(b) && !a.awaiting
  {
    hide StateFrom, NextStep, IsChain, Filter, SameLoop, IsJudging, Approves, OpenBlocker;
    var source := verdicts[|verdicts| - 1];
    SoundApproves(source);
    ChainJoins(verdicts, source, chain);
    var vs := Filter(IsLoop, verdicts);
    StateUnmoved(vs, Filter(IsJudging, vs), source, chain, |Filter(SpendsRound, vs)|, rulings);
    SameLoopSameStep(StateOf(verdicts + chain, rulings), StateOf(verdicts, rulings));
  }

  lemma SoundApproves(v: Verdict)
    requires IsSound(v) && v.approve
    ensures Approves(v.findings)
  {
  }

  lemma StateUnmoved(vs: seq<Verdict>, judging: seq<Verdict>, source: Verdict, chain: seq<Verdict>,
                     judged: nat, rulings: seq<Ruling>)
    requires vs != [] && vs[|vs| - 1] == source
    requires judging != [] && judging[|judging| - 1] == source
    requires source.carried.None? && IsChain(source, chain) && Approves(source.findings)
    ensures SameLoop(StateFrom(vs + chain, judging + chain, judged, rulings), StateFrom(vs, judging, judged, rulings))
    ensures !StateFrom(vs, judging, judged, rulings).awaiting
  {
    ChainShares(source, chain);
    HighestUnmoved(vs, source, chain);
    ConfirmedUnmoved(judging, source, chain);
    JudgedAtUnmoved(judging, source, chain);
    if chain == [] {
      assert vs + chain == vs && judging + chain == judging;
    } else {
      assert (vs + chain)[|vs + chain| - 1] in chain;
    }
  }
}
