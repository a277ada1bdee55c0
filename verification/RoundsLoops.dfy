/** The loops of the review state, each against its specification (src/rail/reviewer/rounds.py). */
module RoundsLoops {
  import opened Wrappers
  import opened Sequences
  import opened Findings
  import opened Carry
  import opened Rounds

  // ---------------------------------------------------------------- loop_state

  /** The verdict the last judgment was copied from, found newest first. */
  method FindOrigin(judging: seq<Verdict>) returns (after: Option<int>)
    ensures after == JudgedAt(judging)
  {
    if judging == [] {
      return None;
    }
    var earlier := judging[..|judging| - 1];
    var origin := judging[|judging| - 1];
    assert earlier[..|earlier|] == earlier;
    for n := |earlier| downto 0
      invariant Origin(origin, earlier[..n]) == Origin(judging[|judging| - 1], earlier)
    {
      assert earlier[..n + 1][..n] == earlier[..n];
      if LinksTo(origin, earlier[n]) {
        origin := earlier[n];
      }
    }
    return Some(origin.at);
  }

  /** The rulings that still hold: of each finding, the latest one after the judgment. */
  method CollectRulings(rulings: seq<Ruling>, after: Option<int>) returns (ruled: map<Id, Ruling>)
    ensures ruled == RuledAfter(rulings, after)
  {
    ruled := map[];
    for n := 0 to |rulings|
      invariant ruled == RuledAfter(rulings[..n], after)
    {
      assert rulings[..n + 1][..n] == rulings[..n];
      var r := rulings[n];
      if after.Some? && r.at <= after.value {
        continue;
      }
      ruled := ruled[r.finding := r];
    }
    assert rulings[..|rulings|] == rulings;
  }

  /** `loop_state`. */
  method RebuildState(verdicts: seq<Verdict>, rulings: seq<Ruling>) returns (s: LoopState)
    ensures s == StateOf(verdicts, rulings)
  {
    hide JudgedAt, RuledAfter, ConfirmedBy, HighestOf, Filter, IsLoop, IsJudging, SpendsRound, Approves;
    var vs := Filter(IsLoop, verdicts);
    var judged := Filter(SpendsRound, vs);
    var judging := Filter(IsJudging, vs);
    var lastJudged := if judging == [] then None else Some(judging[|judging| - 1]);
    var findings := if vs == [] then [] else vs[|vs| - 1].findings;
    var after := FindOrigin(judging);
    var ruled := CollectRulings(rulings, after);
    var awaiting := !Approves(findings) && lastJudged.Some?
      && (lastJudged.value.round == Closure || lastJudged.value.round == Round(3));
    return LoopState(|judged|, lastJudged, findings, ruled, awaiting, vs != [], ConfirmedBy(judging), HighestOf(vs));
  }

  // ---------------------------------------------------------------- numbering

  lemma NumberedSnoc(extra: seq<Finding>, f: Finding, highest: nat, pr: nat, artifact: Artifact)
    ensures Numbered(extra + [f], highest, pr, artifact)
      == Numbered(extra, highest, pr, artifact) + [Fresh(f, Id(pr, highest + 1 + |extra|), artifact)]
  {
  }

  /** `append_new`: each extra finding takes the number after the last one taken. */
  method AppendFindings(findings: seq<Finding>, extra: seq<Finding>, pr: nat, artifact: Artifact, floor: nat)
    returns (out: seq<Finding>)
    ensures out == AppendNew(findings, extra, pr, artifact, floor)
  {
    hide Highest, Fresh, Numbered;
    var start := Max(Highest(findings), floor);
    var highest := start;
    out := findings;
    for n := 0 to |extra|
      invariant highest == start + n
      invariant out == findings + Numbered(extra[..n], start, pr, artifact)
    {
      highest := highest + 1;
      NumberedSnoc(extra[..n], extra[n], start, pr, artifact);
      assert extra[..n + 1] == extra[..n] + [extra[n]];
      out := out + [Fresh(extra[n], Id(pr, highest), artifact)];
    }
    assert extra[..|extra|] == extra;
  }

  lemma AnsweredSnoc(fs: seq<Finding>, f: Finding, answers: map<Ref, AnswerStatus>, repeated: set<Id>)
    ensures AnsweredAll(fs + [f], answers, repeated) ==
      AnsweredAll(fs, answers, repeated) + [Answered(f, answers, repeated)]
  {
  }

  lemma UnknownSnoc(fs: seq<Finding>, f: Finding, known: set<Id>)
    ensures Unknown(fs + [f], known) ==
      if f.id.None? || f.id.value !in known then Unknown(fs, known) + [f] else Unknown(fs, known)
  {
  }

  /** `assign`: the earlier findings with their new statuses. */
  method AnswerEarlier(earlier: seq<Finding>, answers: map<Ref, AnswerStatus>, repeated: set<Id>)
    returns (out: seq<Finding>)
    ensures out == AnsweredAll(Filter(HasId, earlier), answers, repeated)
  {
    hide AnsweredAll, Filter;
    var known := Filter(HasId, earlier);
    FilterMembers(HasId, earlier);
    out := [];
    NothingAnswered(answers, repeated);
    for n := 0 to |known|
      invariant out == AnsweredAll(known[..n], answers, repeated)
    {
      var f := known[n];
      assert f in known;
      AnsweredSnoc(known[..n], f, answers, repeated);
      assert known[..n + 1] == known[..n] + [f];
      if f.status == Ruled {
        out := out + [f];
      } else if f.status == Fixed {
        out := out + [if f.id.value !in repeated then f else f.(status := StillOpen)];
      } else if F(f.id.value) in answers && answers[F(f.id.value)] == AnsweredFixed && f.id.value !in repeated {
        out := out + [f.(status := Fixed)];
      } else {
        out := out + [f.(status := StillOpen)];
      }
    }
    assert known[..|known|] == known;
  }

  lemma NothingAnswered(answers: map<Ref, AnswerStatus>, repeated: set<Id>)
    ensures AnsweredAll([], answers, repeated) == []
  {
  }

  lemma FilterMembers(p: Finding -> bool, fs: seq<Finding>)
    ensures forall f :: f in Filter(p, fs) ==> p(f)
  {
  }

  /** `assign`: the findings on no record, numbered after every id in use. */
  method NumberUnknown(new_: seq<Finding>, known: set<Id>, start: nat, pr: nat, artifact: Artifact)
    returns (out: seq<Finding>)
    ensures out == Numbered(Unknown(new_, known), start, pr, artifact)
  {
    hide Fresh, Numbered, Unknown;
    var highest := start;
    out := [];
    NothingNumbered(known, start, pr, artifact);
    for n := 0 to |new_|
      invariant highest == start + |Unknown(new_[..n], known)|
      invariant out == Numbered(Unknown(new_[..n], known), start, pr, artifact)
    {
      var f := new_[n];
      UnknownSnoc(new_[..n], f, known);
      assert new_[..n + 1] == new_[..n] + [f];
      if f.id.Some? && f.id.value in known {
        continue;
      }
      NumberedSnoc(Unknown(new_[..n], known), f, start, pr, artifact);
      highest := highest + 1;
      out := out + [Fresh(f, Id(pr, highest), artifact)];
    }
    assert new_[..|new_|] == new_;
  }

  lemma NothingNumbered(known: set<Id>, start: nat, pr: nat, artifact: Artifact)
    ensures Unknown([], known) == [] && Numbered([], start, pr, artifact) == []
  {
  }

  /** `assign`. */
  method AssignFindings(new_: seq<Finding>, answers: map<Ref, AnswerStatus>, earlier: seq<Finding>,
                        pr: nat, artifact: Artifact, floor: nat) returns (out: seq<Finding>)
    ensures out == Assign(new_, answers, earlier, pr, artifact, floor)
  {
    hide AnsweredAll, Numbered, Unknown, Highest, Filter, Ids;
    var known := Ids(earlier);
    var answered := AnswerEarlier(earlier, answers, Ids(new_) * known);
    var numbered := NumberUnknown(new_, known, Max(Highest(earlier), floor), pr, artifact);
    return answered + numbered;
  }

  // ---------------------------------------------------------------- open carry-forwards

  predicate OpensIn(v: Verdict, f: Finding) {
    f.klass == Some(CarryForward) && f.id.Some? && f.status != Fixed && !IsMechanical(f)
  }

  /** What approving verdicts found and recorded as addressed. */
  method ScanVerdicts(verdicts: seq<Verdict>, repo: string) returns (found: set<Id>, addressed: set<Id>)
    ensures forall i :: i in found <==> OpensByVerdict(verdicts, repo, i)
    ensures forall i :: i in addressed <==> IsAddressed(verdicts, repo, i)
  {
    found, addressed := {}, {};
    for n := 0 to |verdicts|
      invariant forall i :: i in found <==> OpensByVerdict(verdicts[..n], repo, i)
      invariant forall i :: i in addressed <==> IsAddressed(verdicts[..n], repo, i)
    {
      var v := verdicts[n];
      assert verdicts[..n + 1] == verdicts[..n] + [v];
      ScanSnoc(verdicts[..n], v, repo);
      if v.repo != repo || !v.approve {
        continue;
      }
      found := found + OpenedBy(v);
      addressed := addressed + (set i | i in Accounted(v).addressed);
    }
    assert verdicts[..|verdicts|] == verdicts;
  }

  function OpenedBy(v: Verdict): (s: set<Id>)
    ensures forall i :: i in s <==>
      exists f :: f in v.findings && f.id == Some(i) && f.klass == Some(CarryForward)
        && f.status != Fixed && !IsMechanical(f)
  {
    set f | f in v.findings && OpensIn(v, f) :: f.id.value
  }

  lemma ScanSnoc(vs: seq<Verdict>, v: Verdict, repo: string)
    ensures forall i :: OpensByVerdict(vs + [v], repo, i) <==>
      OpensByVerdict(vs, repo, i) || (v.repo == repo && v.approve && i in OpenedBy(v))
    ensures forall i :: IsAddressed(vs + [v], repo, i) <==>
      IsAddressed(vs, repo, i) || (v.repo == repo && v.approve && i in Accounted(v).addressed)
  {
  }

  /** What rulings found. */
  method ScanRulings(verdicts: seq<Verdict>, rulings: seq<Ruling>, repo: string) returns (found: set<Id>)
    ensures forall i :: i in found <==> OpensByRuling(verdicts, rulings, repo, i)
  {
    hide RulingOpens;
    found := {};
    for n := 0 to |rulings|
      invariant forall i :: i in found <==> OpensByRuling(verdicts, rulings[..n], repo, i)
    {
      var r := rulings[n];
      assert rulings[..n + 1] == rulings[..n] + [r];
      assert forall x :: x in rulings[..n + 1] <==> x in rulings[..n] || x == r;
      if RulingOpens(verdicts, repo, r) {
        found := found + {r.finding};
      }
    }
    assert rulings[..|rulings|] == rulings;
  }

  /** `open_carry_forwards`: collected in dictionaries, then sorted by pull request and number. */
  method OpenCarryForwards(verdicts: seq<Verdict>, rulings: seq<Ruling>, repo: string, excluding: Option<nat>)
    returns (open: seq<Id>)
    ensures open == OpenList(verdicts, rulings, repo, excluding)
  {
    hide OpensByVerdict, OpensByRuling, IsAddressed, OpenList, Insert;
    var byVerdict, addressed := ScanVerdicts(verdicts, repo);
    var byRuling := ScanRulings(verdicts, rulings, repo);
    var left := set i | i in byVerdict + byRuling && i !in addressed && excluding != Some(i.pr);
    ghost var all := left;
    open := [];
    while left != {}
      invariant left <= all && IsSorted(open)
      invariant forall i :: i in open <==> i in all && i !in left
      decreases left
    {
      var i :| i in left;
      open := Insert(i, open);
      left := left - {i};
    }
    SortedListUnique(open, OpenList(verdicts, rulings, repo, excluding));
  }
}
