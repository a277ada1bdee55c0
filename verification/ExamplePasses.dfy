/** Passes of one judge over one file, worked out by hand. */
module ExamplePasses {
  import opened Wrappers
  import opened Sequences
  import opened Findings
  import opened Carry
  import opened Rounds
  import opened Admission
  import opened Service
  import opened PassShape
  import opened NewClaims
  import opened Runs

  const REPO := "r"

  /** A judge that read everything and says this. */
  function JudgedWith(findings: seq<Finding>, answers: seq<Answer>): Judgement {
    Judgement([PartReply(JudgeReply(Some(JudgeVerdict(findings, answers)), Some(Sight({"f"}, map[]))), true,
                         Sight({}, map[]), true)],
              {"f"}, true, {})
  }

  function Judged(findings: seq<Finding>): Judgement {
    JudgedWith(findings, [])
  }

  /** A claim that blocks. */
  function Raised(): Finding {
    Finding(Blocking, Path("f"), Some(1), Said("t"), "e", None, None, New)
  }

  function PassOf(pr: nat, sha: string, artifact: Artifact, findings: seq<Finding>, readAt: int, at: int): Request {
    Request(REPO, pr, sha, at, artifact, map[], None, map["f" := {1}], Judged(findings), readAt, at)
  }

  function QuietVerdict(q: Request, n: nat): Verdict {
    Verdict(q.repo, q.pr, q.sha, q.check, Round(n), q.artifact, true, [],
            if q.artifact == Code then Some(CarryForwards([], [])) else None, None, q.at, q.readAt)
  }

  // ---------------------------------------------------------------- a pass with nothing to say

  lemma QuietMerge()
    ensures Merge(Judged([]), LocationsOf([])) == Some(Merged([], map[]))
  {
    var j, known := Judged([]), LocationsOf([]);
    var p := j.replies[0];
    assert WithinPart(p, known.Keys, j.judgedFiles) == p.reply;
    assert Heard(p, j, known) == p.reply;
    assert HeardVerdicts(j, known, 1) == HeardVerdicts(j, known, 0) + [JudgeVerdict([], [])];
    var vs := [JudgeVerdict([], [])];
    assert HeardVerdicts(j, known, 1) == vs;
    assert vs[..0] == [];
    assert MergedFindings(vs) == [] && MergedAnswers(vs) == map[];
  }

  lemma QuietFinish(q: Request, s: LoopState, step: Step, sameHead: bool)
    requires s.findings == [] && q.section == map[]
    ensures FinishedFindings(q, s, step, sameHead, Merged([], map[]), []) == []
    ensures AccountingOf(q, s, map[], [], []) == if q.artifact == Code then Some(CarryForwards([], [])) else None
  {
    assert Filter(IsJudged, s.findings) == [] && Filter(IsMechanical, s.findings) == [];
    assert Assigned(q, s, Merged([], map[])) == [];
    assert JudgedFindings(q, s, step, sameHead, Merged([], map[])) == [];
    assert MechanicalOnRecord(s, step) == [];
    assert Gaps(q, s, map[], []) == [];
    assert Kept([], []) == [] && Unseen([], []) == [];
  }

  lemma QuietPass(q: Request, s: LoopState)
    requires s.findings == [] && !s.awaiting && q.section == map[] && q.judgement == Judged([])
    ensures Decide(q, s, []) == Some(QuietVerdict(q, Min(s.judged + 1, 3)))
  {
    hide Merge, FinishedFindings, AccountingOf, LocationsOf;
    assert Filter(IsJudged, s.findings) == [];
    QuietMerge();
    QuietFinish(q, s, NextStep(s), SameHead(q, s));
  }

  // ---------------------------------------------------------------- a pass that makes claims

  /** A judge's claim about the file every judge here reads. */
  predicate IsClaim(f: Finding) {
    f.id == None && f.file == Path("f") && f.status == New
  }

  /** Claims one judge may make in one reply, each once. */
  ghost predicate AreClaims(fs: seq<Finding>) {
    && |fs| <= MAX_FINDINGS && (forall f :: f in fs ==> IsClaim(f))
    && forall i, j :: 0 <= i < j < |fs| ==> fs[i] != fs[j]
  }

  /** The claims as a first verdict records them. */
  function RecordsOf(fs: seq<Finding>, pr: nat): seq<Finding> {
    Numbered(fs, 0, pr, SpecPlan)
  }

  /** Every finding answered is filed on that file. */
  predicate AreAnswerable(answers: seq<Answer>, known: Locations) {
    forall a :: a in answers && a.ref.F? ==> a.ref.id in known && known[a.ref.id].0 == Path("f")
  }

  lemma PlaceIsSeen()
    ensures Resolve(Path("f"), {"f"}) == At("f")
  {
    assert Matches(Path("f"), {"f"}) == {"f"};
  }

  lemma ClaimsWithinPart(fs: seq<Finding>, answers: seq<Answer>, known: set<Id>)
    requires AreClaims(fs)
    ensures var j := JudgedWith(fs, answers); WithinPart(j.replies[0], known, j.judgedFiles) == j.replies[0].reply
  {
    var j := JudgedWith(fs, answers);
    var p := j.replies[0];
    forall f | f in fs ensures SeenOrDemoted(f, p.reply.sight, known, j.judgedFiles, true) == f {
      PlaceIsSeen();
    }
    assert Map(f => SeenOrDemoted(f, p.reply.sight, known, j.judgedFiles, true), fs) == fs;
  }

  lemma AnswerIsAdmitted(a: Answer, answers: seq<Answer>, known: Locations)
    requires AreAnswerable(answers, known) && a in answers && a.ref.F?
    ensures MayAnswer(Some(Sight({"f"}, map[])), a.ref.id, known, {"f"}, true, {})
  {
    PlaceIsSeen();
  }

  lemma ClaimsHeard(fs: seq<Finding>, answers: seq<Answer>, known: Locations)
    requires AreClaims(fs) && AreAnswerable(answers, known)
    ensures var j := JudgedWith(fs, answers); Heard(j.replies[0], j, known) == j.replies[0].reply
  {
    hide WithinPart, MayAnswer, AreAnswerable;
    var j := JudgedWith(fs, answers);
    var p := j.replies[0];
    ClaimsWithinPart(fs, answers, known.Keys);
    var may := i => MayAnswer(p.reply.sight, i, known, j.judgedFiles, j.readable, j.excerpted);
    forall a | a in answers && a.ref.F? ensures may(a.ref.id) {
      AnswerIsAdmitted(a, answers, known);
    }
    FilterAll((f: Finding) => f.id.None? || may(f.id.value), fs);
    FilterAll((a: Answer) => a.ref.CF? || may(a.ref.id), answers);
  }

  lemma ClaimVerdicts(fs: seq<Finding>, answers: seq<Answer>, known: Locations)
    requires AreClaims(fs) && AreAnswerable(answers, known)
    ensures HeardVerdicts(JudgedWith(fs, answers), known, 1) == [JudgeVerdict(fs, answers)]
  {
    hide Heard, AreClaims, AreAnswerable;
    var j := JudgedWith(fs, answers);
    ClaimsHeard(fs, answers, known);
    assert HeardVerdicts(j, known, 1) == HeardVerdicts(j, known, 0) + [JudgeVerdict(fs, answers)];
  }

  lemma {:induction false} ExtendDistinct(fs: seq<Finding>, more: seq<Finding>)
    requires forall i, j :: 0 <= i < j < |fs + more| ==> (fs + more)[i] != (fs + more)[j]
    ensures Extend(fs, more) == fs + more
    decreases |more|
  {
    if more == [] {
      assert fs + more == fs;
    } else {
      assert fs + more == fs + [more[0]] + more[1..];
      assert (fs + more)[|fs|] == more[0] && forall i :: 0 <= i < |fs| ==> (fs + more)[i] == fs[i];
      ExtendDistinct(fs + [more[0]], more[1..]);
    }
  }

  lemma ClaimsMerged(fs: seq<Finding>, answers: seq<Answer>, vs: seq<JudgeVerdict>)
    requires AreClaims(fs) && vs == [JudgeVerdict(fs, answers)]
    ensures Capped(MergedFindings(vs)) == fs && MergedAnswers(vs) == Fold(map[], answers)
  {
    hide Extend, IsClaim, Fold;
    assert vs[..0] == [] && [] + fs == fs;
    ExtendDistinct([], fs);
    assert MergedFindings(vs) == Extend(MergedFindings(vs[..0]), fs);
  }

  /** One judge's reply is the whole merge. */
  lemma ToldMerge(fs: seq<Finding>, answers: seq<Answer>, known: Locations)
    requires AreClaims(fs) && AreAnswerable(answers, known)
    ensures Merge(JudgedWith(fs, answers), known) == Some(Merged(fs, Fold(map[], answers)))
  {
    hide HeardVerdicts, Capped, MergedFindings, MergedAnswers, IsClaim, Fold, AreAnswerable;
    ClaimVerdicts(fs, answers, known);
    ClaimsMerged(fs, answers, [JudgeVerdict(fs, answers)]);
  }

  lemma ClaimsMerge(fs: seq<Finding>, known: Locations)
    requires AreClaims(fs)
    ensures Merge(Judged(fs), known) == Some(Merged(fs, map[]))
  {
    ToldMerge(fs, [], known);
  }

  lemma ClaimsClassified(fs: seq<Finding>, artifact: Artifact)
    requires AreClaims(fs)
    ensures var c := Classified(fs, artifact);
      |c| == |fs| && forall k :: 0 <= k < |fs| ==> c[k] == EnforceClass(fs[k], artifact) && c[k].id.None?
  {
    assert forall k :: 0 <= k < |fs| ==> fs[k] in fs;
  }

  lemma ClaimsUnknown(c: seq<Finding>, known: set<Id>)
    requires forall k :: 0 <= k < |c| ==> c[k].id.None?
    ensures Ids(c) == {} && Unknown(c, known) == c
  {
    assert forall f :: f in c ==> f.id.None?;
    FilterAll((f: Finding) => f.id.None? || f.id.value !in known, c);
  }

  /** The claims are numbered on from the highest number in use, each once. */
  lemma ClaimsAssigned(q: Request, s: LoopState, fs: seq<Finding>, answers: map<Ref, AnswerStatus>)
    requires AreClaims(fs)
    requires forall f :: f in Earlier(s) ==> f.id.Some? && f.id.value.n <= s.highest
    ensures Assigned(q, s, Merged(fs, answers)) ==
      AnsweredAll(Earlier(s), answers, {}) + Numbered(fs, s.highest, q.pr, q.artifact)
  {
    hide Classified, Unknown, Assign, Earlier, AreClaims, Fresh;
    var c, e := Classified(fs, q.artifact), Earlier(s);
    ClaimsClassified(fs, q.artifact);
    ClaimsUnknown(c, Ids(e));
    AssignParts(c, answers, e, q.pr, q.artifact, s.highest);
    assert {} * Ids(e) == {};
    forall k | 0 <= k < |fs|
      ensures var id := Id(q.pr, s.highest + 1 + k); Fresh(c[k], id, q.artifact) == Fresh(fs[k], id, q.artifact)
    {
      ClassTwice(fs[k], Id(q.pr, s.highest + 1 + k), q.artifact);
    }
    assert Numbered(c, s.highest, q.pr, q.artifact) == Numbered(fs, s.highest, q.pr, q.artifact);
    AssignedIs(q, s, Merged(fs, answers));
  }

  lemma ClassTwice(f: Finding, id: Id, artifact: Artifact)
    ensures Fresh(EnforceClass(f, artifact), id, artifact) == Fresh(f, id, artifact)
  {
  }

  /** Round 3 leaves a claim inside the delta its class. */
  lemma ClaimsLimited(q: Request, s: LoopState, n: nat, sameHead: bool, fs: seq<Finding>)
    requires AreClaims(fs) && q.delta == None && q.whole == map["f" := {1}] && q.artifact == SpecPlan
    requires n == 3 ==> forall f :: f in fs ==> f.line == Some(1)
    ensures Limited(q, s, JudgedRound(n), sameHead, {}, RecordsOf(fs, q.pr)) == RecordsOf(fs, q.pr)
  {
    if n == 3 {
      var r := RecordsOf(fs, q.pr);
      forall k | 0 <= k < |r| ensures DemotedIfNew(r[k], DeltaLines(q), SpecPlan, {}, !s.hasFindingsList) == r[k] {
        assert fs[k] in fs;
      }
    }
  }

  lemma NoneEarlier(s: LoopState)
    requires s.findings == []
    ensures Earlier(s) == [] && Ids(Earlier(s)) == {}
  {
  }

  lemma ClaimsFinish(q: Request, s: LoopState, n: nat, sameHead: bool, fs: seq<Finding>)
    requires AreClaims(fs) && s.findings == [] && s.highest == 0
    requires q == PassOf(q.pr, q.sha, SpecPlan, fs, q.readAt, q.at)
    requires n == 3 ==> forall f :: f in fs ==> f.line == Some(1)
    ensures FinishedFindings(q, s, JudgedRound(n), sameHead, Merged(fs, map[]), []) == RecordsOf(fs, q.pr)
  {
    hide Assigned, Limited, AreClaims, RecordsOf, Fresh;
    NoneEarlier(s);
    ClaimsAssigned(q, s, fs, map[]);
    NothingAnswered(RecordsOf(fs, q.pr));
    RecordsAre(fs, q.pr);
    ClaimsLimited(q, s, n, sameHead, fs);
  }

  lemma NothingAnswered(fs: seq<Finding>)
    ensures AnsweredAll([], map[], {}) + fs == fs
  {
    assert AnsweredAll([], map[], {}) == [];
  }

  lemma RecordsAre(fs: seq<Finding>, pr: nat)
    ensures RecordsOf(fs, pr) == Numbered(fs, 0, pr, SpecPlan)
  {
  }

  /** The verdict of a first list: it approves unless a claim blocks. */
  function ClaimVerdict(q: Request, n: nat, fs: seq<Finding>): Verdict {
    Verdict(q.repo, q.pr, q.sha, q.check, Round(n), q.artifact, Approves(RecordsOf(fs, q.pr)),
            RecordsOf(fs, q.pr), None, None, q.at, q.readAt)
  }

  lemma WithinTheLimit(fs: seq<Finding>)
    requires |fs| <= MAX_FINDINGS
    ensures Capped(fs) == fs
  {
  }

  lemma ClaimPass(q: Request, s: LoopState, fs: seq<Finding>)
    requires AreClaims(fs) && s.findings == [] && !s.awaiting && s.highest == 0
    requires q == PassOf(q.pr, q.sha, SpecPlan, fs, q.readAt, q.at)
    requires s.judged >= 2 ==> forall f :: f in fs ==> f.line == Some(1)
    ensures Decide(q, s, []) == Some(ClaimVerdict(q, Min(s.judged + 1, 3), fs))
  {
    hide Merge, FinishedFindings, LocationsOf, RecordsOf, IsClaim, Approves, Capped;
    assert Filter(IsJudged, s.findings) == [];
    ClaimsMerge(fs, LocationsOf([]));
    ClaimsFinish(q, s, Min(s.judged + 1, 3), SameHead(q, s), fs);
    RecordsAre(fs, q.pr);
    WithinTheLimit(RecordsOf(fs, q.pr));
  }

  // ---------------------------------------------------------------- the state between passes

  lemma OwnState(vs: seq<Verdict>, rs: seq<Ruling>, repo: string, pr: nat)
    requires forall v :: v in vs ==> v.repo == repo && v.pr == pr && SpendsRound(v)
    ensures StateFor(vs, rs, repo, pr) == StateFrom(vs, vs, |vs|, RulingsOf(rs, repo, pr))
  {
    FilterAll((v: Verdict) => v.repo == repo && v.pr == pr, vs);
    MixedState(vs, vs, rs, repo, pr);
  }

  /** The same among verdicts of other pull requests. */
  lemma MixedState(vs: seq<Verdict>, own: seq<Verdict>, rs: seq<Ruling>, repo: string, pr: nat)
    requires VerdictsOf(vs, repo, pr) == own && forall v :: v in own ==> SpendsRound(v)
    ensures StateFor(vs, rs, repo, pr) == StateFrom(own, own, |own|, RulingsOf(rs, repo, pr))
  {
    hide StateFrom;
    FilterAll(IsLoop, own);
    FilterAll(IsJudging, own);
    FilterAll(SpendsRound, own);
  }

  lemma {:induction false} FilterNone<T(!new)>(p: T -> bool, s: seq<T>)
    requires forall x :: x in s ==> !p(x)
    ensures Filter(p, s) == []
  {
    if s != [] {
      assert s == s[..|s| - 1] + [s[|s| - 1]];
      FilterNone(p, s[..|s| - 1]);
    }
  }

  lemma NoState(vs: seq<Verdict>, rs: seq<Ruling>, repo: string, pr: nat)
    requires forall v :: v in vs ==> v.pr != pr
    ensures StateFor(vs, rs, repo, pr) == StateFrom([], [], 0, RulingsOf(rs, repo, pr))
  {
    FilterNone((v: Verdict) => v.repo == repo && v.pr == pr, vs);
  }

  /** The state after quiet rounds only. */
  lemma QuietState(vs: seq<Verdict>, rs: seq<Ruling>, repo: string, pr: nat)
    requires forall v :: v in vs ==> v.repo == repo && v.pr == pr && SpendsRound(v) && v.findings == []
    ensures var s := StateFor(vs, rs, repo, pr);
      s.findings == [] && !s.awaiting && s.highest == 0 && s.judged == |vs| && (s.hasFindingsList <==> vs != [])
  {
    OwnState(vs, rs, repo, pr);
  }

  // ---------------------------------------------------------------- events

  lemma NothingRead(vs: seq<Verdict>, q: Request)
    requires q.artifact == SpecPlan
    ensures OpenRead(World(vs, []), q) == [] && RulingsBefore([], q.readAt) == []
  {
  }

  lemma PassHappens(w: World, q: Request, v: Verdict)
    requires Review(q, w.verdicts, w.rulings) == Some(v)
    requires q.artifact != Records && q.readAt <= q.at && IsAfterAll(w, q.at) && IsUnusedCheck(w, q.sha, q.check)
    requires forall u :: u in w.verdicts ==> u.at < q.readAt
    ensures Enabled(w, Event.Pass(q)) && Next(w, Event.Pass(q)) == w.(verdicts := w.verdicts + [v])
  {
  }

  lemma RuleHappens(w: World, r: Ruling, f: Finding)
    requires IsAfterAll(w, r.at) && f.id == Some(r.finding)
    requires var s := StateFor(w.verdicts, w.rulings, r.repo, r.pr); s.awaiting && f in Unruled(s)
    ensures Enabled(w, Event.Rule(r)) && Next(w, Event.Rule(r)) == w.(rulings := w.rulings + [r])
  {
  }
}
