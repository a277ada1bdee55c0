/** Every run of passes, rulings and carries over any number of pull requests. */
module Runs {
  import opened Wrappers
  import opened Sequences
  import opened Findings
  import opened Carry
  import opened Rounds
  import opened Service
  import opened PassShape
  import opened Blockers

  /** The ledger: verdicts and rulings in the order they were recorded. */
  datatype World = World(verdicts: seq<Verdict>, rulings: seq<Ruling>)

  datatype Event =
    | Pass(q: Request)
    | RecordsPass(v: Verdict)
    | Rule(r: Ruling)
    | CarryOver(source: nat, sha: string, check: int, at: int)

  // ---------------------------------------------------------------- steps

  predicate IsAfterAll(w: World, t: int) {
    && (forall v :: v in w.verdicts ==> v.at < t)
    && (forall r :: r in w.rulings ==> r.at < t)
  }

  /** A records-only pull request is judged on its form: plain findings, no id, no class. */
  predicate IsRecordsVerdict(v: Verdict) {
    && v.round == Mechanical && v.artifact == Records && v.accounting.None? && v.carried.None?
    && v.readAt <= v.at
    && (v.approve <==> v.findings == [])
    && forall f :: f in v.findings ==>
         f.id.None? && f.klass.None? && f.severity == Blocking && f.status == New && f.file.Path?
  }

  /** The verdict an approving source becomes on a new head. */
  function Carried(v: Verdict, sha: string, check: int, at: int): Verdict {
    v.(sha := sha, check := check, carried := Some(Source(v.sha, v.check)), at := at, readAt := at)
  }

  /** The key a verdict is recorded under is its head and check run; the ledger refuses a second
      record with other content under one key. */
  predicate IsUnusedCheck(w: World, sha: string, check: int) {
    forall v :: v in w.verdicts ==> v.sha != sha || v.check != check
  }

  /** What may happen next. Passes are serialized; a ruling may land while a pass judges. */
  ghost predicate Enabled(w: World, e: Event) {
    match e
    case Pass(q) =>
      && q.artifact != Records && q.readAt <= q.at && IsAfterAll(w, q.at) && IsUnusedCheck(w, q.sha, q.check)
      && forall v :: v in w.verdicts ==> v.at < q.readAt
    case RecordsPass(v) => IsRecordsVerdict(v) && IsAfterAll(w, v.at) && IsUnusedCheck(w, v.sha, v.check)
    case Rule(r) =>
      && IsAfterAll(w, r.at)
      && var s := StateFor(w.verdicts, w.rulings, r.repo, r.pr);
         s.awaiting && exists f :: f in Unruled(s) && f.id == Some(r.finding)
    case CarryOver(source, sha, check, at) =>
      source < |w.verdicts| && w.verdicts[source].approve && IsAfterAll(w, at) && IsUnusedCheck(w, sha, check)
  }

  ghost function Next(w: World, e: Event): World
    requires Enabled(w, e)
  {
    match e
    case Pass(q) =>
      var v := Review(q, w.verdicts, w.rulings);
      if v.None? then w else w.(verdicts := w.verdicts + [v.value])
    case RecordsPass(v) => w.(verdicts := w.verdicts + [v])
    case Rule(r) => w.(rulings := w.rulings + [r])
    case CarryOver(source, sha, check, at) =>
      w.(verdicts := w.verdicts + [Carried(w.verdicts[source], sha, check, at)])
  }

  /** The state a pass starts from. */
  ghost function StateRead(w: World, q: Request): LoopState {
    StateFor(w.verdicts, RulingsBefore(w.rulings, q.readAt), q.repo, q.pr)
  }

  /** The carry-forwards a pass must account for. */
  ghost function OpenRead(w: World, q: Request): seq<Id> {
    OpenFor(q, w.verdicts, RulingsBefore(w.rulings, q.readAt))
  }

  /**
   * One event of a run, with the ledger before and after it. A pass also has what it read: the
   * state of its loop and the open carry-forwards.
   */
  datatype Moment = Moment(before: World, event: Event, state: LoopState, open: seq<Id>, after: World)

  ghost predicate Happens(m: Moment) {
    && Enabled(m.before, m.event) && m.after == Next(m.before, m.event)
    && (m.event.Pass? ==> m.state == StateRead(m.before, m.event.q) && m.open == OpenRead(m.before, m.event.q))
  }

  predicate Follows(run: seq<Moment>, k: nat)
    requires k < |run|
  {
    run[k].before == if k == 0 then World([], []) else run[k - 1].after
  }

  /** The moments follow one another from an empty ledger. */
  ghost predicate IsRun(run: seq<Moment>) {
    && (forall k {:trigger Happens(run[k])} :: 0 <= k < |run| ==> Happens(run[k]))
    && (forall k {:trigger Follows(run, k)} :: 0 <= k < |run| ==> Follows(run, k))
  }

  /** A pass that appends `v`. */
  predicate Appends(m: Moment, v: Verdict) {
    m.event.Pass? && m.after.verdicts == m.before.verdicts + [v]
  }

  // ---------------------------------------------------------------- one pull request's history

  /** The verdicts of a pull request's loop, oldest first. */
  function History(vs: seq<Verdict>, repo: string, pr: nat): seq<Verdict> {
    Filter(IsLoop, VerdictsOf(vs, repo, pr))
  }

  predicate IsIn(v: Verdict, repo: string, pr: nat) {
    IsLoop(v) && v.repo == repo && v.pr == pr
  }

  lemma HistoryMeans(vs: seq<Verdict>, repo: string, pr: nat)
    ensures forall v :: v in History(vs, repo, pr) <==> v in vs && IsIn(v, repo, pr)
  {
  }

  lemma HistoryGrows(vs: seq<Verdict>, v: Verdict, repo: string, pr: nat)
    ensures History(vs + [v], repo, pr) ==
      if IsIn(v, repo, pr) then History(vs, repo, pr) + [v] else History(vs, repo, pr)
  {
    var own := VerdictsOf(vs, repo, pr);
    FilterSnoc((x: Verdict) => x.repo == repo && x.pr == pr, vs, v);
    if v.repo == repo && v.pr == pr {
      FilterSnoc(IsLoop, own, v);
    }
  }

  // ---------------------------------------------------------------- invariants of every run

  /** The same id on one pull request is the same finding, whatever verdict holds it. */
  ghost predicate IdsNameOneFinding(w: World) {
    forall u, v, f, g ::
      (u in w.verdicts && v in w.verdicts && IsLoop(u) && IsIn(v, u.repo, u.pr)
       && f in u.findings && g in v.findings && f.id == g.id) ==> SameClaim(f, g)
  }

  predicate IsRuledFinding(w: World, r: Ruling, v: Verdict, f: Finding) {
    v in w.verdicts && IsIn(v, r.repo, r.pr) && f in v.findings && f.id == Some(r.finding) && !IsBodyDerived(f)
  }

  /** A ruling names a finding on record, never one the description alone decides. */
  ghost predicate RulingsNameFindings(w: World) {
    forall r :: r in w.rulings ==> exists v, f :: IsRuledFinding(w, r, v, f)
  }

  ghost predicate FindingsAreGood(w: World) {
    forall v :: v in w.verdicts ==>
      if IsLoop(v) then GoodFindings(v.findings, v.pr)
      else forall f :: f in v.findings ==> f.id.None? && f.klass.None? && IsJudged(f)
  }

  /** A label is one of the three rounds; only an approving verdict is carried; approval means
      no open blocker. */
  predicate IsSound(v: Verdict) {
    && (v.round.Round? ==> 1 <= v.round.n <= 3)
    && (v.carried.Some? ==> v.approve)
    && (v.approve ==> forall f :: f in v.findings ==> !OpenBlocker(f))
    && (v.round == AwaitingRuling ==> !v.approve)
    && v.readAt <= v.at
  }

  ghost predicate TimesGrow(w: World) {
    && (forall i, j :: 0 <= i < j < |w.verdicts| ==> w.verdicts[i].at < w.verdicts[j].at)
    && (forall i, j :: 0 <= i < j < |w.rulings| ==> w.rulings[i].at < w.rulings[j].at)
  }

  ghost predicate Inv(w: World) {
    && TimesGrow(w)
    && (forall v :: v in w.verdicts ==> IsSound(v))
    && FindingsAreGood(w)
    && IdsNameOneFinding(w)
    && RulingsNameFindings(w)
  }

  // ---------------------------------------------------------------- the state is well formed

  lemma LatestIsIn(w: World, repo: string, pr: nat, rs: seq<Ruling>)
    requires Inv(w)
    ensures var s := StateFor(w.verdicts, rs, repo, pr);
      && GoodFindings(s.findings, pr)
      && (forall v, f :: v in w.verdicts && IsIn(v, repo, pr) && f in v.findings ==>
            f.id.Some? && f.id.value.pr == pr && f.id.value.n <= s.highest)
      && (s.findings != [] ==> exists v :: v in w.verdicts && IsIn(v, repo, pr) && v.findings == s.findings)
  {
    var h := History(w.verdicts, repo, pr);
    HistoryMeans(w.verdicts, repo, pr);
    if h != [] {
      assert h[|h| - 1] in h;
    }
  }

  /** A ruled id is one of the pull request's own. */
  lemma RuledIdIsOwn(w: World, r: Ruling) returns (v: Verdict, g: Finding)
    requires Inv(w) && r in w.rulings
    ensures IsRuledFinding(w, r, v, g) && r.finding.pr == r.pr
  {
    v, g :| IsRuledFinding(w, r, v, g);
    assert IsRecorded(g, v.pr);
  }

  /** Whatever verdict holds a ruled id, the finding behind it needed that ruling. */
  lemma RuledIsNotBodyDerived(w: World, r: Ruling, u: Verdict, f: Finding)
    requires Inv(w) && r in w.rulings
    requires u in w.verdicts && IsIn(u, r.repo, r.pr) && f in u.findings && f.id == Some(r.finding)
    ensures !IsBodyDerived(f)
  {
    var v, g := RuledIdIsOwn(w, r);
    assert SameClaim(g, f);
  }

  lemma RulingsAreGood(w: World, repo: string, pr: nat, rs: seq<Ruling>)
    requires Inv(w) && forall r :: r in rs ==> r in w.rulings
    ensures var s := StateFor(w.verdicts, rs, repo, pr);
      forall i :: i in s.rulings ==>
        s.rulings[i] in w.rulings && s.rulings[i].repo == repo && s.rulings[i].pr == pr && s.rulings[i].finding == i
  {
  }

  lemma StateIsGood(w: World, repo: string, pr: nat, rs: seq<Ruling>)
    requires Inv(w) && forall r :: r in rs ==> r in w.rulings
    ensures GoodState(StateFor(w.verdicts, rs, repo, pr), pr)
  {
    var s := StateFor(w.verdicts, rs, repo, pr);
    LatestIsIn(w, repo, pr, rs);
    RulingsAreGood(w, repo, pr, rs);
    forall f | f in s.findings
      ensures f.id.value.n <= s.highest && (IsRuledIn(s, f) ==> !IsBodyDerived(f))
    {
      var v :| v in w.verdicts && IsIn(v, repo, pr) && v.findings == s.findings;
      if IsRuledIn(s, f) {
        RuledIsNotBodyDerived(w, s.rulings[f.id.value], v, f);
      }
    }
    forall i | i in s.rulings ensures i.pr == pr && i.n <= s.highest {
      var v, g := RuledIdIsOwn(w, s.rulings[i]);
      assert g in v.findings;
    }
    SomeVerdictMeansHistory(w, repo, pr, rs);
  }

  lemma SomeVerdictMeansHistory(w: World, repo: string, pr: nat, rs: seq<Ruling>)
    ensures var s := StateFor(w.verdicts, rs, repo, pr);
      && (s.findings != [] || s.judged > 0 ==> s.hasFindingsList)
      && (s.awaiting ==> s.findings != [])
  {
  }

  // ---------------------------------------------------------------- each step keeps the invariants

  lemma DecisionIsSound(q: Request, s: LoopState, open: seq<Id>)
    requires Decide(q, s, open).Some? && q.readAt <= q.at
    ensures var v := Decide(q, s, open).value;
      IsSound(v) && IsIn(v, q.repo, q.pr) && v.at == q.at && v.readAt == q.readAt && v.carried.None?
  {
    ApproveMeansNoOpenBlocker(q, s, open);
    StepLabelIsSound(s);
  }

  lemma StepLabelIsSound(s: LoopState)
    ensures var l := LabelOf(NextStep(s)); l != Mechanical && (l.Round? ==> 1 <= l.n <= 3)
  {
  }

  lemma ReviewIsLawful(w: World, q: Request)
    requires Inv(w) && Review(q, w.verdicts, w.rulings).Some?
    ensures LawfulList(StateRead(w, q), q.pr, Review(q, w.verdicts, w.rulings).value.findings)
  {
    var read := RulingsBefore(w.rulings, q.readAt);
    StateIsGood(w, q.repo, q.pr, read);
    PassIsLawful(q, StateRead(w, q), OpenFor(q, w.verdicts, read));
  }

  /** An id a pass records is new to the pull request, or names the finding it always named. */
  lemma ReviewReusesNoId(w: World, q: Request, u: Verdict, f: Finding, g: Finding)
    requires Inv(w) && Review(q, w.verdicts, w.rulings).Some?
    requires u in w.verdicts && IsIn(u, q.repo, q.pr) && f in u.findings
    requires g in Review(q, w.verdicts, w.rulings).value.findings && f.id == g.id
    ensures SameClaim(f, g)
  {
    var s := StateRead(w, q);
    var read := RulingsBefore(w.rulings, q.readAt);
    ReviewIsLawful(w, q);
    LatestIsIn(w, q.repo, q.pr, read);
    assert f.id.value.n <= s.highest;
    assert ContinuesSome(s, g);
    var o :| o in s.findings && Continues(s, o, g);
    var last :| last in w.verdicts && IsIn(last, q.repo, q.pr) && last.findings == s.findings;
    assert SameClaim(f, o);
  }

  /** `v` repeats an id of an earlier verdict only for the finding it names there. */
  ghost predicate ReusesNoId(w: World, v: Verdict) {
    forall u, f, g ::
      (u in w.verdicts && IsIn(u, v.repo, v.pr) && f in u.findings && g in v.findings && f.id == g.id)
      ==> SameClaim(f, g)
  }

  ghost predicate IsGoodVerdict(v: Verdict) {
    if IsLoop(v) then GoodFindings(v.findings, v.pr)
    else forall f :: f in v.findings ==> f.id.None? && f.klass.None? && IsJudged(f)
  }

  lemma AppendedIdsNameOneFinding(w: World, v: Verdict)
    requires IdsNameOneFinding(w)
    requires IsLoop(v) ==> DistinctIds(v.findings) && ReusesNoId(w, v)
    ensures IdsNameOneFinding(w.(verdicts := w.verdicts + [v]))
  {
    var x := w.(verdicts := w.verdicts + [v]);
    forall a, b, f, g | a in x.verdicts && b in x.verdicts && IsLoop(a) && IsIn(b, a.repo, a.pr)
      && f in a.findings && g in b.findings && f.id == g.id
      ensures SameClaim(f, g)
    {
      if a == v && b == v {
        SameIdSameFinding(v.findings, f, g);
      } else if a == v && b in w.verdicts {
        assert SameClaim(g, f);
      } else if a in w.verdicts && b == v {
        assert SameClaim(f, g);
      }
    }
  }

  lemma MoreVerdictsKeepRulings(w: World, v: Verdict)
    requires RulingsNameFindings(w)
    ensures RulingsNameFindings(w.(verdicts := w.verdicts + [v]))
  {
    var x := w.(verdicts := w.verdicts + [v]);
    forall r | r in x.rulings ensures exists u, f :: IsRuledFinding(x, r, u, f) {
      var u, f :| IsRuledFinding(w, r, u, f);
      assert IsRuledFinding(x, r, u, f);
    }
  }

  lemma AppendedInv(w: World, v: Verdict)
    requires Inv(w) && IsSound(v) && IsAfterAll(w, v.at) && IsGoodVerdict(v)
    requires IsLoop(v) ==> ReusesNoId(w, v)
    ensures Inv(w.(verdicts := w.verdicts + [v]))
  {
    AppendedIdsNameOneFinding(w, v);
    MoreVerdictsKeepRulings(w, v);
  }

  lemma PassKeepsInv(w: World, q: Request)
    requires Inv(w) && Enabled(w, Pass(q))
    ensures Inv(Next(w, Pass(q)))
  {
    var r := Review(q, w.verdicts, w.rulings);
    if r.Some? {
      var v := r.value;
      DecisionIsSound(q, StateRead(w, q), OpenFor(q, w.verdicts, RulingsBefore(w.rulings, q.readAt)));
      ReviewIsLawful(w, q);
      forall u, f, g | u in w.verdicts && IsIn(u, v.repo, v.pr)
        && f in u.findings && g in v.findings && f.id == g.id
        ensures SameClaim(f, g)
      {
        ReviewReusesNoId(w, q, u, f, g);
      }
      AppendedInv(w, v);
    }
  }

  lemma CarryKeepsInv(w: World, source: nat, sha: string, check: int, at: int)
    requires Inv(w) && Enabled(w, CarryOver(source, sha, check, at))
    ensures Inv(Next(w, CarryOver(source, sha, check, at)))
  {
    var v := w.verdicts[source];
    assert v in w.verdicts;
    var c := Carried(v, sha, check, at);
    assert IsSound(v) && IsGoodVerdict(v);
    assert IsLoop(v) ==> ReusesNoId(w, c);
    AppendedInv(w, c);
  }

  lemma AppendedRulingNamesFinding(w: World, r: Ruling, v: Verdict, f: Finding)
    requires RulingsNameFindings(w) && IsRuledFinding(w, r, v, f)
    ensures RulingsNameFindings(w.(rulings := w.rulings + [r]))
  {
    var x := w.(rulings := w.rulings + [r]);
    assert IsRuledFinding(x, r, v, f);
    forall p | p in w.rulings ensures exists u, g :: IsRuledFinding(x, p, u, g) {
      var u, g :| IsRuledFinding(w, p, u, g);
      assert IsRuledFinding(x, p, u, g);
    }
  }

  lemma AppendedRulingInv(w: World, r: Ruling, v: Verdict, f: Finding)
    requires Inv(w) && IsAfterAll(w, r.at) && IsRuledFinding(w, r, v, f)
    ensures Inv(w.(rulings := w.rulings + [r]))
  {
    AppendedRulingNamesFinding(w, r, v, f);
  }

  lemma UnruledIsOnRecord(w: World, r: Ruling, f: Finding) returns (v: Verdict)
    requires Inv(w)
    requires f in Unruled(StateFor(w.verdicts, w.rulings, r.repo, r.pr)) && f.id == Some(r.finding)
    ensures IsRuledFinding(w, r, v, f)
  {
    LatestIsIn(w, r.repo, r.pr, w.rulings);
    var s := StateFor(w.verdicts, w.rulings, r.repo, r.pr);
    v :| v in w.verdicts && IsIn(v, r.repo, r.pr) && v.findings == s.findings;
  }

  lemma RuleKeepsInv(w: World, r: Ruling)
    requires Inv(w) && Enabled(w, Rule(r))
    ensures Inv(Next(w, Rule(r)))
  {
    var f :| f in Unruled(StateFor(w.verdicts, w.rulings, r.repo, r.pr)) && f.id == Some(r.finding);
    var v := UnruledIsOnRecord(w, r, f);
    AppendedRulingInv(w, r, v, f);
  }

  lemma StepKeepsInv(w: World, e: Event)
    requires Inv(w) && Enabled(w, e)
    ensures Inv(Next(w, e))
  {
    match e
    case Pass(q) => PassKeepsInv(w, q);
    case RecordsPass(v) => AppendedInv(w, v);
    case Rule(r) => RuleKeepsInv(w, r);
    case CarryOver(source, sha, check, at) => CarryKeepsInv(w, source, sha, check, at);
  }

  /** Every run keeps the invariants. */
  lemma {:induction false} RunKeepsInv(run: seq<Moment>, k: nat)
    requires IsRun(run) && k < |run|
    ensures Inv(run[k].before) && Inv(run[k].after)
    decreases k
  {
    assert Follows(run, k) && Happens(run[k]);
    if k > 0 {
      RunKeepsInv(run, k - 1);
    }
    StepKeepsInv(run[k].before, run[k].event);
  }

  /** No two verdicts are recorded under one key. */
  ghost predicate HaveDistinctKeys(vs: seq<Verdict>) {
    forall i, j :: 0 <= i < j < |vs| ==> vs[i].sha != vs[j].sha || vs[i].check != vs[j].check
  }

  lemma DecidedKey(q: Request, s: LoopState, open: seq<Id>)
    requires Decide(q, s, open).Some?
    ensures Decide(q, s, open).value.sha == q.sha && Decide(q, s, open).value.check == q.check
  {
    hide Await, Close, Finish, NextStep;
  }

  lemma AppendKeepsKeys(w: World, v: Verdict)
    requires HaveDistinctKeys(w.verdicts) && IsUnusedCheck(w, v.sha, v.check)
    ensures HaveDistinctKeys(w.verdicts + [v])
  {
  }

  lemma StepKeepsKeys(w: World, e: Event)
    requires HaveDistinctKeys(w.verdicts) && Enabled(w, e)
    ensures HaveDistinctKeys(Next(w, e).verdicts)
  {
    hide StateFor, OpenFor, Decide, Unruled, HaveDistinctKeys;
    match e
    case Pass(q) =>
      if Review(q, w.verdicts, w.rulings).Some? {
        DecidedKey(q, StateRead(w, q), OpenRead(w, q));
        AppendKeepsKeys(w, Review(q, w.verdicts, w.rulings).value);
      }
    case RecordsPass(v) => AppendKeepsKeys(w, v);
    case Rule(r) =>
    case CarryOver(source, sha, check, at) => AppendKeepsKeys(w, Carried(w.verdicts[source], sha, check, at));
  }

  /** In every run, the ledger never meets a verdict under a key it holds. */
  lemma {:induction false} KeysAreDistinct(run: seq<Moment>, k: nat)
    requires IsRun(run) && k < |run|
    ensures HaveDistinctKeys(run[k].before.verdicts) && HaveDistinctKeys(run[k].after.verdicts)
    decreases k
  {
    hide Enabled, Next, StateRead, OpenRead;
    assert Follows(run, k) && Happens(run[k]);
    if k > 0 {
      KeysAreDistinct(run, k - 1);
    }
    StepKeepsKeys(run[k].before, run[k].event);
  }

  /** A pass that records `v` decided it from what it read. */
  lemma RecordedIsDecided(run: seq<Moment>, k: nat, v: Verdict)
    requires IsRun(run) && k < |run| && Appends(run[k], v)
    ensures Decide(run[k].event.q, run[k].state, run[k].open) == Some(v)
    ensures run[k].event.q.readAt <= run[k].event.q.at
    ensures GoodState(run[k].state, run[k].event.q.pr)
  {
    var m := run[k];
    assert Happens(m);
    RunKeepsInv(run, k);
    StateIsGood(m.before, m.event.q.repo, m.event.q.pr, RulingsBefore(m.before.rulings, m.event.q.readAt));
    assert m.after.verdicts != m.before.verdicts;
    assert m.after.verdicts[|m.before.verdicts|] == v;
  }
}
