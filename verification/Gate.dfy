/** The independent checker of the whole verdict history (src/rail/gates/evidence.py). */
module Gate {
  import opened Wrappers
  import opened Findings
  import opened Rounds
  import opened Admission
  import opened Service
  import opened Accounting
  import opened Runs

  // ---------------------------------------------------------------- what the gate looks for

  predicate IsApprovingCode(v: Verdict) {
    v.artifact == Code && v.approve
  }

  predicate IsAccountedBy(v: Verdict, i: Id) {
    i in Accounted(v).addressed || i in Accounted(v).deferred
  }

  /** What the gate finds open just before the `k`-th verdict. */
  function OpenBefore(vs: seq<Verdict>, rs: seq<Ruling>, k: nat): set<Id>
    requires k < |vs|
  {
    OpenSet(vs[..k], RulingsBefore(rs, vs[k].at), vs[k].repo, Some(vs[k].pr))
  }

  /** What the `k`-th verdict's own pass read as open. */
  function OpenWhenRead(vs: seq<Verdict>, rs: seq<Ruling>, k: nat): set<Id>
    requires k < |vs|
  {
    OpenSet(vs[..k], RulingsBefore(rs, vs[k].readAt), vs[k].repo, Some(vs[k].pr))
  }

  /** The carry-forwards the gate reports against the `k`-th verdict. */
  function Missing(vs: seq<Verdict>, rs: seq<Ruling>, k: nat): set<Id>
    requires k < |vs|
  {
    if IsApprovingCode(vs[k]) then set i | i in OpenBefore(vs, rs, k) && !IsAccountedBy(vs[k], i)
    else {}
  }

  ghost predicate GatePasses(vs: seq<Verdict>, rs: seq<Ruling>) {
    forall k :: 0 <= k < |vs| ==> Missing(vs, rs, k) == {}
  }

  /** `carry_forward`: the first verdict that left something unaccounted, or none. */
  method CheckCarryForwards(vs: seq<Verdict>, rs: seq<Ruling>) returns (failed: Option<nat>)
    ensures failed.None? <==> GatePasses(vs, rs)
    ensures failed.Some? ==>
      && failed.value < |vs|
      && Missing(vs, rs, failed.value) != {}
      && forall k :: 0 <= k < failed.value ==> Missing(vs, rs, k) == {}
  {
    for index := 0 to |vs|
      invariant forall k :: 0 <= k < index ==> Missing(vs, rs, k) == {}
    {
      var v := vs[index];
      if v.artifact != Code || !v.approve {
        continue;
      }
      var before := RulingsBefore(rs, v.at);
      var open := OpenSet(vs[..index], before, v.repo, Some(v.pr));
      var accounted := (set i | i in Accounted(v).addressed) + (set i | i in Accounted(v).deferred);
      var missing := set i | i in open && i !in accounted;
      assert missing == Missing(vs, rs, index);
      if missing != {} {
        return Some(index);
      }
    }
    return None;
  }

  // ---------------------------------------------------------------- which carry-forwards are open

  /** A finding some approval carried on: of the carry-forward class, not fixed, and not one the
      description earned. */
  ghost predicate WasCarriedOn(vs: seq<Verdict>, repo: string, i: Id) {
    exists v, f :: v in vs && v.repo == repo && v.approve && f in v.findings
                   && f.id == Some(i) && f.klass == Some(CarryForward) && f.status != Fixed && f.file != Description
  }

  /** A finding the operator carried on before an instant, on a pull request that was approved; the
      description did not earn it. */
  ghost predicate WasRuledOn(vs: seq<Verdict>, rs: seq<Ruling>, until: int, repo: string, i: Id) {
    exists r :: r in rs && r.at < until && r.repo == repo && r.kind == RuledCarryForward && r.finding == i
                && (exists v :: v in vs && v.repo == repo && v.pr == r.pr && v.approve)
                && forall v, f :: v in vs && v.repo == repo && v.pr == r.pr && f in v.findings && f.id == Some(i) ==>
                     f.file != Description
  }

  /** Some approval says the carry-forward is addressed. */
  ghost predicate WasAddressed(vs: seq<Verdict>, repo: string, i: Id) {
    exists v :: v in vs && v.repo == repo && v.approve && v.accounting.Some? && i in v.accounting.value.addressed
  }

  /** A carry-forward of another pull request that is carried on and addressed nowhere. */
  ghost predicate IsOwedBy(vs: seq<Verdict>, rs: seq<Ruling>, until: int, repo: string, pr: nat, i: Id) {
    (WasCarriedOn(vs, repo, i) || WasRuledOn(vs, rs, until, repo, i)) && !WasAddressed(vs, repo, i) && i.pr != pr
  }

  lemma RuledOnMeans(vs: seq<Verdict>, rs: seq<Ruling>, until: int, repo: string, i: Id)
    ensures OpensByRuling(vs, RulingsBefore(rs, until), repo, i) <==> WasRuledOn(vs, rs, until, repo, i)
  {
    hide RulingsBefore;
    var read := RulingsBefore(rs, until);
    forall r ensures r in read <==> r in rs && r.at < until {
      BeforeMeans(rs, until, r);
    }
    forall r ensures RulingOpens(vs, repo, r) <==>
        && r.repo == repo && r.kind == RuledCarryForward
        && (exists v :: v in vs && v.repo == repo && v.pr == r.pr && v.approve)
        && forall v, f :: v in vs && v.repo == repo && v.pr == r.pr && f in v.findings && f.id == Some(r.finding) ==>
             f.file != Description
    {
      RulingOpensMeans(vs, repo, r);
    }
  }

  lemma RulingOpensMeans(vs: seq<Verdict>, repo: string, r: Ruling)
    ensures RulingOpens(vs, repo, r) <==>
      && r.repo == repo && r.kind == RuledCarryForward
      && (exists v :: v in vs && v.repo == repo && v.pr == r.pr && v.approve)
      && forall v, f :: v in vs && v.repo == repo && v.pr == r.pr && f in v.findings && f.id == Some(r.finding) ==>
           f.file != Description
  {
  }

  lemma BeforeMeans(rs: seq<Ruling>, until: int, r: Ruling)
    ensures r in RulingsBefore(rs, until) <==> r in rs && r.at < until
  {
  }

  lemma OpenMeans(vs: seq<Verdict>, rs: seq<Ruling>, until: int, repo: string, pr: nat, i: Id)
    ensures i in OpenSet(vs, RulingsBefore(rs, until), repo, Some(pr)) <==> IsOwedBy(vs, rs, until, repo, pr, i)
  {
    hide OpensByRuling, WasRuledOn, RulingsBefore;
    RuledOnMeans(vs, rs, until, repo, i);
    assert OpensByVerdict(vs, repo, i) <==> WasCarriedOn(vs, repo, i);
    assert IsAddressed(vs, repo, i) <==> WasAddressed(vs, repo, i);
  }

  /** What a pass reads as open: on code, what the verdicts on record and the rulings before it leave
      owed to other pull requests; nothing else. */
  lemma PassReads(run: seq<Moment>, n: nat, i: Id)
    requires IsRun(run) && n < |run| && run[n].event.Pass?
    ensures var w, q := run[n].before, run[n].event.q;
      i in run[n].open <==> q.artifact == Code && IsOwedBy(w.verdicts, w.rulings, q.readAt, q.repo, q.pr, i)
  {
    hide IsOwedBy, IsOpenCarryForward, RulingsBefore, Enabled, Next;
    var w, q := run[n].before, run[n].event.q;
    assert Happens(run[n]);
    OpenMeans(w.verdicts, w.rulings, q.readAt, q.repo, q.pr, i);
    assert i in OpenList(w.verdicts, RulingsBefore(w.rulings, q.readAt), q.repo, Some(q.pr)) <==>
      i in OpenSet(w.verdicts, RulingsBefore(w.rulings, q.readAt), q.repo, Some(q.pr));
  }

  /** What the gate reports: on an approval of code, what was owed just before it and it lists neither
      as addressed nor as deferred. */
  lemma MissingMeans(vs: seq<Verdict>, rs: seq<Ruling>, k: nat, i: Id)
    requires k < |vs|
    ensures i in Missing(vs, rs, k) <==>
      && vs[k].artifact == Code && vs[k].approve
      && IsOwedBy(vs[..k], rs, vs[k].at, vs[k].repo, vs[k].pr, i)
      && !(vs[k].accounting.Some?
           && (i in vs[k].accounting.value.addressed || i in vs[k].accounting.value.deferred))
  {
    hide IsOwedBy, IsOpenCarryForward, RulingsBefore;
    OpenMeans(vs[..k], rs, vs[k].at, vs[k].repo, vs[k].pr, i);
  }

  // ---------------------------------------------------------------- every run accounts

  /** Each approving code verdict that is not carried lists exactly what its pass read as open. */
  ghost predicate Accounts(w: World) {
    forall k :: 0 <= k < |w.verdicts| ==> AccountsAt(w.verdicts, w.rulings, k)
  }

  ghost predicate AccountsAt(vs: seq<Verdict>, rs: seq<Ruling>, k: nat)
    requires k < |vs|
  {
    IsApprovingCode(vs[k]) && vs[k].carried.None? ==>
      forall i :: IsAccountedBy(vs[k], i) <==> i in OpenWhenRead(vs, rs, k)
  }

  lemma LaterRulingsUnread(rs: seq<Ruling>, r: Ruling, t: int)
    requires r.at >= t
    ensures RulingsBefore(rs + [r], t) == RulingsBefore(rs, t)
  {
  }

  lemma RuleKeepsAccounts(w: World, r: Ruling)
    requires Inv(w) && Accounts(w) && IsAfterAll(w, r.at)
    ensures Accounts(w.(rulings := w.rulings + [r]))
  {
    forall k | 0 <= k < |w.verdicts| ensures AccountsAt(w.verdicts, w.rulings + [r], k) {
      var v := w.verdicts[k];
      assert v in w.verdicts && IsSound(v);
      LaterRulingsUnread(w.rulings, r, v.readAt);
      assert AccountsAt(w.verdicts, w.rulings, k);
    }
  }

  lemma AppendKeepsAccounts(w: World, v: Verdict)
    requires Accounts(w)
    requires AccountsAt(w.verdicts + [v], w.rulings, |w.verdicts|)
    ensures Accounts(w.(verdicts := w.verdicts + [v]))
  {
    var vs := w.verdicts + [v];
    forall k | 0 <= k < |vs| ensures AccountsAt(vs, w.rulings, k) {
      if k < |w.verdicts| {
        assert vs[..k] == w.verdicts[..k];
        assert AccountsAt(w.verdicts, w.rulings, k);
      }
    }
  }

  lemma ReviewAccounts(w: World, q: Request)
    requires Inv(w) && Review(q, w.verdicts, w.rulings).Some? && q.readAt <= q.at
    ensures AccountsAt(w.verdicts + [Review(q, w.verdicts, w.rulings).value], w.rulings, |w.verdicts|)
  {
    var v := Review(q, w.verdicts, w.rulings).value;
    var read := RulingsBefore(w.rulings, q.readAt);
    var open := OpenFor(q, w.verdicts, read);
    DecisionIsSound(q, StateRead(w, q), open);
    assert (w.verdicts + [v])[..|w.verdicts|] == w.verdicts;
    DecisionKeepsArtifact(q, StateRead(w, q), open);
    if IsApprovingCode(v) {
      StateIsGood(w, q.repo, q.pr, read);
      ApprovalAccountsForAll(q, StateRead(w, q), open);
    }
  }

  lemma DecisionKeepsArtifact(q: Request, s: LoopState, open: seq<Id>)
    requires Decide(q, s, open).Some?
    ensures Decide(q, s, open).value.artifact == q.artifact
  {
  }

  lemma FormVerdictAccounts(w: World, v: Verdict)
    requires v.artifact == Records || v.carried.Some?
    ensures AccountsAt(w.verdicts + [v], w.rulings, |w.verdicts|)
  {
  }

  lemma StepKeepsAccounts(w: World, e: Event)
    requires Inv(w) && Accounts(w) && Enabled(w, e)
    ensures Accounts(Next(w, e))
  {
    hide Accounts, AccountsAt, Review, StateFor, Unruled, Inv;
    match e
    case Pass(q) =>
      if Review(q, w.verdicts, w.rulings).Some? {
        ReviewAccounts(w, q);
        AppendKeepsAccounts(w, Review(q, w.verdicts, w.rulings).value);
      }
    case RecordsPass(v) =>
      FormVerdictAccounts(w, v);
      AppendKeepsAccounts(w, v);
    case Rule(r) => RuleKeepsAccounts(w, r);
    case CarryOver(source, sha, check, at) =>
      FormVerdictAccounts(w, Carried(w.verdicts[source], sha, check, at));
      AppendKeepsAccounts(w, Carried(w.verdicts[source], sha, check, at));
  }

  /** In every run, whatever judges, descriptions and rulings say. */
  lemma {:induction false} RunAccounts(run: seq<Moment>, k: nat)
    requires IsRun(run) && k < |run|
    ensures Accounts(run[k].before) && Accounts(run[k].after)
    decreases k
  {
    hide Enabled, Next, Inv, AccountsAt, StateRead, OpenRead;
    assert Follows(run, k) && Happens(run[k]);
    if k > 0 {
      RunAccounts(run, k - 1);
    }
    RunKeepsInv(run, k);
    StepKeepsAccounts(run[k].before, run[k].event);
  }

  /** In every run: an approving code verdict lists each carry-forward its pass read as open, as
      addressed or deferred, and no other. */
  lemma ApprovalAccounts(run: seq<Moment>, n: nat, v: Verdict)
    requires IsRun(run) && n < |run| && Appends(run[n], v) && IsApprovingCode(v)
    ensures forall i :: IsAccountedBy(v, i) <==> i in run[n].open
  {
    RecordedIsDecided(run, n, v);
    DecisionKeepsArtifact(run[n].event.q, run[n].state, run[n].open);
    ApprovalAccountsForAll(run[n].event.q, run[n].state, run[n].open);
  }

  // ---------------------------------------------------------------- what the gate finds

  /** A ruling recorded while the `k`-th pass judged opens a carry-forward it had not read. */
  predicate OpensDuring(vs: seq<Verdict>, rs: seq<Ruling>, k: nat, r: Ruling)
    requires k < |vs|
  {
    && r in rs && vs[k].readAt <= r.at < vs[k].at
    && RulingOpens(vs[..k], vs[k].repo, r)
    && !IsAddressed(vs[..k], vs[k].repo, r.finding)
    && r.finding.pr != vs[k].pr
    && r.finding !in OpenWhenRead(vs, rs, k)
  }

  lemma OpenGrowsByRulings(vs: seq<Verdict>, rs: seq<Ruling>, k: nat, i: Id)
    requires k < |vs| && vs[k].readAt <= vs[k].at
    ensures i in OpenWhenRead(vs, rs, k) ==> i in OpenBefore(vs, rs, k)
    ensures i in OpenBefore(vs, rs, k) && i !in OpenWhenRead(vs, rs, k) <==>
      exists r :: OpensDuring(vs, rs, k, r) && r.finding == i
  {
  }

  /**
   * What the gate reports against a verdict of its own pass, in every run: the carry-forwards a
   * ruling opened while that pass was judging, and nothing else.
   */
  lemma GateReportsOnlyRaces(run: seq<Moment>, n: nat, k: nat)
    requires IsRun(run) && n < |run| && k < |run[n].after.verdicts|
    requires run[n].after.verdicts[k].carried.None?
    ensures var vs, rs := run[n].after.verdicts, run[n].after.rulings;
      forall i :: i in Missing(vs, rs, k) <==>
        IsApprovingCode(vs[k]) && exists r :: OpensDuring(vs, rs, k, r) && r.finding == i
  {
    var vs, rs := run[n].after.verdicts, run[n].after.rulings;
    RunKeepsInv(run, n);
    RunAccounts(run, n);
    assert vs[k] in vs && IsSound(vs[k]);
    assert AccountsAt(vs, rs, k);
    forall i ensures i in Missing(vs, rs, k) <==>
      IsApprovingCode(vs[k]) && exists r :: OpensDuring(vs, rs, k, r) && r.finding == i
    {
      OpenGrowsByRulings(vs, rs, k, i);
    }
  }

  /** A pass reads the ledger after every verdict before its own was recorded. */
  ghost predicate ReadInOrder(vs: seq<Verdict>) {
    forall j, k :: 0 <= j < k < |vs| && vs[k].artifact != Records ==> vs[j].at < vs[k].readAt
  }

  lemma AppendReadsInOrder(vs: seq<Verdict>, v: Verdict)
    requires ReadInOrder(vs) && (v.artifact != Records ==> forall u :: u in vs ==> u.at < v.readAt)
    ensures ReadInOrder(vs + [v])
  {
  }

  lemma StepReadsInOrder(w: World, e: Event)
    requires ReadInOrder(w.verdicts) && Enabled(w, e)
    ensures ReadInOrder(Next(w, e).verdicts)
  {
    hide ReadInOrder, StateFor, OpenFor, Decide, Unruled;
    match e
    case Pass(q) =>
      if Review(q, w.verdicts, w.rulings).Some? {
        DecisionIsSound(q, StateRead(w, q), OpenRead(w, q));
        AppendReadsInOrder(w.verdicts, Review(q, w.verdicts, w.rulings).value);
      }
    case RecordsPass(v) => AppendReadsInOrder(w.verdicts, v);
    case Rule(r) =>
    case CarryOver(source, sha, check, at) =>
      AppendReadsInOrder(w.verdicts, Carried(w.verdicts[source], sha, check, at));
  }

  lemma {:induction false} RunReadsInOrder(run: seq<Moment>, n: nat)
    requires IsRun(run) && n < |run|
    ensures ReadInOrder(run[n].before.verdicts) && ReadInOrder(run[n].after.verdicts)
    decreases n
  {
    hide Enabled, Next, StateRead, OpenRead;
    assert Follows(run, n) && Happens(run[n]);
    if n > 0 {
      RunReadsInOrder(run, n - 1);
    }
    StepReadsInOrder(run[n].before, run[n].event);
  }

  /** A ruling that opens by a later approval was read by every pass that reads that approval. */
  lemma LateApprovalIsRead(vs: seq<Verdict>, rs: seq<Ruling>, k: nat, i: Id)
    requires k < |vs| && vs[k].artifact != Records && ReadInOrder(vs)
    requires IsOpenAsDocumented(vs[..k], RulingsBefore(rs, vs[k].at), vs[k].repo, Some(vs[k].pr), i)
    ensures i in OpenWhenRead(vs, rs, k)
  {
    var before, repo := vs[..k], vs[k].repo;
    if !OpensByVerdict(before, repo, i) {
      var r :| r in RulingsBefore(rs, vs[k].at) && RulingOpens(before, repo, r) && IsApprovedLater(before, repo, r)
        && r.finding == i;
      var v :| v in before && v.repo == repo && v.pr == r.pr && v.approve && v.at > r.at;
      var j :| 0 <= j < k && vs[j] == v;
      assert r in RulingsBefore(rs, vs[k].readAt);
    }
  }

  /**
   * The races come from rulings that open too early: under the documented rule, the gate would
   * report nothing against a verdict of its own pass, in any run.
   */
  lemma RacesOpenTooEarly(run: seq<Moment>, n: nat, k: nat, i: Id)
    requires IsRun(run) && n < |run| && k < |run[n].after.verdicts|
    requires run[n].after.verdicts[k].carried.None?
    ensures var vs, rs := run[n].after.verdicts, run[n].after.rulings;
      i in Missing(vs, rs, k) ==>
        !IsOpenAsDocumented(vs[..k], RulingsBefore(rs, vs[k].at), vs[k].repo, Some(vs[k].pr), i)
  {
    hide IsRun, IsOpenAsDocumented, OpenWhenRead;
    var vs, rs := run[n].after.verdicts, run[n].after.rulings;
    RunReadsInOrder(run, n);
    RunAccounts(run, n);
    assert AccountsAt(vs, rs, k);
    if i in Missing(vs, rs, k)
       && IsOpenAsDocumented(vs[..k], RulingsBefore(rs, vs[k].at), vs[k].repo, Some(vs[k].pr), i)
    {
      LateApprovalIsRead(vs, rs, k, i);
    }
  }

  /** The `j`-th verdict was judged by a pass of its own; the provenance of the `k`-th leads back
      to it, and the `k`-th repeats its judgment. */
  predicate IsSourceOf(vs: seq<Verdict>, j: nat, k: nat) {
    && j <= k < |vs| && vs[j].carried.None? && Origin(vs[k], vs[..k]) == vs[j] && Repeats(vs[j], vs[k])
  }

  predicate Repeats(u: Verdict, v: Verdict) {
    && u.repo == v.repo && u.pr == v.pr && u.artifact == v.artifact
    && u.approve == v.approve && u.findings == v.findings && u.accounting == v.accounting
  }

  ghost predicate HasSource(vs: seq<Verdict>, k: nat) {
    exists j: nat :: IsSourceOf(vs, j, k)
  }

  ghost predicate HaveSources(vs: seq<Verdict>) {
    forall k :: 0 <= k < |vs| ==> HasSource(vs, k)
  }

  lemma SourceStays(vs: seq<Verdict>, v: Verdict, k: nat)
    requires HasSource(vs, k)
    ensures HasSource(vs + [v], k)
  {
    hide Repeats, Origin;
    var j: nat :| IsSourceOf(vs, j, k);
    assert (vs + [v])[..k] == vs[..k];
    assert IsSourceOf(vs + [v], j, k);
  }

  lemma AppendKeepsSources(vs: seq<Verdict>, v: Verdict, j: nat)
    requires HaveSources(vs) && IsSourceOf(vs + [v], j, |vs|)
    ensures HaveSources(vs + [v])
  {
    hide IsSourceOf;
    forall k | 0 <= k < |vs + [v]| ensures HasSource(vs + [v], k) {
      if k < |vs| {
        hide HasSource;
        SourceStays(vs, v, k);
      }
    }
  }

  lemma DecisionIsItsOwn(q: Request, s: LoopState, open: seq<Id>)
    requires Decide(q, s, open).Some?
    ensures Decide(q, s, open).value.carried.None?
  {
    hide Await, Close, Finish, NextStep;
  }

  lemma OwnIsItsSource(vs: seq<Verdict>, v: Verdict)
    requires HaveSources(vs) && v.carried.None?
    ensures HaveSources(vs + [v])
  {
    hide HaveSources, Origin;
    assert (vs + [v])[..|vs|] == vs;
    OwnOrigin(v, vs);
    AppendKeepsSources(vs, v, |vs|);
  }

  /** A copy leads back where its source does: no verdict between them has the source's key. */
  lemma {:induction false} OriginOfCopy(vs: seq<Verdict>, source: nat, c: Verdict)
    requires HaveDistinctKeys(vs) && source < |vs| && LinksTo(c, vs[source])
    ensures Origin(c, vs) == Origin(vs[source], vs[..source])
  {
    hide Origin;
    var init, last := vs[..|vs| - 1], vs[|vs| - 1];
    assert vs == init + [last];
    OriginBack(c, init, last);
    if source < |init| {
      assert init[..source] == vs[..source];
      OriginOfCopy(init, source, c);
    }
  }

  lemma CopyKeepsSource(vs: seq<Verdict>, source: nat, sha: string, check: int, at: int)
    requires HaveSources(vs) && HaveDistinctKeys(vs) && source < |vs|
    ensures HaveSources(vs + [Carried(vs[source], sha, check, at)])
  {
    hide Origin, HaveDistinctKeys;
    assert HasSource(vs, source);
    var j: nat :| IsSourceOf(vs, j, source);
    var c := Carried(vs[source], sha, check, at);
    assert (vs + [c])[..|vs|] == vs;
    OriginOfCopy(vs, source, c);
    AppendKeepsSources(vs, c, j);
  }

  lemma StepKeepsSources(w: World, e: Event)
    requires HaveSources(w.verdicts) && HaveDistinctKeys(w.verdicts) && Enabled(w, e)
    ensures HaveSources(Next(w, e).verdicts)
  {
    hide HaveSources, HaveDistinctKeys, StateFor, OpenFor, Decide, Unruled;
    match e
    case Pass(q) =>
      if Review(q, w.verdicts, w.rulings).Some? {
        DecisionIsItsOwn(q, StateRead(w, q), OpenRead(w, q));
        OwnIsItsSource(w.verdicts, Review(q, w.verdicts, w.rulings).value);
      }
    case RecordsPass(v) => OwnIsItsSource(w.verdicts, v);
    case Rule(r) =>
    case CarryOver(source, sha, check, at) => CopyKeepsSource(w.verdicts, source, sha, check, at);
  }

  /** In every run, the provenance of each verdict leads back to one judged by a pass of its own,
      whose judgment it repeats. */
  lemma {:induction false} RunHasSources(run: seq<Moment>, n: nat)
    requires IsRun(run) && n < |run|
    ensures HaveSources(run[n].before.verdicts) && HaveSources(run[n].after.verdicts)
    decreases n
  {
    hide Enabled, Next, StateRead, OpenRead;
    assert Follows(run, n) && Happens(run[n]);
    if n > 0 {
      RunHasSources(run, n - 1);
    }
    KeysAreDistinct(run, n);
    StepKeepsSources(run[n].before, run[n].event);
  }

  /**
   * What the gate reports against any verdict, carried or not, in every run: the carry-forwards
   * open just before it that the pass it was judged in had not read.
   */
  lemma GateOnCarried(run: seq<Moment>, n: nat, j: nat, k: nat, i: Id)
    requires IsRun(run) && n < |run| && IsSourceOf(run[n].after.verdicts, j, k)
    ensures var vs, rs := run[n].after.verdicts, run[n].after.rulings;
      i in Missing(vs, rs, k) <==>
        IsApprovingCode(vs[k]) && i in OpenBefore(vs, rs, k) && i !in OpenWhenRead(vs, rs, j)
  {
    hide OpenBefore, OpenWhenRead, IsRun;
    RunAccounts(run, n);
    assert AccountsAt(run[n].after.verdicts, run[n].after.rulings, j);
  }

  /**
   * The gate finds nothing unaccounted exactly when no approving code verdict, carried or not,
   * was recorded with a carry-forward open that the pass it was judged in had not read.
   */
  lemma GatePassesOnCarried(run: seq<Moment>, n: nat)
    requires IsRun(run) && n < |run|
    ensures var vs, rs := run[n].after.verdicts, run[n].after.rulings;
      GatePasses(vs, rs) <==>
        forall j: nat, k: nat :: IsSourceOf(vs, j, k) && IsApprovingCode(vs[k]) ==>
          OpenBefore(vs, rs, k) <= OpenWhenRead(vs, rs, j)
  {
    hide OpenBefore, OpenWhenRead, IsRun, Missing, IsApprovingCode, Repeats;
    var vs, rs := run[n].after.verdicts, run[n].after.rulings;
    RunHasSources(run, n);
    forall j: nat, k: nat | IsSourceOf(vs, j, k)
      ensures Missing(vs, rs, k) == {} <==>
        (IsApprovingCode(vs[k]) ==> OpenBefore(vs, rs, k) <= OpenWhenRead(vs, rs, j))
    {
      MissingWhen(run, n, j, k);
    }
    if forall j: nat, k: nat :: IsSourceOf(vs, j, k) && IsApprovingCode(vs[k]) ==>
         OpenBefore(vs, rs, k) <= OpenWhenRead(vs, rs, j)
    {
      forall k | 0 <= k < |vs| ensures Missing(vs, rs, k) == {} {
        assert HasSource(vs, k);
      }
    }
  }

  lemma MissingWhen(run: seq<Moment>, n: nat, j: nat, k: nat)
    requires IsRun(run) && n < |run| && IsSourceOf(run[n].after.verdicts, j, k)
    ensures var vs, rs := run[n].after.verdicts, run[n].after.rulings;
      Missing(vs, rs, k) == {} <==> (IsApprovingCode(vs[k]) ==> OpenBefore(vs, rs, k) <= OpenWhenRead(vs, rs, j))
  {
    hide OpenBefore, OpenWhenRead, IsRun, Missing, Repeats, IsApprovingCode;
    var vs, rs := run[n].after.verdicts, run[n].after.rulings;
    forall i ensures i in Missing(vs, rs, k) <==>
      IsApprovingCode(vs[k]) && i in OpenBefore(vs, rs, k) && i !in OpenWhenRead(vs, rs, j)
    {
      GateOnCarried(run, n, j, k, i);
    }
  }

  /**
   * With no approval carried, the gate finds nothing unaccounted exactly when no ruling opened a
   * carry-forward while a pass that went on to approve was judging.
   */
  lemma GatePassesWhen(run: seq<Moment>, n: nat)
    requires IsRun(run) && n < |run|
    requires forall v :: v in run[n].after.verdicts ==> v.carried.None?
    ensures var vs, rs := run[n].after.verdicts, run[n].after.rulings;
      GatePasses(vs, rs) <==>
        forall k, r :: 0 <= k < |vs| && IsApprovingCode(vs[k]) ==> !OpensDuring(vs, rs, k, r)
  {
    var vs, rs := run[n].after.verdicts, run[n].after.rulings;
    forall k | 0 <= k < |vs|
      ensures Missing(vs, rs, k) == {} <==>
        (IsApprovingCode(vs[k]) ==> forall r :: !OpensDuring(vs, rs, k, r))
    {
      assert vs[k] in vs;
      GateReportsOnlyRaces(run, n, k);
      if exists r :: OpensDuring(vs, rs, k, r) {
        var r :| OpensDuring(vs, rs, k, r);
        assert IsApprovingCode(vs[k]) ==> r.finding in Missing(vs, rs, k);
      }
    }
  }
}
