/** The loops of one pass, each against its specification (src/rail/reviewer/service.py, carry.py). */
module ServiceLoops {
  import opened Wrappers
  import opened Sequences
  import opened Findings
  import Carry
  import opened Admission

  // ---------------------------------------------------------------- where a finding lies

  /** `headers.resolve`. */
  method ResolvePlace(place: Place, paths: set<string>) returns (r: Resolved)
    ensures r == Resolve(place, paths)
  {
    var matches := Matches(place, paths);
    if matches == {} {
      return Missing;
    }
    var p :| p in matches;
    if matches == {p} {
      return At(p);
    }
    return Ambiguous;
  }

  /** With distinct ids there is one place to look. */
  lemma LocationAt(fs: seq<Finding>, f: Finding)
    requires DistinctIds(fs) && f in fs && f.id.Some?
    ensures f.id.value in LocationsOf(fs) && LocationsOf(fs)[f.id.value] == (f.file, f.line)
  {
  }

  lemma IdsSnoc(fs: seq<Finding>, f: Finding)
    ensures Ids(fs + [f]) == if f.id.None? then Ids(fs) else Ids(fs) + {f.id.value}
  {
    assert f in fs + [f];
  }

  lemma HasId(fs: seq<Finding>, i: Id) returns (f: Finding)
    requires i in Ids(fs)
    ensures f in fs && f.id == Some(i)
  {
    f :| f in fs && f.id == Some(i);
  }

  lemma PrefixIsDistinct(fs: seq<Finding>, n: nat)
    requires DistinctIds(fs) && n <= |fs|
    ensures DistinctIds(fs[..n])
  {
  }

  lemma LocationSnoc(fs: seq<Finding>, f: Finding)
    requires DistinctIds(fs) && DistinctIds(fs + [f])
    ensures LocationsOf(fs + [f]) ==
      if f.id.None? then LocationsOf(fs) else LocationsOf(fs)[f.id.value := (f.file, f.line)]
  {
    hide DistinctIds, LocationsOf, Ids;
    var all := fs + [f];
    IdsSnoc(fs, f);
    if f.id.Some? {
      LocationAt(all, f);
    }
    forall i | i in Ids(all) && f.id != Some(i) ensures LocationsOf(all)[i] == LocationsOf(fs)[i] {
      var g := HasId(all, i);
      LocationAt(all, g);
      LocationAt(fs, g);
    }
  }

  lemma NoLocations()
    ensures LocationsOf([]) == map[]
  {
  }

  /** The location of every judged finding on record. */
  method CollectLocations(fs: seq<Finding>) returns (m: Locations)
    requires DistinctIds(fs)
    ensures m == LocationsOf(fs)
  {
    hide LocationsOf, DistinctIds;
    m := map[];
    assert fs[..0] == [];
    NoLocations();
    for n := 0 to |fs|
      invariant m == LocationsOf(fs[..n])
    {
      assert fs[..n + 1] == fs[..n] + [fs[n]];
      PrefixIsDistinct(fs, n);
      PrefixIsDistinct(fs, n + 1);
      LocationSnoc(fs[..n], fs[n]);
      if fs[n].id.Some? {
        m := m[fs[n].id.value := (fs[n].file, fs[n].line)];
      }
    }
    assert fs[..|fs|] == fs;
  }

  // ---------------------------------------------------------------- what a reply may say

  /** `_within_part`: a new claim at an unseen location never blocks. */
  method DemoteUnseen(p: PartReply, known: set<Id>, files: set<string>) returns (r: JudgeReply)
    ensures r == WithinPart(p, known, files)
  {
    hide SeenOrDemoted, Resolve, Seen;
    var sight := if p.reply.sight.None? then Some(p.wholeSight) else p.reply.sight;
    if p.reply.verdict.None? || !p.readable {
      return p.reply.(sight := sight);
    }
    var v := p.reply.verdict.value;
    var findings: seq<Finding> := [];
    for n := 0 to |v.findings|
      invariant |findings| == n
      invariant forall k :: 0 <= k < n ==>
        findings[k] == SeenOrDemoted(v.findings[k], sight, known, files, p.outsideIsUnseen)
    {
      var f := DemoteOne(v.findings[n], sight, known, files, p.outsideIsUnseen);
      findings := findings + [f];
    }
    ghost var demote := (f: Finding) => SeenOrDemoted(f, sight, known, files, p.outsideIsUnseen);
    assert findings == Map(demote, v.findings);
    return JudgeReply(Some(v.(findings := findings)), sight);
  }

  method DemoteOne(f: Finding, sight: Option<Sight>, known: set<Id>, files: set<string>, outsideIsUnseen: bool)
    returns (g: Finding)
    ensures g == SeenOrDemoted(f, sight, known, files, outsideIsUnseen)
  {
    var path := ResolvePlace(f.file, files);
    g := f;
    if !(f.id.Some? && f.id.value in known) && !Carry.IsMechanical(f)
       && ((path.Missing? && outsideIsUnseen) || path.Ambiguous? || (path.At? && !Seen(sight, path.path, f.line)))
    {
      g := f.(severity := Important, klass := Some(Note),
              evidence := f.evidence + " [not in the part this judge read]");
    }
  }

  /** `keep`: whether a reply may speak of one earlier finding. */
  method Keep(sight: Option<Sight>, i: Id, j: Judgement, known: Locations) returns (allowed: bool)
    ensures allowed == MayAnswer(sight, i, known, j.judgedFiles, j.readable, j.excerpted)
  {
    hide Resolve;
    if i !in known {
      return true;
    }
    var path := ResolvePlace(known[i].0, j.judgedFiles);
    match path
    case Missing => return j.readable && i in j.excerpted;
    case Ambiguous => return false;
    case At(p) => return j.readable && Seen(sight, p, known[i].1);
  }

  method KeepFindings(fs: seq<Finding>, sight: Option<Sight>, j: Judgement, known: Locations, ghost may: Id -> bool)
    returns (kept: seq<Finding>)
    requires forall i :: may(i) == MayAnswer(sight, i, known, j.judgedFiles, j.readable, j.excerpted)
    ensures kept == Filter((f: Finding) => f.id.None? || may(f.id.value), fs)
  {
    hide MayAnswer, Filter;
    ghost var keeps := (f: Finding) => f.id.None? || may(f.id.value);
    kept := [];
    FilterNothing(keeps);
    for n := 0 to |fs|
      invariant kept == Filter(keeps, fs[..n])
    {
      var f := fs[n];
      assert fs[..n + 1] == fs[..n] + [f];
      FilterSnoc(keeps, fs[..n], f);
      var allowed := true;
      if f.id.Some? {
        allowed := Keep(sight, f.id.value, j, known);
      }
      if allowed {
        kept := kept + [f];
      }
    }
    assert fs[..|fs|] == fs;
  }

  method KeepAnswers(answers: seq<Answer>, sight: Option<Sight>, j: Judgement, known: Locations, ghost may: Id -> bool)
    returns (kept: seq<Answer>)
    requires forall i :: may(i) == MayAnswer(sight, i, known, j.judgedFiles, j.readable, j.excerpted)
    ensures kept == Filter((a: Answer) => a.ref.CF? || may(a.ref.id), answers)
  {
    hide MayAnswer, Filter;
    ghost var keeps := (a: Answer) => a.ref.CF? || may(a.ref.id);
    kept := [];
    FilterNothing(keeps);
    for n := 0 to |answers|
      invariant kept == Filter(keeps, answers[..n])
    {
      var a := answers[n];
      assert answers[..n + 1] == answers[..n] + [a];
      FilterSnoc(keeps, answers[..n], a);
      var allowed := true;
      if a.ref.F? {
        allowed := Keep(sight, a.ref.id, j, known);
      }
      if allowed {
        kept := kept + [a];
      }
    }
    assert answers[..|answers|] == answers;
  }

  lemma FilterNothing<T(!new)>(p: T -> bool)
    ensures Filter(p, []) == []
  {
  }

  /** `_admissible`: only words about what the judge saw may move an earlier finding. */
  method Admit(reply: JudgeReply, j: Judgement, known: Locations) returns (r: JudgeReply)
    ensures r == Admissible(reply, j, known)
  {
    hide MayAnswer, Filter;
    if reply.verdict.None? {
      return reply;
    }
    var v := reply.verdict.value;
    ghost var may := i => MayAnswer(reply.sight, i, known, j.judgedFiles, j.readable, j.excerpted);
    var findings := KeepFindings(v.findings, reply.sight, j, known, may);
    var previous := KeepAnswers(v.previous, reply.sight, j, known, may);
    return reply.(verdict := Some(JudgeVerdict(findings, previous)));
  }

  /** The verdicts that may speak, reply by reply. */
  method Listen(j: Judgement, known: Locations) returns (vs: seq<JudgeVerdict>)
    ensures vs == HeardVerdicts(j, known, |j.replies|)
  {
    hide WithinPart, Admissible;
    vs := [];
    for n := 0 to |j.replies|
      invariant vs == HeardVerdicts(j, known, n)
    {
      var part := DemoteUnseen(j.replies[n], known.Keys, j.judgedFiles);
      var reply := Admit(part, j, known);
      if reply.verdict.Some? {
        vs := vs + [reply.verdict.value];
      }
    }
  }

  // ---------------------------------------------------------------- merging

  /** The findings of one more verdict, none twice. */
  method ExtendFindings(fs: seq<Finding>, more: seq<Finding>) returns (out: seq<Finding>)
    ensures out == Extend(fs, more)
  {
    out := fs;
    assert more[0..] == more;
    for n := 0 to |more|
      invariant Extend(out, more[n..]) == Extend(fs, more)
    {
      assert more[n..][1..] == more[n + 1..];
      if more[n] !in out {
        out := out + [more[n]];
      }
    }
  }

  /** The answers of one more verdict: "still open" wins over any other. */
  method FoldAnswers(m: map<Ref, AnswerStatus>, answers: seq<Answer>) returns (out: map<Ref, AnswerStatus>)
    ensures out == Fold(m, answers)
  {
    out := m;
    for n := 0 to |answers|
      invariant out == Fold(m, answers[..n])
    {
      assert answers[..n + 1][..n] == answers[..n];
      var a := answers[n];
      if !(a.ref in out && out[a.ref] == AnsweredOpen) {
        out := out[a.ref := a.status];
      }
    }
    assert answers[..|answers|] == answers;
  }

  /** `_merge`. */
  method MergeReplies(j: Judgement, known: Locations) returns (m: Option<Merged>)
    ensures m == Merge(j, known)
  {
    hide HeardVerdicts, Extend, Fold, Capped;
    var vs := Listen(j, known);
    var findings: seq<Finding> := [];
    var answers: map<Ref, AnswerStatus> := map[];
    for n := 0 to |vs|
      invariant findings == MergedFindings(vs[..n]) && answers == MergedAnswers(vs[..n])
    {
      assert vs[..n + 1][..n] == vs[..n];
      findings := ExtendFindings(findings, vs[n].findings);
      answers := FoldAnswers(answers, vs[n].previous);
    }
    assert vs[..|vs|] == vs;
    var kept := Capped(findings);
    if vs == [] || |kept| > MAX_FINDINGS {
      return None;
    }
    return Some(Merged(kept, answers));
  }

  // ---------------------------------------------------------------- the description

  lemma GapsSnoc(open: seq<Id>, cf: Id, section: Carry.Section)
    ensures Carry.MechanicalBlockers(open + [cf], section) == Carry.MechanicalBlockers(open, section) +
      var gap := Carry.GapOf(cf, section); if gap.Some? then [gap.value] else []
  {
  }

  /** `mechanical_blockers`. */
  method FindGaps(open: seq<Id>, section: Carry.Section) returns (out: seq<Finding>)
    ensures out == Carry.MechanicalBlockers(open, section)
  {
    hide Carry.MechanicalBlockers;
    out := [];
    NoGaps(section);
    for n := 0 to |open|
      invariant out == Carry.MechanicalBlockers(open[..n], section)
    {
      var cf := open[n];
      assert open[..n + 1] == open[..n] + [cf];
      GapsSnoc(open[..n], cf, section);
      if cf !in section {
        out := out + [Carry.NotAccountedBlocker(cf)];
      } else if section[cf].Deferred? && section[cf].reason == "" {
        out := out + [Carry.DeferredNoReasonBlocker(cf)];
      }
    }
    assert open[..|open|] == open;
  }

  lemma NoGaps(section: Carry.Section)
    ensures Carry.MechanicalBlockers([], section) == []
  {
  }
}
