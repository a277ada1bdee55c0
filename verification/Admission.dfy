/** Which words of a judge may move a finding (src/rail/reviewer/service.py, headers.py). */
module Admission {
  import opened Wrappers
  import opened Sequences
  import opened Findings
  import Carry

  // ---------------------------------------------------------------- paths and sight

  datatype Resolved = Missing | Ambiguous | At(path: string)

  predicate StartsWith(s: string, prefix: string) {
    prefix <= s
  }

  /** A spelling and, when it carries one of the three prefixes, the spelling without it. */
  function Candidates(spelling: string): set<string> {
    {spelling} +
    if StartsWith(spelling, "./") then {spelling[2..]}
    else if StartsWith(spelling, "a/") || StartsWith(spelling, "b/") then {spelling[2..]}
    else {}
  }

  /** The judged paths a finding's place can mean; the description is not a file. */
  function Matches(place: Place, paths: set<string>): set<string> {
    if place.Path? then Candidates(place.spelling) * paths else {}
  }

  /** `headers.resolve`. */
  ghost function Resolve(place: Place, paths: set<string>): (r: Resolved)
    ensures r.Missing? <==> Matches(place, paths) == {}
    ensures r.At? <==> exists p :: Matches(place, paths) == {p}
    ensures r.At? ==> Matches(place, paths) == {r.path}
  {
    var matches := Matches(place, paths);
    if matches == {} then Missing
    else
      var p :| p in matches;
      if matches == {p} then At(p) else Ambiguous
  }

  /** The judge wrote the path, or a prefix of a diff header and the path. */
  predicate Spells(spelling: string, path: string) {
    spelling == path || spelling == "./" + path || spelling == "a/" + path || spelling == "b/" + path
  }

  lemma MatchesMean(place: Place, paths: set<string>, path: string)
    ensures path in Matches(place, paths) <==> place.Path? && path in paths && Spells(place.spelling, path)
  {
    if place.Path? {
      var s := place.spelling;
      assert StartsWith(s, "./") ==> s == "./" + s[2..];
      assert StartsWith(s, "a/") ==> s == "a/" + s[2..];
      assert StartsWith(s, "b/") ==> s == "b/" + s[2..];
      assert "./"[0] == '.' && "a/"[0] == 'a' && "b/"[0] == 'b';
    }
  }

  /** A place stands for the one judged path it spells, for none, or for no particular one. */
  lemma ResolveMeans(place: Place, paths: set<string>, path: string)
    ensures Resolve(place, paths) == At(path) <==>
      && place.Path? && path in paths && Spells(place.spelling, path)
      && forall p :: p in paths && Spells(place.spelling, p) ==> p == path
    ensures Resolve(place, paths) == Missing <==>
      !place.Path? || forall p :: p in paths ==> !Spells(place.spelling, p)
  {
    hide Spells, Matches;
    forall p ensures p in Matches(place, paths) <==> place.Path? && p in paths && Spells(place.spelling, p) {
      MatchesMean(place, paths, p);
    }
    if Resolve(place, paths) == At(path) {
      assert path in {path};
    }
    if path in Matches(place, paths) && forall p :: p in Matches(place, paths) ==> p == path {
      assert Matches(place, paths) == {path};
    }
  }

  /** What one judge really saw of a diff: whole patches, and ranges of fully visible hunks. */
  datatype Sight = Sight(complete: set<string>, cut: map<string, seq<(nat, nat)>>)

  predicate InRange(ranges: seq<(nat, nat)>, line: nat) {
    exists r :: r in ranges && r.0 <= line <= r.1
  }

  /** `_seen`: a cut file is seen only inside a fully visible hunk. */
  predicate Seen(sight: Option<Sight>, path: string, line: Option<nat>) {
    || sight.None?
    || path in sight.value.complete
    || (line.Some? && path in sight.value.cut && InRange(sight.value.cut[path], line.value))
  }

  // ---------------------------------------------------------------- replies

  datatype JudgeVerdict = JudgeVerdict(findings: seq<Finding>, previous: seq<Answer>)

  datatype JudgeReply = JudgeReply(verdict: Option<JudgeVerdict>, sight: Option<Sight>)

  /** A reply kept after arbitration, with what is known of the piece it judged. */
  datatype PartReply = PartReply(
    reply: JudgeReply, readable: bool, wholeSight: Sight, outsideIsUnseen: bool)

  /** The judged diff of one pass, the excerpts quoted to the judges, and the replies kept. */
  datatype Judgement = Judgement(
    replies: seq<PartReply>, judgedFiles: set<string>, readable: bool, excerpted: set<Id>)

  type Locations = map<Id, (Place, Option<nat>)>

  /** The location of every judged finding on record. */
  ghost function LocationsOf(fs: seq<Finding>): (m: Locations)
    ensures m.Keys == Ids(fs)
    ensures forall i :: i in m ==> exists f :: f in fs && f.id == Some(i) && m[i] == (f.file, f.line)
  {
    map i | i in Ids(fs) :: var f :| f in fs && f.id == Some(i); (f.file, f.line)
  }

  /** A new claim at a location its judge did not see. */
  ghost predicate IsUnseenClaim(f: Finding, sight: Option<Sight>, known: set<Id>, files: set<string>,
                                outsideIsUnseen: bool)
  {
    && !(f.id.Some? && f.id.value in known)
    && !Carry.IsMechanical(f)
    && match Resolve(f.file, files)
       case Missing => outsideIsUnseen
       case Ambiguous => true
       case At(path) => !Seen(sight, path, f.line)
  }

  /** `_within_part` on one finding: an unseen claim never blocks. */
  ghost function SeenOrDemoted(f: Finding, sight: Option<Sight>, known: set<Id>, files: set<string>,
                               outsideIsUnseen: bool): Finding
  {
    if IsUnseenClaim(f, sight, known, files, outsideIsUnseen) then
      f.(severity := Important, klass := Some(Note),
         evidence := f.evidence + " [not in the part this judge read]")
    else f
  }

  /** `_within_part`. */
  ghost function WithinPart(p: PartReply, known: set<Id>, files: set<string>): JudgeReply {
    var sight := if p.reply.sight.None? then Some(p.wholeSight) else p.reply.sight;
    if p.reply.verdict.None? || !p.readable then p.reply.(sight := sight)
    else
      var v := p.reply.verdict.value;
      JudgeReply(
        Some(v.(findings := Map(f => SeenOrDemoted(f, sight, known, files, p.outsideIsUnseen), v.findings))),
        sight)
  }

  /** An earlier finding may be answered by a judge that saw it, or was quoted its window. */
  ghost predicate MayAnswer(sight: Option<Sight>, i: Id, known: Locations, files: set<string>,
                            readable: bool, excerpted: set<Id>)
  {
    i !in known ||
    (readable && match Resolve(known[i].0, files)
                 case Missing => i in excerpted
                 case Ambiguous => false
                 case At(path) => Seen(sight, path, known[i].1))
  }

  /** `_admissible`. */
  ghost function Admissible(reply: JudgeReply, j: Judgement, known: Locations): JudgeReply {
    if reply.verdict.None? then reply
    else
      var v := reply.verdict.value;
      var may := i => MayAnswer(reply.sight, i, known, j.judgedFiles, j.readable, j.excerpted);
      reply.(verdict := Some(JudgeVerdict(
        Filter((f: Finding) => f.id.None? || may(f.id.value), v.findings),
        Filter((a: Answer) => a.ref.CF? || may(a.ref.id), v.previous))))
  }

  /** One kept reply after both filters. */
  ghost function Heard(p: PartReply, j: Judgement, known: Locations): JudgeReply {
    Admissible(WithinPart(p, known.Keys, j.judgedFiles), j, known)
  }

  /** What the `k`-th reply may say. */
  ghost function HeardAt(j: Judgement, known: Locations, k: nat): Option<JudgeVerdict>
    requires k < |j.replies|
  {
    Heard(j.replies[k], j, known).verdict
  }

  /** The verdicts that may speak, in order. */
  ghost function HeardVerdicts(j: Judgement, known: Locations, n: nat): (r: seq<JudgeVerdict>)
    requires n <= |j.replies|
    ensures forall v :: v in r <==>
      exists k :: 0 <= k < n && HeardAt(j, known, k) == Some(v)
  {
    hide HeardAt;
    if n == 0 then []
    else
      var v := HeardAt(j, known, n - 1);
      HeardVerdicts(j, known, n - 1) + (if v.Some? then [v.value] else [])
  }

  // ---------------------------------------------------------------- merge

  /** `f` appended unless it is already there. */
  function Extend(fs: seq<Finding>, more: seq<Finding>): (r: seq<Finding>)
    ensures forall f :: f in r <==> f in fs || f in more
    decreases |more|
  {
    if more == [] then fs
    else
      assert more == [more[0]] + more[1..];
      Extend(if more[0] in fs then fs else fs + [more[0]], more[1..])
  }

  function MergedFindings(vs: seq<JudgeVerdict>): (r: seq<Finding>)
    ensures forall f :: f in r <==> exists v :: v in vs && f in v.findings
  {
    if vs == [] then []
    else
      assert vs == vs[..|vs| - 1] + [vs[|vs| - 1]];
      Extend(MergedFindings(vs[..|vs| - 1]), vs[|vs| - 1].findings)
  }

  /** A finding joins the list where it is first told, and only there. */
  lemma {:induction false} ExtendSnoc(fs: seq<Finding>, more: seq<Finding>, f: Finding)
    ensures Extend(fs, more + [f]) ==
      if f in Extend(fs, more) then Extend(fs, more) else Extend(fs, more) + [f]
    decreases |more|
  {
    if more == [] {
      assert more + [f] == [f] && [f][1..] == [];
    } else {
      assert (more + [f])[1..] == more[1..] + [f];
      ExtendSnoc(if more[0] in fs then fs else fs + [more[0]], more[1..], f);
    }
  }

  lemma {:induction false} ExtendKeepsOrder(fs: seq<Finding>, more: seq<Finding>)
    ensures fs <= Extend(fs, more)
    decreases |more|
  {
    if more != [] {
      ExtendKeepsOrder(if more[0] in fs then fs else fs + [more[0]], more[1..]);
    }
  }

  /** The earlier replies' findings come first. */
  lemma {:induction false} EarlierRepliesComeFirst(vs: seq<JudgeVerdict>, n: nat)
    requires n <= |vs|
    ensures MergedFindings(vs[..n]) <= MergedFindings(vs)
    decreases |vs|
  {
    if n < |vs| {
      var init := vs[..|vs| - 1];
      assert vs[..n] == init[..n];
      EarlierRepliesComeFirst(init, n);
      ExtendKeepsOrder(MergedFindings(init), vs[|vs| - 1].findings);
    } else {
      assert vs[..n] == vs;
    }
  }

  /** Answers folded into one per name: "still open" wins. */
  function Fold(m: map<Ref, AnswerStatus>, as_: seq<Answer>): (r: map<Ref, AnswerStatus>)
    ensures forall x :: x in r <==> x in m || exists a :: a in as_ && a.ref == x
    ensures forall x :: x in r ==>
      (r[x] == AnsweredOpen <==> (x in m && m[x] == AnsweredOpen) || Answer(x, AnsweredOpen) in as_)
  {
    if as_ == [] then m
    else
      var last := as_[|as_| - 1];
      assert as_ == as_[..|as_| - 1] + [last];
      var r := Fold(m, as_[..|as_| - 1]);
      if last.ref in r && r[last.ref] == AnsweredOpen then r else r[last.ref := last.status]
  }

  function MergedAnswers(vs: seq<JudgeVerdict>): (r: map<Ref, AnswerStatus>)
    ensures forall x :: x in r <==> exists v, a :: v in vs && a in v.previous && a.ref == x
    ensures forall x :: x in r ==>
      (r[x] == AnsweredOpen <==> exists v :: v in vs && Answer(x, AnsweredOpen) in v.previous)
  {
    if vs == [] then map[]
    else
      assert vs == vs[..|vs| - 1] + [vs[|vs| - 1]];
      Fold(MergedAnswers(vs[..|vs| - 1]), vs[|vs| - 1].previous)
  }

  const MAX_FINDINGS := 100

  predicate IsClosed(f: Finding) {
    !IsOpen(f.status)
  }

  /** `fs` without its first `k` closed findings. */
  function DropClosed(fs: seq<Finding>, k: nat): (r: seq<Finding>)
    ensures forall f :: f in r ==> f in fs
    ensures forall f :: f in fs && IsOpen(f.status) ==> f in r
  {
    if fs == [] || k == 0 then fs
    else
      assert fs == [fs[0]] + fs[1..];
      if IsClosed(fs[0]) then DropClosed(fs[1..], k - 1)
      else [fs[0]] + DropClosed(fs[1..], k)
  }

  /** `_capped`: the oldest closed findings leave a list over the limit. */
  function Capped(fs: seq<Finding>): (r: seq<Finding>)
    ensures forall f :: f in r ==> f in fs
    ensures forall f :: f in fs && IsOpen(f.status) ==> f in r
  {
    DropClosed(fs, if |fs| > MAX_FINDINGS then |fs| - MAX_FINDINGS else 0)
  }

  datatype Merged = Merged(findings: seq<Finding>, answers: map<Ref, AnswerStatus>)

  /** `_merge`; `None` when no judge answered, or more findings than a verdict may hold. */
  ghost function Merge(j: Judgement, known: Locations): (m: Option<Merged>)
    ensures m.Some? ==> |m.value.findings| <= MAX_FINDINGS
  {
    var vs := HeardVerdicts(j, known, |j.replies|);
    var findings := Capped(MergedFindings(vs));
    if vs == [] || |findings| > MAX_FINDINGS then None
    else Some(Merged(findings, MergedAnswers(vs)))
  }

  lemma {:induction false} DropClosedKeepsIdsDistinct(fs: seq<Finding>, k: nat)
    requires DistinctIds(fs)
    ensures DistinctIds(DropClosed(fs, k))
    decreases |fs|
  {
    if fs != [] && k != 0 {
      var rest := fs[1..];
      if IsClosed(fs[0]) {
        DropClosedKeepsIdsDistinct(rest, k - 1);
      } else {
        DropClosedKeepsIdsDistinct(rest, k);
        var r := DropClosed(rest, k);
        forall i | 0 <= i < |r| ensures r[i].id != fs[0].id {
          assert r[i] in rest;
        }
      }
    }
  }
}
