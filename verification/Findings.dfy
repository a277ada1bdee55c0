/** The vocabulary of a review verdict (src/rail/reviewer/verdict.py). */
module Findings {
  import opened Wrappers
  import opened Sequences

  datatype Severity = Blocking | Important | Minor
  datatype Class = Blocker | CarryForward | Note
  datatype Status = New | StillOpen | Fixed | Ruled
  datatype Artifact = SpecPlan | Code | Records

  /** `F-<pr>-<n>`. The carry-forward `CF-<pr>-<n>` of a finding has the same two numbers. */
  datatype Id = Id(pr: nat, n: nat)

  /** What an answer names: a finding or a carry-forward. */
  datatype Ref = F(id: Id) | CF(id: Id)

  /** A judge's words, or one of the three titles the review loop writes itself. */
  datatype Title =
    | Said(text: string)
    | NotAccounted(cf: Id)
    | DeferredNoReason(cf: Id)
    | NotAddressed(cf: Id)

  /**
   * Where a finding is filed: a path as the judge spelled it, the pull request's description
   * as the review loop files its own blockers there, or the description as a judge's claim.
   */
  datatype Place = Path(spelling: string) | Description | JudgeDescription

  datatype Finding = Finding(
    severity: Severity,
    file: Place,
    line: Option<nat>,
    title: Title,
    evidence: string,
    id: Option<Id>,
    klass: Option<Class>,
    status: Status)

  datatype AnswerStatus = AnsweredFixed | AnsweredOpen
  datatype Answer = Answer(ref: Ref, status: AnswerStatus)

  datatype CarryForwards = CarryForwards(addressed: seq<Id>, deferred: seq<Id>)

  predicate IsOpen(s: Status) {
    s == New || s == StillOpen
  }

  predicate OpenBlocker(f: Finding) {
    IsOpen(f.status) && if f.klass.None? then f.severity == Blocking else f.klass.value == Blocker
  }

  predicate Approves(fs: seq<Finding>) {
    !exists f :: f in fs && OpenBlocker(f)
  }

  /** The part of a finding no pass may change: its identity and the judge's claim. */
  predicate SameClaim(f: Finding, g: Finding) {
    && f.id == g.id && f.severity == g.severity && f.file == g.file
    && f.line == g.line && f.title == g.title && f.evidence == g.evidence
  }

  function Ids(fs: seq<Finding>): set<Id> {
    set f | f in fs && f.id.Some? :: f.id.value
  }

  function Titles(fs: seq<Finding>): set<Title> {
    set f | f in fs :: f.title
  }

  ghost predicate DistinctIds(fs: seq<Finding>) {
    forall i, j :: 0 <= i < j < |fs| ==> fs[i].id != fs[j].id
  }

  /** The highest number an id of `fs` holds; 0 when there is none. */
  function Highest(fs: seq<Finding>): (n: nat)
    ensures forall f :: f in fs && f.id.Some? ==> f.id.value.n <= n
    ensures n == 0 || exists f :: f in fs && f.id.Some? && f.id.value.n == n
  {
    if fs == [] then 0
    else
      var last := fs[|fs| - 1];
      var rest := Highest(fs[..|fs| - 1]);
      assert fs == fs[..|fs| - 1] + [last];
      if last.id.Some? && last.id.value.n > rest then last.id.value.n else rest
  }

  lemma {:induction false} FilterKeepsIdsDistinct(p: Finding -> bool, fs: seq<Finding>)
    requires DistinctIds(fs)
    ensures DistinctIds(Filter(p, fs))
  {
    if fs != [] {
      var init := fs[..|fs| - 1];
      FilterKeepsIdsDistinct(p, init);
      forall i | 0 <= i < |Filter(p, init)| ensures Filter(p, init)[i].id != fs[|fs| - 1].id {
        assert Filter(p, init)[i] in init;
      }
    }
  }

  /** Two lists with distinct ids and no id in common make one list with distinct ids. */
  lemma ConcatKeepsIdsDistinct(a: seq<Finding>, b: seq<Finding>)
    requires DistinctIds(a) && DistinctIds(b)
    requires forall f, g :: f in a && g in b ==> f.id != g.id
    ensures DistinctIds(a + b)
  {
  }

  /** In a list with distinct ids an id names one finding. */
  lemma SameIdSameFinding(fs: seq<Finding>, f: Finding, g: Finding)
    requires DistinctIds(fs) && f in fs && g in fs && f.id == g.id
    ensures f == g
  {
  }
}
