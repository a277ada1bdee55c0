/** How a code pull request accounts for the open carry-forwards (src/rail/reviewer/carry.py). */
module Carry {
  import opened Wrappers
  import opened Sequences
  import opened Findings

  /** One parsed line of the description's section. */
  datatype Accounting = Addressed | Deferred(reason: string)

  type Section = map<Id, Accounting>

  predicate IsMechanical(f: Finding) {
    f.file == Description
  }

  predicate IsJudged(f: Finding) {
    !IsMechanical(f)
  }

  predicate IsBodyDerived(f: Finding) {
    IsMechanical(f) && (f.title.NotAccounted? || f.title.DeferredNoReason?)
  }

  function MechanicalBlocker(title: Title, evidence: string): Finding {
    Finding(Blocking, Description, None, title, evidence, None, Some(Blocker), New)
  }

  function NotAddressedBlocker(cf: Id): Finding {
    MechanicalBlocker(NotAddressed(cf), "the judge did not confirm it is addressed")
  }

  function NotAccountedBlocker(cf: Id): Finding {
    MechanicalBlocker(NotAccounted(cf), "an open carry-forward is listed on one line")
  }

  function DeferredNoReasonBlocker(cf: Id): Finding {
    MechanicalBlocker(DeferredNoReason(cf), "a deferral needs its reason")
  }

  /** The blocker the description alone earns for one open carry-forward. */
  function GapOf(cf: Id, section: Section): Option<Finding> {
    if cf !in section then Some(NotAccountedBlocker(cf))
    else if section[cf].Deferred? && section[cf].reason == "" then Some(DeferredNoReasonBlocker(cf))
    else None
  }

  function MechanicalBlockers(open: seq<Id>, section: Section): (r: seq<Finding>)
    ensures forall f :: f in r <==> exists cf :: cf in open && GapOf(cf, section) == Some(f)
  {
    if open == [] then []
    else
      var cf := open[|open| - 1];
      var init := open[..|open| - 1];
      assert open == init + [cf];
      var gap := GapOf(cf, section);
      MechanicalBlockers(init, section) + (if gap.Some? then [gap.value] else [])
  }

  /** `addressed`: the open carry-forwards the description claims it addresses. */
  function Claimed(open: seq<Id>, section: Section): (r: seq<Id>)
    ensures forall i :: i in r <==> i in open && i in section && section[i].Addressed?
  {
    Filter(i => i in section && section[i].Addressed?, open)
  }

  /** `deferred`: the open carry-forwards the description defers with a reason. */
  function ReasonedDeferrals(open: seq<Id>, section: Section): (r: seq<Id>)
    ensures forall i :: i in r <==>
      i in open && i in section && section[i].Deferred? && section[i].reason != ""
  {
    Filter(i => i in section && section[i].Deferred? && section[i].reason != "", open)
  }

  predicate IsRuledGap(f: Finding) {
    IsMechanical(f) && f.status == Ruled && f.title.NotAddressed?
  }

  /** The carry-forwards whose "not addressed" gap the operator ruled carry_forward. */
  function RuledDeferred(fs: seq<Finding>): (r: seq<Id>)
    ensures forall i :: i in r <==> exists f :: f in fs && IsRuledGap(f) && f.title.cf == i
  {
    var gaps := Filter(IsRuledGap, fs);
    var r := seq(|gaps|, k requires 0 <= k < |gaps| =>
                   assert gaps[k] in gaps; gaps[k].title.cf);
    assert forall f :: f in fs && IsRuledGap(f) ==> f in gaps;
    assert forall i :: i in r ==> exists f :: f in fs && IsRuledGap(f) && f.title.cf == i by {
      forall i | i in r ensures exists f :: f in fs && IsRuledGap(f) && f.title.cf == i {
        var k :| 0 <= k < |r| && r[k] == i;
        assert gaps[k] in gaps;
      }
    }
    assert forall f :: f in fs && IsRuledGap(f) ==> f.title.cf in r by {
      forall f | f in fs && IsRuledGap(f) ensures f.title.cf in r {
        assert f in gaps;
        var k :| 0 <= k < |gaps| && gaps[k] == f;
        assert r[k] == f.title.cf;
      }
    }
    r
  }

  /** One old mechanical blocker, re-derived from the titles the description now earns. */
  function Reconciled(f: Finding, titles: set<Title>): Finding {
    if f.status == Ruled then f
    else f.(status := if f.title in titles then StillOpen else Fixed)
  }

  /** `reconcile`: the old blockers re-derived, and the current ones no old blocker names. */
  function Kept(earlier: seq<Finding>, current: seq<Finding>): seq<Finding> {
    var titles := Titles(current);
    Map(f => Reconciled(f, titles), earlier)
  }

  function Unseen(earlier: seq<Finding>, current: seq<Finding>): (r: seq<Finding>)
    ensures forall f :: f in r <==> f in current && f.title !in Titles(earlier)
  {
    var seen := Titles(earlier);
    Filter((f: Finding) => f.title !in seen, current)
  }
}
