/** What part of a diff a judge was shown (src/rail/reviewer/split.py). */
module Sighting {
  import opened Wrappers
  import opened Admission

  /** One hunk: its first new line, how many it has, and its text from header to last line. */
  datatype Hunk = Hunk(start: nat, count: nat, text: string)

  /** One file's patch: the two paths of its header, the text before the first hunk, the hunks. */
  datatype Patch = Patch(a: string, b: string, head: string, hunks: seq<Hunk>)

  /** One piece of the visible text: under a readable header, or before any. */
  datatype Piece = Under(a: string, b: string, text: string) | Preamble(text: string)

  /** The text of a patch up to and including its first `k` hunks. */
  function TextTo(p: Patch, k: nat): string
    requires k <= |p.hunks|
  {
    if k == 0 then p.head else TextTo(p, k - 1) + p.hunks[k - 1].text
  }

  function Text(p: Patch): string {
    TextTo(p, |p.hunks|)
  }

  predicate Names(x: Patch, path: string) {
    path == x.a || path == x.b
  }

  /** The patch a header stands for: the last one under the same two paths. */
  function PatchFor(whole: seq<Patch>, a: string, b: string): (r: Option<Patch>)
    ensures r.Some? ==> r.value in whole && r.value.a == a && r.value.b == b
    ensures r.None? ==> forall x :: x in whole ==> x.a != a || x.b != b
    ensures r.Some? ==> exists k :: IsLastUnder(whole, k, a, b) && whole[k] == r.value
  {
    if whole == [] then None
    else
      var last := whole[|whole| - 1];
      assert whole == whole[..|whole| - 1] + [last];
      if last.a == a && last.b == b then assert IsLastUnder(whole, |whole| - 1, a, b); Some(last)
      else
        var r := PatchFor(whole[..|whole| - 1], a, b);
        assert forall k :: IsLastUnder(whole[..|whole| - 1], k, a, b) ==> IsLastUnder(whole, k, a, b);
        r
  }

  predicate IsLastUnder(whole: seq<Patch>, k: int, a: string, b: string) {
    && 0 <= k < |whole| && whole[k].a == a && whole[k].b == b
    && forall j :: k < j < |whole| ==> whole[j].a != a || whole[j].b != b
  }

  // ---------------------------------------------------------------- what is seen

  /** The hunk is wholly inside the text shown, and covers new lines. */
  predicate IsVisible(x: Patch, text: string, k: nat) {
    k < |x.hunks| && x.hunks[k].count > 0 && text <= Text(x) && |TextTo(x, k + 1)| <= |text|
  }

  function RangeOf(h: Hunk): (nat, nat)
    requires h.count > 0
  {
    (h.start, h.start + h.count - 1)
  }

  /** The new lines of the first `n` hunks that are wholly inside the text shown. */
  function Ranges(x: Patch, text: string, n: nat): (r: seq<(nat, nat)>)
    requires n <= |x.hunks|
    ensures forall lines :: lines in r <==>
      exists k: nat :: k < n && IsVisible(x, text, k) && lines == RangeOf(x.hunks[k])
  {
    if n == 0 then []
    else Ranges(x, text, n - 1) + (if IsVisible(x, text, n - 1) then [RangeOf(x.hunks[n - 1])] else [])
  }

  /** What one more piece adds. */
  function See(s: Sight, piece: Piece, whole: seq<Patch>): Sight {
    if piece.Preamble? then s
    else
      var original := PatchFor(whole, piece.a, piece.b);
      if original.None? then s
      else if piece.text == Text(original.value) then s.(complete := s.complete + {piece.a, piece.b})
      else
        var ranges := Ranges(original.value, piece.text, |original.value.hunks|);
        s.(cut := s.cut[piece.a := ranges][piece.b := ranges])
  }

  function SeenIn(visible: seq<Piece>, whole: seq<Patch>): Sight {
    if visible == [] then Sight({}, map[])
    else See(SeenIn(visible[..|visible| - 1], whole), visible[|visible| - 1], whole)
  }

  /** `sight_of`: an unreadable header on either side gives no sight. */
  method SightOf(visible: seq<Piece>, whole: seq<Patch>, readable: bool) returns (s: Sight)
    ensures s == if readable then SeenIn(visible, whole) else Sight({}, map[])
  {
    if !readable {
      return Sight({}, map[]);
    }
    var complete: set<string> := {};
    var cut: map<string, seq<(nat, nat)>> := map[];
    for n := 0 to |visible|
      invariant Sight(complete, cut) == SeenIn(visible[..n], whole)
    {
      assert visible[..n + 1][..n] == visible[..n];
      var piece := visible[n];
      if piece.Preamble? {
        continue;
      }
      var found := PatchFor(whole, piece.a, piece.b);
      if found.None? {
        continue;
      }
      var original := found.value;
      if piece.text == Text(original) {
        complete := complete + {piece.a, piece.b};
        continue;
      }
      var isPrefix := piece.text <= Text(original);
      var ranges: seq<(nat, nat)> := [];
      for index := 0 to |original.hunks|
        invariant ranges == Ranges(original, piece.text, index)
      {
        var hunk := original.hunks[index];
        if hunk.count > 0 && isPrefix && |TextTo(original, index + 1)| <= |piece.text| {
          ranges := ranges + [(hunk.start, hunk.start + hunk.count - 1)];
        }
      }
      cut := cut[piece.a := ranges][piece.b := ranges];
    }
    assert visible[..|visible|] == visible;
    return Sight(complete, cut);
  }

  // ---------------------------------------------------------------- soundness

  lemma {:induction false} TextToGrows(x: Patch, j: nat, k: nat)
    requires j <= k <= |x.hunks|
    ensures TextTo(x, j) <= TextTo(x, k)
  {
    if j < k {
      TextToGrows(x, j, k - 1);
    }
  }

  /** A visible hunk, and everything before it, is in the text shown. */
  lemma VisibleIsInside(x: Patch, text: string, k: nat)
    requires IsVisible(x, text, k)
    ensures TextTo(x, k + 1) <= text
  {
    TextToGrows(x, k + 1, |x.hunks|);
  }

  /** The whole text of the patch is in the visible text, as one piece. */
  ghost predicate IsShownWhole(visible: seq<Piece>, x: Patch) {
    exists piece :: piece in visible && piece.text == Text(x)
  }

  /** The `k`-th hunk of the patch is wholly in a piece of the visible text. */
  ghost predicate IsShownTo(visible: seq<Piece>, x: Patch, k: nat) {
    k < |x.hunks| && exists piece :: piece in visible && TextTo(x, k + 1) <= piece.text
  }

  /** The `k`-th hunk of one of the path's patches is shown, and covers exactly these lines. */
  ghost predicate IsShownAt(visible: seq<Piece>, whole: seq<Patch>, path: string, x: Patch, k: nat, lines: (nat, nat)) {
    && x in whole && Names(x, path) && IsShownTo(visible, x, k)
    && IsRangeOf(lines, x.hunks[k])
  }

  /** The new lines the hunk covers, first and last. */
  predicate IsRangeOf(lines: (nat, nat), h: Hunk) {
    h.count > 0 && lines.0 == h.start && lines.1 + 1 == h.start + h.count
  }

  lemma {:induction false} CompleteComesFrom(visible: seq<Piece>, whole: seq<Patch>, path: string)
    ensures path in SeenIn(visible, whole).complete <==>
      exists piece, x :: CompletesIn(visible, whole, piece, x) && Names(x, path)
  {
    if visible != [] {
      var init, last := visible[..|visible| - 1], visible[|visible| - 1];
      assert visible == init + [last];
      CompleteComesFrom(init, whole, path);
      forall piece, x | CompletesIn(init, whole, piece, x) ensures CompletesIn(visible, whole, piece, x) {
      }
      if path in SeenIn(visible, whole).complete && path !in SeenIn(init, whole).complete {
        assert CompletesIn(visible, whole, last, PatchFor(whole, last.a, last.b).value);
      }
      forall piece, x | CompletesIn(visible, whole, piece, x) && Names(x, path)
        ensures path in SeenIn(visible, whole).complete
      {
        if piece in init {
          assert CompletesIn(init, whole, piece, x);
        }
      }
    }
  }

  predicate CompletesIn(visible: seq<Piece>, whole: seq<Patch>, piece: Piece, x: Patch) {
    && piece in visible && piece.Under? && PatchFor(whole, piece.a, piece.b) == Some(x)
    && piece.text == Text(x)
  }

  /** A path reported complete has every one of its patches wholly in the visible text. */
  ghost predicate IsSound(visible: seq<Piece>, whole: seq<Patch>) {
    forall path, x :: path in SeenIn(visible, whole).complete && x in whole && Names(x, path) ==>
      IsShownWhole(visible, x)
  }

  /** A path names one patch of the diff, on either side of a rename. */
  ghost predicate HasOnePatchPerPath(whole: seq<Patch>) {
    forall x, y, path :: x in whole && y in whole && Names(x, path) && Names(y, path) ==> Text(x) == Text(y)
  }

  lemma OnePatchIsSound(visible: seq<Piece>, whole: seq<Patch>)
    requires HasOnePatchPerPath(whole)
    ensures IsSound(visible, whole)
  {
    forall path, x | path in SeenIn(visible, whole).complete && x in whole && Names(x, path)
      ensures IsShownWhole(visible, x)
    {
      CompleteComesFrom(visible, whole, path);
      var piece, y :| CompletesIn(visible, whole, piece, y) && Names(y, path);
      assert Text(x) == Text(y);
    }
  }

  /** Two patches on one path: the judge shown one of them alone is said to have seen both. */
  lemma TwoPatchesAreUnsound(whole: seq<Patch>, x: Patch, y: Patch, path: string)
    requires x in whole && y in whole && Names(x, path) && Names(y, path) && Text(x) != Text(y)
    ensures exists visible :: !IsSound(visible, whole)
  {
    var shown := PatchFor(whole, x.a, x.b).value;
    var piece := Under(x.a, x.b, Text(shown));
    assert CompletesIn([piece], whole, piece, shown);
    CompleteComesFrom([piece], whole, path);
    assert !(IsShownWhole([piece], x) && IsShownWhole([piece], y));
    assert !IsSound([piece], whole);
  }

  /**
   * "Complete" can be trusted for whatever a judge was shown exactly when each path names one
   * patch; distinct headers are not enough.
   */
  lemma CompleteIsSoundWhen(whole: seq<Patch>)
    ensures (forall visible :: IsSound(visible, whole)) <==> HasOnePatchPerPath(whole)
  {
    if HasOnePatchPerPath(whole) {
      forall visible ensures IsSound(visible, whole) {
        OnePatchIsSound(visible, whole);
      }
    } else {
      var x, y, path :| x in whole && y in whole && Names(x, path) && Names(y, path) && Text(x) != Text(y);
      TwoPatchesAreUnsound(whole, x, y, path);
    }
  }

  /** The two patches of a file that becomes a symbolic link: one path, one header, twice. */
  function Gone(): Patch {
    Patch("f", "f", "deleted file\n", [Hunk(0, 0, "@@ -1 +0,0 @@\n-x\n")])
  }

  function Linked(): Patch {
    Patch("f", "f", "new file\n", [Hunk(1, 1, "@@ -0,0 +1 @@\n+y\n")])
  }

  lemma GoneIsNotLinked()
    ensures Text(Gone()) != Text(Linked())
  {
    assert Text(Gone()) == TextTo(Gone(), 0) + Gone().hunks[0].text;
    assert Text(Linked()) == TextTo(Linked(), 0) + Linked().hunks[0].text;
    assert Gone().head[0] == 'd' && Linked().head[0] == 'n';
    assert Text(Gone())[0] == 'd' && Text(Linked())[0] == 'n';
  }

  /** A file that becomes a link: a judge shown the new link alone is taken to have seen what went. */
  lemma FileBecomesLink()
    ensures var whole := [Gone(), Linked()];
      var visible := [Under("f", "f", Text(Linked()))];
      SeenIn(visible, whole).complete == {"f"} && !IsShownWhole(visible, whole[0]) && !HasOnePatchPerPath(whole)
  {
    hide Text;
    GoneIsNotLinked();
    var whole, piece := [Gone(), Linked()], Under("f", "f", Text(Linked()));
    assert PatchFor(whole, "f", "f") == Some(Linked());
    assert [piece][..0] == [];
    assert SeenIn([piece], whole) == See(Sight({}, map[]), piece, whole);
    assert Gone() in whole && Linked() in whole && Names(Gone(), "f") && Names(Linked(), "f");
  }

  /** Two files that swap names, where rewrites are broken into renames: the headers differ, and a
      judge shown the first one alone is taken to have seen the second. */
  lemma SwappedRenames()
    ensures var whole := [Patch("x", "y", "x becomes y", []), Patch("y", "x", "y becomes x", [])];
      var visible := [Under("x", "y", "x becomes y")];
      SeenIn(visible, whole).complete == {"x", "y"} && !IsShownWhole(visible, whole[1])
  {
  }

  /** Every range reported comes from a hunk of that path wholly inside the text shown. */
  lemma {:induction false} RangesAreShown(visible: seq<Piece>, whole: seq<Patch>, path: string, lines: (nat, nat))
    requires path in SeenIn(visible, whole).cut && lines in SeenIn(visible, whole).cut[path]
    ensures exists x, k: nat :: IsShownAt(visible, whole, path, x, k, lines)
  {
    var init, last := visible[..|visible| - 1], visible[|visible| - 1];
    assert visible == init + [last];
    var before := SeenIn(init, whole);
    if path in before.cut && lines in before.cut[path] {
      RangesAreShown(init, whole, path, lines);
      var x, k: nat :| IsShownAt(init, whole, path, x, k, lines);
      assert IsShownAt(visible, whole, path, x, k, lines);
    } else {
      var x := PatchFor(whole, last.a, last.b).value;
      var k: nat :| k < |x.hunks| && IsVisible(x, last.text, k) && lines == RangeOf(x.hunks[k]);
      VisibleIsInside(x, last.text, k);
      assert IsShownAt(visible, whole, path, x, k, lines);
    }
  }

  /** The piece shows a part of the patch one of its headers' paths stands for. */
  predicate Cuts(piece: Piece, whole: seq<Patch>, path: string, x: Patch) {
    && piece.Under? && (path == piece.a || path == piece.b)
    && PatchFor(whole, piece.a, piece.b) == Some(x) && piece.text != Text(x)
  }

  /** The `n`-th piece does, and none after it does. */
  ghost predicate IsLastCut(visible: seq<Piece>, whole: seq<Patch>, n: nat, path: string, x: Patch) {
    && n < |visible| && Cuts(visible[n], whole, path, x)
    && forall m, y :: n < m < |visible| ==> !Cuts(visible[m], whole, path, y)
  }

  /** The `k`-th hunk is wholly inside the text shown, a beginning of the patch, and covers these lines. */
  ghost predicate IsReported(x: Patch, text: string, lines: (nat, nat)) {
    exists k: nat :: k < |x.hunks| && TextTo(x, k + 1) <= text <= Text(x) && IsRangeOf(lines, x.hunks[k])
  }

  /** What is reported of a path shown in part: the ranges of exactly the hunks that are wholly inside
      the last such piece, when that is a beginning of the patch. */
  lemma {:induction false} CutMeans(visible: seq<Piece>, whole: seq<Patch>, n: nat, path: string, x: Patch)
    requires IsLastCut(visible, whole, n, path, x)
    ensures path in SeenIn(visible, whole).cut
    ensures forall lines :: lines in SeenIn(visible, whole).cut[path] <==> IsReported(x, visible[n].text, lines)
    decreases |visible|
  {
    hide Cuts, IsReported, See;
    var init, last := visible[..|visible| - 1], visible[|visible| - 1];
    if n == |init| {
      LastCutMeans(SeenIn(init, whole), last, whole, path, x);
    } else {
      CutMeans(init, whole, n, path, x);
      OtherKeepsCut(SeenIn(init, whole), last, whole, path);
    }
  }

  lemma OtherKeepsCut(s: Sight, last: Piece, whole: seq<Patch>, path: string)
    requires forall y :: !Cuts(last, whole, path, y)
    ensures path in s.cut ==> path in See(s, last, whole).cut && See(s, last, whole).cut[path] == s.cut[path]
  {
    if last.Under? && PatchFor(whole, last.a, last.b).Some? {
      assert !Cuts(last, whole, path, PatchFor(whole, last.a, last.b).value);
    }
  }

  lemma LastCutMeans(s: Sight, last: Piece, whole: seq<Patch>, path: string, x: Patch)
    requires Cuts(last, whole, path, x)
    ensures path in See(s, last, whole).cut
    ensures forall lines :: lines in See(s, last, whole).cut[path] <==> IsReported(x, last.text, lines)
  {
    hide IsReported, Text, TextTo;
    var ranges := Ranges(x, last.text, |x.hunks|);
    assert See(s, last, whole).cut[path] == ranges;
    forall lines ensures lines in ranges <==> IsReported(x, last.text, lines) {
      RangesMean(x, last.text, lines);
    }
  }

  lemma RangesMean(x: Patch, text: string, lines: (nat, nat))
    ensures lines in Ranges(x, text, |x.hunks|) <==> IsReported(x, text, lines)
  {
    hide Ranges;
    if k: nat :| k < |x.hunks| && IsVisible(x, text, k) && lines == RangeOf(x.hunks[k]) {
      TextToGrows(x, k + 1, |x.hunks|);
      assert TextTo(x, k + 1) <= text <= Text(x) && IsRangeOf(lines, x.hunks[k]);
    }
    if IsReported(x, text, lines) {
      var k: nat :| k < |x.hunks| && TextTo(x, k + 1) <= text <= Text(x) && IsRangeOf(lines, x.hunks[k]);
      assert IsVisible(x, text, k) && lines == RangeOf(x.hunks[k]);
    }
  }

  /** The location was in front of the judge: the path's patches whole, or a hunk with the line. */
  ghost predicate IsShown(visible: seq<Piece>, whole: seq<Patch>, path: string, line: Option<nat>) {
    || (forall x :: x in whole && Names(x, path) ==> IsShownWhole(visible, x))
    || (line.Some? && exists x, k: nat, lines: (nat, nat) ::
          IsShownAt(visible, whole, path, x, k, lines) && lines.0 <= line.value <= lines.1)
  }

  /** What `_seen` accepts was shown. */
  lemma SeenIsShown(visible: seq<Piece>, whole: seq<Patch>, path: string, line: Option<nat>)
    requires HasOnePatchPerPath(whole)
    requires Seen(Some(SeenIn(visible, whole)), path, line)
    ensures IsShown(visible, whole, path, line)
  {
    var s := SeenIn(visible, whole);
    if path in s.complete {
      OnePatchIsSound(visible, whole);
    } else {
      var lines :| lines in s.cut[path] && lines.0 <= line.value <= lines.1;
      RangesAreShown(visible, whole, path, lines);
    }
  }
}
