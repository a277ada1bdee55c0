/** A diff cut between files into chunks a judge can read (src/rail/reviewer/split.py). */
module Split {
  import opened Sequences

  // ---------------------------------------------------------------- text

  /** UTF-8 bytes of one character. */
  function Width(c: char): nat {
    var n := c as int;
    if n < 0x80 then 1 else if n < 0x800 then 2 else if n < 0x1_0000 then 3 else 4
  }

  /** `_size`: UTF-8 bytes of a text. */
  function Size(s: string): nat {
    if s == [] then 0 else Size(s[..|s| - 1]) + Width(s[|s| - 1])
  }

  lemma {:induction false} SizeConcat(s: string, t: string)
    ensures Size(s + t) == Size(s) + Size(t)
  {
    if t == [] {
      assert s + t == s;
    } else {
      assert (s + t)[..|s + t| - 1] == s + t[..|t| - 1];
      SizeConcat(s, t[..|t| - 1]);
    }
  }

  function Join(pieces: seq<string>): string {
    if pieces == [] then "" else Join(pieces[..|pieces| - 1]) + pieces[|pieces| - 1]
  }

  lemma JoinSnoc(pieces: seq<string>, last: string)
    ensures Join(pieces + [last]) == Join(pieces) + last
  {
  }

  // ---------------------------------------------------------------- files

  const HEADER := "diff --git "

  /** A file header begins here: at the start of a line. */
  predicate IsHeaderAt(diff: string, i: nat) {
    i <= |diff| && (i == 0 || diff[i - 1] == '\n') && HEADER <= diff[i..]
  }

  /** The first file header at `i` or later, or the end. */
  function NextHeader(diff: string, i: nat): (j: nat)
    requires i <= |diff|
    ensures i <= j <= |diff|
    ensures j < |diff| ==> IsHeaderAt(diff, j)
    ensures forall k :: i <= k < j ==> !IsHeaderAt(diff, k)
    decreases |diff| - i
  {
    if i == |diff| || IsHeaderAt(diff, i) then i else NextHeader(diff, i + 1)
  }

  function FilesFrom(diff: string, i: nat): seq<string>
    requires i <= |diff|
    decreases |diff| - i
  {
    if i == |diff| then []
    else
      var j := NextHeader(diff, i + 1);
      [diff[i..j]] + FilesFrom(diff, j)
  }

  /** `_files`: the diff cut at its file headers; what precedes the first one is a piece too. */
  function Files(diff: string): seq<string> {
    FilesFrom(diff, 0)
  }

  /** Where each piece begins, and where the last one ends. */
  ghost function Begins(pieces: seq<string>, k: nat): nat
    requires k <= |pieces|
  {
    |Join(pieces[..k])|
  }

  lemma {:induction false} JoinConcat(a: seq<string>, b: seq<string>)
    ensures Join(a + b) == Join(a) + Join(b)
  {
    if b == [] {
      assert a + b == a;
    } else {
      assert (a + b)[..|a + b| - 1] == a + b[..|b| - 1];
      JoinConcat(a, b[..|b| - 1]);
      assert Join(a) + Join(b[..|b| - 1]) + b[|b| - 1] == Join(a) + (Join(b[..|b| - 1]) + b[|b| - 1]);
    }
  }

  lemma {:induction false} FilesFromJoin(diff: string, i: nat)
    requires i <= |diff|
    ensures Join(FilesFrom(diff, i)) == diff[i..]
    ensures forall p :: p in FilesFrom(diff, i) ==> p != ""
    decreases |diff| - i
  {
    if i < |diff| {
      var j := NextHeader(diff, i + 1);
      FilesFromJoin(diff, j);
      JoinConcat([diff[i..j]], FilesFrom(diff, j));
      assert Join([diff[i..j]]) == diff[i..j] by {
        assert [diff[i..j]][..0] == [];
      }
    }
  }

  /** One of the pieces, laid out from `i` on, begins at `at`. */
  ghost predicate BeginsAt(pieces: seq<string>, i: nat, at: nat) {
    exists k: nat :: k < |pieces| && i + Begins(pieces, k) == at
  }

  lemma BeginsShift(head: string, rest: seq<string>, k: nat)
    requires k <= |rest|
    ensures Begins([head] + rest, 0) == 0
    ensures Begins([head] + rest, k + 1) == |head| + Begins(rest, k)
  {
    assert ([head] + rest)[..k + 1] == [head] + rest[..k];
    JoinConcat([head], rest[..k]);
    JoinSnoc([], head);
    assert [] + [head] == [head];
  }

  lemma BeginsInRest(head: string, rest: seq<string>, i: nat, at: nat)
    ensures BeginsAt([head] + rest, i, at) <==> at == i || BeginsAt(rest, i + |head|, at)
  {
    var fs := [head] + rest;
    BeginsShift(head, rest, 0);
    if at == i {
      assert i + Begins(fs, 0) == at;
    }
    if BeginsAt(rest, i + |head|, at) {
      var k: nat :| k < |rest| && i + |head| + Begins(rest, k) == at;
      BeginsShift(head, rest, k);
      assert i + Begins(fs, k + 1) == at;
    }
    if BeginsAt(fs, i, at) && at != i {
      var k: nat :| k < |fs| && i + Begins(fs, k) == at;
      BeginsShift(head, rest, k - 1);
      assert i + |head| + Begins(rest, k - 1) == at;
    }
  }

  lemma NothingBeginsBefore(pieces: seq<string>, i: nat, at: nat)
    requires at < i
    ensures !BeginsAt(pieces, i, at)
  {
  }

  lemma {:induction false} FilesFromCuts(diff: string, i: nat, at: nat)
    requires i <= at < |diff|
    ensures BeginsAt(FilesFrom(diff, i), i, at) <==> at == i || IsHeaderAt(diff, at)
    decreases |diff| - i
  {
    hide IsHeaderAt, BeginsAt;
    var j := NextHeader(diff, i + 1);
    BeginsInRest(diff[i..j], FilesFrom(diff, j), i, at);
    if j <= at {
      FilesFromCuts(diff, j, at);
    } else {
      NothingBeginsBefore(FilesFrom(diff, j), j, at);
    }
  }

  /** Nothing is lost, nothing is empty, and the cuts are exactly the file headers. */
  lemma FilesAreTheDiff(diff: string)
    ensures Join(Files(diff)) == diff
    ensures forall p :: p in Files(diff) ==> p != ""
    ensures forall at: nat :: at < |diff| ==>
      (BeginsAt(Files(diff), 0, at) <==> at == 0 || (diff[at - 1] == '\n' && "diff --git " <= diff[at..]))
  {
    forall at: nat | 0 < at < |diff|
      ensures IsHeaderAt(diff, at) <==> diff[at - 1] == '\n' && "diff --git " <= diff[at..]
    {
    }
    hide IsHeaderAt, BeginsAt;
    FilesFromJoin(diff, 0);
    assert diff[0..] == diff;
    forall at: nat | at < |diff|
      ensures BeginsAt(Files(diff), 0, at) <==> at == 0 || IsHeaderAt(diff, at)
    {
      FilesFromCuts(diff, 0, at);
    }
  }

  // ---------------------------------------------------------------- grouping

  type Group = seq<string>

  function Weight(g: Group): nat {
    Size(Join(g))
  }

  lemma WeightSnoc(g: Group, f: string)
    ensures Weight(g + [f]) == Weight(g) + Size(f)
  {
    JoinSnoc(g, f);
    SizeConcat(Join(g), f);
  }

  lemma WeightConcat(g: Group, h: Group)
    ensures Weight(g + h) == Weight(g) + Weight(h)
  {
    JoinConcat(g, h);
    SizeConcat(Join(g), Join(h));
  }

  function Flatten(gs: seq<Group>): seq<string> {
    if gs == [] then [] else Flatten(gs[..|gs| - 1]) + gs[|gs| - 1]
  }

  lemma FlattenSnoc(gs: seq<Group>, g: Group)
    ensures Flatten(gs + [g]) == Flatten(gs) + g
  {
  }

  /** A chunk fits, or it is one file that cannot. */
  ghost predicate IsFitting(g: Group, budget: int) {
    g != [] && (Weight(g) <= budget || |g| == 1)
  }

  /** The files in order, cut into chunks that fit or hold one oversized file. */
  ghost predicate IsGrouping(gs: seq<Group>, files: seq<string>, budget: int) {
    Flatten(gs) == files && forall g :: g in gs ==> IsFitting(g, budget)
  }

  /** The chunks closed so far and the one being filled. */
  datatype Packing = Packing(closed: seq<Group>, current: Group)

  /** All the chunks: the closed ones, and the one being filled. */
  function Groups(p: Packing): seq<Group> {
    if p.current == [] then p.closed else p.closed + [p.current]
  }

  function Pack(p: Packing, file: string, budget: int): Packing {
    var closed := Groups(p);
    if Size(file) > budget then Packing(closed + [[file]], [])
    else if p.current != [] && Weight(p.current) + Size(file) > budget then Packing(closed, [file])
    else Packing(p.closed, p.current + [file])
  }

  function Packed(files: seq<string>, budget: int): Packing {
    if files == [] then Packing([], [])
    else Pack(Packed(files[..|files| - 1], budget), files[|files| - 1], budget)
  }

  /** Every chunk of the greedy packing fits, and together they are the files. */
  lemma {:induction false} PackedIsGrouping(files: seq<string>, budget: int)
    ensures IsGrouping(Groups(Packed(files, budget)), files, budget)
    ensures files != [] ==> (Packed(files, budget).current == [] <==> Size(files[|files| - 1]) > budget)
    ensures Packed(files, budget).current == [] || Weight(Packed(files, budget).current) <= budget
  {
    hide IsGrouping, Pack, Groups, Size, Weight;
    if files == [] {
      NothingIsGrouping(budget);
    } else {
      var before, f := files[..|files| - 1], files[|files| - 1];
      PackedIsGrouping(before, budget);
      assert files == before + [f];
      PackKeepsGrouping(Packed(before, budget), before, f, budget);
    }
  }

  lemma NothingIsGrouping(budget: int)
    ensures IsGrouping(Groups(Packed([], budget)), [], budget)
  {
  }

  lemma PackKeepsGrouping(p: Packing, files: seq<string>, f: string, budget: int)
    requires IsGrouping(Groups(p), files, budget)
    requires p.current == [] || Weight(p.current) <= budget
    ensures var q := Pack(p, f, budget);
      && IsGrouping(Groups(q), files + [f], budget)
      && (q.current == [] <==> Size(f) > budget)
      && (q.current == [] || Weight(q.current) <= budget)
  {
    var q := Pack(p, f, budget);
    WeightSnoc([], f);
    assert [] + [f] == [f];
    WeightSnoc(p.current, f);
    if Size(f) > budget || (p.current != [] && Weight(p.current) + Size(f) > budget) {
      FlattenSnoc(Groups(p), [f]);
      assert Groups(q) == Groups(p) + [[f]];
    } else {
      FlattenSnoc(p.closed, p.current + [f]);
      FlattenSnoc(p.closed, p.current);
      assert Groups(q) == p.closed + [p.current + [f]];
      assert files + [f] == Flatten(p.closed) + (p.current + [f]);
    }
  }

  // ---------------------------------------------------------------- no grouping uses fewer chunks

  /** Greedy is ahead of `gs`: fewer chunks, or as many with no longer a last one. */
  ghost predicate IsAhead(p: Packing, gs: seq<Group>) {
    || |Groups(p)| < |gs|
    || (|Groups(p)| == |gs| && (gs == [] || |p.current| <= |gs[|gs| - 1]|))
  }

  /** `gs` without its last file. */
  function DropLast(gs: seq<Group>): seq<Group>
    requires gs != [] && gs[|gs| - 1] != []
  {
    var before, last := gs[..|gs| - 1], gs[|gs| - 1];
    if |last| == 1 then before else before + [last[..|last| - 1]]
  }

  lemma DropLastIsGrouping(gs: seq<Group>, files: seq<string>, budget: int)
    requires IsGrouping(gs, files, budget) && files != []
    ensures gs != [] && gs[|gs| - 1] != []
    ensures IsGrouping(DropLast(gs), files[..|files| - 1], budget)
    ensures gs[|gs| - 1][|gs[|gs| - 1]| - 1] == files[|files| - 1]
  {
    var before, last := gs[..|gs| - 1], gs[|gs| - 1];
    assert last in gs && IsFitting(last, budget);
    var init := last[..|last| - 1];
    assert last == init + [last[|last| - 1]];
    assert files == Flatten(before) + last;
    assert files[..|files| - 1] == Flatten(before) + init;
    forall g | g in before ensures IsFitting(g, budget) {
      assert g in gs;
    }
    if |last| > 1 {
      WeightSnoc(init, last[|last| - 1]);
      FlattenSnoc(before, init);
    } else {
      assert Flatten(before) + init == Flatten(before);
    }
  }

  /** The chunk being filled is the tail of the files. */
  lemma CurrentIsTail(files: seq<string>, budget: int)
    ensures var p := Packed(files, budget);
      |p.current| <= |files| && p.current == files[|files| - |p.current|..]
  {
    PackedIsGrouping(files, budget);
    var p := Packed(files, budget);
    if p.current != [] {
      FlattenSnoc(p.closed, p.current);
    }
  }

  lemma LastIsTail(gs: seq<Group>)
    requires gs != []
    ensures |gs[|gs| - 1]| <= |Flatten(gs)|
    ensures gs[|gs| - 1] == Flatten(gs)[|Flatten(gs)| - |gs[|gs| - 1]|..]
  {
  }

  /** A shorter tail weighs no more. */
  lemma ShorterTailIsLighter(files: seq<string>, m: nat, n: nat)
    requires m <= n <= |files|
    ensures Weight(files[|files| - m..]) <= Weight(files[|files| - n..])
  {
    var cut := files[|files| - n..|files| - m];
    assert files[|files| - n..] == cut + files[|files| - m..];
    WeightConcat(cut, files[|files| - m..]);
  }

  lemma {:induction false} GreedyIsAhead(files: seq<string>, gs: seq<Group>, budget: int)
    requires IsGrouping(gs, files, budget)
    ensures IsAhead(Packed(files, budget), gs)
    decreases |files|
  {
    if files != [] {
      DropLastIsGrouping(gs, files, budget);
      GreedyIsAhead(files[..|files| - 1], DropLast(gs), budget);
      AheadStep(files, gs, budget);
    }
  }

  lemma PackCounts(p: Packing, f: string, budget: int)
    ensures var q := Pack(p, f, budget);
      && |Groups(p)| <= |Groups(q)| <= |Groups(p)| + 1
      && (|Groups(q)| == |Groups(p)| + 1 ==> |q.current| <= 1)
  {
  }

  lemma AheadStep(files: seq<string>, gs: seq<Group>, budget: int)
    requires files != [] && IsGrouping(gs, files, budget)
    requires gs != [] && gs[|gs| - 1] != []
    requires IsGrouping(DropLast(gs), files[..|files| - 1], budget)
    requires IsAhead(Packed(files[..|files| - 1], budget), DropLast(gs))
    ensures IsAhead(Packed(files, budget), gs)
  {
    hide Groups, Pack, Flatten, Weight;
    var p, last := Packed(files[..|files| - 1], budget), gs[|gs| - 1];
    assert last in gs && IsFitting(last, budget);
    PackCounts(p, files[|files| - 1], budget);
    if |last| > 1 && |Groups(p)| == |gs| {
      CurrentGoesOn(files, gs, budget);
      GrownGroups(p, files[|files| - 1]);
    }
  }

  lemma GrownGroups(p: Packing, f: string)
    requires p.current != []
    ensures |Groups(Packing(p.closed, p.current + [f]))| == |Groups(p)|
  {
  }

  lemma LastFileFits(g: Group, budget: int)
    requires g != [] && Weight(g) <= budget
    ensures Size(g[|g| - 1]) <= budget
  {
    WeightSnoc(g[..|g| - 1], g[|g| - 1]);
    assert g == g[..|g| - 1] + [g[|g| - 1]];
  }

  lemma TailSnoc(before: seq<string>, f: string, n: nat)
    requires n <= |before|
    ensures (before + [f])[|before| - n..] == before[|before| - n..] + [f]
  {
  }

  /** The greedy tail is no longer than a chunk that fits, so its file still fits. */
  lemma TailFits(before: seq<string>, f: string, last: Group, n: nat, budget: int)
    requires n < |last| <= |before| + 1 && Weight(last) <= budget
    requires last == (before + [f])[|before| + 1 - |last|..]
    ensures Weight(before[|before| - n..]) + Size(f) <= budget
  {
    hide Weight, Size;
    TailSnoc(before, f, n);
    ShorterTailIsLighter(before + [f], n + 1, |last|);
    WeightSnoc(before[|before| - n..], f);
  }

  /** In a chunk of several files that fits, none is oversized. */
  lemma EachFits(g: Group, k: nat, budget: int)
    requires k < |g| && Weight(g) <= budget
    ensures Size(g[k]) <= budget
  {
    hide Weight, Size;
    WeightConcat(g[..k + 1], g[k + 1..]);
    assert g == g[..k + 1] + g[k + 1..];
    LastFileFits(g[..k + 1], budget);
  }

  /** As many chunks, and the rival's last one goes on: so does the greedy one. */
  lemma CurrentGoesOn(files: seq<string>, gs: seq<Group>, budget: int)
    requires files != [] && IsGrouping(gs, files, budget)
    requires gs != [] && |gs[|gs| - 1]| > 1 && Weight(gs[|gs| - 1]) <= budget
    requires var p := Packed(files[..|files| - 1], budget);
      |Groups(p)| == |gs| && |p.current| <= |gs[|gs| - 1]| - 1
    ensures var p := Packed(files[..|files| - 1], budget);
      Packed(files, budget) == Packing(p.closed, p.current + [files[|files| - 1]]) && p.current != []
  {
    hide Groups, Flatten, Weight, Size, IsFitting;
    var before, f := files[..|files| - 1], files[|files| - 1];
    var p, last := Packed(before, budget), gs[|gs| - 1];
    LastIsTail(gs);
    CurrentIsTail(before, budget);
    assert files == before + [f];
    TailFits(before, f, last, |p.current|, budget);
    PackedIsGrouping(before, budget);
    EachFits(last, |last| - 2, budget);
    EachFits(last, |last| - 1, budget);
    assert last[|last| - 2] == before[|before| - 1] && last[|last| - 1] == f;
  }

  /** No way to cut the diff between files, oversized files alone, uses fewer chunks. */
  lemma GreedyIsFewest(files: seq<string>, gs: seq<Group>, budget: int)
    requires IsGrouping(gs, files, budget)
    ensures |Groups(Packed(files, budget))| <= |gs|
  {
    GreedyIsAhead(files, gs, budget);
  }

  // ---------------------------------------------------------------- the algorithm

  datatype Cut = Chunks(chunks: seq<string>) | Refused(file: string)

  ghost function Joined(gs: seq<Group>): seq<string> {
    Map(g => Join(g), gs)
  }

  lemma JoinedSnoc(gs: seq<Group>, g: Group)
    ensures Joined(gs + [g]) == Joined(gs) + [Join(g)]
  {
  }

  /** A diff within the budget is one chunk. */
  lemma {:induction false} WithinBudget(files: seq<string>, budget: int)
    requires files != [] && Weight(files) <= budget
    ensures Packed(files, budget) == Packing([], files)
  {
    var before, f := files[..|files| - 1], files[|files| - 1];
    assert files == before + [f];
    WeightSnoc(before, f);
    if before != [] {
      WithinBudget(before, budget);
    }
  }

  /** The loop's variables stand for a packing. */
  ghost predicate StandsFor(p: Packing, chunks: seq<string>, current: string) {
    chunks == Joined(p.closed) && current == Join(p.current) && (current == "" <==> p.current == [])
  }

  lemma JoinOne(f: string)
    ensures Join([f]) == f
  {
  }

  lemma JoinedOne(gs: seq<Group>, f: string)
    ensures Joined(gs + [[f]]) == Joined(gs) + [f]
  {
    JoinedSnoc(gs, [f]);
    JoinOne(f);
  }

  lemma GroupsStand(p: Packing, chunks: seq<string>, current: string)
    requires StandsFor(p, chunks, current)
    ensures Joined(Groups(p)) == if current == "" then chunks else chunks + [current]
  {
  }

  lemma PackStands(p: Packing, chunks: seq<string>, current: string, piece: string, budget: int)
    requires StandsFor(p, chunks, current) && piece != ""
    ensures var closed := if current == "" then chunks else chunks + [current];
      if Size(piece) > budget then StandsFor(Pack(p, piece, budget), closed + [piece], "")
      else if current != "" && Size(current) + Size(piece) > budget then
        StandsFor(Pack(p, piece, budget), closed, piece)
      else StandsFor(Pack(p, piece, budget), chunks, current + piece)
  {
    hide Joined, Size;
    GroupsStand(p, chunks, current);
    JoinedOne(Groups(p), piece);
    JoinSnoc(p.current, piece);
    JoinOne(piece);
    if p.current == [] {
      assert p.current + [piece] == [piece];
    }
    assert Size(piece) > budget ==> Pack(p, piece, budget) == Packing(Groups(p) + [[piece]], []);
  }

  lemma PackedSnoc(pieces: seq<string>, k: nat, budget: int)
    requires k < |pieces|
    ensures Packed(pieces[..k + 1], budget) == Pack(Packed(pieces[..k], budget), pieces[k], budget)
  {
    assert pieces[..k + 1][..k] == pieces[..k];
  }

  /** `file` is the first that does not fit. */
  ghost predicate IsFirstOversized(files: seq<string>, k: nat, budget: int) {
    && k < |files| && Size(files[k]) > budget
    && forall j :: 0 <= j < k ==> Size(files[j]) <= budget
  }

  /**
   * `split_diff`: the chunks are the greedy packing of the files, joined; or, when the caller
   * would rather stop, the first file that does not fit.
   */
  method SplitDiff(diff: string, budget: int, refuseOversized: bool) returns (r: Cut)
    ensures r.Refused? <==> refuseOversized && exists k: nat :: IsFirstOversized(Files(diff), k, budget)
    ensures r.Refused? ==> exists k: nat :: IsFirstOversized(Files(diff), k, budget) && Files(diff)[k] == r.file
    ensures r.Chunks? ==> r.chunks == Joined(Groups(Packed(Files(diff), budget)))
  {
    hide Files, Packed, Pack, Groups, StandsFor, Joined;
    FilesAreTheDiff(diff);
    var pieces := Files(diff);
    if Size(diff) <= budget {
      NoneIsOversized(pieces, budget);
      SmallDiff(diff, budget);
      return Chunks(if diff == "" then [] else [diff]);
    }
    var chunks: seq<string> := [];
    var current, currentSize := "", 0;
    NothingPacked(pieces, budget);
    for k := 0 to |pieces|
      invariant currentSize == Size(current)
      invariant StandsFor(Packed(pieces[..k], budget), chunks, current)
      invariant refuseOversized ==> forall j :: 0 <= j < k ==> Size(pieces[j]) <= budget
    {
      var piece := pieces[k];
      assert piece in pieces;
      var size := Size(piece);
      PackedSnoc(pieces, k, budget);
      PackStands(Packed(pieces[..k], budget), chunks, current, piece, budget);
      SizeConcat(current, piece);
      if size > budget {
        if refuseOversized {
          assert IsFirstOversized(pieces, k, budget);
          return Refused(piece);
        }
        if current != "" {
          chunks := chunks + [current];
          current, currentSize := "", 0;
        }
        chunks := chunks + [piece];
      } else {
        if current != "" && currentSize + size > budget {
          chunks := chunks + [current];
          current, currentSize := "", 0;
        }
        assert "" + piece == piece;
        current := current + piece;
        currentSize := currentSize + size;
      }
    }
    assert pieces[..|pieces|] == pieces;
    GroupsStand(Packed(pieces, budget), chunks, current);
    if current != "" {
      chunks := chunks + [current];
    }
    return Chunks(chunks);
  }

  lemma NothingPacked(pieces: seq<string>, budget: int)
    ensures StandsFor(Packed(pieces[..0], budget), [], "")
  {
  }

  lemma SmallDiff(diff: string, budget: int)
    requires Size(diff) <= budget
    ensures Joined(Groups(Packed(Files(diff), budget))) == if diff == "" then [] else [diff]
  {
    FilesAreTheDiff(diff);
    if diff != "" {
      WithinBudget(Files(diff), budget);
      JoinedSnoc([], Files(diff));
      assert [] + [Files(diff)] == [Files(diff)];
    }
  }

  lemma NoneIsOversized(files: seq<string>, budget: int)
    requires Weight(files) <= budget
    ensures forall f :: f in files ==> Size(f) <= budget
  {
    forall k | 0 <= k < |files| ensures Size(files[k]) <= budget {
      EachFits(files, k, budget);
    }
  }

  lemma {:induction false} JoinedIsLossless(gs: seq<Group>)
    ensures Join(Joined(gs)) == Join(Flatten(gs))
  {
    if gs != [] {
      var before, last := gs[..|gs| - 1], gs[|gs| - 1];
      assert gs == before + [last];
      JoinedIsLossless(before);
      JoinedSnoc(before, last);
      JoinSnoc(Joined(before), Join(last));
      JoinConcat(Flatten(before), last);
    }
  }

  /** The chunks concatenate back to the diff; each fits the budget or is one whole file that cannot. */
  lemma SplitMeans(diff: string, budget: int)
    ensures var gs := Groups(Packed(Files(diff), budget)); var chunks := Joined(gs);
      && Join(chunks) == diff
      && Flatten(gs) == Files(diff)
      && (forall c :: c in chunks ==> Size(c) <= budget || c in Files(diff))
  {
    var gs := Groups(Packed(Files(diff), budget));
    PackedIsGrouping(Files(diff), budget);
    FilesAreTheDiff(diff);
    JoinedIsLossless(gs);
    forall k | 0 <= k < |gs| ensures Size(Joined(gs)[k]) <= budget || Joined(gs)[k] in Files(diff) {
      assert gs[k] in gs && IsFitting(gs[k], budget);
      if |gs[k]| == 1 {
        LoneFile(gs, k);
      }
    }
  }

  lemma {:induction false} LoneFile(gs: seq<Group>, k: nat)
    requires k < |gs| && |gs[k]| == 1
    ensures Join(gs[k]) == gs[k][0] && gs[k][0] in Flatten(gs)
    decreases |gs|
  {
    var before, last := gs[..|gs| - 1], gs[|gs| - 1];
    assert gs[k][..0] == [];
    if k < |gs| - 1 {
      LoneFile(before, k);
    }
  }

  /** `oversized`: the chunks a judge cannot have been given whole. */
  function Oversized(chunks: seq<string>, budget: int): seq<string> {
    Filter(c => Size(c) > budget, chunks)
  }

  /** They are exactly the files that do not fit, in their order. */
  lemma {:induction false} OversizedAreTheFiles(files: seq<string>, budget: int)
    ensures Oversized(Joined(Groups(Packed(files, budget))), budget) == Oversized(files, budget)
  {
    hide Oversized, Groups, Pack, Joined, Weight;
    if files == [] {
      NothingOversized(budget);
    } else {
      var before, f := files[..|files| - 1], files[|files| - 1];
      assert files == before + [f];
      OversizedAreTheFiles(before, budget);
      PackedIsGrouping(before, budget);
      PackOversized(Packed(before, budget), f, budget);
      FileOversized(before, f, budget);
    }
  }

  lemma NothingOversized(budget: int)
    ensures Oversized(Joined(Groups(Packed([], budget))), budget) == Oversized([], budget)
  {
  }

  lemma FileOversized(files: seq<string>, f: string, budget: int)
    ensures Oversized(files + [f], budget) == Oversized(files, budget) + (if Size(f) > budget then [f] else [])
  {
  }

  lemma PackOversized(p: Packing, f: string, budget: int)
    requires p.current == [] || Weight(p.current) <= budget
    ensures Oversized(Joined(Groups(Pack(p, f, budget))), budget)
      == Oversized(Joined(Groups(p)), budget) + (if Size(f) > budget then [f] else [])
  {
    hide Weight, Size, Join, Joined, Oversized;
    if Size(f) > budget || (p.current != [] && Weight(p.current) + Size(f) > budget) {
      assert Groups(Pack(p, f, budget)) == Groups(p) + [[f]];
      JoinOne(f);
      OversizedSnoc(Groups(p), [f], budget);
    } else {
      assert Groups(Pack(p, f, budget)) == p.closed + [p.current + [f]];
      WeightSnoc(p.current, f);
      assert p.current == [] ==> p.current + [f] == [f];
      JoinOne(f);
      WeightIsSize(p.current + [f]);
      WeightIsSize(p.current);
      OversizedSnoc(p.closed, p.current + [f], budget);
      OversizedSnoc(p.closed, p.current, budget);
    }
  }

  lemma WeightIsSize(g: Group)
    ensures Weight(g) == Size(Join(g))
  {
  }

  lemma OversizedSnoc(gs: seq<Group>, g: Group, budget: int)
    ensures Oversized(Joined(gs + [g]), budget)
      == Oversized(Joined(gs), budget) + (if Size(Join(g)) > budget then [Join(g)] else [])
  {
    JoinedSnoc(gs, g);
    FileOversized(Joined(gs), Join(g), budget);
  }
}
