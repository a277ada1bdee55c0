/** The merged pull requests of a window, page by page (src/rail/reviewer/github.py). */
module Discovery {
  import opened Wrappers

  const MAX_PAGES := 100

  /** When a pull request says it merged: never, at an instant, or nothing that can be read. */
  datatype Merge = NotMerged | MergedAt(t: int) | Unreadable

  /** One listed pull request; `isReadable` when the rest of its details can be read. */
  datatype Raw = Raw(number: nat, updated: int, base: Option<string>, merge: Merge, isReadable: bool)

  datatype Page = Page(items: seq<Raw>, next: Option<string>)

  datatype Pull = Pull(number: nat, mergedAt: int)

  datatype Window = Window(base: string, since: int, until: int)

  /** What a scan has met, kept, and could not read. */
  datatype Scan = Scan(numbers: set<nat>, pulls: seq<Pull>, unread: nat)

  datatype Outcome = Found(pulls: seq<Pull>, unread: nat) | Raised

  // ---------------------------------------------------------------- the full scan

  predicate IsOnBase(raw: Raw, w: Window) {
    raw.base.None? || raw.base.value == w.base
  }

  predicate IsMergedIn(raw: Raw, w: Window) {
    raw.merge.MergedAt? && w.since <= raw.merge.t <= w.until
  }

  /** One more pull request; a number already met is passed over. */
  function Meet(s: Scan, raw: Raw, w: Window): Scan {
    if raw.number in s.numbers then s
    else
      var t := s.(numbers := s.numbers + {raw.number});
      if !IsOnBase(raw, w) || raw.merge.NotMerged? then t
      else if raw.merge.Unreadable? then t.(unread := t.unread + 1)
      else if !IsMergedIn(raw, w) then t
      else if !raw.isReadable then t.(unread := t.unread + 1)
      else t.(pulls := t.pulls + [Pull(raw.number, raw.merge.t)])
  }

  function ScanOf(items: seq<Raw>, w: Window): Scan {
    if items == [] then Scan({}, [], 0)
    else Meet(ScanOf(items[..|items| - 1], w), items[|items| - 1], w)
  }

  /** The first listing of its number. */
  predicate IsFirst(items: seq<Raw>, k: nat) {
    k < |items| && forall j :: 0 <= j < k ==> items[j].number != items[k].number
  }

  /** On the base asked for or on none said, merged within the window, its ends included, and readable. */
  predicate IsWanted(raw: Raw, w: Window) {
    && (raw.base == None || raw.base == Some(w.base))
    && raw.merge.MergedAt? && w.since <= raw.merge.t <= w.until && raw.isReadable
  }

  predicate IsPullOf(items: seq<Raw>, w: Window, k: nat, p: Pull) {
    IsFirst(items, k) && IsWanted(items[k], w) && p == Pull(items[k].number, items[k].merge.t)
  }

  lemma ScanSnoc(items: seq<Raw>, raw: Raw, w: Window)
    ensures ScanOf(items + [raw], w) == Meet(ScanOf(items, w), raw, w)
  {
  }

  lemma {:induction false} NumbersMet(items: seq<Raw>, w: Window)
    ensures forall n :: n in ScanOf(items, w).numbers <==> exists k :: 0 <= k < |items| && items[k].number == n
  {
    if items != [] {
      var init, last := items[..|items| - 1], items[|items| - 1];
      assert items == init + [last];
      NumbersMet(init, w);
    }
  }

  /** No number is kept twice. */
  ghost predicate IsEachOnce(s: Scan) {
    && (forall i, j :: 0 <= i < j < |s.pulls| ==> s.pulls[i].number != s.pulls[j].number)
    && (forall i :: 0 <= i < |s.pulls| ==> s.pulls[i].number in s.numbers)
  }

  lemma MeetIsDistinct(s: Scan, raw: Raw, w: Window)
    requires IsEachOnce(s)
    ensures IsEachOnce(Meet(s, raw, w))
  {
  }

  /** The scan keeps exactly the readable pull requests merged in the window, each once. */
  lemma {:induction false} ScanMeans(items: seq<Raw>, w: Window)
    ensures forall p :: p in ScanOf(items, w).pulls <==> exists k: nat :: IsPullOf(items, w, k, p)
    ensures IsEachOnce(ScanOf(items, w))
  {
    if items != [] {
      var init, last := items[..|items| - 1], items[|items| - 1];
      assert items == init + [last];
      ScanMeans(init, w);
      NumbersMet(init, w);
      forall p ensures p in ScanOf(items, w).pulls <==> exists k: nat :: IsPullOf(items, w, k, p) {
        PullOfSnoc(init, last, w, p);
      }
      MeetIsDistinct(ScanOf(init, w), last, w);
    }
  }

  lemma PullOfSnoc(init: seq<Raw>, last: Raw, w: Window, p: Pull)
    ensures (exists k: nat :: IsPullOf(init + [last], w, k, p)) <==>
      || (exists k: nat :: IsPullOf(init, w, k, p))
      || ((forall j :: 0 <= j < |init| ==> init[j].number != last.number)
          && IsWanted(last, w) && p == Pull(last.number, last.merge.t))
  {
    var items := init + [last];
    if k: nat :| IsPullOf(init, w, k, p) {
      assert IsPullOf(items, w, k, p);
    }
    if k: nat :| IsPullOf(items, w, k, p) {
      if k < |init| {
        assert forall j :: 0 <= j <= k ==> items[j] == init[j];
        assert IsPullOf(init, w, k, p);
      } else {
        assert forall j :: 0 <= j < |init| ==> items[j] == init[j];
      }
    }
    if (forall j :: 0 <= j < |init| ==> init[j].number != last.number)
       && IsWanted(last, w) && p == Pull(last.number, last.merge.t)
    {
      assert IsPullOf(items, w, |init|, p);
    }
  }

  // ---------------------------------------------------------------- stopping early

  ghost predicate IsDescending(items: seq<Raw>) {
    forall i, j :: 0 <= i < j < |items| ==> items[i].updated >= items[j].updated
  }

  /** A merge is an update. */
  ghost predicate MergesAreUpdates(items: seq<Raw>) {
    forall k :: 0 <= k < |items| && items[k].merge.MergedAt? ==> items[k].merge.t <= items[k].updated
  }

  /** What was last updated before the window adds no pull request of the window. */
  lemma {:induction false} StaleTailAddsNothing(items: seq<Raw>, tail: seq<Raw>, w: Window)
    requires forall k :: 0 <= k < |tail| ==> !IsMergedIn(tail[k], w)
    ensures ScanOf(items + tail, w).pulls == ScanOf(items, w).pulls
    decreases |tail|
  {
    if tail == [] {
      assert items + tail == items;
    } else {
      var init, last := tail[..|tail| - 1], tail[|tail| - 1];
      assert items + tail == (items + init) + [last];
      StaleTailAddsNothing(items, init, w);
      ScanSnoc(items + init, last, w);
    }
  }

  lemma TailIsStale(items: seq<Raw>, tail: seq<Raw>, w: Window)
    requires items != [] && items[|items| - 1].updated < w.since
    requires IsDescending(items + tail) && MergesAreUpdates(items + tail)
    ensures forall k :: 0 <= k < |tail| ==> !IsMergedIn(tail[k], w)
  {
    var all := items + tail;
    forall k | 0 <= k < |tail| ensures !IsMergedIn(tail[k], w) {
      assert all[|items| + k] == tail[k];
      assert all[|items| - 1].updated >= all[|items| + k].updated;
    }
  }

  // ---------------------------------------------------------------- pages

  /** The pull requests of the pages under these cursors, in order. */
  function Listed(server: string -> Page, cursors: seq<string>): seq<Raw> {
    if cursors == [] then []
    else Listed(server, cursors[..|cursors| - 1]) + server(cursors[|cursors| - 1]).items
  }

  predicate FollowsAt(server: string -> Page, start: string, cursors: seq<string>, k: nat)
    requires k < |cursors|
  {
    if k == 0 then cursors[0] == start else server(cursors[k - 1]).next == Some(cursors[k])
  }

  /** Each cursor is the next of the one before it, from the first request. */
  ghost predicate Follow(server: string -> Page, start: string, cursors: seq<string>) {
    forall k :: 0 <= k < |cursors| ==> FollowsAt(server, start, cursors, k)
  }

  ghost predicate AreDistinct(cursors: seq<string>) {
    forall i, j :: 0 <= i < j < |cursors| ==> cursors[i] != cursors[j]
  }

  /** The cursors reach the end of the list, none twice, within the page limit. */
  ghost predicate IsPaging(server: string -> Page, start: string, cursors: seq<string>) {
    && 0 < |cursors| <= 100 && Follow(server, start, cursors) && AreDistinct(cursors)
    && server(cursors[|cursors| - 1]).next.None?
  }

  lemma {:induction false} FollowIsPrefix(server: string -> Page, start: string, a: seq<string>, b: seq<string>)
    requires Follow(server, start, a) && IsPaging(server, start, b)
    ensures a <= b
    decreases |a|
  {
    if a != [] {
      var init := a[..|a| - 1];
      var n := |init|;
      assert forall k :: 0 <= k < n && FollowsAt(server, start, a, k) ==> FollowsAt(server, start, init, k);
      FollowIsPrefix(server, start, init, b);
      assert FollowsAt(server, start, a, n);
      assert n > 0 ==> b[n - 1] == a[n - 1];
      assert n < |b| && FollowsAt(server, start, b, n);
    }
  }

  lemma {:induction false} ListedConcat(server: string -> Page, a: seq<string>, b: seq<string>)
    ensures Listed(server, a + b) == Listed(server, a) + Listed(server, b)
    decreases |b|
  {
    if b == [] {
      assert a + b == a;
    } else {
      var init, last := b[..|b| - 1], b[|b| - 1];
      assert (a + b)[..|a + b| - 1] == a + init;
      ListedConcat(server, a, init);
      assert Listed(server, a) + Listed(server, init) + server(last).items ==
        Listed(server, a) + (Listed(server, init) + server(last).items);
    }
  }

  lemma ListedSnoc(server: string -> Page, a: seq<string>, c: string)
    ensures Listed(server, a + [c]) == Listed(server, a) + server(c).items
  {
  }

  // ---------------------------------------------------------------- the algorithm

  ghost predicate IsLastUpdate(seen: seq<Raw>, previous: Option<int>) {
    if seen == [] then previous.None? else previous == Some(seen[|seen| - 1].updated)
  }

  lemma DescendingSnoc(seen: seq<Raw>, raw: Raw)
    requires IsDescending(seen)
    ensures IsDescending(seen + [raw]) <==> seen == [] || seen[|seen| - 1].updated >= raw.updated
  {
    var all := seen + [raw];
    if seen != [] && seen[|seen| - 1].updated >= raw.updated {
      forall i, j | 0 <= i < j < |all| ensures all[i].updated >= all[j].updated {
        if j == |seen| {
          assert seen[i].updated >= seen[|seen| - 1].updated;
        }
      }
    }
    if IsDescending(all) && seen != [] {
      assert all[|seen| - 1].updated >= all[|seen|].updated;
    }
  }

  lemma DescendingPrefix(a: seq<Raw>, b: seq<Raw>)
    requires IsDescending(a + b)
    ensures IsDescending(a)
  {
    assert forall k :: 0 <= k < |a| ==> (a + b)[k] == a[k];
  }

  /** One page read in full, unless it breaks the descending order. */
  method ReadPage(items: seq<Raw>, before: Scan, previous: Option<int>, w: Window, ghost seen: seq<Raw>)
    returns (after: Option<Scan>, latest: Option<int>)
    requires before == ScanOf(seen, w) && IsDescending(seen) && IsLastUpdate(seen, previous)
    ensures after.Some? <==> IsDescending(seen + items)
    ensures after.Some? ==> after.value == ScanOf(seen + items, w) && IsLastUpdate(seen + items, latest)
  {
    hide ScanOf, IsDescending, Meet;
    var scan := before;
    latest := previous;
    assert seen + items[..0] == seen;
    for k := 0 to |items|
      invariant scan == ScanOf(seen + items[..k], w) && IsDescending(seen + items[..k])
      invariant IsLastUpdate(seen + items[..k], latest)
    {
      var raw := items[k];
      ghost var met := seen + items[..k];
      assert seen + items[..k + 1] == met + [raw];
      DescendingSnoc(met, raw);
      if latest.Some? && raw.updated > latest.value {
        if IsDescending(seen + items) {
          assert seen + items == (met + [raw]) + items[k + 1..];
          DescendingPrefix(met + [raw], items[k + 1..]);
        }
        return None, latest;
      }
      latest := Some(raw.updated);
      ScanSnoc(met, raw, w);
      scan := Meet(scan, raw, w);
    }
    assert items[..|items|] == items;
    return Some(scan), latest;
  }

  /** The list ended, or its last update is from before the window. */
  ghost predicate MayStop(server: string -> Page, cursors: seq<string>, since: int)
    requires cursors != []
  {
    var last := server(cursors[|cursors| - 1]);
    last.next.None? || (last.items != [] && last.items[|last.items| - 1].updated < since)
  }

  /** Where the list goes on, there is a next cursor. */
  lemma NotTheEnd(server: string -> Page, start: string, a: seq<string>, b: seq<string>)
    requires a != [] && a < b && Follow(server, start, b)
    ensures server(a[|a| - 1]).next.Some?
  {
    assert FollowsAt(server, start, b, |a|);
    assert b[|a| - 1] == a[|a| - 1];
  }

  /** A page in full, for every way the rest of the list may go. */
  lemma StoppedIsComplete(server: string -> Page, start: string, w: Window, a: seq<string>, b: seq<string>)
    requires a != [] && Follow(server, start, a) && MayStop(server, a, w.since) && IsPaging(server, start, b)
    requires IsDescending(Listed(server, b)) && MergesAreUpdates(Listed(server, b))
    ensures ScanOf(Listed(server, a), w).pulls == ScanOf(Listed(server, b), w).pulls
  {
    hide ScanOf, IsDescending, MergesAreUpdates, Listed;
    FollowIsPrefix(server, start, a, b);
    var rest := b[|a|..];
    assert b == a + rest;
    ListedConcat(server, a, rest);
    var last := server(a[|a| - 1]);
    if last.next.None? {
      if a < b {
        NotTheEnd(server, start, a, b);
      } else {
        assert a == b;
      }
    } else {
      assert a == a[..|a| - 1] + [a[|a| - 1]];
      ListedSnoc(server, a[..|a| - 1], a[|a| - 1]);
      TailIsStale(Listed(server, a), Listed(server, rest), w);
      StaleTailAddsNothing(Listed(server, a), Listed(server, rest), w);
    }
  }

  /** No descending list goes through these pages. */
  lemma BrokenOrderIsBroken(server: string -> Page, start: string, a: seq<string>)
    requires Follow(server, start, a) && !IsDescending(Listed(server, a))
    ensures forall b :: IsPaging(server, start, b) ==> !IsDescending(Listed(server, b))
  {
    hide IsDescending, Listed;
    forall b | IsPaging(server, start, b) ensures !IsDescending(Listed(server, b)) {
      FollowIsPrefix(server, start, a, b);
      ListedConcat(server, a, b[|a|..]);
      assert b == a + b[|a|..];
      if IsDescending(Listed(server, b)) {
        DescendingPrefix(Listed(server, a), Listed(server, b[|a|..]));
      }
    }
  }

  lemma DistinctPrefix(a: seq<string>, c: string, b: seq<string>)
    requires a + [c] <= b && AreDistinct(b)
    ensures c !in a
  {
    forall k | 0 <= k < |a| ensures a[k] != c {
      assert b[k] == a[k] && b[|a|] == c;
    }
  }

  /** A cursor met twice, or one past the page limit: no paging goes through it. */
  lemma BadCursorIsBad(server: string -> Page, start: string, a: seq<string>, c: string)
    requires Follow(server, start, a + [c]) && (c in a || |a| >= MAX_PAGES)
    ensures forall b :: !IsPaging(server, start, b)
  {
    forall b ensures !IsPaging(server, start, b) {
      if IsPaging(server, start, b) {
        FollowIsPrefix(server, start, a + [c], b);
        DistinctPrefix(a, c, b);
      }
    }
  }

  lemma FollowSnoc(server: string -> Page, start: string, a: seq<string>, c: string)
    requires Follow(server, start, a)
    requires if a == [] then c == start else server(a[|a| - 1]).next == Some(c)
    ensures Follow(server, start, a + [c])
  {
    forall k | 0 <= k < |a + [c]| ensures FollowsAt(server, start, a + [c], k) {
      assert k < |a| ==> FollowsAt(server, start, a, k);
    }
  }

  /** What the discovery owes to a list served whole: the full scan's pull requests. */
  ghost predicate IsFullScan(server: string -> Page, start: string, w: Window, r: Outcome) {
    forall b :: IsPaging(server, start, b) && IsDescending(Listed(server, b)) && MergesAreUpdates(Listed(server, b)) ==>
      r.Found? && r.pulls == ScanOf(Listed(server, b), w).pulls
  }

  /**
   * `flow_merged_pulls`: it ends within the page limit whatever the server answers; and when the
   * server pages one list in descending update order, it finds what a full scan finds.
   */
  method DiscoverPulls(server: string -> Page, start: string, w: Window)
    returns (r: Outcome, ghost cursors: seq<string>)
    ensures |cursors| <= 100 && Follow(server, start, cursors)
    ensures r.Found? ==>
      && cursors != [] && MayStop(server, cursors, w.since)
      && r.pulls == ScanOf(Listed(server, cursors), w).pulls && r.unread == ScanOf(Listed(server, cursors), w).unread
    ensures IsFullScan(server, start, w, r)
  {
    hide ScanOf, IsDescending, Listed, Follow, MergesAreUpdates, IsPaging;
    cursors := [];
    var seen: set<string> := {};
    var scan, previous := Scan({}, [], 0), None;
    var path := start;
    NothingListed(server, start, w);
    while true
      invariant |cursors| == |seen| <= MAX_PAGES && (forall c :: c in seen <==> c in cursors)
      invariant Follow(server, start, cursors) && Follow(server, start, cursors + [path])
      invariant IsDescending(Listed(server, cursors)) && scan == ScanOf(Listed(server, cursors), w)
      invariant IsLastUpdate(Listed(server, cursors), previous)
      decreases MAX_PAGES - |seen|
    {
      if path in seen || |seen| >= MAX_PAGES {
        BadCursorIsBad(server, start, cursors, path);
        return Raised, cursors;
      }
      seen := seen + {path};
      var page := server(path);
      ListedSnoc(server, cursors, path);
      var after, latest := ReadPage(page.items, scan, previous, w, Listed(server, cursors));
      cursors := cursors + [path];
      if after.None? {
        BrokenOrderIsBroken(server, start, cursors);
        return Raised, cursors;
      }
      scan, previous := after.value, latest;
      if page.next.None? || (page.items != [] && previous.value < w.since) {
        r := Found(scan.pulls, scan.unread);
        forall b | IsPaging(server, start, b) && IsDescending(Listed(server, b)) && MergesAreUpdates(Listed(server, b))
          ensures r.pulls == ScanOf(Listed(server, b), w).pulls
        {
          StoppedIsComplete(server, start, w, cursors, b);
        }
        return r, cursors;
      }
      path := page.next.value;
      FollowSnoc(server, start, cursors, path);
    }
  }

  lemma NothingListed(server: string -> Page, start: string, w: Window)
    ensures Listed(server, []) == [] && ScanOf([], w) == Scan({}, [], 0) && IsDescending([])
    ensures Follow(server, start, []) && Follow(server, start, [start])
    ensures [] + [start] == [start]
  {
  }

  // ---------------------------------------------------------------- coverage

  /** A first listing the scan counts as unread: it may belong to the window, and cannot be read. */
  predicate IsUnread(raw: Raw, w: Window) {
    && (raw.base == None || raw.base == Some(w.base))
    && (raw.merge.Unreadable?
        || (raw.merge.MergedAt? && w.since <= raw.merge.t <= w.until && !raw.isReadable))
  }

  predicate IsUnreadAt(items: seq<Raw>, w: Window, k: nat) {
    IsFirst(items, k) && IsUnread(items[k], w)
  }

  function UnreadOf(items: seq<Raw>, w: Window): set<nat> {
    set k: nat | k < |items| && IsUnreadAt(items, w, k)
  }

  lemma UnreadSnoc(items: seq<Raw>, raw: Raw, w: Window)
    ensures UnreadOf(items + [raw], w) == UnreadOf(items, w) +
      if (forall j :: 0 <= j < |items| ==> items[j].number != raw.number) && IsUnread(raw, w) then {|items|} else {}
  {
    var all := items + [raw];
    forall k: nat | k < |items| ensures IsUnreadAt(all, w, k) <==> IsUnreadAt(items, w, k) {
      assert forall j :: 0 <= j <= k ==> all[j] == items[j];
    }
    assert all[|items|] == raw && forall j :: 0 <= j < |items| ==> all[j] == items[j];
  }

  /** The unread count is the number of such listings. */
  lemma {:induction false} UnreadMeans(items: seq<Raw>, w: Window)
    ensures ScanOf(items, w).unread == |UnreadOf(items, w)|
  {
    hide UnreadOf;
    if items == [] {
      NoneUnread(w);
    } else {
      var init, last := items[..|items| - 1], items[|items| - 1];
      assert items == init + [last];
      UnreadMeans(init, w);
      NumbersMet(init, w);
      UnreadSnoc(init, last, w);
      UnreadAreIndices(init, w);
    }
  }

  lemma NoneUnread(w: Window)
    ensures UnreadOf([], w) == {}
  {
  }

  lemma UnreadAreIndices(items: seq<Raw>, w: Window)
    ensures |items| !in UnreadOf(items, w)
  {
  }

  /**
   * A scan of more counts as many unread exactly when what it adds holds no first listing on the
   * base that is unreadable, or merged in the window with details that cannot be read.
   */
  lemma UnreadAgrees(items: seq<Raw>, tail: seq<Raw>, w: Window)
    ensures ScanOf(items, w).unread <= ScanOf(items + tail, w).unread
    ensures ScanOf(items, w).unread == ScanOf(items + tail, w).unread <==>
      forall k :: |items| <= k < |items + tail| ==> !IsUnreadAt(items + tail, w, k)
  {
    var all := items + tail;
    UnreadMeans(items, w);
    UnreadMeans(all, w);
    UnreadParts(items, tail, w);
    var late := UnreadFrom(all, w, |items|);
    assert forall k: nat :: k in late <==> |items| <= k < |all| && IsUnreadAt(all, w, k);
    if late != {} {
      var k: nat :| k in late;
    }
  }

  function UnreadFrom(items: seq<Raw>, w: Window, start: nat): set<nat> {
    set k: nat | start <= k < |items| && IsUnreadAt(items, w, k)
  }

  lemma UnreadParts(items: seq<Raw>, tail: seq<Raw>, w: Window)
    ensures |UnreadOf(items + tail, w)| == |UnreadOf(items, w)| + |UnreadFrom(items + tail, w, |items|)|
  {
    var all := items + tail;
    var early, late := UnreadOf(items, w), UnreadFrom(all, w, |items|);
    forall k: nat | k < |items| ensures IsUnreadAt(all, w, k) <==> IsUnreadAt(items, w, k) {
      assert forall j :: 0 <= j <= k ==> all[j] == items[j];
    }
    assert UnreadOf(all, w) == early + late && early !! late;
  }

  /** Stopping early keeps the coverage exactly when the pages never requested hold no unread. */
  lemma CoverageAgrees(server: string -> Page, start: string, w: Window, a: seq<string>, b: seq<string>)
    requires Follow(server, start, a) && IsPaging(server, start, b)
    ensures var read, all := Listed(server, a), Listed(server, b);
      && ScanOf(read, w).unread <= ScanOf(all, w).unread
      && (ScanOf(read, w).unread == ScanOf(all, w).unread <==>
            forall k :: |read| <= k < |all| ==> !IsUnreadAt(all, w, k))
  {
    hide ScanOf, Listed, IsUnreadAt;
    FollowIsPrefix(server, start, a, b);
    assert b == a + b[|a|..];
    ListedConcat(server, a, b[|a|..]);
    UnreadAgrees(Listed(server, a), Listed(server, b[|a|..]), w);
  }

  const JUNE := Window("main", 5, 20)

  /** Two pages: the first ends before the window, the second holds a merge nobody can read. */
  function TwoPages(cursor: string): Page {
    if cursor == "1" then Page([Raw(1, 4, None, NotMerged, true)], Some("2"))
    else Page([Raw(2, 3, None, Unreadable, true)], None)
  }

  lemma TwoPagesList()
    ensures Listed(TwoPages, ["1"]) == [TwoPages("1").items[0]]
    ensures Listed(TwoPages, ["1", "2"]) == [TwoPages("1").items[0], TwoPages("2").items[0]]
  {
    hide TwoPages;
    assert ["1", "2"][..1] == ["1"] && ["1"][..0] == [];
    TwoPagesAre();
  }

  lemma TwoPagesAre()
    ensures TwoPages("1") == Page([Raw(1, 4, None, NotMerged, true)], Some("2"))
    ensures TwoPages("2") == Page([Raw(2, 3, None, Unreadable, true)], None)
  {
    assert "1"[0] != "2"[0];
  }

  lemma TwoPagesPage()
    ensures Follow(TwoPages, "1", ["1"]) && MayStop(TwoPages, ["1"], JUNE.since) && IsPaging(TwoPages, "1", ["1", "2"])
  {
    hide TwoPages;
    TwoPagesAre();
    assert "1"[0] != "2"[0];
  }

  lemma TwoPagesScan(first: Raw, second: Raw)
    requires first == Raw(1, 4, None, NotMerged, true) && second == Raw(2, 3, None, Unreadable, true)
    ensures ScanOf([first], JUNE).unread == 0 && ScanOf([first, second], JUNE).unread == 1
  {
    assert [first, second][..1] == [first] && [first][..0] == [];
    assert ScanOf([first], JUNE) == Scan({1}, [], 0);
  }

  /** The discovery may stop after the first page, and counts no unread where a full scan counts one. */
  lemma EarlyStopLosesCoverage()
    ensures Follow(TwoPages, "1", ["1"]) && MayStop(TwoPages, ["1"], JUNE.since) && IsPaging(TwoPages, "1", ["1", "2"])
    ensures IsDescending(Listed(TwoPages, ["1", "2"])) && MergesAreUpdates(Listed(TwoPages, ["1", "2"]))
    ensures ScanOf(Listed(TwoPages, ["1"]), JUNE).unread == 0
    ensures ScanOf(Listed(TwoPages, ["1", "2"]), JUNE).unread == 1
  {
    hide TwoPages, Listed, ScanOf, Follow, MayStop, IsPaging;
    TwoPagesAre();
    TwoPagesList();
    TwoPagesPage();
    TwoPagesScan(TwoPages("1").items[0], TwoPages("2").items[0]);
  }
}
