/** The receipt of a verdict, trimmed to fit the ledger (src/rail/reviewer/verdict.py). */
module Receipt {
  import opened Wrappers
  import opened Sequences
  import opened Findings
  import opened Carry
  import Split

  // ---------------------------------------------------------------- text

  function NumberText(n: nat): string {
    if n < 10 then ["0123456789"[n]] else NumberText(n / 10) + ["0123456789"[n % 10]]
  }

  function IdText(i: Id): string {
    "F-" + NumberText(i.pr) + "-" + NumberText(i.n)
  }

  function CfText(i: Id): string {
    "CF-" + NumberText(i.pr) + "-" + NumberText(i.n)
  }

  function TitleText(t: Title): string {
    match t
    case Said(text) => text
    case NotAccounted(cf) => CfText(cf) + " not accounted for"
    case DeferredNoReason(cf) => CfText(cf) + " deferred without a reason"
    case NotAddressed(cf) => CfText(cf) + " not addressed"
  }

  function PlaceText(p: Place): string {
    match p
    case Path(spelling) => spelling
    case Description => "(pull request description)"
    case JudgeDescription => "(pull request description \U{2014} judge)"
  }

  // ---------------------------------------------------------------- canonical JSON sizes

  /** Bytes of one character inside a JSON string, non-ASCII kept as it is. */
  function CharSize(c: char): nat {
    if c == '\"' || c == '\\' || c == '\n' || c == '\r' || c == '\t' || c as int == 8 || c as int == 12 then 2
    else if c as int < 0x20 then 6
    else Split.Width(c)
  }

  function CharsSize(s: string): nat {
    if s == [] then 0 else CharsSize(s[..|s| - 1]) + CharSize(s[|s| - 1])
  }

  function TextSize(s: string): nat {
    2 + CharsSize(s)
  }

  const NULL_SIZE := 4

  function KlassSize(k: Option<Class>): nat {
    match k
    case None => NULL_SIZE
    case Some(Blocker) => 9
    case Some(CarryForward) => 15
    case Some(Note) => 6
  }

  function SeveritySize(s: Severity): nat {
    match s
    case Blocking => 10
    case Important => 11
    case Minor => 7
  }

  function StatusSize(s: Status): nat {
    match s
    case New => 5
    case StillOpen => 12
    case Fixed => 7
    case Ruled => 7
  }

  /** Braces, seven commas, and the eight quoted keys with their colons. */
  const KEYS_SIZE := 75

  /** One finding of the receipt: class, evidence, file, id, line, severity, status, title. */
  function EntrySize(f: Finding): nat {
    KEYS_SIZE + KlassSize(f.klass) + TextSize(f.evidence) + TextSize(PlaceText(f.file))
    + (if f.id.None? then NULL_SIZE else TextSize(IdText(f.id.value)))
    + (if f.line.None? then NULL_SIZE else |NumberText(f.line.value)|)
    + SeveritySize(f.severity) + StatusSize(f.status) + TextSize(TitleText(f.title))
  }

  /** A list of elements of these sizes: brackets, and commas between. */
  function ItemsSize(sizes: seq<nat>): nat {
    if sizes == [] then 0
    else ItemsSize(sizes[..|sizes| - 1]) + sizes[|sizes| - 1] + (if |sizes| > 1 then 1 else 0)
  }

  function FindingsSize(fs: seq<Finding>): nat {
    2 + ItemsSize(Map(EntrySize, fs))
  }

  function NamesSize(names: seq<string>): nat {
    2 + ItemsSize(Map(TextSize, names))
  }

  // ---------------------------------------------------------------- trimming

  const FILE_MAX := 200
  const EVIDENCE_MAX := 300
  const TITLE_SHORT := 80
  const RECEIPT_BUDGET := 60_000

  function Head(s: string, n: nat): string {
    if |s| <= n then s else s[..n]
  }

  /** `_receipt_form`: a long file keeps its end, the evidence its beginning. */
  function ReceiptForm(f: Finding): Finding {
    var file := PlaceText(f.file);
    var kept := if |file| <= FILE_MAX then f.file else Path("\U{2026}" + file[|file| - (FILE_MAX - 1)..]);
    f.(file := kept, evidence := Head(f.evidence, EVIDENCE_MAX))
  }

  /** When each class loses its evidence. */
  function Rank(k: Option<Class>): nat {
    match k
    case Some(Note) => 0
    case Some(CarryForward) => 1
    case Some(Blocker) => 2
    case None => 3
  }

  function ShortTitle(t: Title): Title {
    if |TitleText(t)| <= TITLE_SHORT then t else Said(TitleText(t)[..TITLE_SHORT])
  }

  /** One finding once `level` classes lost their evidence; at level 5 its title is short too. */
  function Trimmed(f: Finding, level: nat): Finding {
    var g := ReceiptForm(f);
    var h := if Rank(g.klass) < level then g.(evidence := "") else g;
    if level >= 5 then h.(title := ShortTitle(h.title)) else h
  }

  function AtLevel(fs: seq<Finding>, level: nat): (r: seq<Finding>)
    ensures |r| == |fs| && forall k :: 0 <= k < |fs| ==> r[k] == Trimmed(fs[k], level)
  {
    Map(f => Trimmed(f, level), fs)
  }

  function Minimal(fs: seq<Finding>): seq<Finding> {
    AtLevel(fs, 5)
  }

  predicate FitsAt(fs: seq<Finding>, level: nat, budget: int) {
    FindingsSize(AtLevel(fs, level)) <= budget
  }

  /** The first level that fits, or the last. */
  ghost predicate IsLevelFor(fs: seq<Finding>, budget: int, level: nat) {
    level <= 5 && (level < 5 ==> FitsAt(fs, level, budget)) && forall j :: 0 <= j < level ==> !FitsAt(fs, j, budget)
  }

  /** The class whose evidence goes at each step. */
  function KlassAt(n: nat): Option<Class> {
    if n == 0 then Some(Note) else if n == 1 then Some(CarryForward) else if n == 2 then Some(Blocker) else None
  }

  lemma TrimmedNext(f: Finding, n: nat)
    requires n < 4
    ensures Trimmed(f, n + 1) ==
      if Trimmed(f, n).klass == KlassAt(n) then Trimmed(f, n).(evidence := "") else Trimmed(f, n)
  {
  }

  lemma TrimmedLast(f: Finding)
    ensures Trimmed(f, 5) == Trimmed(f, 4).(title := ShortTitle(Trimmed(f, 4).title))
  {
  }

  lemma TrimmedFirst(fs: seq<Finding>)
    ensures Map(ReceiptForm, fs) == AtLevel(fs, 0)
  {
  }

  /** The evidence of one class goes. */
  method DropEvidence(fs: seq<Finding>, n: nat, items: seq<Finding>) returns (kept: seq<Finding>)
    requires n < 4 && items == AtLevel(fs, n)
    ensures kept == AtLevel(fs, n + 1)
  {
    hide Trimmed, KlassAt;
    kept := items;
    for k := 0 to |kept|
      invariant |kept| == |fs|
      invariant forall j :: 0 <= j < k ==> kept[j] == Trimmed(fs[j], n + 1)
      invariant forall j :: k <= j < |kept| ==> kept[j] == Trimmed(fs[j], n)
    {
      TrimmedNext(fs[k], n);
      if kept[k].klass == KlassAt(n) {
        kept := kept[k := kept[k].(evidence := "")];
      }
    }
  }

  method ShortenTitles(fs: seq<Finding>, items: seq<Finding>) returns (kept: seq<Finding>)
    requires items == AtLevel(fs, 4)
    ensures kept == AtLevel(fs, 5)
  {
    hide Trimmed, ShortTitle;
    kept := items;
    for k := 0 to |kept|
      invariant |kept| == |fs|
      invariant forall j :: 0 <= j < k ==> kept[j] == Trimmed(fs[j], 5)
      invariant forall j :: k <= j < |kept| ==> kept[j] == Trimmed(fs[j], 4)
    {
      TrimmedLast(fs[k]);
      kept := kept[k := kept[k].(title := ShortTitle(kept[k].title))];
    }
  }

  /** `receipt_findings`: the first level of trimming that fits the budget, or all of it. */
  method ReceiptFindings(fs: seq<Finding>, budget: int) returns (kept: seq<Finding>)
    ensures exists level :: IsLevelFor(fs, budget, level) && kept == AtLevel(fs, level)
  {
    hide FindingsSize, AtLevel, ReceiptForm;
    TrimmedFirst(fs);
    kept := Map(ReceiptForm, fs);
    for n := 0 to 4
      invariant kept == AtLevel(fs, n)
      invariant forall j :: 0 <= j < n ==> !FitsAt(fs, j, budget)
    {
      if FindingsSize(kept) <= budget {
        assert IsLevelFor(fs, budget, n);
        return;
      }
      kept := DropEvidence(fs, n, kept);
    }
    ghost var last: nat := 4;
    if FindingsSize(kept) > budget {
      kept := ShortenTitles(fs, kept);
      last := 5;
    }
    assert IsLevelFor(fs, budget, last);
  }

  // ---------------------------------------------------------------- more trimming is never larger

  lemma {:induction false} HeadIsSmaller(s: string, n: nat)
    ensures CharsSize(Head(s, n)) <= CharsSize(s)
    decreases |s|
  {
    if |s| > n {
      var init := s[..|s| - 1];
      HeadIsSmaller(init, n);
      assert Head(init, n) == Head(s, n);
    }
  }

  lemma EmptyIsSmallest(s: string)
    ensures TextSize("") <= TextSize(s)
  {
  }

  lemma ShortTitleIsSmaller(t: Title)
    ensures TextSize(TitleText(ShortTitle(t))) <= TextSize(TitleText(t))
  {
    HeadIsSmaller(TitleText(t), TITLE_SHORT);
  }

  lemma TrimmedIsSmaller(f: Finding, level: nat)
    ensures EntrySize(Trimmed(f, level + 1)) <= EntrySize(Trimmed(f, level))
  {
    hide TextSize, TitleText, ShortTitle, ReceiptForm, NumberText, IdText, PlaceText;
    EmptyIsSmallest(ReceiptForm(f).evidence);
    ShortTitleIsSmaller(ReceiptForm(f).title);
  }

  lemma {:induction false} ItemsShrink(a: seq<nat>, b: seq<nat>)
    requires |a| == |b| && forall k :: 0 <= k < |a| ==> a[k] <= b[k]
    ensures ItemsSize(a) <= ItemsSize(b)
  {
    if a != [] {
      ItemsShrink(a[..|a| - 1], b[..|b| - 1]);
    }
  }

  lemma LevelIsSmaller(fs: seq<Finding>, level: nat)
    ensures FindingsSize(AtLevel(fs, level + 1)) <= FindingsSize(AtLevel(fs, level))
  {
    forall k | 0 <= k < |fs| ensures EntrySize(Trimmed(fs[k], level + 1)) <= EntrySize(Trimmed(fs[k], level)) {
      TrimmedIsSmaller(fs[k], level);
    }
    ItemsShrink(Map(EntrySize, AtLevel(fs, level + 1)), Map(EntrySize, AtLevel(fs, level)));
  }

  lemma {:induction false} MinimalIsSmallest(fs: seq<Finding>, level: nat)
    requires level <= 5
    ensures FindingsSize(Minimal(fs)) <= FindingsSize(AtLevel(fs, level))
    decreases 5 - level
  {
    if level < 5 {
      MinimalIsSmallest(fs, level + 1);
      LevelIsSmaller(fs, level);
    }
  }

  /** The receipt fits exactly when its minimal form does. */
  lemma FitsWhenMinimalFits(fs: seq<Finding>, budget: int, level: nat)
    requires IsLevelFor(fs, budget, level)
    ensures FindingsSize(AtLevel(fs, level)) <= budget <==> FindingsSize(Minimal(fs)) <= budget
  {
    MinimalIsSmallest(fs, level);
  }

  // ---------------------------------------------------------------- the whole payload

  /** The payload: what no trimming touches, the unseen files named, and the findings. */
  function PayloadSize(meta: nat, unseen: seq<string>, fs: seq<Finding>): nat {
    meta + NamesSize(unseen) + FindingsSize(fs)
  }

  datatype Payload = Raised | Payload(unseen: seq<string>, findings: seq<Finding>)

  const UNSEEN_NAMED := 50

  function Named(unseen: seq<string>): seq<string> {
    if |unseen| <= UNSEEN_NAMED then unseen else unseen[..UNSEEN_NAMED]
  }

  predicate MinimalFits(meta: nat, unseen: seq<string>, fs: seq<Finding>) {
    PayloadSize(meta, unseen, Minimal(fs)) <= RECEIPT_BUDGET
  }

  lemma RoomForFindings(meta: nat, unseen: seq<string>, fs: seq<Finding>, budget: int, level: nat)
    requires var room := RECEIPT_BUDGET - PayloadSize(meta, unseen, []); budget == if room > 0 then room else 0
    requires IsLevelFor(fs, budget, level)
    ensures PayloadSize(meta, unseen, AtLevel(fs, level)) <= RECEIPT_BUDGET <==> MinimalFits(meta, unseen, fs)
  {
    hide AtLevel, ItemsSize, Map;
    MinimalIsSmallest(fs, level);
  }

  /**
   * `as_attestation_data`: it ends; it raises exactly when the minimal receipt without any
   * unseen file does not fit; otherwise the payload fits, holds every finding, and names the
   * longest list of unseen files that leaves room for the minimal receipt.
   */
  method AttestationData(meta: nat, unseen: seq<string>, fs: seq<Finding>) returns (p: Payload)
    ensures p.Raised? <==> !MinimalFits(meta, [], fs)
    ensures p.Payload? ==>
      && PayloadSize(meta, p.unseen, p.findings) <= 60_000
      && (exists level: nat :: level <= 5 && p.findings == AtLevel(fs, level))
      && p.unseen <= unseen && |p.unseen| <= 50
      && forall n :: |p.unseen| < n <= |unseen| && n <= 50 ==> !MinimalFits(meta, unseen[..n], fs)
  {
    hide PayloadSize, IsLevelFor, AtLevel, MinimalFits, Named;
    var named := Named(unseen);
    assert named[..|named|] == named;
    while true
      invariant named <= Named(unseen)
      invariant forall n :: |named| < n <= |Named(unseen)| ==> !MinimalFits(meta, Named(unseen)[..n], fs)
      decreases |named|
    {
      var room := RECEIPT_BUDGET - PayloadSize(meta, named, []);
      var budget := if room > 0 then room else 0;
      var kept := ReceiptFindings(fs, budget);
      ghost var level :| IsLevelFor(fs, budget, level) && kept == AtLevel(fs, level);
      RoomForFindings(meta, named, fs, budget, level);
      assert named == Named(unseen)[..|named|];
      if PayloadSize(meta, named, kept) <= RECEIPT_BUDGET {
        SmallerStillFits(meta, named, fs);
        LevelIsBounded(fs, budget, level);
        NamedMeans(unseen);
        return Payload(named, kept);
      }
      if named == [] {
        return Raised;
      }
      named := named[..|named| - 1];
    }
  }

  lemma NamedMeans(unseen: seq<string>)
    ensures Named(unseen) <= unseen && |Named(unseen)| <= 50
    ensures forall n :: 0 <= n <= |unseen| && n <= 50 ==> n <= |Named(unseen)| && Named(unseen)[..n] == unseen[..n]
  {
  }

  lemma LevelIsBounded(fs: seq<Finding>, budget: int, level: nat)
    requires IsLevelFor(fs, budget, level)
    ensures level <= 5
  {
  }

  lemma SmallerStillFits(meta: nat, named: seq<string>, fs: seq<Finding>)
    requires MinimalFits(meta, named, fs)
    ensures MinimalFits(meta, [], fs)
  {
  }

  // ---------------------------------------------------------------- what survives

  /** A receipt read back: trimmed evidence says so. */
  function Reloaded(f: Finding): Finding {
    if f.evidence == "" then f.(evidence := "(trimmed)") else f
  }

  function ReloadedAll(fs: seq<Finding>): (r: seq<Finding>)
    ensures |r| == |fs| && forall k :: 0 <= k < |fs| ==> r[k] == Reloaded(fs[k])
  {
    Map(Reloaded, fs)
  }

  lemma FormKeeps(fs: seq<Finding>)
    ensures forall k :: 0 <= k < |fs| ==>
      var g := ReceiptForm(fs[k]);
      && g.(file := fs[k].file, evidence := fs[k].evidence) == fs[k]
      && (IsMechanical(g) <==> IsMechanical(fs[k]))
  {
  }

  /** Trimming drops no finding, and the loop decides the same on what it reads back. */
  lemma ReloadedDecidesTheSame(fs: seq<Finding>, level: nat)
    ensures var r := ReloadedAll(AtLevel(fs, level));
      && |r| == |fs|
      && (forall k :: 0 <= k < |fs| ==>
            && r[k].id == fs[k].id && r[k].klass == fs[k].klass && r[k].severity == fs[k].severity
            && r[k].status == fs[k].status && r[k].line == fs[k].line
            && r[k].evidence == (if AtLevel(fs, level)[k].evidence == "" then "(trimmed)"
                                 else AtLevel(fs, level)[k].evidence)
            && (OpenBlocker(r[k]) <==> OpenBlocker(fs[k]))
            && (IsMechanical(r[k]) <==> IsMechanical(fs[k])))
      && (Approves(r) <==> Approves(fs))
      && Ids(r) == Ids(fs)
  {
    hide ReceiptForm, ShortTitle, Approves, Ids;
    var r := ReloadedAll(AtLevel(fs, level));
    FormKeeps(fs);
    forall k | 0 <= k < |fs| ensures r[k] == Reloaded(Trimmed(fs[k], level)) {
    }
    SameOpenBlockers(fs, r);
    SameIds(fs, r);
  }

  lemma SameOpenBlockers(fs: seq<Finding>, r: seq<Finding>)
    requires |r| == |fs|
    requires forall k :: 0 <= k < |fs| ==> (OpenBlocker(r[k]) <==> OpenBlocker(fs[k]))
    ensures Approves(r) <==> Approves(fs)
  {
  }

  lemma SameIds(fs: seq<Finding>, r: seq<Finding>)
    requires |r| == |fs| && forall k :: 0 <= k < |fs| ==> r[k].id == fs[k].id
    ensures Ids(r) == Ids(fs)
  {
  }

  /** A blocker loses evidence only once no note and no carry-forward has any left. */
  lemma BlockersLoseEvidenceLast(fs: seq<Finding>, level: nat, b: nat, k: nat)
    requires b < |fs| && k < |fs|
    requires fs[b].klass == Some(Blocker) && fs[b].evidence != "" && AtLevel(fs, level)[b].evidence == ""
    requires fs[k].klass == Some(Note) || fs[k].klass == Some(CarryForward)
    ensures AtLevel(fs, level)[k].evidence == ""
  {
  }

  /** A title of the review's own is never cut, so its gap is found again by its title. */
  lemma OwnTitlesSurvive(f: Finding, level: nat)
    requires !f.title.Said? && |NumberText(f.title.cf.pr)| + |NumberText(f.title.cf.n)| <= 50
    ensures Trimmed(f, level).title == f.title
  {
  }

  // ---------------------------------------------------------------- a hundred findings

  predicate IsPlain(s: string) {
    forall k :: 0 <= k < |s| ==> CharSize(s[k]) == 1
  }

  lemma {:induction false} PlainSize(s: string, n: nat)
    requires n <= |s| && forall k :: 0 <= k < n ==> CharSize(s[k]) == 1
    ensures CharsSize(s[..n]) == n
  {
    if n > 0 {
      assert s[..n][..n - 1] == s[..n - 1];
      PlainSize(s, n - 1);
    }
  }

  lemma {:induction false} EllipsisSize(s: string)
    requires IsPlain(s)
    ensures CharsSize("\U{2026}" + s) == 3 + |s|
  {
    var t := "\U{2026}" + s;
    if s == "" {
      assert t == ['\U{2026}'];
      assert t[..0] == "";
    } else {
      var init := s[..|s| - 1];
      EllipsisSize(init);
      assert t[..|t| - 1] == "\U{2026}" + init;
    }
  }

  predicate IsShortNumber(n: nat) {
    |NumberText(n)| <= 10
  }

  predicate IsShortId(i: Id) {
    IsShortNumber(i.pr) && IsShortNumber(i.n)
  }

  /** A judge's words in plain text, and numbers of ten digits at most. */
  predicate IsPlainFinding(f: Finding) {
    && (f.file.Path? ==> IsPlain(f.file.spelling))
    && (if f.title.Said? then IsPlain(f.title.text) else IsShortId(f.title.cf))
    && (f.id.Some? ==> IsShortId(f.id.value))
    && (f.line.Some? ==> IsShortNumber(f.line.value))
  }

  lemma {:induction false} CharsAtMost(s: string, most: nat)
    requires forall k :: 0 <= k < |s| ==> CharSize(s[k]) <= most
    ensures CharsSize(s) <= |s| * most
  {
    hide CharSize;
    if s != "" {
      CharsAtMost(s[..|s| - 1], most);
      assert |s| * most == (|s| - 1) * most + most;
    }
  }

  lemma {:induction false} NumberIsPlain(n: nat)
    ensures IsPlain(NumberText(n))
  {
    if n >= 10 {
      NumberIsPlain(n / 10);
    }
  }

  lemma IdIsShort(i: Id)
    requires IsShortId(i)
    ensures CharsSize(IdText(i)) <= 23 && IsPlain(IdText(i)) && IsPlain(CfText(i))
  {
    NumberIsPlain(i.pr);
    NumberIsPlain(i.n);
    hide NumberText;
    assert |IdText(i)| <= 23;
    CharsAtMost(IdText(i), 1);
  }

  lemma TitleIsPlain(f: Finding)
    requires IsPlainFinding(f)
    ensures IsPlain(TitleText(f.title))
  {
    hide CfText, IsPlain;
    if !f.title.Said? {
      IdIsShort(f.title.cf);
      TailsArePlain();
      ReasonIsPlain();
      var head := CfText(f.title.cf);
      PlainConcat(head, " not accounted for");
      PlainConcat(head, " deferred without a reason");
      PlainConcat(head, " not addressed");
    }
  }

  lemma TailsArePlain()
    ensures IsPlain(" not accounted for") && IsPlain(" not addressed")
  {
  }

  lemma ReasonIsPlain()
    ensures IsPlain(" deferred without a reason")
  {
  }

  lemma PlainConcat(s: string, t: string)
    requires IsPlain(s) && IsPlain(t)
    ensures IsPlain(s + t)
  {
  }

  lemma OwnPlaceSize(p: Place)
    requires !p.Path?
    ensures |PlaceText(p)| <= 34 && CharsSize(PlaceText(p)) <= 204
  {
    CharsAtMost(PlaceText(p), 6);
  }

  lemma PlainFileSize(file: string)
    requires IsPlain(file)
    ensures |file| <= FILE_MAX ==> CharsSize(file) <= 202
    ensures |file| > FILE_MAX ==> CharsSize("\U{2026}" + file[|file| - (FILE_MAX - 1)..]) == 202
  {
    PlainSize(file, |file|);
    assert file[..|file|] == file;
    if |file| > FILE_MAX {
      EllipsisSize(file[|file| - (FILE_MAX - 1)..]);
    }
  }

  lemma PlainTitleSize(t: Title)
    requires IsPlain(TitleText(t))
    ensures CharsSize(TitleText(ShortTitle(t))) <= TITLE_SHORT
  {
    var text := TitleText(t);
    var n := |Head(text, TITLE_SHORT)|;
    PlainSize(text, n);
    assert text[..|text|] == text;
  }

  lemma EmptySize()
    ensures CharsSize("") == 0
  {
  }

  lemma PlainPlaceSize(f: Finding)
    requires IsPlainFinding(f)
    ensures CharsSize(PlaceText(Trimmed(f, 5).file)) <= 204
  {
    hide TitleText, ShortTitle, IdText, NumberText, IsPlain, CharsSize, CharSize, IsShortId;
    if f.file.Path? {
      PlainFileSize(f.file.spelling);
    } else {
      OwnPlaceSize(f.file);
    }
  }

  lemma PlainTextSizes(f: Finding)
    requires IsPlainFinding(f)
    ensures CharsSize(TitleText(ShortTitle(f.title))) <= TITLE_SHORT
    ensures f.id.Some? ==> CharsSize(IdText(f.id.value)) <= 23
    ensures f.line.Some? ==> |NumberText(f.line.value)| <= 10
    ensures CharsSize("") == 0
  {
    hide TitleText, ShortTitle, IdText, NumberText, CharsSize;
    TitleIsPlain(f);
    PlainTitleSize(f.title);
    if f.id.Some? {
      IdIsShort(f.id.value);
    }
    EmptySize();
  }

  lemma PlainEntrySize(f: Finding)
    requires IsPlainFinding(f)
    ensures EntrySize(Trimmed(f, 5)) <= 462
  {
    hide TitleText, ShortTitle, IdText, NumberText, CharsSize, PlaceText, IsPlainFinding;
    PlainPlaceSize(f);
    PlainTextSizes(f);
  }

  lemma {:induction false} ItemsBound(sizes: seq<nat>, most: nat)
    requires forall k :: 0 <= k < |sizes| ==> sizes[k] <= most
    ensures ItemsSize(sizes) <= |sizes| * (most + 1)
  {
    if sizes != [] {
      ItemsBound(sizes[..|sizes| - 1], most);
    }
  }

  lemma PlainListSize(fs: seq<Finding>)
    requires forall k :: 0 <= k < |fs| ==> IsPlainFinding(fs[k])
    ensures FindingsSize(Minimal(fs)) <= 2 + |fs| * 463
  {
    hide EntrySize, IsPlainFinding, Trimmed;
    var sizes := Map(EntrySize, Minimal(fs));
    forall k | 0 <= k < |sizes| ensures sizes[k] <= 462 {
      PlainEntrySize(fs[k]);
    }
    ItemsBound(sizes, 462);
  }

  /** A hundred findings in plain text, wherever they are filed, fit beside 13,696 bytes of the rest. */
  lemma HundredPlainFit(meta: nat, fs: seq<Finding>)
    requires meta <= 13_696 && |fs| <= 100 && forall k :: 0 <= k < |fs| ==> IsPlainFinding(fs[k])
    ensures MinimalFits(meta, [], fs)
  {
    hide FindingsSize, Minimal, IsPlainFinding;
    PlainListSize(fs);
    assert |fs| * 463 <= 100 * 463;
    NoNames();
  }

  lemma NoNames()
    ensures NamesSize([]) == 2
  {
  }

  lemma {:induction false} ItemsFloor(sizes: seq<nat>, least: nat)
    requires forall k :: 0 <= k < |sizes| ==> sizes[k] >= least
    ensures ItemsSize(sizes) >= |sizes| * least
  {
    if sizes != [] {
      ItemsFloor(sizes[..|sizes| - 1], least);
    }
  }

  lemma {:induction false} WideSize(s: string)
    requires forall k :: 0 <= k < |s| ==> CharSize(s[k]) == 4
    ensures CharsSize(s) == 4 * |s|
  {
    if s != "" {
      WideSize(s[..|s| - 1]);
    }
  }

  predicate IsWideText(s: string, least: nat) {
    |s| >= least && forall k :: 0 <= k < |s| ==> CharSize(s[k]) == 4
  }

  /** A judge's finding whose file and title are long, in four-byte characters. */
  predicate IsWide(f: Finding) {
    f.file.Path? && IsWideText(f.file.spelling, FILE_MAX) && f.title.Said? && IsWideText(f.title.text, TITLE_SHORT)
  }

  lemma WideTitle(f: Finding)
    requires IsWide(f)
    ensures CharsSize(TitleText(ShortTitle(f.title))) == 4 * TITLE_SHORT
  {
    WideSize(f.title.text[..TITLE_SHORT]);
    assert |f.title.text| == TITLE_SHORT ==> f.title.text[..TITLE_SHORT] == f.title.text;
  }

  lemma {:induction false} AfterFirst(c: char, s: string)
    ensures CharsSize([c] + s) == CharSize(c) + CharsSize(s)
  {
    var t := [c] + s;
    if s == "" {
      assert t == [c] && t[..0] == "";
    } else {
      assert t[..|t| - 1] == [c] + s[..|s| - 1];
      AfterFirst(c, s[..|s| - 1]);
    }
  }

  lemma WideFile(f: Finding)
    requires IsWide(f)
    ensures CharsSize(PlaceText(ReceiptForm(f).file)) >= 4 * (FILE_MAX - 1)
  {
    hide CharsSize, CharSize;
    var file := f.file.spelling;
    if |file| <= FILE_MAX {
      WideSize(file);
    } else {
      WideSize(file[|file| - (FILE_MAX - 1)..]);
      AfterFirst('\U{2026}', file[|file| - (FILE_MAX - 1)..]);
      assert "\U{2026}" == ['\U{2026}'];
    }
  }

  lemma WideEntrySize(f: Finding)
    requires IsWide(f)
    ensures EntrySize(Trimmed(f, 5)) >= 1195
  {
    hide CharsSize, TitleText, PlaceText, ShortTitle, IdText, NumberText;
    WideTitle(f);
    WideFile(f);
  }

  /** Sixty wide findings, whichever they are, never fit, however trimmed. */
  lemma WideFindingsNeverFit(meta: nat, unseen: seq<string>, fs: seq<Finding>)
    requires |fs| >= 60 && forall k :: 0 <= k < |fs| ==> IsWide(fs[k])
    ensures !MinimalFits(meta, unseen, fs)
  {
    hide EntrySize, Trimmed, IsWide;
    var sizes := Map(EntrySize, Minimal(fs));
    forall k | 0 <= k < |sizes| ensures sizes[k] >= 1195 {
      WideEntrySize(fs[k]);
    }
    ItemsFloor(sizes, 1195);
    assert |fs| * 1195 >= 60 * 1195;
  }
}
