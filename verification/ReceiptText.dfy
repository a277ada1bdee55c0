/** The canonical JSON a receipt is measured by (src/rail/reviewer/verdict.py). */
module ReceiptText {
  import opened Wrappers
  import opened Sequences
  import opened Findings
  import opened Receipt
  import Split

  // ---------------------------------------------------------------- bytes

  /** The UTF-8 encoding of a character (section 3 of RFC 3629). */
  function Utf8(c: char): seq<int> {
    var n := c as int;
    if n < 0x80 then [n]
    else if n < 0x800 then [0xC0 + n / 0x40, 0x80 + n % 0x40]
    else if n < 0x1_0000 then [0xE0 + n / 0x1000, 0x80 + n / 0x40 % 0x40, 0x80 + n % 0x40]
    else [0xF0 + n / 0x4_0000, 0x80 + n / 0x1000 % 0x40, 0x80 + n / 0x40 % 0x40, 0x80 + n % 0x40]
  }

  function Utf8All(s: string): seq<int> {
    if s == "" then [] else Utf8All(s[..|s| - 1]) + Utf8(s[|s| - 1])
  }

  /** A text is measured in the bytes of its encoding. */
  lemma {:induction false} SizeIsBytes(s: string)
    ensures Split.Size(s) == |Utf8All(s)|
  {
    if s != "" {
      SizeIsBytes(s[..|s| - 1]);
    }
  }

  lemma {:induction false} AsciiSize(s: string)
    requires forall k :: 0 <= k < |s| ==> s[k] as int < 0x80
    ensures Split.Size(s) == |s|
  {
    if s != "" {
      AsciiSize(s[..|s| - 1]);
    }
  }

  // ---------------------------------------------------------------- text

  /** One character inside a JSON string, non-ASCII kept as it is. */
  function CharText(c: char): string {
    if c == '\"' then "\\\""
    else if c == '\\' then "\\\\"
    else if c == '\n' then "\\n"
    else if c == '\r' then "\\r"
    else if c == '\t' then "\\t"
    else if c as int == 8 then "\\b"
    else if c as int == 12 then "\\f"
    else if c as int < 0x20 then "\\u00" + ["0123456789abcdef"[c as int / 16], "0123456789abcdef"[c as int % 16]]
    else [c]
  }

  function CharsText(s: string): string {
    if s == "" then "" else CharsText(s[..|s| - 1]) + CharText(s[|s| - 1])
  }

  function Quoted(s: string): string {
    "\"" + CharsText(s) + "\""
  }

  lemma CharTextSize(c: char)
    ensures Split.Size(CharText(c)) == CharSize(c)
  {
    if c as int >= 0x20 && CharText(c) == [c] {
      assert [c][..0] == "";
      assert Split.Size([c]) == Split.Width(c);
    } else {
      AsciiSize(CharText(c));
    }
  }

  lemma {:induction false} CharsTextSize(s: string)
    ensures Split.Size(CharsText(s)) == CharsSize(s)
  {
    if s != "" {
      CharsTextSize(s[..|s| - 1]);
      CharTextSize(s[|s| - 1]);
      Split.SizeConcat(CharsText(s[..|s| - 1]), CharText(s[|s| - 1]));
    }
  }

  lemma QuotedSize(s: string)
    ensures Split.Size(Quoted(s)) == TextSize(s)
  {
    hide CharsText, CharsSize;
    CharsTextSize(s);
    AsciiSize("\"");
    Split.SizeConcat("\"", CharsText(s));
    Split.SizeConcat("\"" + CharsText(s), "\"");
  }

  lemma NumberSize(n: nat)
    ensures Split.Size(NumberText(n)) == |NumberText(n)|
  {
    NumberIsAscii(n);
    AsciiSize(NumberText(n));
  }

  lemma {:induction false} NumberIsAscii(n: nat)
    ensures forall k :: 0 <= k < |NumberText(n)| ==> NumberText(n)[k] as int < 0x80
  {
    if n >= 10 {
      NumberIsAscii(n / 10);
    }
  }

  // ---------------------------------------------------------------- one finding

  function KlassText(k: Option<Class>): string {
    match k
    case None => "null"
    case Some(Blocker) => "\"blocker\""
    case Some(CarryForward) => "\"carry_forward\""
    case Some(Note) => "\"note\""
  }

  function SeverityText(s: Severity): string {
    match s
    case Blocking => "\"blocking\""
    case Important => "\"important\""
    case Minor => "\"minor\""
  }

  function StatusText(s: Status): string {
    match s
    case New => "\"new\""
    case StillOpen => "\"still_open\""
    case Fixed => "\"fixed\""
    case Ruled => "\"ruled\""
  }

  function OptionalId(i: Option<Id>): string {
    if i.None? then "null" else Quoted(IdText(i.value))
  }

  function OptionalNumber(n: Option<nat>): string {
    if n.None? then "null" else NumberText(n.value)
  }

  /** The keys sorted, nothing between them but commas. */
  function EntryText(f: Finding): string {
    "{\"class\":" + KlassText(f.klass) + (",\"evidence\":" + Quoted(f.evidence))
      + (",\"file\":" + Quoted(PlaceText(f.file))) + (",\"id\":" + OptionalId(f.id))
      + (",\"line\":" + OptionalNumber(f.line)) + (",\"severity\":" + SeverityText(f.severity))
      + (",\"status\":" + StatusText(f.status)) + (",\"title\":" + Quoted(TitleText(f.title))) + "}"
  }

  lemma KlassTextSize(k: Option<Class>)
    ensures Split.Size(KlassText(k)) == KlassSize(k)
  {
    hide Split.Size;
    AsciiSize(KlassText(k));
  }

  lemma SeverityTextSize(s: Severity)
    ensures Split.Size(SeverityText(s)) == SeveritySize(s)
  {
    hide Split.Size;
    AsciiSize(SeverityText(s));
  }

  lemma StatusTextSize(s: Status)
    ensures Split.Size(StatusText(s)) == StatusSize(s)
  {
    hide Split.Size;
    AsciiSize(StatusText(s));
  }

  lemma OptionalSizes(i: Option<Id>, n: Option<nat>)
    ensures Split.Size(OptionalId(i)) == if i.None? then NULL_SIZE else TextSize(IdText(i.value))
    ensures Split.Size(OptionalNumber(n)) == if n.None? then NULL_SIZE else |NumberText(n.value)|
  {
    hide Split.Size, Quoted, TextSize, IdText, NumberText;
    AsciiSize("null");
    if i.Some? {
      QuotedSize(IdText(i.value));
    }
    if n.Some? {
      NumberSize(n.value);
    }
  }

  lemma KeyedSize(key: string, text: string)
    requires forall k :: 0 <= k < |key| ==> key[k] as int < 0x80
    ensures Split.Size(key + text) == |key| + Split.Size(text)
  {
    AsciiSize(key);
    Split.SizeConcat(key, text);
  }

  /** What a finding is budgeted at is what its text takes. */
  lemma EntryIsItsText(f: Finding)
    ensures |Utf8All(EntryText(f))| == EntrySize(f)
  {
    hide Split.Size, Quoted, TextSize, PlaceText, TitleText, OptionalId, OptionalNumber, IdText, NumberText, KlassText,
      SeverityText, StatusText, Utf8All;
    SizeIsBytes(EntryText(f));
    KlassTextSize(f.klass);
    SeverityTextSize(f.severity);
    StatusTextSize(f.status);
    OptionalSizes(f.id, f.line);
    QuotedSize(f.evidence);
    QuotedSize(PlaceText(f.file));
    QuotedSize(TitleText(f.title));
    EntryParts("{\"class\":" + KlassText(f.klass), ",\"evidence\":" + Quoted(f.evidence),
               ",\"file\":" + Quoted(PlaceText(f.file)), ",\"id\":" + OptionalId(f.id),
               ",\"line\":" + OptionalNumber(f.line), ",\"severity\":" + SeverityText(f.severity),
               ",\"status\":" + StatusText(f.status), ",\"title\":" + Quoted(TitleText(f.title)));
    KeyedSize("{\"class\":", KlassText(f.klass));
    KeyedSize(",\"evidence\":", Quoted(f.evidence));
    KeyedSize(",\"file\":", Quoted(PlaceText(f.file)));
    KeyedSize(",\"id\":", OptionalId(f.id));
    KeyedSize(",\"line\":", OptionalNumber(f.line));
    KeyedSize(",\"severity\":", SeverityText(f.severity));
    KeyedSize(",\"status\":", StatusText(f.status));
    KeyedSize(",\"title\":", Quoted(TitleText(f.title)));
  }

  lemma EntryParts(a: string, b: string, c: string, d: string, e: string, f: string, g: string, h: string)
    ensures Split.Size(a + b + c + d + e + f + g + h + "}") ==
      Split.Size(a) + Split.Size(b) + Split.Size(c) + Split.Size(d) + Split.Size(e) + Split.Size(f)
      + Split.Size(g) + Split.Size(h) + 1
  {
    hide Split.Size;
    Split.SizeConcat(a, b);
    Split.SizeConcat(a + b, c);
    Split.SizeConcat(a + b + c, d);
    Split.SizeConcat(a + b + c + d, e);
    Split.SizeConcat(a + b + c + d + e, f);
    Split.SizeConcat(a + b + c + d + e + f, g);
    Split.SizeConcat(a + b + c + d + e + f + g, h);
    Split.SizeConcat(a + b + c + d + e + f + g + h, "}");
    AsciiSize("}");
  }

  // ---------------------------------------------------------------- a list

  function ItemsText(items: seq<string>): string {
    if items == [] then ""
    else ItemsText(items[..|items| - 1]) + (if |items| > 1 then "," else "") + items[|items| - 1]
  }

  function ListText(items: seq<string>): string {
    "[" + ItemsText(items) + "]"
  }

  lemma {:induction false} ItemsTextSize(items: seq<string>, sizes: seq<nat>)
    requires |items| == |sizes| && forall k :: 0 <= k < |items| ==> Split.Size(items[k]) == sizes[k]
    ensures Split.Size(ItemsText(items)) == ItemsSize(sizes)
  {
    if items != [] {
      var n := |items| - 1;
      ItemsTextSize(items[..n], sizes[..n]);
      var comma := if |items| > 1 then "," else "";
      AsciiSize(comma);
      hide Split.Size;
      Split.SizeConcat(ItemsText(items[..n]), comma);
      Split.SizeConcat(ItemsText(items[..n]) + comma, items[n]);
    }
  }

  lemma ListTextSize(items: seq<string>, sizes: seq<nat>)
    requires |items| == |sizes| && forall k :: 0 <= k < |items| ==> Split.Size(items[k]) == sizes[k]
    ensures Split.Size(ListText(items)) == 2 + ItemsSize(sizes)
  {
    hide Split.Size, ItemsText, ItemsSize;
    ItemsTextSize(items, sizes);
    AsciiSize("[");
    AsciiSize("]");
    Split.SizeConcat("[", ItemsText(items));
    Split.SizeConcat("[" + ItemsText(items), "]");
  }

  /** The findings of a receipt are budgeted at the bytes of their canonical text. */
  lemma FindingsAreTheirText(fs: seq<Finding>)
    ensures |Utf8All(ListText(Map(EntryText, fs)))| == FindingsSize(fs)
  {
    hide Split.Size, EntryText, EntrySize, ListText, Utf8All, ItemsSize;
    var items, sizes := Map(EntryText, fs), Map(EntrySize, fs);
    forall k | 0 <= k < |fs| ensures Split.Size(items[k]) == sizes[k] {
      EntryIsItsText(fs[k]);
      SizeIsBytes(EntryText(fs[k]));
    }
    ListTextSize(items, sizes);
    SizeIsBytes(ListText(items));
  }

  /** And so are the unseen files it names. */
  lemma NamesAreTheirText(names: seq<string>)
    ensures |Utf8All(ListText(Map(Quoted, names)))| == NamesSize(names)
  {
    hide Split.Size, Quoted, TextSize, ListText, Utf8All, ItemsSize;
    var items, sizes := Map(Quoted, names), Map(TextSize, names);
    forall k | 0 <= k < |names| ensures Split.Size(items[k]) == sizes[k] {
      QuotedSize(names[k]);
    }
    ListTextSize(items, sizes);
    SizeIsBytes(ListText(items));
  }

  // ---------------------------------------------------------------- what trimming leaves

  /** A finding as the receipt holds it, field by field: the end of a long path, the beginning of the
      evidence until its class loses it, and at the last level the beginning of a long title. */
  lemma TrimmedMeans(f: Finding, level: nat)
    requires level <= 5
    ensures var g := Trimmed(f, level);
      && g.severity == f.severity && g.line == f.line && g.id == f.id && g.klass == f.klass && g.status == f.status
      && g.file == (if |PlaceText(f.file)| <= 200 then f.file
                    else Path("\U{2026}" + PlaceText(f.file)[|PlaceText(f.file)| - 199..]))
      && g.evidence == (if LosesEvidence(f, level) then ""
                        else if |f.evidence| <= 300 then f.evidence else f.evidence[..300])
      && g.title == if level == 5 && |TitleText(f.title)| > 80 then Said(TitleText(f.title)[..80]) else f.title
  {
    hide TitleText, PlaceText;
  }

  /** Notes lose theirs first, then carry-forwards, then blockers, then what has no class. */
  predicate LosesEvidence(f: Finding, level: nat) {
    match f.klass
    case Some(Note) => level >= 1
    case Some(CarryForward) => level >= 2
    case Some(Blocker) => level >= 3
    case None => level >= 4
  }
}
