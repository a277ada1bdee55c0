/** The write-ahead spool in front of the shared ledger (src/rail/ledger/brain.py). */
module Spool {
  import opened Wrappers
  import opened Sequences
  import opened FileStore

  // ---------------------------------------------------------------- the shared ledger

  /** One row brain holds. `readable`: it can be rebuilt as a record of a kind the rail knows. */
  datatype Row = Row(project: string, kind: string, key: string, data: string, readable: bool)

  /** What brain does with a key it holds: refuse it under other data, refuse it always, or answer
      with the row it holds, whatever that row's data. */
  datatype ReplayCheck = Exact | Strict | Lax

  /** What happens to one call: served, refused, or lost before or after it took effect. */
  datatype Fate =
    | Served(check: ReplayCheck)
    | Refused(cause: string)
    | Lost(taken: bool)

  datatype Answer = Stored(row: Row) | KeyReused | Denied(cause: string)

  /** A page of brain's rows of one project and kind, oldest first. */
  datatype Page = Page(items: seq<Row>, next: Option<nat>)

  const PAGE: nat := 100
  const MAX_PAGES: nat := 100

  predicate IsUnder(r: Row, project: string, key: string) {
    r.project == project && r.key == key
  }

  function Listed(rows: seq<Row>, project: string, kind: string): seq<Row> {
    Filter((r: Row) => r.project == project && r.kind == kind, rows)
  }

  /** Page `c` of a list. */
  function PageOf(list: seq<Row>, c: nat): (p: Page)
    ensures forall r :: r in p.items ==> r in list
  {
    var lo := if c * PAGE < |list| then c * PAGE else |list|;
    var hi := if lo + PAGE < |list| then lo + PAGE else |list|;
    Page(list[lo..hi], if hi < |list| then Some(c + 1) else None)
  }

  class Brain {
    var rows: seq<Row>

    /** A key names one row of a project. */
    ghost predicate Valid()
      reads this
    {
      forall i, j :: 0 <= i < j < |rows| ==> !IsUnder(rows[i], rows[j].project, rows[j].key)
    }

    predicate Holds(project: string, key: string)
      reads this
    {
      exists r :: r in rows && IsUnder(r, project, key)
    }

    ghost predicate HoldsData(project: string, key: string, data: string)
      reads this
    {
      exists r :: r in rows && IsUnder(r, project, key) && r.data == data
    }

    /** A key under which a row of other data is on file. */
    ghost predicate HoldsOther(project: string, key: string, data: string)
      reads this
    {
      exists r :: r in rows && IsUnder(r, project, key) && r.data != data
    }

    constructor ()
      ensures Valid() && rows == []
    {
      rows := [];
    }

    /** Another host records a row under a key of its own choice. */
    method RecordFromElsewhere(row: Row)
      requires Valid()
      modifies this
      ensures Valid() && old(rows) <= rows
    {
      if !Holds(row.project, row.key) {
        rows := rows + [row];
      }
    }

    /** `brain_delivery_attest`, under any of the three replay checks. */
    method Attest(row: Row, fate: Fate) returns (a: Answer)
      requires Valid()
      modifies this
      ensures Valid() && old(rows) <= rows
      ensures a.Stored? ==> a.row in rows && IsUnder(a.row, row.project, row.key)
      ensures a.Stored? && a.row.data != row.data ==> fate == Served(Lax) && rows == old(rows)
      ensures a.KeyReused? ==> Holds(row.project, row.key) && rows == old(rows)
      ensures fate.Served? ==> !a.Denied? && Holds(row.project, row.key)
      ensures fate == Served(Lax) ==> a.Stored?
      ensures fate.Served? && !old(Holds(row.project, row.key)) ==> a == Stored(row)
      ensures fate == Served(Strict) && old(Holds(row.project, row.key)) ==> a.KeyReused?
      ensures fate == Served(Exact) ==> (a.KeyReused? <==> old(HoldsOther(row.project, row.key, row.data)))
      ensures fate.Refused? ==> a == Denied(fate.cause)
      ensures rows == old(rows) || rows == old(rows) + [row]
    {
      match fate
      case Refused(cause) => a := Denied(cause);
      case Lost(taken) =>
        if taken && !Holds(row.project, row.key) {
          rows := rows + [row];
        }
        a := Denied("unreachable");
      case Served(check) =>
        if !Holds(row.project, row.key) {
          rows := rows + [row];
          a := Stored(row);
        } else {
          var i := 0;
          while !IsUnder(rows[i], row.project, row.key)
            invariant 0 <= i < |rows|
            invariant exists j :: i <= j < |rows| && IsUnder(rows[j], row.project, row.key)
            invariant rows == old(rows)
            decreases |rows| - i
          {
            i := i + 1;
          }
          a := if check.Strict? || (check.Exact? && rows[i].data != row.data) then KeyReused else Stored(rows[i]);
        }
    }

    /** `brain_delivery_attestation_list`. */
    method List(project: string, kind: string, cursor: nat) returns (p: Page)
      ensures p == PageOf(Listed(rows, project, kind), cursor)
    {
      p := PageOf(Listed(rows, project, kind), cursor);
    }
  }

  // ---------------------------------------------------------------- reading a row back

  datatype Found = Found(row: Row) | NotFound | PageFailed(cause: string) | TooManyPages

  /** The first row under the key in a list of rows. */
  function FirstUnder(list: seq<Row>, project: string, key: string): (r: Option<Row>)
    ensures r.Some? ==> r.value in list && IsUnder(r.value, project, key)
    ensures r.None? ==> forall x :: x in list ==> !IsUnder(x, project, key)
  {
    if list == [] then None
    else
      assert list == [list[0]] + list[1..];
      if IsUnder(list[0], project, key) then Some(list[0]) else FirstUnder(list[1..], project, key)
  }

  lemma {:induction false} FirstUnderConcat(a: seq<Row>, b: seq<Row>, project: string, key: string)
    ensures FirstUnder(a + b, project, key) ==
      if FirstUnder(a, project, key).Some? then FirstUnder(a, project, key) else FirstUnder(b, project, key)
  {
    if a == [] {
      assert a + b == b;
    } else {
      assert (a + b)[1..] == a[1..] + b;
      FirstUnderConcat(a[1..], b, project, key);
    }
  }

  /** What a complete scan of the pages from `c` on would return. */
  function Scan(list: seq<Row>, c: nat, project: string, key: string): Option<Row> {
    FirstUnder(if c * PAGE < |list| then list[c * PAGE..] else [], project, key)
  }

  lemma ScanStep(list: seq<Row>, c: nat, project: string, key: string)
    ensures var p := PageOf(list, c);
      Scan(list, c, project, key) ==
        if FirstUnder(p.items, project, key).Some? then FirstUnder(p.items, project, key)
        else if p.next.Some? then Scan(list, p.next.value, project, key)
        else None
  {
    var p := PageOf(list, c);
    var lo := c * PAGE;
    assert (c + 1) * PAGE == lo + PAGE;
    if lo < |list| {
      if lo + PAGE < |list| {
        assert list[lo..] == p.items + list[lo + PAGE..];
        FirstUnderConcat(p.items, list[lo + PAGE..], project, key);
      } else {
        assert p.items == list[lo..];
      }
    }
  }

  /** One page of a scan: a row under the key, or where to go on. */
  method ReadPage(brain: Brain, project: string, kind: string, key: string, c: nat)
    returns (row: Option<Row>, next: Option<nat>)
    ensures var list := Listed(brain.rows, project, kind);
      && (next.Some? ==> next.value == c + 1 && next.value * PAGE < |list|)
      && Scan(list, c, project, key) ==
           if row.Some? then row else if next.Some? then Scan(list, next.value, project, key) else None
  {
    var page := brain.List(project, kind, c);
    row := FirstUnder(page.items, project, key);
    next := page.next;
    ScanStep(Listed(brain.rows, project, kind), c, project, key);
  }

  /**
   * `_row_by_key`: the first row under the key, page after page. `fails` is the page whose call
   * fails, if one does.
   */
  method RowByKey(brain: Brain, project: string, kind: string, key: string, fails: Option<(nat, string)>)
    returns (f: Found)
    ensures var list := Listed(brain.rows, project, kind);
      && (f.Found? ==> Scan(list, 0, project, key) == Some(f.row))
      && (f.NotFound? ==> Scan(list, 0, project, key) == None)
      && (f.PageFailed? ==> fails.Some?)
      && (f.TooManyPages? ==> |list| > 10_000)
  {
    hide Scan, Listed;
    ghost var list := Listed(brain.rows, project, kind);
    var cursor: nat := 0;
    var seen: set<nat> := {};
    while true
      invariant forall c: nat :: c in seen <==> c < cursor
      invariant |seen| == cursor <= MAX_PAGES
      invariant cursor > 0 ==> cursor * PAGE < |list|
      invariant Scan(list, 0, project, key) == Scan(list, cursor, project, key)
      decreases MAX_PAGES - cursor
    {
      if cursor in seen || |seen| >= MAX_PAGES {
        return TooManyPages;
      }
      seen := seen + {cursor};
      if fails.Some? && fails.value.0 == cursor {
        return PageFailed(fails.value.1);
      }
      var row, next := ReadPage(brain, project, kind, key, cursor);
      if row.Some? {
        return Found(row.value);
      }
      if next.None? {
        return NotFound;
      }
      cursor := next.value;
    }
  }

  lemma ScanFinds(rows: seq<Row>, project: string, kind: string, key: string)
    ensures var r := Scan(Listed(rows, project, kind), 0, project, key);
      && (r.Some? ==> r.value in rows && IsUnder(r.value, project, key) && r.value.kind == kind)
      && (r.None? ==> forall x :: x in rows && IsUnder(x, project, key) ==> x.kind != kind)
  {
  }

  // ---------------------------------------------------------------- the protocol

  /** Where the process may die: after the receipt is written, or after brain was called. */
  datatype Crash = Never | AfterSpooling | AfterCall

  /** What the world does during one operation. */
  datatype Env = Env(
    elsewhere: Option<Row>,
    firstLookup: Option<(nat, string)>,
    fate: Fate,
    lookup: Option<(nat, string)>,
    crash: Crash)

  datatype Outcome =
    | Attested
    | Conflict
    | Unattested(cause: string)
    | Failed
    | KeyTaken
    | Crashed

  /** The outcomes that leave the receipt waiting. */
  predicate Waits(o: Outcome) {
    o.Unattested? || o.Failed? || o.Crashed?
  }

  /** A brain that answers every call, to a process that does not die. */
  predicate IsAvailable(e: Env) {
    e.elsewhere.None? && e.firstLookup.None? && e.lookup.None? && e.fate.Served? && e.crash.Never?
  }

  class BrainLedger {
    const project: string
    const spool: FileLedger<string, string>
    const brain: Brain
    /** Every key a receipt was ever written under. */
    ghost var written: set<string>

    constructor (project: string, spool: FileLedger<string, string>, brain: Brain)
      requires spool.Valid() && brain.Valid() && spool.records == []
      ensures this.project == project && this.spool == spool && this.brain == brain
      ensures Valid() && written == {}
    {
      this.project := project;
      this.spool := spool;
      this.brain := brain;
      written := {};
    }

    ghost predicate InSpool(key: string)
      reads this, spool
    {
      exists r :: r in spool.records && r.key == key
    }

    /** A written key is in the spool or held by brain, and the spool holds written keys only. */
    ghost predicate Valid()
      reads this, spool, brain
    {
      && spool.Valid() && brain.Valid()
      && (forall r :: r in spool.records ==> r.project == project && r.key in written)
      && (forall k :: k in written ==> InSpool(k) || brain.Holds(project, k))
    }

    /** `_settle`: brain holds the key already; only the payload decides. */
    method Settle(record: Receipt<string, string>, row: Row) returns (o: Outcome)
      requires Valid() && record in spool.records
      requires row in brain.rows && IsUnder(row, project, record.key)
      modifies spool
      ensures Valid()
      ensures o == if !row.readable then Failed else if row.data == record.data then Attested else Conflict
      ensures o.Failed? ==> spool.records == old(spool.records)
      ensures !o.Failed? ==> forall x :: x in spool.records <==> x in old(spool.records) && x != record
    {
      if !row.readable {
        return Failed;
      }
      UniqueKey(record);
      spool.Unlink(record);
      o := if row.data != record.data then Conflict else Attested;
    }

    /** The receipt a key names is the only one the key has. */
    lemma UniqueKey(record: Receipt<string, string>)
      requires Valid() && record in spool.records
      ensures forall r :: r in spool.records && r.key == record.key ==> r == record
    {
    }

    /** The row a receipt becomes. */
    function RowOf(record: Receipt<string, string>): Row {
      Row(project, record.kind, record.key, record.data, true)
    }

    /** The rows brain holds under the key are of the receipt's kind and can be rebuilt. */
    ghost predicate IsPlain(kind: string, key: string)
      reads this, brain
    {
      && |Listed(brain.rows, project, kind)| <= 10_000
      && forall x :: x in brain.rows && IsUnder(x, project, key) ==> x.kind == kind && x.readable
    }

    lemma OneRow(row: Row, data: string)
      requires brain.Valid() && row in brain.rows
      ensures brain.HoldsData(row.project, row.key, data) <==> row.data == data
    {
    }

    /** Brain answered that it holds the key: look its row up, and settle on it. */
    method ResolveReuse(record: Receipt<string, string>, fails: Option<(nat, string)>) returns (o: Outcome)
      requires Valid() && record in spool.records && brain.Holds(project, record.key)
      modifies spool
      ensures Valid()
      ensures !o.KeyTaken? && !o.Crashed?
      ensures Waits(o) ==> spool.records == old(spool.records)
      ensures !Waits(o) ==> forall x :: x in spool.records <==> x in old(spool.records) && x != record
      ensures o.Attested? ==> brain.HoldsData(project, record.key, record.data)
      ensures o.Conflict? ==> !brain.HoldsData(project, record.key, record.data)
      ensures fails.None? && |Listed(brain.rows, project, record.kind)| <= 10_000 ==>
        forall x :: x in brain.rows && x.project == project && x.key == record.key ==>
          o == if x.kind != record.kind then Unattested("idempotency_key_reused")
               else if !x.readable then Failed
               else if x.data == record.data then Attested else Conflict
      ensures fails.None? && IsPlain(record.kind, record.key) ==> !Waits(o)
    {
      ScanFinds(brain.rows, project, record.kind, record.key);
      hide Scan, Listed;
      var f := RowByKey(brain, project, record.kind, record.key, fails);
      match f
      case PageFailed(cause) => o := Unattested(cause);
      case TooManyPages => o := Failed;
      case NotFound => o := Unattested("idempotency_key_reused");
      case Found(held) =>
        OneRow(held, record.data);
        OneRowUnder(held);
        o := Settle(record, held);
    }

    lemma OneRowUnder(row: Row)
      requires brain.Valid() && row in brain.rows
      ensures forall x :: x in brain.rows && x.project == row.project && x.key == row.key ==> x == row
    {
    }

    /** Brain stored a row: the receipt leaves the spool if the row holds its payload. */
    method ResolveStored(record: Receipt<string, string>, held: Row) returns (o: Outcome)
      requires Valid() && record in spool.records && held in brain.rows && IsUnder(held, project, record.key)
      modifies spool
      ensures Valid()
      ensures o.Attested? || o.Failed?
      ensures o.Failed? <==> held.data != record.data
      ensures o.Failed? ==> spool.records == old(spool.records)
      ensures o.Attested? ==> forall x :: x in spool.records <==> x in old(spool.records) && x != record
    {
      if held.data != record.data {
        return Failed;
      }
      UniqueKey(record);
      spool.Unlink(record);
      o := Attested;
    }

    /** Send a waiting receipt: the call, and what its answer means for the receipt. */
    method Send(record: Receipt<string, string>, e: Env) returns (o: Outcome)
      requires Valid() && record in spool.records
      modifies spool, brain
      ensures Valid() && old(brain.rows) <= brain.rows
      ensures !o.KeyTaken?
      ensures Waits(o) ==> spool.records == old(spool.records)
      ensures !Waits(o) ==> forall x :: x in spool.records <==> x in old(spool.records) && x != record
      ensures o.Attested? ==> brain.HoldsData(project, record.key, record.data)
      ensures o.Conflict? ==> brain.Holds(project, record.key) && !brain.HoldsData(project, record.key, record.data)
      ensures IsAvailable(e) && old(IsPlain(record.kind, record.key)) ==>
        (Waits(o) <==> e.fate == Served(Lax) && old(brain.HoldsOther(project, record.key, record.data)))
      ensures e.fate == Served(Lax) && e.crash.Never? ==>
        if brain.HoldsData(project, record.key, record.data) then o.Attested? else o.Failed?
      ensures brain.rows == old(brain.rows) || brain.rows == old(brain.rows) + [RowOf(record)]
    {
      var a := brain.Attest(RowOf(record), e.fate);
      if e.crash == AfterCall {
        return Crashed;
      }
      match a
      case Denied(cause) => o := Unattested(cause);
      case Stored(held) => o := ResolveStored(record, held);
      case KeyReused => o := ResolveReuse(record, e.lookup);
    }

    /** Another host records a row of its own while this one works. */
    method Interfere(elsewhere: Option<Row>)
      requires Valid()
      modifies brain
      ensures Valid() && old(brain.rows) <= brain.rows
      ensures elsewhere.None? ==> brain.rows == old(brain.rows)
    {
      if elsewhere.Some? {
        brain.RecordFromElsewhere(elsewhere.value);
      }
    }

    /** Send a receipt just written, while other hosts may write to brain. */
    method Deliver(record: Receipt<string, string>, e: Env) returns (o: Outcome)
      requires Valid() && record in spool.records
      modifies spool, brain
      ensures Valid() && old(brain.rows) <= brain.rows
      ensures !o.KeyTaken?
      ensures Waits(o) ==> spool.records == old(spool.records)
      ensures !Waits(o) ==> forall x :: x in spool.records <==> x in old(spool.records) && x != record
      ensures o.Attested? ==> brain.HoldsData(project, record.key, record.data)
      ensures o.Conflict? ==> brain.Holds(project, record.key) && !brain.HoldsData(project, record.key, record.data)
      ensures IsAvailable(e) && old(IsPlain(record.kind, record.key)) ==>
        (Waits(o) <==> e.fate == Served(Lax) && old(brain.HoldsOther(project, record.key, record.data)))
      ensures e.fate == Served(Lax) && e.crash.Never? ==>
        if brain.HoldsData(project, record.key, record.data) then o.Attested? else o.Failed?
      ensures IsAvailable(e) ==>
        brain.rows == old(brain.rows) || brain.rows == old(brain.rows) + [RowOf(record)]
    {
      Interfere(e.elsewhere);
      o := Send(record, e);
    }

    /**
     * `attest`: write the receipt, then send it. Whatever the call and the process do, a written
     * key is in the spool or held by brain; the call returns normally only if brain holds the
     * payload; and the receipt leaves only when brain holds a row under its key. Against an
     * available brain it waits exactly when brain answers with a row of other data.
     */
    method Attest(kind: string, data: string, issuer: string, key: string, at: int, digest: int, e: Env)
      returns (o: Outcome)
      requires Valid()
      modifies this`written, spool, brain
      ensures Valid() && old(brain.rows) <= brain.rows
      ensures written == old(written) + (if o.KeyTaken? then {} else {key})
      ensures o.KeyTaken? ==> spool.records == old(spool.records) && brain.rows == old(brain.rows)
      ensures o.KeyTaken? ==>
        exists r :: r in old(spool.records) && r.key == key && (r.kind != kind || r.data != data)
      ensures Waits(o) ==> InSpool(key)
      ensures o.Attested? ==> !InSpool(key) && brain.HoldsData(project, key, data)
      ensures o.Conflict? ==> !InSpool(key) && brain.Holds(project, key) && !brain.HoldsData(project, key, data)
      ensures forall r :: r in old(spool.records) && r.key != key ==> r in spool.records
      ensures forall r :: r in spool.records && r.key != key ==> r in old(spool.records)
      ensures old(InSpool(key)) && Waits(o) ==> spool.records == old(spool.records)
      ensures IsAvailable(e) && !o.KeyTaken? && old(IsPlain(kind, key)) ==>
        (Waits(o) <==> e.fate == Served(Lax) && old(brain.HoldsOther(project, key, data)))
      ensures e.fate == Served(Lax) && e.crash.Never? && !o.KeyTaken? ==>
        if brain.HoldsData(project, key, data) then o.Attested? else o.Failed?
      ensures IsAvailable(e) ==>
        brain.rows == old(brain.rows) || brain.rows == old(brain.rows) + [Row(project, kind, key, data, true)]
    {
      var w := spool.Append(project, key, kind, data, issuer, at, digest);
      if w.KeyConflict? {
        return KeyTaken;
      }
      written := written + {key};
      if e.crash == AfterSpooling {
        return Crashed;
      }
      UniqueKey(w.receipt);
      hide IsAvailable, IsPlain;
      o := Deliver(w.receipt, e);
    }

    /**
     * `replay`: a receipt brain holds already is settled, another is sent again. Against an
     * available brain it always leaves the spool.
     */
    method Replay(record: Receipt<string, string>, e: Env) returns (o: Outcome)
      requires Valid() && record in spool.records
      modifies this`written, spool, brain
      ensures Valid() && old(brain.rows) <= brain.rows && written == old(written)
      ensures Waits(o) ==> spool.records == old(spool.records)
      ensures !Waits(o) ==> forall x :: x in spool.records <==> x in old(spool.records) && x != record
      ensures !o.KeyTaken?
      ensures o.Attested? ==> brain.HoldsData(project, record.key, record.data)
      ensures o.Conflict? ==> brain.Holds(project, record.key) && !brain.HoldsData(project, record.key, record.data)
      ensures IsAvailable(e) && old(IsPlain(record.kind, record.key)) ==> !Waits(o)
      ensures IsAvailable(e) ==>
        brain.rows == old(brain.rows) || brain.rows == old(brain.rows) + [RowOf(record)]
    {
      ScanFinds(brain.rows, project, record.kind, record.key);
      UniqueKey(record);
      var f := RowByKey(brain, project, record.kind, record.key, e.firstLookup);
      match f
      case PageFailed(cause) => o := Unattested(cause);
      case TooManyPages => o := Failed;
      case Found(held) =>
        OneRow(held, record.data);
        o := Settle(record, held);
      case NotFound =>
        ghost var before := spool.records;
        assert forall r :: r in before && r.key == record.key ==> r == record;
        o := Attest(record.kind, record.data, record.issuer, record.key, record.at, record.digest, e);
        assert !o.KeyTaken?;
    }

    /** No row brain holds under a waiting key is of another kind or unreadable. */
    ghost predicate AllPlain()
      reads this, spool, brain
    {
      forall r, x :: r in spool.records && x in brain.rows && IsUnder(x, project, r.key) ==>
        x.kind == r.kind && x.readable
    }

    lemma PlainWhenSmall(r: Receipt<string, string>)
      requires AllPlain() && r in spool.records && |brain.rows| <= 10_000
      ensures IsPlain(r.kind, r.key)
    {
    }

    /** One receipt of the loop below: against an available brain it leaves, and what is left
        stays plain. */
    method ReplayNext(record: Receipt<string, string>, e: Env) returns (o: Outcome)
      requires Valid() && record in spool.records
      modifies this`written, spool, brain
      ensures Valid() && old(brain.rows) <= brain.rows && written == old(written)
      ensures forall x :: x in spool.records ==> x in old(spool.records)
      ensures forall x :: x in old(spool.records) && x != record ==> x in spool.records
      ensures IsAvailable(e) && old(AllPlain()) && old(|brain.rows|) <= 10_000 ==>
        AllPlain() && |brain.rows| <= old(|brain.rows|) + 1 && record !in spool.records
    {
      hide IsAvailable;
      if AllPlain() && |brain.rows| <= 10_000 {
        PlainWhenSmall(record);
      }
      hide IsPlain;
      o := Replay(record, e);
    }

    /**
     * `rail ledger replay`: every waiting receipt, oldest first. Against an available brain the
     * spool ends empty, so brain holds a row under every key ever written.
     */
    method ReplayAll(envs: seq<Env>) returns (outcomes: seq<Outcome>)
      requires Valid() && |envs| == |spool.records|
      modifies this`written, spool, brain
      ensures Valid() && old(brain.rows) <= brain.rows && written == old(written)
      ensures |outcomes| == |envs|
      ensures ((forall e :: e in envs ==> IsAvailable(e)) && old(AllPlain())
               && old(|brain.rows| + |spool.records|) <= 10_000) ==>
        spool.records == [] && forall k :: k in written ==> brain.Holds(project, k)
    {
      var waiting := spool.records;
      outcomes := [];
      ghost var served := (forall e :: e in envs ==> IsAvailable(e)) && AllPlain()
        && |brain.rows| + |waiting| <= 10_000;
      for i := 0 to |waiting|
        invariant Valid() && old(brain.rows) <= brain.rows && written == old(written)
        invariant |outcomes| == i
        invariant forall j :: i <= j < |waiting| ==> waiting[j] in spool.records
        invariant forall r :: r in spool.records ==> r in waiting
        invariant served ==> forall r :: r in spool.records ==> r in waiting[i..]
        invariant served ==> AllPlain() && |brain.rows| + |waiting| - i <= 10_000
      {
        hide AllPlain, IsAvailable;
        var record := waiting[i];
        assert envs[i] in envs;
        var o := ReplayNext(record, envs[i]);
        outcomes := outcomes + [o];
      }
      HasMember(spool.records);
    }
  }
}
