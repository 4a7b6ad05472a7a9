/** The project-quota id allocator (pkg/snapshot/diskquota/prjquota.go:36-57,
    185-217) and the loading of recorded ids from repquota's output
    (pkg/snapshot/diskquota/quota_utils.go:44-86).  The commands' outputs are
    inputs of the model; uint32 arithmetic wraps around. */
module QuotaDriver {
  import opened Decimals
  import opened Wrappers

  const QUOTA_MIN_ID := 16777216
  const QUOTA_MAX_ID := 200000000
  const MAX_UINT32 := 0xFFFF_FFFF

  type uint32 = x: int | 0 <= x <= 0xFFFF_FFFF

  // ---------- Parsing ----------

  /** strings.Split by a one-character separator. */
  function Split(s: string, sep: char): (parts: seq<string>)
    ensures parts != []
  {
    if s == "" then [""]
    else
      var rest := Split(s[1..], sep);
      if s[0] == sep then [""] + rest else [[s[0]] + rest[0]] + rest[1..]
  }

  function Join(parts: seq<string>, sep: char): string
    requires parts != []
  {
    if |parts| == 1 then parts[0] else parts[0] + [sep] + Join(parts[1..], sep)
  }

  /** Splitting loses nothing and leaves no separator in a part. */
  lemma {:induction false} SplitJoin(s: string, sep: char)
    ensures Join(Split(s, sep), sep) == s
    ensures forall i :: 0 <= i < |Split(s, sep)| ==> sep !in Split(s, sep)[i]
  {
    if s != "" {
      SplitJoin(s[1..], sep);
      var parts, rest := Split(s, sep), Split(s[1..], sep);
      assert s == [s[0]] + s[1..];
      if s[0] == sep {
        assert parts[1..] == rest;
      } else if |rest| > 1 {
        assert parts[1..] == rest[1..];
        assert Join(parts, sep) == [s[0]] + (rest[0] + [sep] + Join(rest[1..], sep));
      }
    }
  }

  /** Joining parts without separators and splitting gives the parts back. */
  lemma {:induction false} JoinSplit(parts: seq<string>, sep: char)
    requires parts != [] && forall i :: 0 <= i < |parts| ==> sep !in parts[i]
    ensures Split(Join(parts, sep), sep) == parts
  {
    if |parts| == 1 {
      NothingToSplit(parts[0], sep);
    } else {
      JoinSplit(parts[1..], sep);
      SplitAfter(parts[0], Join(parts[1..], sep), sep);
      assert parts[0] + [sep] + Join(parts[1..], sep) == parts[0] + ([sep] + Join(parts[1..], sep));
    }
  }

  /** The first part ends at the first separator. */
  lemma {:induction false} SplitAfter(head: string, tail: string, sep: char)
    requires sep !in head
    ensures Split(head + ([sep] + tail), sep) == [head] + Split(tail, sep)
  {
    var s := head + ([sep] + tail);
    if head == "" {
      assert s[1..] == tail;
    } else {
      assert s[1..] == head[1..] + ([sep] + tail);
      SplitAfter(head[1..], tail, sep);
      assert [head[0]] + head[1..] == head;
    }
  }

  lemma {:induction false} NothingToSplit(s: string, sep: char)
    requires sep !in s
    ensures Split(s, sep) == [s]
  {
    if s != "" {
      NothingToSplit(s[1..], sep);
      assert [s[0]] + s[1..] == s;
    }
  }

  /** strconv.Atoi followed by the range check: an optional sign, then digits.
      Values that overflow int64 are out of range either way. */
  function SafeConvertToUInt32(s: string): Option<uint32> {
    var digits := if s != "" && (s[0] == '+' || s[0] == '-') then s[1..] else s;
    if digits == "" || Digits(digits).None? then None
    else
      var n := Digits(digits).value;
      var v: int := if s[0] == '-' then -(n as int) else n;
      if v < 0 || v > MAX_UINT32 then None else Some(v)
  }

  /** The id that one line of the report records, if any. */
  function LineID(line: string): (id: Option<uint32>)
    ensures id.Some? ==> id.value > QUOTA_MIN_ID
  {
    if line == "" || line[0] != '#' then None
    else
      var head := Split(line, ' ')[0];
      if |head| <= 1 then None
      else
        var id := SafeConvertToUInt32(head[1..]);
        if id.Some? && id.value > QUOTA_MIN_ID then id else None
  }

  // ---------- Reports, printed and read back ----------

  /** A line of the report: the usage of a project, more fields after its id, or
      something else, such as a heading. */
  datatype Line = Usage(id: nat, fields: string) | Heading(text: string)

  function Print(l: Line): string {
    match l
    case Usage(id, fields) => "#" + Decimal(id) + if fields == "" then "" else " " + fields
    case Heading(text) => text
  }

  predicate Printable(l: Line) {
    '\n' !in (if l.Usage? then l.fields else l.text) && (l.Heading? ==> l.text == "" || l.text[0] != '#')
  }

  /** The id that a line is about, if it is one that the allocator looks at. */
  function IDOf(l: Line): Option<uint32> {
    if l.Usage? && QUOTA_MIN_ID < l.id <= MAX_UINT32 then Some(l.id) else None
  }

  predicate IsNumeral(digits: string, n: nat) {
    digits != "" && Digits(digits) == Some(n) && forall c :: c in digits ==> IsDigit(c)
  }

  lemma NumeralOf(n: nat)
    ensures IsNumeral(Decimal(n), n)
  {
    DecimalDigits(n, 0);
    assert Zeros(0) + Decimal(n) == Decimal(n);
  }

  /** A sign is read, so that a negative number is no id. */
  lemma NumeralIsRead(digits: string, n: nat)
    requires IsNumeral(digits, n)
    ensures SafeConvertToUInt32(digits) == if n <= MAX_UINT32 then Some(n) else None
    ensures SafeConvertToUInt32("+" + digits) == if n <= MAX_UINT32 then Some(n) else None
    ensures SafeConvertToUInt32("-" + digits) == if n == 0 then Some(0) else None
  {
    assert digits[0] in digits;
    assert ("+" + digits)[1..] == digits == ("-" + digits)[1..];
  }

  lemma UsageLineIsRead(digits: string, id: nat, fields: string)
    requires IsNumeral(digits, id)
    ensures LineID("#" + digits + if fields == "" then "" else " " + fields) ==
      if QUOTA_MIN_ID < id <= MAX_UINT32 then Some(id) else None
    ensures '\n' !in "#" + digits
  {
    var head := "#" + digits;
    NumeralIsRead(digits, id);
    assert head[1..] == digits;
    if fields == "" {
      NothingToSplit(head, ' ');
      assert head + "" == head;
    } else {
      SplitAfter(head, fields, ' ');
      assert head + " " + fields == head + ([' '] + fields);
    }
  }

  /** A printed line is read back, whatever follows the id after a space. */
  lemma PrintedLineIsRead(l: Line)
    requires Printable(l)
    ensures LineID(Print(l)) == IDOf(l) && '\n' !in Print(l)
  {
    if l.Usage? {
      NumeralOf(l.id);
      UsageLineIsRead(Decimal(l.id), l.id, l.fields);
    }
  }

  function Prints(lines: seq<Line>): seq<string> {
    seq(|lines|, i requires 0 <= i < |lines| => Print(lines[i]))
  }

  /** What a report records are the projects' ids above the minimum that fit. */
  lemma PrintedReportIsRead(lines: seq<Line>)
    requires lines != [] && forall i :: 0 <= i < |lines| ==> Printable(lines[i])
    ensures Recorded(Split(Join(Prints(lines), '\n'), '\n')) ==
      set l | l in lines && l.Usage? && QUOTA_MIN_ID < l.id <= MAX_UINT32 :: l.id
  {
    var texts := Prints(lines);
    forall i | 0 <= i < |lines| ensures LineID(texts[i]) == IDOf(lines[i]) && '\n' !in texts[i] {
      PrintedLineIsRead(lines[i]);
    }
    JoinSplit(texts, '\n');
    forall id | id in Recorded(texts) ensures exists l :: l in lines && IDOf(l) == Some(id) {
      var i :| 0 <= i < |texts| && LineID(texts[i]) == Some(id);
      assert lines[i] in lines;
    }
    forall l | l in lines && IDOf(l).Some? ensures l.id in Recorded(texts) {
      var i :| 0 <= i < |lines| && lines[i] == l;
      assert LineID(texts[i]) == Some(l.id);
    }
  }

  /** The ids above the minimum that a report records. */
  function Recorded(lines: seq<string>): set<uint32> {
    Values(lines, LineID)
  }

  function Values(lines: seq<string>, f: string -> Option<uint32>): set<uint32> {
    set i | 0 <= i < |lines| && f(lines[i]).Some? :: f(lines[i]).value
  }

  predicate IsMaximum(m: uint32, ids: set<uint32>) {
    && m >= QUOTA_MIN_ID && (m == QUOTA_MIN_ID || m in ids)
    && (forall id :: id in ids ==> id <= m)
  }

  lemma ValuesSnoc(lines: seq<string>, f: string -> Option<uint32>, i: nat)
    requires i < |lines|
    ensures Values(lines[..i + 1], f) == Values(lines[..i], f) +
      if f(lines[i]).Some? then {f(lines[i]).value} else {}
  {
    var a, b := lines[..i], lines[..i + 1];
    assert b == a + [lines[i]];
    forall id | id in Values(a, f) ensures id in Values(b, f) {
      var j :| 0 <= j < |a| && f(a[j]) == Some(id);
      assert b[j] == a[j];
    }
    forall id | f(lines[i]) == Some(id) ensures id in Values(b, f) {
      assert b[i] == lines[i];
    }
    forall id | id in Values(b, f) ensures id in Values(a, f) || f(lines[i]) == Some(id) {
      var j :| 0 <= j < |b| && f(b[j]) == Some(id);
      if j < i { assert a[j] == b[j]; }
    }
  }

  lemma MaximumInsert(m: uint32, ids: set<uint32>, id: uint32)
    requires IsMaximum(m, ids) && id > QUOTA_MIN_ID
    ensures IsMaximum(if id > m then id else m, ids + {id})
  {
  }

  /** What a load gives: the recorded ids with the largest of them (the minimum if
      there is none), or an error. */
  datatype Loaded = Failed | Table(ids: set<uint32>, last: uint32) {
    predicate Consistent() {
      Table? ==> IsMaximum(last, ids) && forall id :: id in ids ==> id > QUOTA_MIN_ID
    }
  }

  /** loadQuotaIDs; `output` is what repquota prints, None if it fails. */
  method LoadQuotaIDs(output: Option<string>) returns (r: Loaded)
    ensures r.Table? <==> output.Some?
    ensures r.Consistent()
    ensures r.Table? ==> r.ids == Recorded(Split(output.value, '\n'))
  {
    if output.None? {
      return Failed;
    }
    var ids, last := Collect(Split(output.value, '\n'), LineID);
    return Table(ids, last);
  }

  /** Its loop, for any way to read an id off a line. */
  method Collect(lines: seq<string>, lineID: string -> Option<uint32>) returns (ids: set<uint32>, last: uint32)
    requires forall line :: lineID(line).Some? ==> lineID(line).value > QUOTA_MIN_ID
    ensures ids == Values(lines, lineID) && IsMaximum(last, ids)
    ensures forall id :: id in ids ==> id > QUOTA_MIN_ID
  {
    ids, last := {}, QUOTA_MIN_ID;
    for i := 0 to |lines|
      invariant ids == Values(lines[..i], lineID)
      invariant IsMaximum(last, ids)
      invariant forall id :: id in ids ==> id > QUOTA_MIN_ID
    {
      var id := lineID(lines[i]);
      ValuesSnoc(lines, lineID, i);
      if id.Some? {
        MaximumInsert(last, ids, id.value);
        ids := ids + {id.value};
        if id.value > last {
          last := id.value;
        }
      }
    }
    assert lines[..|lines|] == lines;
  }

  // ---------- The driver ----------

  /** StillSearching: the loads at hand are used up and the loop would ask for
      another one. */
  datatype Answer = Allocated(id: uint32) | LoadFailed | StillSearching

  /** What an allocation after `before` must give: the successor of the largest
      recorded id, which has not been recorded, and which lies in the range
      exactly when that largest id is not the largest uint32 (otherwise the
      increment wraps around and 0 is handed out). */
  ghost predicate NextAfter(before: Loaded, id: uint32) {
    && before.Table?
    && id == (if before.last == MAX_UINT32 then 0 else before.last + 1)
    && id !in before.ids
    && (QUOTA_MIN_ID < id <= QUOTA_MAX_ID <==> before.last != MAX_UINT32)
  }

  /** The largest recorded id leaves no room: it is at or above the maximum (and
      its successor does not wrap around). */
  ghost predicate Full(t: Loaded) {
    t.Table? && QUOTA_MAX_ID <= t.last < MAX_UINT32
  }

  class PrjQuotaDriver {
    var quotaIDs: set<uint32>
    var lastID: uint32

    ghost function State(): Loaded
      reads this
    {
      Table(quotaIDs, lastID)
    }

    /** Nothing is loaded, or lastID is the maximum of the recorded ids. */
    ghost predicate Valid()
      reads this
    {
      lastID != 0 ==> State().Consistent()
    }

    constructor ()
      ensures Valid() && State() == Table({}, 0)
    {
      quotaIDs, lastID := {}, 0;
    }

    /** The fields after one `quota.QuotaIDs, quota.LastID, err = loadQuotaIDs("-Pan")`. */
    method Load(l: Loaded) returns (ok: bool)
      modifies this
      ensures ok == l.Table?
      ensures State() == if ok then l else Table({}, 0)
    {
      if l.Failed? {
        quotaIDs, lastID := {}, 0;
      } else {
        quotaIDs, lastID := l.ids, l.last;
      }
      return l.Table?;
    }

    /** `loads` are what successive loads return; the first `used` of them are
        consumed, and the first only if nothing is loaded yet.
        - An allocated id is the one after the table last loaded (NextAfter), and
          is recorded; between loads the ids strictly increase.
        - A failed load leaves the driver ready to load again.
        - The search only goes on past a table that holds an id at or above
          QuotaMaxID; with no such table it ends after at most one load. */
    method GetNextQuotaID(loads: seq<Loaded>) returns (r: Answer, used: nat)
      requires Valid()
      requires forall k :: 0 <= k < |loads| ==> loads[k].Consistent()
      modifies this
      ensures Valid() && used <= |loads|
      ensures r.LoadFailed? ==> used > 0 && loads[used - 1].Failed? && State() == Table({}, 0)
      ensures r.Allocated? ==>
        var before := if used == 0 then old(State()) else loads[used - 1];
        && (used == 0 ==> old(lastID) != 0)
        && NextAfter(before, r.id) && State() == Table(before.ids + {r.id}, r.id)
      ensures r.Allocated? && used == 0 ==> (r.id > old(lastID) <==> old(lastID) != MAX_UINT32)
      ensures forall k :: 0 <= k < used - 1 ==> Full(loads[k])
      ensures used > 0 && old(lastID) != 0 ==> Full(old(State()))
      ensures r.StillSearching? ==>
        used == |loads| && if used > 0 then Full(loads[used - 1]) else old(lastID) == 0 || Full(old(State()))
      ensures |loads| > 0 && (forall k :: 0 <= k < |loads| ==> loads[k].Table? && loads[k].last < QUOTA_MAX_ID) ==>
        r.Allocated? && used <= 1
    {
      used := 0;
      if lastID == 0 {
        if |loads| == 0 {
          return StillSearching, 0;
        }
        used := 1;
        var ok := Load(loads[0]);
        if !ok {
          return LoadFailed, used;
        }
      }
      var id := lastID;
      while true
        invariant used <= |loads| && lastID != 0 && id == lastID
        invariant State() == if used == 0 then old(State()) else loads[used - 1]
        invariant Valid()
        invariant forall k :: 0 <= k < used - 1 ==> Full(loads[k])
        invariant used > 0 && old(lastID) != 0 ==> Full(old(State()))
        decreases |loads| - used
      {
        if id < QUOTA_MIN_ID {
          id := QUOTA_MIN_ID;
        }
        id := (id + 1) % 0x1_0000_0000;
        if id !in quotaIDs {
          if id <= QUOTA_MAX_ID {
            break;
          }
          if used == |loads| {
            return StillSearching, used;
          }
          used := used + 1;
          var ok := Load(loads[used - 1]);
          if !ok {
            return LoadFailed, used;
          }
          id := lastID;
        }
      }
      quotaIDs := quotaIDs + {id};
      lastID := id;
      assert used > 1 ==> Full(loads[used - 2]);
      return Allocated(id), used;
    }
  }

  // ---------- Two reports that the allocator does not cope with ----------

  /** A report of one line that records one id. */
  function Report(id: uint32): string {
    Print(Usage(id, ""))
  }

  lemma ReportRecords(id: uint32)
    requires id > QUOTA_MIN_ID
    ensures Recorded(Split(Report(id), '\n')) == {id}
  {
    var line := Usage(id, "");
    PrintedLineIsRead(line);
    NothingToSplit(Report(id), '\n');
    assert Recorded([Report(id)]) == {id} by {
      assert LineID([Report(id)][0]) == Some(id);
    }
  }

  /** With this report the next id is 0, outside of the range: LoadQuotaIDs must
      return the table below, and NextAfter leaves no other id. */
  lemma LargestIDWrapsAround(last: uint32, id: uint32)
    ensures Recorded(Split(Report(MAX_UINT32), '\n')) == {MAX_UINT32}
    ensures Table({MAX_UINT32}, last).Consistent() <==> last == MAX_UINT32
    ensures NextAfter(Table({MAX_UINT32}, MAX_UINT32), id) <==> id == 0
  {
    ReportRecords(MAX_UINT32);
    var ids: set<uint32> := {MAX_UINT32};
    assert MAX_UINT32 in ids;
  }

  /** With this report no id can be allocated although only one is taken: it has
      this table, after which the search loads again. */
  lemma MaximumIDBlocksAllocation(last: uint32)
    ensures Recorded(Split(Report(QUOTA_MAX_ID), '\n')) == {QUOTA_MAX_ID}
    ensures Table({QUOTA_MAX_ID}, last).Consistent() <==> last == QUOTA_MAX_ID
    ensures Full(Table({QUOTA_MAX_ID}, QUOTA_MAX_ID))
  {
    ReportRecords(QUOTA_MAX_ID);
    var ids: set<uint32> := {QUOTA_MAX_ID};
    assert QUOTA_MAX_ID in ids;
  }

  /** ... and again, without end: however often the report is read, the search is
      still going on. */
  method SearchNeverEnds(driver: PrjQuotaDriver, loads: nat) returns (r: Answer, used: nat)
    requires driver.Valid() && (driver.lastID == 0 || Full(driver.State()))
    modifies driver
    ensures r.StillSearching? && used == loads
  {
    var t := Table({QUOTA_MAX_ID}, QUOTA_MAX_ID);
    MaximumIDBlocksAllocation(QUOTA_MAX_ID);
    r, used := driver.GetNextQuotaID(seq(loads, _ => t));
  }
}
