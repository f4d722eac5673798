/**
 * The fixed-width parser for the Melissa ZIP.DAT file (`MelissaZipParser`)
 * and `parse_type`, which renders one value of a parsed row.
 *
 * A line of the file is a run of fixed-width fields. The parser lays the
 * fields of its size table end to end, keeps those whose name does not
 * start with `_`, cuts each kept field out of a line, strips its trailing
 * whitespace, and turns the fields of a line into a zip code row when the
 * line is a "last line" record. Latitude and longitude stay text: the
 * conversion to floating point is not part of this model.
 */
module Zipcodes {
  import opened Wrappers
  import opened PyText

  /** An entry of `fields_size_map`: a field name and its width in characters. */
  datatype FieldSize = FieldSize(name: string, length: nat)

  /** An entry of `self.fields`: a kept field and the slice `[start:end]` it occupies. */
  datatype FieldSpan = FieldSpan(name: string, start: nat, end: nat)

  /** The tuple `to_model` builds; latitude and longitude are kept as text. */
  datatype ZipRow = ZipRow(
    zipCode: string, state: string, city: string, countyFips: Option<string>,
    latitude: string, longitude: string, msa: Option<string>, pmsa: Option<string>)

  /** The two `ValueError`s the parser raises. */
  datatype ZipError =
    | RowTooShort(row: string)
    | InvalidZip(zipCode: Option<string>, city: Option<string>, state: Option<string>)

  /** What `process` produces: the rows yielded, then the error that stopped it, if any. */
  datatype Outcome = Outcome(rows: seq<ZipRow>, error: Option<ZipError>)

  /** The widths of the ZIP.DAT record, in file order. */
  const FieldsSizeMap: seq<FieldSize> := [
    FieldSize("zip_code", 5), FieldSize("state", 2), FieldSize("city", 28), FieldSize("_type", 1),
    FieldSize("county_fips", 5), FieldSize("latitude", 7), FieldSize("longitude", 8),
    FieldSize("_area_code", 3), FieldSize("_finance_code", 6), FieldSize("last_line", 1),
    FieldSize("_fac", 1), FieldSize("msa", 4), FieldSize("pmsa", 4), FieldSize("_filler", 3)]

  /** The header lines `process` skips. */
  const SkipRows: nat := 2

  /** The kept fields of the ZIP.DAT record and their slices. */
  const MelissaFields: seq<FieldSpan> := [
    FieldSpan("zip_code", 0, 5), FieldSpan("state", 5, 7), FieldSpan("city", 7, 35),
    FieldSpan("county_fips", 36, 41), FieldSpan("latitude", 41, 48), FieldSpan("longitude", 48, 56),
    FieldSpan("last_line", 65, 66), FieldSpan("msa", 67, 71), FieldSpan("pmsa", 71, 75)]

  // ---------------------------------------------------------------------------
  // The field table

  /** `name.startswith('_')`: the field is skipped. */
  predicate Ignored(name: string) {
    |name| > 0 && name[0] == '_'
  }

  /** Where field `j` starts: the widths of the fields before it added up, skipped ones included. */
  function Offset(sizes: seq<FieldSize>, j: nat): nat
    requires j <= |sizes|
  {
    if j == 0 then 0 else Offset(sizes, j - 1) + sizes[j - 1].length
  }

  /** Every field laid end to end from offset 0, each starting where the one before it ends. */
  function Layout(sizes: seq<FieldSize>): (spans: seq<FieldSpan>)
    ensures |spans| == |sizes|
  {
    seq(|sizes|, j requires 0 <= j < |sizes| =>
      FieldSpan(sizes[j].name, Offset(sizes, j), Offset(sizes, j) + sizes[j].length))
  }

  /** The spans from index `i` on whose name does not start with `_`, in order. */
  function Kept(spans: seq<FieldSpan>, i: nat): (kept: seq<FieldSpan>)
    requires i <= |spans|
    ensures |kept| <= |spans| - i
    decreases |spans| - i
  {
    if i == |spans| then []
    else (if Ignored(spans[i].name) then [] else [spans[i]]) + Kept(spans, i + 1)
  }

  /** The laid-out fields are contiguous from offset 0 and each is as wide as its table entry. */
  lemma LayoutContiguous(sizes: seq<FieldSize>)
    ensures sizes != [] ==> Layout(sizes)[0].start == 0
    ensures forall j :: 0 <= j < |sizes| ==> Layout(sizes)[j].end - Layout(sizes)[j].start == sizes[j].length
    ensures forall j :: 0 <= j < |sizes| - 1 ==> Layout(sizes)[j].end == Layout(sizes)[j + 1].start
    ensures forall j :: 0 <= j < |sizes| ==> Layout(sizes)[j].name == sizes[j].name
  {
  }

  /**
   * `prep_fields`: walks the table keeping a running offset and records the
   * slice of every field that is not skipped.
   */
  method PrepFields(sizes: seq<FieldSize>) returns (result: seq<FieldSpan>)
    ensures result == Kept(Layout(sizes), 0)
  {
    result := [];
    var start := 0;
    for i := 0 to |sizes|
      invariant start == Offset(sizes, i)
      invariant result + Kept(Layout(sizes), i) == Kept(Layout(sizes), 0)
    {
      var name, length := sizes[i].name, sizes[i].length;
      var end := start + length;
      ghost var rest := Kept(Layout(sizes), i + 1);
      if !Ignored(name) {
        assert result + ([FieldSpan(name, start, end)] + rest) == (result + [FieldSpan(name, start, end)]) + rest;
        result := result + [FieldSpan(name, start, end)];
      } else {
        assert [] + rest == rest;
      }
      start := start + length;
    }
    assert result + [] == result;
  }

  /** `max(x[2] for x in self.fields)`: the end of the field that reaches farthest. */
  function MaxEnd(spans: seq<FieldSpan>): (m: nat)
    requires spans != []
    ensures forall k :: 0 <= k < |spans| ==> spans[k].end <= m
    ensures exists k :: 0 <= k < |spans| && spans[k].end == m
  {
    if |spans| == 1 then spans[0].end
    else
      var rest := MaxEnd(spans[1..]);
      if spans[0].end >= rest then spans[0].end else rest
  }

  /** Every field of the ZIP.DAT record at its offset, the skipped ones included. */
  const RecordLayout: seq<FieldSpan> := [
    FieldSpan("zip_code", 0, 5), FieldSpan("state", 5, 7), FieldSpan("city", 7, 35), FieldSpan("_type", 35, 36),
    FieldSpan("county_fips", 36, 41), FieldSpan("latitude", 41, 48), FieldSpan("longitude", 48, 56),
    FieldSpan("_area_code", 56, 59), FieldSpan("_finance_code", 59, 65), FieldSpan("last_line", 65, 66),
    FieldSpan("_fac", 66, 67), FieldSpan("msa", 67, 71), FieldSpan("pmsa", 71, 75), FieldSpan("_filler", 75, 78)]

  /** The ZIP.DAT fields laid end to end occupy the offsets of `RecordLayout`. */
  lemma RecordLaidOut()
    ensures Layout(FieldsSizeMap) == RecordLayout
  {
    var s := FieldsSizeMap;
    assert Offset(s, 1) == 5;
    assert Offset(s, 2) == 7;
    assert Offset(s, 3) == 35;
    assert Offset(s, 4) == 36;
    assert Offset(s, 5) == 41;
    assert Offset(s, 6) == 48;
    assert Offset(s, 7) == 56;
    assert Offset(s, 8) == 59;
    assert Offset(s, 9) == 65;
    assert Offset(s, 10) == 66;
    assert Offset(s, 11) == 67;
    assert Offset(s, 12) == 71;
    assert Offset(s, 13) == 75;
  }

  /** A kept field heads what the rest of the table keeps. */
  lemma KeptKeep(l: seq<FieldSpan>, i: nat, f: seq<FieldSpan>, k: nat)
    requires i < |l| && k < |f| && !Ignored(l[i].name) && l[i] == f[k]
    requires Kept(l, i + 1) == f[k + 1..]
    ensures Kept(l, i) == f[k..]
  {
    assert [f[k]] + f[k + 1..] == f[k..];
  }

  /** A skipped field adds nothing to what the rest of the table keeps. */
  lemma KeptSkip(l: seq<FieldSpan>, i: nat, f: seq<FieldSpan>, k: nat)
    requires i < |l| && k <= |f| && Ignored(l[i].name)
    requires Kept(l, i + 1) == f[k..]
    ensures Kept(l, i) == f[k..]
  {
  }

  /** The last seven ZIP.DAT fields keep `last_line`, `msa` and `pmsa`. */
  lemma RecordKeptBack()
    ensures Kept(RecordLayout, 7) == MelissaFields[6..]
  {
    var l, f := RecordLayout, MelissaFields;
    assert Kept(l, 14) == f[9..];
    KeptSkip(l, 13, f, 9);
    KeptKeep(l, 12, f, 8);
    KeptKeep(l, 11, f, 7);
    KeptSkip(l, 10, f, 7);
    KeptKeep(l, 9, f, 6);
    KeptSkip(l, 8, f, 6);
    KeptSkip(l, 7, f, 6);
  }

  /** From the fourth field on, the ZIP.DAT record keeps six fields. */
  lemma RecordKeptMiddle()
    ensures Kept(RecordLayout, 3) == MelissaFields[3..]
  {
    var l, f := RecordLayout, MelissaFields;
    RecordKeptBack();
    KeptKeep(l, 6, f, 5);
    KeptKeep(l, 5, f, 4);
    KeptKeep(l, 4, f, 3);
    KeptSkip(l, 3, f, 3);
  }

  /** From the second field on, the ZIP.DAT record keeps eight fields. */
  lemma RecordKeptFront()
    ensures Kept(RecordLayout, 1) == MelissaFields[1..]
  {
    var l, f := RecordLayout, MelissaFields;
    RecordKeptMiddle();
    KeptKeep(l, 2, f, 2);
    KeptKeep(l, 1, f, 1);
  }

  /** Dropping the skipped fields leaves the nine of `MelissaFields`. */
  lemma RecordKept()
    ensures Kept(RecordLayout, 0) == MelissaFields
  {
    var l, f := RecordLayout, MelissaFields;
    RecordKeptFront();
    KeptKeep(l, 0, f, 0);
    assert f[0..] == f;
  }

  /** The farthest kept field ends at offset 75, so a line must be at least 75 characters long. */
  lemma MelissaRowLength()
    ensures MaxEnd(MelissaFields) == 75
  {
    var f := MelissaFields;
    assert forall k :: 0 <= k < |f| ==> f[k].end <= 75;
    var k :| 0 <= k < |f| && f[k].end == MaxEnd(f);
    assert f[8].end == 75;
  }

  // ---------------------------------------------------------------------------
  // The fields of one line

  /**
   * One field of a line: `row[start:end].rstrip()`, or `None` when nothing
   * is left. A field is `None` exactly when its slice is all whitespace;
   * otherwise it is the slice up to its last non-whitespace character.
   */
  function Cell(row: string, span: FieldSpan): (v: Option<string>)
    ensures var slice := Slice(row, span.start, span.end);
      v.None? <==> forall k :: 0 <= k < |slice| ==> IsSpace(slice[k])
    ensures var slice := Slice(row, span.start, span.end);
      v.Some? ==>
        && v.value != "" && v.value <= slice && !IsSpace(v.value[|v.value| - 1])
        && forall k :: |v.value| <= k < |slice| ==> IsSpace(slice[k])
  {
    var item := RStrip(Slice(row, span.start, span.end));
    if item == "" then None else Some(item)
  }

  /** The fields of a line as `get_fields` builds its dictionary: a later field of the same name overwrites. */
  function FieldMap(spans: seq<FieldSpan>, row: string): (d: map<string, Option<string>>)
    ensures forall name :: name in d ==> d[name] != Some("")
  {
    if spans == [] then map[]
    else
      var last := spans[|spans| - 1];
      FieldMap(spans[..|spans| - 1], row)[last.name := Cell(row, last)]
  }

  /** The dictionary has exactly the names of the fields as keys. */
  lemma {:induction false} FieldMapKeys(spans: seq<FieldSpan>, row: string, name: string)
    ensures name in FieldMap(spans, row) <==> exists k :: 0 <= k < |spans| && spans[k].name == name
    decreases |spans|
  {
    if spans != [] {
      var init := spans[..|spans| - 1];
      FieldMapKeys(init, row, name);
      if exists k :: 0 <= k < |spans| && spans[k].name == name {
        var k :| 0 <= k < |spans| && spans[k].name == name;
        if k < |init| {
          assert init[k].name == name;
        }
      }
    }
  }

  /** A name maps to the field of the last span that carries it. */
  lemma {:induction false} FieldMapValue(spans: seq<FieldSpan>, row: string, k: int)
    requires 0 <= k < |spans|
    requires forall j :: k < j < |spans| ==> spans[j].name != spans[k].name
    ensures spans[k].name in FieldMap(spans, row)
    ensures FieldMap(spans, row)[spans[k].name] == Cell(row, spans[k])
    decreases |spans|
  {
    if k < |spans| - 1 {
      FieldMapValue(spans[..|spans| - 1], row, k);
    }
  }

  /** The keys `to_model` reads are all present. */
  predicate HasModelKeys(d: map<string, Option<string>>) {
    && "last_line" in d && "zip_code" in d && "state" in d && "city" in d && "latitude" in d
    && "longitude" in d && "county_fips" in d && "msa" in d && "pmsa" in d
  }

  /** The ZIP.DAT table keeps no two fields of the same name. */
  lemma MelissaNamesDistinct()
    ensures forall a, b :: 0 <= a < b < |MelissaFields| ==> MelissaFields[a].name != MelissaFields[b].name
  {
  }

  /** Under the ZIP.DAT table each kept field of a line is found under its own name. */
  lemma MelissaField(row: string, k: int)
    requires 0 <= k < |MelissaFields|
    ensures MelissaFields[k].name in FieldMap(MelissaFields, row)
    ensures FieldMap(MelissaFields, row)[MelissaFields[k].name] == Cell(row, MelissaFields[k])
  {
    MelissaNamesDistinct();
    FieldMapValue(MelissaFields, row, k);
  }

  /** The dictionary of a ZIP.DAT line holds every key `to_model` reads. */
  lemma ModelKeysPresent(row: string)
    ensures HasModelKeys(FieldMap(MelissaFields, row))
  {
    MelissaField(row, 0);
    MelissaField(row, 1);
    MelissaField(row, 2);
    MelissaField(row, 3);
    MelissaField(row, 4);
    MelissaField(row, 5);
    MelissaField(row, 6);
    MelissaField(row, 7);
    MelissaField(row, 8);
  }

  // ---------------------------------------------------------------------------
  // The parser

  class MelissaZipParser {
    /** Set once by `__init__` and only read afterwards. */
    const fields: seq<FieldSpan>
    const skipRows: nat
    const rowLength: nat

    /** What `__init__` establishes. */
    ghost predicate Valid() {
      fields == MelissaFields && skipRows == SkipRows && rowLength == 75
    }

    /** `__init__`: the kept fields of the size table, two header lines, and the farthest field end. */
    constructor ()
      ensures Valid()
      ensures fields == Kept(Layout(FieldsSizeMap), 0) && rowLength == MaxEnd(fields)
    {
      var spans := PrepFields(FieldsSizeMap);
      RecordLaidOut();
      RecordKept();
      MelissaRowLength();
      fields := spans;
      skipRows := SkipRows;
      rowLength := MaxEnd(spans);
    }

    /**
     * `is_valid_row`: the line is long enough for every kept field; once
     * `__init__` has run, a line passes exactly when every kept field's slice
     * lies inside it.
     */
    predicate IsValidRow(row: string)
      ensures Valid() ==> (IsValidRow(row) <==> forall k :: 0 <= k < |fields| ==> fields[k].end <= |row|)
    {
      MelissaRowLength();
      assert Valid() ==> fields[8].end == rowLength;
      |row| >= rowLength
    }

    /** `get_fields`: the dictionary from field name to stripped text, `None` for a blank field. */
    method GetFields(row: string) returns (items: map<string, Option<string>>)
      ensures items == FieldMap(fields, row)
    {
      items := map[];
      for i := 0 to |fields|
        invariant items == FieldMap(fields[..i], row)
      {
        var span := fields[i];
        var item := RStrip(Slice(row, span.start, span.end));
        items := items[span.name := if item != "" then Some(item) else None];
        assert fields[..i + 1][..i] == fields[..i];
      }
      assert fields[..|fields|] == fields;
    }

    /**
     * `to_model`: it skips exactly the lines that are not "last line"
     * records, fails exactly when one of the five required fields is blank,
     * and otherwise copies the eight fields.
     */
    function ToModel(d: map<string, Option<string>>): (r: Result<Option<ZipRow>, ZipError>)
      requires HasModelKeys(d)
      ensures r == Success(None) <==> d["last_line"] != Some("L")
      ensures r.Failure? <==>
        d["last_line"] == Some("L")
        && None in {d["zip_code"], d["state"], d["city"], d["latitude"], d["longitude"]}
      ensures r.Success? && r.value.Some? ==>
        var z := r.value.value;
        && d["zip_code"] == Some(z.zipCode) && d["state"] == Some(z.state) && d["city"] == Some(z.city)
        && d["latitude"] == Some(z.latitude) && d["longitude"] == Some(z.longitude)
        && d["county_fips"] == z.countyFips && d["msa"] == z.msa && d["pmsa"] == z.pmsa
    {
      if d["last_line"] != Some("L") then Success(None)
      else if d["zip_code"].None? || d["state"].None? || d["city"].None?
           || d["latitude"].None? || d["longitude"].None? then
        Failure(InvalidZip(d["zip_code"], d["city"], d["state"]))
      else
        Success(Some(ZipRow(
          d["zip_code"].value, d["state"].value, d["city"].value, d["county_fips"],
          d["latitude"].value, d["longitude"].value, d["msa"], d["pmsa"])))
    }

    /** What `process` makes of one line of the body. */
    function LineResult(row: string): (r: Result<Option<ZipRow>, ZipError>)
      requires Valid()
      ensures r == Failure(RowTooShort(row)) <==> !IsValidRow(row)
      ensures r.Success? ==> IsValidRow(row)
    {
      if !IsValidRow(row) then Failure(RowTooShort(row))
      else
        ModelKeysPresent(row);
        ToModel(FieldMap(fields, row))
    }

    /**
     * A line turns into a zip code row exactly when it is long enough, its
     * `last_line` column holds `L` and the five required fields are not
     * blank; the row's fields are then the stripped slices of the line.
     */
    lemma RowFromLine(row: string)
      requires Valid()
      ensures LineResult(row).Success? && LineResult(row).value.Some? <==>
        && |row| >= 75
        && Cell(row, MelissaFields[6]) == Some("L")
        && Cell(row, MelissaFields[0]).Some? && Cell(row, MelissaFields[1]).Some?
        && Cell(row, MelissaFields[2]).Some? && Cell(row, MelissaFields[4]).Some?
        && Cell(row, MelissaFields[5]).Some?
      ensures LineResult(row).Success? && LineResult(row).value.Some? ==>
        var z := LineResult(row).value.value;
        && z.zipCode == RStrip(row[0..5]) && z.state == RStrip(row[5..7]) && z.city == RStrip(row[7..35])
        && z.countyFips == Cell(row, MelissaFields[3])
        && z.latitude == RStrip(row[41..48]) && z.longitude == RStrip(row[48..56])
        && z.msa == Cell(row, MelissaFields[7]) && z.pmsa == Cell(row, MelissaFields[8])
    {
      var d := FieldMap(fields, row);
      MelissaField(row, 0);
      MelissaField(row, 1);
      MelissaField(row, 2);
      MelissaField(row, 3);
      MelissaField(row, 4);
      MelissaField(row, 5);
      MelissaField(row, 6);
      MelissaField(row, 7);
      MelissaField(row, 8);
    }

    /** The lines after the header: `lines[self.skip_rows:]`, empty when the file is shorter. */
    function Body(lines: seq<string>): seq<string> {
      if |lines| <= skipRows then [] else lines[skipRows..]
    }

    /** What `process` makes of each line of the body, in order. */
    function LineResults(ls: seq<string>): (rs: seq<Result<Option<ZipRow>, ZipError>>)
      requires Valid()
      ensures |rs| == |ls| && forall i :: 0 <= i < |ls| ==> rs[i] == LineResult(ls[i])
    {
      seq(|ls|, i requires 0 <= i < |ls| => LineResult(ls[i]))
    }

    /** The body of the loop in `process` for one line: the length check, `get_fields`, then `to_model`. */
    method ConvertLine(row: string) returns (result: Result<Option<ZipRow>, ZipError>)
      requires Valid()
      ensures result == LineResult(row)
    {
      if !IsValidRow(row) {
        return Failure(RowTooShort(row));
      }
      var items := GetFields(row);
      ModelKeysPresent(row);
      result := ToModel(items);
    }

    /**
     * `process`: skips the header, stops at the first line that is too
     * short or holds an invalid zip code, and yields the zip code rows of
     * the lines before it in file order.
     */
    method Process(lines: seq<string>) returns (rows: seq<ZipRow>, error: Option<ZipError>)
      requires Valid()
      ensures Outcome(rows, error) == Collect(LineResults(Body(lines)))
    {
      var body := if |lines| <= skipRows then [] else lines[skipRows..];
      ghost var results := LineResults(body);
      rows, error := [], None;
      var i := 0;
      while i < |body|
        invariant 0 <= i <= |body|
        invariant Collect(results) == Resume(results, i, rows)
      {
        var result := ConvertLine(body[i]);
        ResumeStep(results, i, rows);
        if result.Failure? {
          error := Some(result.error);
          return;
        }
        if result.value.Some? {
          rows := rows + [result.value.value];
        }
        i := i + 1;
      }
      ResumeDone(results, rows);
    }
  }

  // ---------------------------------------------------------------------------
  // How `process` consumes the converted lines

  /**
   * The generator loop of `process` over the converted lines: it yields
   * each row, passes over lines that give none, and stops at the first
   * error.
   */
  function Collect(results: seq<Result<Option<ZipRow>, ZipError>>): (out: Outcome)
    ensures |out.rows| <= |results|
  {
    if results == [] then Outcome([], None)
    else
      match results[0]
      case Failure(e) => Outcome([], Some(e))
      case Success(None) => Collect(results[1..])
      case Success(Some(z)) =>
        var rest := Collect(results[1..]);
        Outcome([z] + rest.rows, rest.error)
  }

  /** What the generator gives once `rows` have been yielded and the lines from `i` on remain. */
  function Resume(results: seq<Result<Option<ZipRow>, ZipError>>, i: nat, rows: seq<ZipRow>): Outcome
    requires i <= |results|
  {
    var rest := Collect(results[i..]);
    Outcome(rows + rest.rows, rest.error)
  }

  /** One step of the generator: an error ends it, a row is yielded, a line without one is passed over. */
  lemma ResumeStep(results: seq<Result<Option<ZipRow>, ZipError>>, i: nat, rows: seq<ZipRow>)
    requires i < |results|
    ensures results[i].Failure? ==> Resume(results, i, rows) == Outcome(rows, Some(results[i].error))
    ensures results[i] == Success(None) ==> Resume(results, i, rows) == Resume(results, i + 1, rows)
    ensures results[i].Success? && results[i].value.Some? ==>
      Resume(results, i, rows) == Resume(results, i + 1, rows + [results[i].value.value])
  {
    assert results[i..][1..] == results[i + 1..];
    assert rows + [] == rows;
    if results[i].Success? && results[i].value.Some? {
      assert rows + ([results[i].value.value] + Collect(results[i + 1..]).rows)
        == (rows + [results[i].value.value]) + Collect(results[i + 1..]).rows;
    }
  }

  /** Once every line is consumed the generator has given exactly what it yielded. */
  lemma ResumeDone(results: seq<Result<Option<ZipRow>, ZipError>>, rows: seq<ZipRow>)
    ensures Resume(results, |results|, rows) == Outcome(rows, None)
  {
    assert rows + [] == rows;
  }

  /** `process` streams: what a prefix of the lines gives is a prefix of what all of them give. */
  lemma {:induction false} CollectAppend(a: seq<Result<Option<ZipRow>, ZipError>>, b: seq<Result<Option<ZipRow>, ZipError>>)
    ensures Collect(a + b) ==
      if Collect(a).error.Some? then Collect(a)
      else Outcome(Collect(a).rows + Collect(b).rows, Collect(b).error)
    decreases |a|
  {
    if a == [] {
      assert a + b == b;
    } else {
      assert (a + b)[1..] == a[1..] + b;
      CollectAppend(a[1..], b);
    }
  }

  /** `process` raises nothing exactly when every line converts. */
  lemma {:induction false} CollectClean(results: seq<Result<Option<ZipRow>, ZipError>>)
    ensures Collect(results).error.None? <==> forall j :: 0 <= j < |results| ==> results[j].Success?
    decreases |results|
  {
    if results != [] {
      CollectClean(results[1..]);
      assert forall j :: 1 <= j < |results| ==> results[j] == results[1..][j - 1];
    }
  }

  /** The error `process` raises is that of the first line that fails to convert. */
  lemma {:induction false} CollectFirstError(results: seq<Result<Option<ZipRow>, ZipError>>)
    ensures Collect(results).error.Some? ==>
      exists j :: 0 <= j < |results| && results[j] == Failure(Collect(results).error.value)
        && forall i :: 0 <= i < j ==> results[i].Success?
    decreases |results|
  {
    if results != [] && results[0].Success? {
      var rest := results[1..];
      CollectFirstError(rest);
      if Collect(results).error.Some? {
        var j :| 0 <= j < |rest| && rest[j] == Failure(Collect(rest).error.value)
          && forall i :: 0 <= i < j ==> rest[i].Success?;
        assert results[j + 1] == rest[j];
        assert forall i :: 1 <= i < j + 1 ==> results[i] == rest[i - 1];
      }
    }
  }

  /** Every row `process` yields is the conversion of one of its lines, and they come in line order. */
  lemma {:induction false} CollectYields(results: seq<Result<Option<ZipRow>, ZipError>>, z: ZipRow)
    ensures z in Collect(results).rows ==> exists j :: 0 <= j < |results| && results[j] == Success(Some(z))
    decreases |results|
  {
    if results != [] && results[0].Success? {
      var rest := results[1..];
      CollectYields(rest, z);
      if z in Collect(rest).rows {
        var j :| 0 <= j < |rest| && rest[j] == Success(Some(z));
        assert results[j + 1] == rest[j];
      }
    }
  }

  // ---------------------------------------------------------------------------
  // Rendering a value

  /** The `type_` argument of `parse_type`. */
  datatype PyType = IntType | FloatType | StrType

  /** `parse_type`: empty for `None`, the text itself for a number, the text in single quotes otherwise. */
  function ParseType(value: Option<string>, t: PyType): (r: string)
    ensures value.None? ==> r == ""
    ensures value.Some? && !t.StrType? ==> r == value.value
    ensures value.Some? && t.StrType? ==>
      |r| == |value.value| + 2 && r[0] == '\'' && r[|r| - 1] == '\'' && r[1..|r| - 1] == value.value
  {
    if value.None? then ""
    else if t.IntType? || t.FloatType? then value.value
    else Quote(value.value)
  }

  /**
   * Rendering a field of a line: a blank field renders empty and any other
   * renders non-empty, so the two cannot be confused; a quoted field holds
   * the field's text between its quotes, and a number field is its text.
   */
  lemma ParseTypeOfCell(row: string, span: FieldSpan, t: PyType)
    ensures ParseType(Cell(row, span), t) == "" <==> Cell(row, span).None?
    ensures Cell(row, span).Some? && t == StrType ==>
      var r := ParseType(Cell(row, span), t);
      |r| >= 2 && r[0] == '\'' && r[|r| - 1] == '\'' && r[1..|r| - 1] == Cell(row, span).value
    ensures Cell(row, span).Some? && t != StrType ==> ParseType(Cell(row, span), t) == Cell(row, span).value
  {
  }
}
