/** From CSV rows to devices (admin-web/src/utils/deviceCsv.ts, after the lexer). */
module DeviceImport {
  import opened Basics
  import opened DeviceCsv

  datatype Device = Device(deviceId: Text, vendor: nat, station: nat, ports: nat, model: Option<Text>)

  datatype ImportError = Csv(error: CsvError) | WrongHeader | WrongCount | BadRow(line: nat)

  const MAX_SAFE_INTEGER: int := 9007199254740991
  const MAX_ROWS: int := 100
  const MAX_PORTS: int := 255

  function Ascii(s: string): Text {
    if s == "" then [] else [(if s[0] as int < 0x1_0000 then s[0] as int else 0)] + Ascii(s[1..])
  }

  function Header(): seq<Text> {
    [Ascii("device_id"), Ascii("vendor_id"), Ascii("station_id"), Ascii("port_count"), Ascii("model")]
  }

  predicate IsDigit(u: Unit) { 48 <= u <= 57 }

  function Digit(u: Unit): nat
    requires IsDigit(u)
  {
    var code: int := u;
    code - 48
  }

  predicate IsIdUnit(u: Unit) { 65 <= u <= 90 || 97 <= u <= 122 || IsDigit(u) || u == 45 || u == 95 }

  predicate Every(t: Text, p: Unit -> bool) { t == [] || (p(t[0]) && Every(t[1..], p)) }

  /** The value of a decimal numeral; none for any other text. */
  function Numeral(t: Text): Option<nat> {
    if t == [] || !IsDigit(t[|t| - 1]) then None
    else if |t| == 1 then Some(Digit(t[0]))
    else match Numeral(t[..|t| - 1])
      case None => None
      case Some(n) => Some(10 * n + Digit(t[|t| - 1]))
  }

  predicate GoodId(t: Text) { 8 <= |t| <= 32 && Every(t, IsIdUnit) }

  /** A positive whole number up to a limit. */
  function Quantity(t: Text, limit: nat): Option<nat> {
    var n := Numeral(t);
    if n.Some? && 0 < n.value <= limit then n else None
  }

  /** Surrogate pairs count once. */
  function CodePoints(t: Text): nat {
    if t == [] then 0
    else if |t| > 1 && 0xd800 <= t[0] < 0xdc00 && 0xdc00 <= t[1] < 0xe000 then 1 + CodePoints(t[2..])
    else 1 + CodePoints(t[1..])
  }

  predicate Visible(u: Unit) { !(u < 32 || 127 <= u < 160) }

  predicate GoodModel(t: Text) { CodePoints(t) <= 128 && Every(t, Visible) }

  /** The device that a row describes, if its values are acceptable. */
  function Parsed(row: Row): Option<Device> {
    if |row.values| != 5 then None
    else
      var id, model := Trim(row.values[0]), Trim(row.values[4]);
      var vendor, station := Quantity(Trim(row.values[1]), MAX_SAFE_INTEGER), Quantity(Trim(row.values[2]), MAX_SAFE_INTEGER);
      var ports := Quantity(Trim(row.values[3]), MAX_PORTS);
      if GoodId(id) && vendor.Some? && station.Some? && ports.Some? && GoodModel(model)
      then Some(Device(id, vendor.value, station.value, ports.value, if model == [] then None else Some(model)))
      else None
  }

  function Lower(t: Text): Text {
    if t == [] then [] else [if 65 <= t[0] <= 90 then t[0] + 32 else t[0]] + Lower(t[1..])
  }

  /** The key under which a row's device may occur only once. */
  function Key(row: Row): Text { if |row.values| > 0 then Lower(Trim(row.values[0])) else [] }

  type Parser = Row -> Option<Device>
  type Keyer = Row -> Text

  const PARSED: Parser := row => Parsed(row)
  const KEY: Keyer := row => Key(row)

  /** The first n rows describe devices, no two of them the same. */
  ghost predicate GoodUpTo(parse: Parser, key: Keyer, rows: seq<Row>, n: nat)
    requires n <= |rows|
  {
    && (forall k :: 0 <= k < n ==> parse(rows[k]).Some?)
    && (forall j, k :: 0 <= j < k < n ==> key(rows[j]) != key(rows[k]))
  }

  ghost predicate Describe(parse: Parser, devices: seq<Device>, rows: seq<Row>) {
    |devices| == |rows| && forall k :: 0 <= k < |rows| ==> parse(rows[k]) == Some(devices[k])
  }

  /** The row loop: a row is refused for its own values or for a device named before. */
  method CheckRows(parse: Parser, key: Keyer, rows: seq<Row>) returns (r: Result<seq<Device>, nat>)
    ensures r.Ok? <==> GoodUpTo(parse, key, rows, |rows|)
    ensures r.Ok? ==> Describe(parse, r.value, rows)
    ensures r.Err? ==> r.error < |rows| && GoodUpTo(parse, key, rows, r.error) && !GoodUpTo(parse, key, rows, r.error + 1)
  {
    var devices: seq<Device>, seen: set<Text>, i := [], {}, 0;
    while i < |rows|
      invariant 0 <= i <= |rows|
      invariant GoodUpTo(parse, key, rows, i)
      invariant seen == set k | 0 <= k < i :: key(rows[k])
      invariant |devices| == i && forall k :: 0 <= k < i ==> parse(rows[k]) == Some(devices[k])
    {
      var device := parse(rows[i]);
      if device.None? || key(rows[i]) in seen { return Err(i); }
      seen := seen + {key(rows[i])};
      devices := devices + [device.value];
      i := i + 1;
    }
    r := Ok(devices);
  }

  ghost predicate GoodSheet(header: seq<Text>, rows: seq<Row>) {
    rows != [] && rows[0].values == header && 1 <= |rows| - 1 <= 100 && GoodUpTo(PARSED, KEY, rows[1..], |rows| - 1)
  }

  /** Which part of a sheet an import error blames. */
  ghost predicate Blames(e: ImportError, header: seq<Text>, lexed: Result<seq<Row>, CsvError>) {
    match e
    case Csv(error) => lexed == Err(error)
    case WrongHeader => lexed.Ok? && (lexed.value == [] || lexed.value[0].values != header)
    case WrongCount => lexed.Ok? && !(1 <= |lexed.value| - 1 <= 100)
    case BadRow(line) => lexed.Ok? && lexed.value != [] && exists k :: FirstBad(lexed.value[1..], k, line)
  }

  ghost predicate FirstBad(rows: seq<Row>, k: nat, line: nat) {
    k < |rows| && rows[k].line == line && GoodUpTo(PARSED, KEY, rows, k) && !GoodUpTo(PARSED, KEY, rows, k + 1)
  }

  /** The header check and the row loop. */
  method ParseRows(header: seq<Text>, sheet: seq<Row>) returns (r: Result<seq<Device>, ImportError>)
    ensures r.Ok? <==> GoodSheet(header, sheet)
    ensures r.Ok? ==> Describe(PARSED, r.value, sheet[1..])
    ensures r.Err? ==> Blames(r.error, header, Ok(sheet))
  {
    if |sheet| == 0 || sheet[0].values != header { return Err(WrongHeader); }
    var rows := sheet[1..];
    if |rows| == 0 || |rows| > MAX_ROWS { return Err(WrongCount); }
    var checked := CheckRows(PARSED, KEY, rows);
    if checked.Err? {
      assert FirstBad(rows, checked.error, rows[checked.error].line);
      return Err(BadRow(rows[checked.error].line));
    }
    r := Ok(checked.value);
  }

  method ParseDeviceCsv(source: Text) returns (r: Result<seq<Device>, ImportError>)
    ensures r.Ok? <==> Lex(StripBom(source), FIRST).Ok? && GoodSheet(Header(), Lex(StripBom(source), FIRST).value)
    ensures r.Ok? ==> Describe(PARSED, r.value, Lex(StripBom(source), FIRST).value[1..])
    ensures r.Err? ==> Blames(r.error, Header(), Lex(StripBom(source), FIRST))
  {
    var read := ReadRows(source);
    if read.Err? { return Err(Csv(read.error)); }
    r := ParseRows(Header(), read.value);
  }

  // ------------------------------------------------------ what a row of values means

  lemma {:induction false} AsciiExactly(s: string)
    requires forall k :: 0 <= k < |s| ==> s[k] < 128 as char
    ensures |Ascii(s)| == |s| && forall k :: 0 <= k < |s| ==> Ascii(s)[k] == s[k] as int
  {
    if s != "" { AsciiExactly(s[1..]); }
  }

  function Digits(n: nat): (t: Text)
    ensures |t| > 0 && forall k :: 0 <= k < |t| ==> IsDigit(t[k])
  {
    if n < 10 then [48 + n] else Digits(n / 10) + [48 + n % 10]
  }

  lemma {:induction false} NumeralOfDigits(n: nat)
    ensures Numeral(Digits(n)) == Some(n)
  {
    if n >= 10 {
      NumeralOfDigits(n / 10);
      var t := Digits(n);
      assert t[..|t| - 1] == Digits(n / 10);
    }
  }

  /** The value of a numeral, most significant digit first. */
  function Value(t: Text): nat
    requires forall k :: 0 <= k < |t| ==> 48 <= t[k] <= 57
  {
    if t == [] then 0 else 10 * Value(t[..|t| - 1]) + (t[|t| - 1] - 48)
  }

  /** Numerals are exactly the non-empty texts of digits. */
  lemma {:induction false} NumeralExactly(t: Text)
    ensures Numeral(t).Some? <==> t != [] && forall k :: 0 <= k < |t| ==> 48 <= t[k] <= 57
    ensures Numeral(t).Some? ==> Numeral(t).value == Value(t)
  {
    if |t| > 1 {
      NumeralExactly(t[..|t| - 1]);
      assert forall k :: 0 <= k < |t| - 1 ==> t[..|t| - 1][k] == t[k];
    } else if |t| == 1 {
      assert t[..0] == [];
    }
  }

  lemma {:induction false} EveryExactly(t: Text, p: Unit -> bool)
    ensures Every(t, p) <==> forall k :: 0 <= k < |t| ==> p(t[k])
  {
    if t != [] {
      EveryExactly(t[1..], p);
      assert forall k :: 0 < k < |t| ==> t[k] == t[1..][k - 1];
      assert forall k :: 0 <= k < |t[1..]| ==> t[1..][k] == t[k + 1];
    }
  }

  /** What an importable device is. */
  ghost predicate GoodDevice(d: Device) {
    && 8 <= |d.deviceId| <= 32
    && (forall k :: 0 <= k < |d.deviceId| ==>
         var u := d.deviceId[k]; 65 <= u <= 90 || 97 <= u <= 122 || 48 <= u <= 57 || u == 45 || u == 95)
    && 0 < d.vendor <= 9007199254740991 && 0 < d.station <= 9007199254740991 && 0 < d.ports <= 255
    && (d.model.Some? ==>
         && d.model.value != [] && Trim(d.model.value) == d.model.value && CodePoints(d.model.value) <= 128
         && forall k :: 0 <= k < |d.model.value| ==> 32 <= d.model.value[k] && !(127 <= d.model.value[k] <= 159))
  }

  lemma TrimmedStays(t: Text)
    ensures Trim(Trim(t)) == Trim(t)
  {
    var i, j := TrimExactly(t);
    NothingToTrim(Trim(t));
  }

  lemma NothingToTrim(t: Text)
    requires t == [] || (!IsSpace(t[0]) && !IsSpace(t[|t| - 1]))
    ensures Trim(t) == t
  {}

  /** A row yields a device exactly if it has five cells that, trimmed, are an importable device's ID, vendor, station, ports and model. */
  lemma ParsedExactly(row: Row, d: Device)
    ensures Parsed(row) == Some(d) <==>
      && |row.values| == 5 && GoodDevice(d)
      && Trim(row.values[0]) == d.deviceId
      && Numeral(Trim(row.values[1])) == Some(d.vendor)
      && Numeral(Trim(row.values[2])) == Some(d.station)
      && Numeral(Trim(row.values[3])) == Some(d.ports)
      && Trim(row.values[4]) == if d.model.Some? then d.model.value else []
  {
    if |row.values| == 5 {
      EveryExactly(Trim(row.values[0]), IsIdUnit);
      EveryExactly(Trim(row.values[4]), Visible);
      TrimmedStays(row.values[4]);
    }
  }

  /** The cells that describe a device. */
  function CellsOf(d: Device): seq<Text> {
    [d.deviceId, Digits(d.vendor), Digits(d.station), Digits(d.ports), if d.model.Some? then d.model.value else []]
  }

  /** Every importable device survives being written into a row and read back. */
  lemma DeviceRoundTrip(d: Device, line: nat)
    requires GoodDevice(d)
    ensures Parsed(Row(CellsOf(d), line)) == Some(d)
  {
    NothingToTrim(d.deviceId);
    NothingToTrim(Digits(d.vendor));
    NothingToTrim(Digits(d.station));
    NothingToTrim(Digits(d.ports));
    NumeralOfDigits(d.vendor);
    NumeralOfDigits(d.station);
    NumeralOfDigits(d.ports);
    if d.model.None? { NothingToTrim([]); }
    ParsedExactly(Row(CellsOf(d), line), d);
  }

  lemma {:induction false} LowerAt(t: Text)
    ensures |Lower(t)| == |t|
    ensures forall k :: 0 <= k < |t| ==> Lower(t)[k] == if 65 <= t[k] <= 90 then t[k] + 32 else t[k]
  {
    if t != [] {
      LowerAt(t[1..]);
      assert forall k :: 0 < k < |t| ==> t[k] == t[1..][k - 1];
    }
  }

  predicate IsUpper(u: Unit) { 65 <= u <= 90 }

  /** Two units that are the same letter in either case, or the same. */
  predicate SameLetter(u: Unit, v: Unit) { u == v || (IsUpper(u) && v == u + 32) || (IsUpper(v) && u == v + 32) }

  /** Two devices count as the same exactly if their IDs differ in the case of letters at most. */
  lemma KeyExactly(r: Row, s: Row)
    requires |r.values| > 0 && |s.values| > 0
    ensures var a, b := Trim(r.values[0]), Trim(s.values[0]);
      Key(r) == Key(s) <==> |a| == |b| && forall k :: 0 <= k < |a| ==> SameLetter(a[k], b[k])
  {
    var a, b := Trim(r.values[0]), Trim(s.values[0]);
    LowerAt(a);
    LowerAt(b);
    if Lower(a) == Lower(b) {
      forall k | 0 <= k < |a| ensures SameLetter(a[k], b[k]) { assert Lower(a)[k] == Lower(b)[k]; }
    }
  }

  /** The UTF-16 form of a text given by code points. */
  function Utf16(points: seq<nat>): Text
    requires forall k :: 0 <= k < |points| ==> points[k] < 0x11_0000 && !(0xd800 <= points[k] < 0xe000)
  {
    if points == [] then []
    else
      var p := points[0];
      (if p < 0x1_0000 then [p] else [0xd800 + (p - 0x1_0000) / 0x400, 0xdc00 + (p - 0x1_0000) % 0x400]) + Utf16(points[1..])
  }

  /** A model's length is counted in code points. */
  lemma {:induction false} CodePointsExactly(points: seq<nat>)
    requires forall k :: 0 <= k < |points| ==> points[k] < 0x11_0000 && !(0xd800 <= points[k] < 0xe000)
    ensures CodePoints(Utf16(points)) == |points|
  {
    if points != [] {
      CodePointsExactly(points[1..]);
      var p, t := points[0], Utf16(points);
      if p < 0x1_0000 {
        assert t[0] == p && t[1..] == Utf16(points[1..]);
      } else {
        assert 0xd800 <= t[0] < 0xdc00 && 0xdc00 <= t[1] < 0xe000 && t[2..] == Utf16(points[1..]);
      }
    }
  }
}
