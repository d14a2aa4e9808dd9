/** The header half of trunk/windenergytk/file_ops.py: the text normaliser
    `sanitize` and `parse_meta`, which turns the header lines of a
    datalogger file into the metadata dictionary. Python's `float()` on a
    text is the parameter `parseReal`. */
module MetaParser {
  import opened Wrappers
  import opened Text
  import opened PyValues

  // ---------------------------------------------------------------------
  // sanitize

  /** `sanitize(a_string)`: strip, lower-case, then `int()` if that succeeds. */
  function Sanitize(s: string): (r: Value)
    ensures r.Text? ==> r.s == Lower(Strip(s)) && ParseInt(r.s).None?
    ensures r.Int? ==> ParseInt(Lower(Strip(s))) == Some(r.i)
  {
    var t := Lower(Strip(s));
    match ParseInt(t)
    case Some(n) => Int(n)
    case None => Text(t)
  }

  lemma LowerKeepsEnds(t: string)
    requires t == [] || (!IsSpace(t[0]) && !IsSpace(t[|t| - 1]))
    ensures var l := Lower(t); l == [] || (!IsSpace(l[0]) && !IsSpace(l[|l| - 1]))
  {
  }

  /** A text result has no surrounding whitespace and no ASCII capital. */
  lemma SanitizeTextShape(s: string)
    requires Sanitize(s).Text?
    ensures var t := Sanitize(s).s;
      (t == [] || (!IsSpace(t[0]) && !IsSpace(t[|t| - 1]))) &&
      forall i :: 0 <= i < |t| ==> !('A' <= t[i] <= 'Z')
  {
    var u := Strip(s);
    var t := Lower(u);
    assert Sanitize(s).s == t;
    StripEnds(s);
    LowerKeepsEnds(u);
  }

  /** `sanitize` is idempotent on its text results. */
  lemma SanitizeIdempotent(s: string)
    requires Sanitize(s).Text?
    ensures Sanitize(Sanitize(s).s) == Sanitize(s)
  {
    var t := Sanitize(s).s;
    SanitizeTextShape(s);
    StripNoop(t);
    LowerIdempotent(Strip(s));
  }

  /** Lower-casing leaves a text of digits and a minus sign alone. */
  lemma LowerDecimal(n: int)
    ensures Lower(DecimalString(n)) == DecimalString(n)
  {
    var d := DecimalString(n);
    NatStringValue(if n < 0 then -n else n);
    forall i | 0 <= i < |d|
      ensures !('A' <= d[i] <= 'Z')
    {
      if n < 0 && i > 0 {
        assert d[i] == NatString(-n)[i - 1];
      }
    }
  }

  /** `str(n)` neither starts nor ends with whitespace. */
  lemma DecimalEnds(n: int)
    ensures var d := DecimalString(n); |d| >= 1 && !IsSpace(d[0]) && !IsSpace(d[|d| - 1])
  {
    var d := DecimalString(n);
    NatStringValue(if n < 0 then -n else n);
    if n < 0 {
      assert d[|d| - 1] == NatString(-n)[|NatString(-n)| - 1];
    }
  }

  /** An integer literal, with any whitespace around it, becomes that integer. */
  lemma SanitizeDecimal(n: int, pad: string, pad': string)
    requires forall i :: 0 <= i < |pad| ==> IsSpace(pad[i])
    requires forall i :: 0 <= i < |pad'| ==> IsSpace(pad'[i])
    ensures Sanitize(pad + DecimalString(n) + pad') == Int(n)
  {
    var d := DecimalString(n);
    DecimalEnds(n);
    StripPadded(pad, d, pad');
    LowerDecimal(n);
    DecimalParses(n);
    SanitizeOfInt(pad + d + pad', d, n);
  }

  lemma DecimalParses(n: int)
    ensures ParseInt(DecimalString(n)) == Some(n)
  {
    ParseIntDecimal(n, "", "");
    assert "" + DecimalString(n) + "" == DecimalString(n);
  }

  lemma SanitizeOfInt(s: string, d: string, n: int)
    requires Strip(s) == d && Lower(d) == d && ParseInt(d) == Some(n)
    ensures Sanitize(s) == Int(n)
  {
  }

  /** `sanitize` on every piece, as the source's loop does in place. */
  function SanitizeAll(parts: seq<string>): (r: seq<Value>)
    ensures |r| == |parts|
  {
    if |parts| == 0 then [] else SanitizeAll(parts[..|parts| - 1]) + [Sanitize(parts[|parts| - 1])]
  }

  lemma {:induction false} SanitizeAllAt(parts: seq<string>, i: nat)
    requires i < |parts|
    ensures SanitizeAll(parts)[i] == Sanitize(parts[i])
    decreases |parts|
  {
    if i < |parts| - 1 {
      SanitizeAllAt(parts[..|parts| - 1], i);
    }
  }

  // ---------------------------------------------------------------------
  // parse_meta: the metadata record and the key classifier

  /** A scalar header field: `False` until a line sets it. */
  datatype Field = Unset | Given(v: Value)

  /** The dictionary `parse_meta` builds, one component per key; `coords`
      is the pair `latitude`, `longitude` of optional numbers. */
  datatype Meta = Meta(
    siteName: Field,
    location: Field,
    latitude: Option<real>,
    longitude: Option<real>,
    timezone: Field,
    elevation: Field,
    timeStep: Field,
    loggerSampling: Field,
    timePeriod: Field,
    collector: Field,
    reportCreated: Field,
    sensors: map<int, SensorValues>,
    filters: map<Value, int>,
    comments: Field)

  /** The sanitised values of one sensor line: at most one per field name. */
  type SensorValues = s: seq<Value> | |s| <= 5 witness []

  /** The dictionary `parse_meta` starts from. */
  const Defaults: Meta := Meta(Unset, Unset, None, None, Unset, Unset, Unset, Unset,
                               Unset, Unset, Unset, map[], map[], Unset)

  /** The branch of the `if`/`elif` chain a header line takes. */
  datatype Kind =
    | SiteName | Location | Latitude | Longitude | TimeZone | Elevation | TimeStep
    | LoggerSampling | TimePeriod | Collector | ReportCreated | Comments
    | Sensor | Filter | Other

  /** `line_key[:2] == "-9"`. */
  predicate IsFilterKey(key: string) {
    |key| >= 2 && key[..2] == "-9"
  }

  /** The `elif` chain on a text key: the first containment test that holds
      decides; the "-9" prefix test comes last. */
  function Classify(key: string): Kind {
    if Contains(key, "site name") then SiteName
    else if Contains(key, "location") then Location
    else if Contains(key, "latitude") then Latitude
    else if Contains(key, "longitude") then Longitude
    else if Contains(key, "time zone") then TimeZone
    else if Contains(key, "elevation") then Elevation
    else if Contains(key, "time step of data") then TimeStep
    else if Contains(key, "logger sample interval") then LoggerSampling
    else if Contains(key, "report time period") then TimePeriod
    else if Contains(key, "data collection by") then Collector
    else if Contains(key, "report generated") then ReportCreated
    else if Contains(key, "comments") then Comments
    else if Contains(key, "sensor #") then Sensor
    else if IsFilterKey(key) then Filter
    else Other
  }

  /** The containment tests as a table, in source order: the reference
      against which the chain is checked. */
  const KeyTests: seq<(string, Kind)> := [
    ("site name", SiteName),
    ("location", Location),
    ("latitude", Latitude),
    ("longitude", Longitude),
    ("time zone", TimeZone),
    ("elevation", Elevation),
    ("time step of data", TimeStep),
    ("logger sample interval", LoggerSampling),
    ("report time period", TimePeriod),
    ("data collection by", Collector),
    ("report generated", ReportCreated),
    ("comments", Comments),
    ("sensor #", Sensor)
  ]

  /** The first test from `j` on whose text occurs in `key`. */
  function MatchFrom(key: string, j: nat): (i: nat)
    requires j <= |KeyTests|
    ensures j <= i <= |KeyTests|
    ensures i < |KeyTests| ==> Contains(key, KeyTests[i].0)
    ensures forall k :: j <= k < i ==> !Contains(key, KeyTests[k].0)
    decreases |KeyTests| - j
  {
    if j == |KeyTests| then j
    else if Contains(key, KeyTests[j].0) then j
    else MatchFrom(key, j + 1)
  }

  /** The position of a branch in the chain. */
  function Rank(k: Kind): nat {
    match k
    case SiteName => 0 case Location => 1 case Latitude => 2 case Longitude => 3
    case TimeZone => 4 case Elevation => 5 case TimeStep => 6 case LoggerSampling => 7
    case TimePeriod => 8 case Collector => 9 case ReportCreated => 10 case Comments => 11
    case Sensor => 12 case Filter => 13 case Other => 14
  }

  lemma KeyTestsRanked(i: nat)
    requires i < |KeyTests|
    ensures Rank(KeyTests[i].1) == i
  {
  }

  lemma MatchLate(key: string)
    ensures MatchFrom(key, 6) ==
      if Contains(key, "time step of data") then 6
      else if Contains(key, "logger sample interval") then 7
      else if Contains(key, "report time period") then 8
      else if Contains(key, "data collection by") then 9
      else if Contains(key, "report generated") then 10
      else if Contains(key, "comments") then 11
      else if Contains(key, "sensor #") then 12
      else 13
  {
    assert MatchFrom(key, 6) == if Contains(key, "time step of data") then 6 else MatchFrom(key, 7);
    assert MatchFrom(key, 7) == if Contains(key, "logger sample interval") then 7 else MatchFrom(key, 8);
    assert MatchFrom(key, 8) == if Contains(key, "report time period") then 8 else MatchFrom(key, 9);
    assert MatchFrom(key, 9) == if Contains(key, "data collection by") then 9 else MatchFrom(key, 10);
    assert MatchFrom(key, 10) == if Contains(key, "report generated") then 10 else MatchFrom(key, 11);
    assert MatchFrom(key, 11) == if Contains(key, "comments") then 11 else MatchFrom(key, 12);
    assert MatchFrom(key, 12) == if Contains(key, "sensor #") then 12 else MatchFrom(key, 13);
  }

  /** The chain is the first-match search over the table. */
  lemma ClassifyByTable(key: string)
    ensures var i := MatchFrom(key, 0);
      Classify(key) == if i < |KeyTests| then KeyTests[i].1 else if IsFilterKey(key) then Filter else Other
  {
    MatchEarly(key);
    if MatchFrom(key, 0) == MatchFrom(key, 6) {
      LateByTable(key);
    }
  }

  lemma LateByTable(key: string)
    requires !Contains(key, "site name") && !Contains(key, "location") && !Contains(key, "latitude")
    requires !Contains(key, "longitude") && !Contains(key, "time zone") && !Contains(key, "elevation")
    ensures var i := MatchFrom(key, 6);
      Classify(key) == if i < |KeyTests| then KeyTests[i].1 else if IsFilterKey(key) then Filter else Other
  {
    MatchLate(key);
  }

  lemma MatchEarly(key: string)
    ensures MatchFrom(key, 0) ==
      if Contains(key, "site name") then 0
      else if Contains(key, "location") then 1
      else if Contains(key, "latitude") then 2
      else if Contains(key, "longitude") then 3
      else if Contains(key, "time zone") then 4
      else if Contains(key, "elevation") then 5
      else MatchFrom(key, 6)
  {
    assert MatchFrom(key, 0) == if Contains(key, "site name") then 0 else MatchFrom(key, 1);
    assert MatchFrom(key, 1) == if Contains(key, "location") then 1 else MatchFrom(key, 2);
    assert MatchFrom(key, 2) == if Contains(key, "latitude") then 2 else MatchFrom(key, 3);
    assert MatchFrom(key, 3) == if Contains(key, "longitude") then 3 else MatchFrom(key, 4);
    assert MatchFrom(key, 4) == if Contains(key, "time zone") then 4 else MatchFrom(key, 5);
    assert MatchFrom(key, 5) == if Contains(key, "elevation") then 5 else MatchFrom(key, 6);
  }

  /** A key takes branch `i` exactly when test `i` matches and no earlier one does. */
  lemma ClassifyFirstMatch(key: string, i: nat)
    requires i < |KeyTests|
    ensures Classify(key) == KeyTests[i].1 <==>
      Contains(key, KeyTests[i].0) && forall j :: 0 <= j < i ==> !Contains(key, KeyTests[j].0)
  {
    ClassifyByTable(key);
    var m := MatchFrom(key, 0);
    KeyTestsRanked(i);
    if m < |KeyTests| {
      KeyTestsRanked(m);
    }
  }

  /** A key no test matches is a filter exactly when it starts with "-9". */
  lemma ClassifyFallThrough(key: string)
    ensures Classify(key) == Filter <==>
      (forall j :: 0 <= j < |KeyTests| ==> !Contains(key, KeyTests[j].0)) && IsFilterKey(key)
    ensures Classify(key) == Other <==>
      (forall j :: 0 <= j < |KeyTests| ==> !Contains(key, KeyTests[j].0)) && !IsFilterKey(key)
  {
    ClassifyByTable(key);
    var m := MatchFrom(key, 0);
    if m < |KeyTests| {
      KeyTestsRanked(m);
    }
  }

  /** The errors `parse_meta` raises (and, below, those of the later stages
      of `parse_file`). */
  datatype ParseError =
    | KeyNotText          // `"site name" in line_key` on an integer key: TypeError
    | NotANumber          // `float(line_values)` on a coordinate: ValueError
    | BadSensorNumber     // `int()` of the text after '#': ValueError
    | ValuesNotText       // `line_values.split(",")` on an integer: AttributeError
    | TooManySensorFields // `fields[index]` past the fifth value: IndexError
    | BadFilterLine       // the filter key is not exactly "value,name": ValueError
    | BadFilterValue      // `int(filter_value)` on a text: ValueError
    | NoRows              // `timeseries[0]` of an empty table: IndexError
    | MissingSensors      // `meta_dict.pop('sensors')` without the key: KeyError
    | NoSuchColumn(n: int) // `meta_ts_dict[sensor_number]` without that column: KeyError

  // ---------------------------------------------------------------------
  // parse_meta: one line

  /** The sanitised key and value of a header line, split at its first ':'. */
  function LineKey(line: string): Value {
    Sanitize(Partition(line, ':').0)
  }

  function LineValue(line: string): Value {
    Sanitize(Partition(line, ':').1)
  }

  /** A line splits at its first ':' only; without one, the whole line is
      the key and the value is empty. */
  lemma LineSplit(line: string)
    ensures ':' in line ==>
      exists k, v :: line == k + ":" + v && ':' !in k && LineKey(line) == Sanitize(k) && LineValue(line) == Sanitize(v)
    ensures ':' !in line ==> LineKey(line) == Sanitize(line) && LineValue(line) == Text("")
  {
    var p := Partition(line, ':');
    if ':' in line {
      assert line == p.0 + ":" + p.1 && ':' !in p.0;
      assert LineKey(line) == Sanitize(p.0) && LineValue(line) == Sanitize(p.1);
    } else {
      assert Strip("") == "" && Lower("") == "";
      assert ParseInt("").None?;
    }
  }

  /** `float(line_values)`. */
  function ToReal(v: Value, parseReal: string -> Option<real>): Option<real> {
    match v
    case Int(i) => Some(i as real)
    case Text(s) => parseReal(s)
  }

  /** The item names of a sensor line, in order. */
  const SensorFields: seq<string> := ["name", "type", "designation", "meters_above_ground", "units"]

  /** The dictionary of one sensor: value `i` under `SensorFields[i]`. */
  function SensorRecord(values: SensorValues): map<string, Value> {
    if |values| == 0 then map[]
    else SensorRecord(values[..|values| - 1])[SensorFields[|values| - 1] := values[|values| - 1]]
  }

  lemma {:induction false} SensorRecordFields(values: SensorValues)
    ensures SensorRecord(values).Keys == set i | 0 <= i < |values| :: SensorFields[i]
    ensures forall i :: 0 <= i < |values| ==> SensorRecord(values)[SensorFields[i]] == values[i]
    decreases |values|
  {
    if |values| > 0 {
      var n := |values| - 1;
      var prev := values[..n];
      SensorRecordFields(prev);
      FieldsDistinct(n);
      assert SensorRecord(values) == SensorRecord(prev)[SensorFields[n] := values[n]];
      assert (set i | 0 <= i < |values| :: SensorFields[i]) == (set i | 0 <= i < n :: SensorFields[i]) + {SensorFields[n]};
      forall i | 0 <= i < |values| ensures SensorRecord(values)[SensorFields[i]] == values[i] {
        if i < n {
          assert prev[i] == values[i];
        }
      }
    }
  }

  /** The item names are pairwise distinct. */
  lemma FieldsDistinct(n: nat)
    requires n < |SensorFields|
    ensures forall i :: 0 <= i < n ==> SensorFields[i] != SensorFields[n]
  {
  }

  /** A sensor's dictionary is empty exactly when its line had no values. */
  lemma SensorRecordEmpty(values: SensorValues)
    ensures |SensorRecord(values)| == 0 <==> |values| == 0
  {
    if |values| > 0 {
      SensorRecordFields(values);
      assert SensorFields[0] in SensorRecord(values);
    }
  }

  /** The sensor branch: `sensors[N]` for a key "... #N". */
  function ApplySensor(m: Meta, key: string, val: Value): Result<Meta, ParseError> {
    var hash := Find(key, '#');
    match ParseInt(key[hash + 1..])
    case None => Err(BadSensorNumber)
    case Some(n) => StoreSensor(m, n, val)
  }

  /** The rest of the sensor branch once the number `n` is known. */
  function StoreSensor(m: Meta, n: int, val: Value): Result<Meta, ParseError> {
    if val.Int? then Err(ValuesNotText)
    else
      var values := SanitizeAll(Split(val.s, ','));
      if |values| > |SensorFields| then Err(TooManySensorFields)
      else Ok(m.(sensors := m.sensors[n := values]))
  }

  /** The filter branch: a key "value,name" stores `filters[name] = value`. */
  function ApplyFilter(m: Meta, key: string): Result<Meta, ParseError> {
    var parts := Split(key, ',');
    if |parts| != 2 then Err(BadFilterLine)
    else
      match Sanitize(parts[0])
      case Int(v) => Ok(m.(filters := m.filters[Sanitize(parts[1]) := v]))
      case Text(_) => Err(BadFilterValue)
  }

  /** One round of the loop of `parse_meta`, on the sanitised key and value. */
  function ApplyEntry(m: Meta, key: Value, val: Value, parseReal: string -> Option<real>): Result<Meta, ParseError> {
    match key
    case Int(_) => Err(KeyNotText)
    case Text(k) => ApplyBranch(m, Classify(k), k, val, parseReal)
  }

  /** The body of branch `kind` of the chain for the text key `k`. */
  function ApplyBranch(m: Meta, kind: Kind, k: string, val: Value, parseReal: string -> Option<real>): Result<Meta, ParseError> {
    match kind
    case SiteName => Ok(m.(siteName := Given(val)))
    case Location => Ok(m.(location := Given(val)))
    case Latitude =>
      (match ToReal(val, parseReal)
       case None => Err(NotANumber)
       case Some(x) => Ok(m.(latitude := Some(if Contains(k, "[s]") then -x else x))))
    case Longitude =>
      (match ToReal(val, parseReal)
       case None => Err(NotANumber)
       case Some(x) => Ok(m.(longitude := Some(if Contains(k, "[w]") then -x else x))))
    case TimeZone => Ok(m.(timezone := Given(val)))
    case Elevation => Ok(m.(elevation := Given(val)))
    case TimeStep => Ok(m.(timeStep := Given(val)))
    case LoggerSampling => Ok(m.(loggerSampling := Given(val)))
    case TimePeriod => Ok(m.(timePeriod := Given(val)))
    case Collector => Ok(m.(collector := Given(val)))
    case ReportCreated => Ok(m.(reportCreated := Given(val)))
    case Comments => Ok(m.(comments := Given(val)))
    case Sensor => ApplySensor(m, k, val)
    case Filter => ApplyFilter(m, k)
    case Other => Ok(m)
  }

  /** A header line, split at its first ':' with both halves sanitised. */
  datatype Entry = Entry(key: Value, val: Value)

  function LineEntry(line: string): Entry {
    Entry(LineKey(line), LineValue(line))
  }

  /** The entries of the header lines, in order. */
  function Entries(lines: seq<string>): (es: seq<Entry>)
    ensures |es| == |lines|
  {
    seq(|lines|, i requires 0 <= i < |lines| => LineEntry(lines[i]))
  }

  /** The loop of `parse_meta` on the entries: each applied in order, the
      first error aborting. */
  function ParseEntries(es: seq<Entry>, parseReal: string -> Option<real>): Result<Meta, ParseError>
    decreases |es|
  {
    if |es| == 0 then Ok(Defaults)
    else
      match ParseEntries(es[..|es| - 1], parseReal)
      case Err(e) => Err(e)
      case Ok(m) => ApplyEntry(m, es[|es| - 1].key, es[|es| - 1].val, parseReal)
  }

  /** `parse_meta(lines)`. */
  function ParseMetaSpec(lines: seq<string>, parseReal: string -> Option<real>): Result<Meta, ParseError> {
    ParseEntries(Entries(lines), parseReal)
  }

  // ---------------------------------------------------------------------
  // parse_meta: the loop

  lemma {:induction false} ParseEntriesErrorStays(es: seq<Entry>, j: nat, parseReal: string -> Option<real>)
    requires j <= |es| && ParseEntries(es[..j], parseReal).Err?
    ensures ParseEntries(es, parseReal) == ParseEntries(es[..j], parseReal)
    decreases |es| - j
  {
    if j < |es| {
      assert es[..j + 1][..j] == es[..j];
      ParseEntriesErrorStays(es, j + 1, parseReal);
    } else {
      assert es[..j] == es;
    }
  }

  lemma ParseEntriesStep(es: seq<Entry>, i: nat, m: Meta, parseReal: string -> Option<real>)
    requires i < |es| && ParseEntries(es[..i], parseReal) == Ok(m)
    ensures ParseEntries(es[..i + 1], parseReal) == ApplyEntry(m, es[i].key, es[i].val, parseReal)
  {
    assert es[..i + 1][..i] == es[..i];
  }

  /** `sanitize` on every comma-separated piece of a sensor line. */
  method SanitizeValues(values: seq<string>) returns (clean: seq<Value>)
    ensures clean == SanitizeAll(values)
  {
    clean := [];
    var k := 0;
    while k < |values|
      invariant 0 <= k <= |values|
      invariant clean == SanitizeAll(values[..k])
    {
      assert values[..k + 1][..k] == values[..k];
      clean := clean + [Sanitize(values[k])];
      k := k + 1;
    }
    assert values[..k] == values;
  }

  /** The sensor's dictionary, field by field; a sixth value has no field
      name, which is an IndexError. */
  method FillSensor(clean: seq<Value>) returns (record: Option<map<string, Value>>)
    ensures record.None? <==> |clean| > |SensorFields|
    ensures record.Some? ==> record.value == SensorRecord(clean)
  {
    var fields: map<string, Value> := map[];
    var j := 0;
    while j < |clean|
      invariant 0 <= j <= |clean| && j <= |SensorFields|
      invariant fields == SensorRecord(clean[..j])
    {
      if j >= |SensorFields| {
        return None;
      }
      assert clean[..j + 1][..j] == clean[..j];
      fields := fields[SensorFields[j] := clean[j]];
      j := j + 1;
    }
    assert clean[..j] == clean;
    record := Some(fields);
  }

  /** The sensor branch with the source's two loops; `record` is the
      dictionary now stored under the sensor's number. */
  method SensorBranch(m: Meta, key: string, val: Value) returns (r: Result<Meta, ParseError>, record: map<string, Value>)
    ensures r == ApplySensor(m, key, val)
    ensures r.Ok? ==> var n := ParseInt(key[Find(key, '#') + 1..]).value;
      n in r.value.sensors && record == SensorRecord(r.value.sensors[n])
  {
    record := map[];
    SensorErrors(m, key, val);
    var number := ParseInt(key[Find(key, '#') + 1..]);
    if number.None? {
      return Err(BadSensorNumber), record;
    }
    if val.Int? {
      return Err(ValuesNotText), record;
    }
    SensorEntry(m, key, val.s, number.value);
    var clean := SanitizeValues(Split(val.s, ','));
    var filled := FillSensor(clean);
    if filled.None? {
      return Err(TooManySensorFields), record;
    }
    record := filled.value;
    var sensors := m.sensors[number.value := clean];
    r := Ok(m.(sensors := sensors));
  }

  lemma SensorErrors(m: Meta, key: string, val: Value)
    ensures ParseInt(key[Find(key, '#') + 1..]).None? ==> ApplySensor(m, key, val) == Err(BadSensorNumber)
    ensures ParseInt(key[Find(key, '#') + 1..]).Some? && val.Int? ==> ApplySensor(m, key, val) == Err(ValuesNotText)
  {
  }

  /** One round of the loop of `parse_meta`: the sensor branch runs the
      source's two inner loops, every other branch is one assignment. */
  method ParseLine(m: Meta, key: Value, val: Value, parseReal: string -> Option<real>) returns (next: Result<Meta, ParseError>)
    ensures next == ApplyEntry(m, key, val, parseReal)
  {
    if key.Text? && Classify(key.s) == Sensor {
      var record;
      next, record := SensorBranch(m, key.s, val);
    } else {
      next := ApplyEntry(m, key, val, parseReal);
    }
  }

  /** `parse_meta(meta_array)`: the loop over the header lines. */
  method ParseMeta(lines: seq<string>, parseReal: string -> Option<real>) returns (r: Result<Meta, ParseError>)
    ensures r == ParseMetaSpec(lines, parseReal)
  {
    ghost var es := Entries(lines);
    var m := Defaults;
    var i := 0;
    while i < |lines|
      invariant 0 <= i <= |lines|
      invariant ParseEntries(es[..i], parseReal) == Ok(m)
    {
      var key := LineKey(lines[i]);
      var val := LineValue(lines[i]);
      assert es[i] == Entry(key, val);
      ParseEntriesStep(es, i, m, parseReal);
      var next := ParseLine(m, key, val, parseReal);
      if next.Err? {
        ParseEntriesErrorStays(es, i + 1, parseReal);
        assert next == ParseEntries(es, parseReal);
        return next;
      }
      m := next.value;
      i := i + 1;
    }
    assert es[..i] == es;
    r := Ok(m);
  }

  // ---------------------------------------------------------------------
  // parse_meta: what one line does

  /** Any key that sanitises to an integer stops the parse with a TypeError. */
  lemma IntegerKeyFails(m: Meta, key: int, val: Value, parseReal: string -> Option<real>)
    ensures ApplyEntry(m, Int(key), val, parseReal) == Err(KeyNotText)
  {
  }

  /** A key no test matches leaves the dictionary as it was. */
  lemma UnmatchedKeyChangesNothing(m: Meta, key: string, val: Value, parseReal: string -> Option<real>)
    requires forall j :: 0 <= j < |KeyTests| ==> !Contains(key, KeyTests[j].0)
    requires !IsFilterKey(key)
    ensures ApplyEntry(m, Text(key), val, parseReal) == Ok(m)
  {
    ClassifyFallThrough(key);
  }

  /** "site name" is tested before "location": a key holding both is a site name. */
  lemma SiteNameBeforeLocation(m: Meta, key: string, val: Value, parseReal: string -> Option<real>)
    requires Contains(key, "site name") && Contains(key, "location")
    ensures ApplyEntry(m, Text(key), val, parseReal) == Ok(m.(siteName := Given(val)))
  {
  }

  /** Latitude is negated exactly when the key holds "[s]"; nothing else changes. */
  lemma LatitudeSign(m: Meta, key: string, val: Value, parseReal: string -> Option<real>, x: real)
    requires Classify(key) == Latitude && ToReal(val, parseReal) == Some(x)
    ensures ApplyEntry(m, Text(key), val, parseReal) ==
      Ok(m.(latitude := Some(if Contains(key, "[s]") then -x else x)))
  {
  }

  /** Longitude is negated exactly when the key holds "[w]"; nothing else changes. */
  lemma LongitudeSign(m: Meta, key: string, val: Value, parseReal: string -> Option<real>, x: real)
    requires Classify(key) == Longitude && ToReal(val, parseReal) == Some(x)
    ensures ApplyEntry(m, Text(key), val, parseReal) ==
      Ok(m.(longitude := Some(if Contains(key, "[w]") then -x else x)))
  {
  }

  /** A coordinate value `float()` rejects is an error. */
  lemma CoordinateNotANumber(m: Meta, key: string, val: Value, parseReal: string -> Option<real>)
    requires Classify(key) == Latitude || Classify(key) == Longitude
    requires ToReal(val, parseReal).None?
    ensures ApplyEntry(m, Text(key), val, parseReal) == Err(NotANumber)
  {
  }

  /** A sensor line "... #N: a,b,..." with at most five values stores
      their sanitised list under N and changes nothing else; more values
      are an error. */
  lemma SensorEntry(m: Meta, key: string, val: string, n: int)
    requires ParseInt(key[Find(key, '#') + 1..]) == Some(n)
    ensures |Split(val, ',')| > |SensorFields| ==> ApplySensor(m, key, Text(val)) == Err(TooManySensorFields)
    ensures |Split(val, ',')| <= |SensorFields| ==>
      ApplySensor(m, key, Text(val)) == Ok(m.(sensors := m.sensors[n := SanitizeAll(Split(val, ','))]))
  {
    if |Split(val, ',')| > |SensorFields| {
      SensorEntryTooMany(m, key, val, n);
    } else {
      SensorEntryStored(m, key, val, n);
    }
  }

  lemma SensorEntryTooMany(m: Meta, key: string, val: string, n: int)
    requires ParseInt(key[Find(key, '#') + 1..]) == Some(n)
    requires |Split(val, ',')| > |SensorFields|
    ensures ApplySensor(m, key, Text(val)) == Err(TooManySensorFields)
  {
    assert ApplySensor(m, key, Text(val)) == StoreSensor(m, n, Text(val));
  }

  lemma SensorEntryStored(m: Meta, key: string, val: string, n: int)
    requires ParseInt(key[Find(key, '#') + 1..]) == Some(n)
    requires |Split(val, ',')| <= |SensorFields|
    ensures ApplySensor(m, key, Text(val)) == Ok(m.(sensors := m.sensors[n := SanitizeAll(Split(val, ','))]))
  {
    var values := SanitizeAll(Split(val, ','));
    assert ApplySensor(m, key, Text(val)) == Ok(m.(sensors := m.sensors[n := values]));
  }

  /** The dictionary of such a sensor has one entry per value: the value
      sanitised, under name, type, designation, meters_above_ground and
      units, in that order. */
  lemma SensorDictionary(parts: seq<string>)
    requires |parts| <= |SensorFields|
    ensures var d := SensorRecord(SanitizeAll(parts));
      d.Keys == (set i | 0 <= i < |parts| :: SensorFields[i]) &&
      forall i :: 0 <= i < |parts| ==> d[SensorFields[i]] == Sanitize(parts[i])
  {
    var values := SanitizeAll(parts);
    SensorRecordFields(values);
    forall i | 0 <= i < |parts| ensures values[i] == Sanitize(parts[i]) {
      SanitizeAllAt(parts, i);
    }
  }

  /** A sensor line whose value is an integer is an error. */
  lemma SensorValuesNotText(m: Meta, key: string, val: int, parseReal: string -> Option<real>)
    requires Classify(key) == Sensor
    requires ParseInt(key[Find(key, '#') + 1..]).Some?
    ensures ApplyEntry(m, Text(key), Int(val), parseReal) == Err(ValuesNotText)
  {
    var n := ParseInt(key[Find(key, '#') + 1..]).value;
    assert ApplyEntry(m, Text(key), Int(val), parseReal) == ApplySensor(m, key, Int(val));
    assert ApplySensor(m, key, Int(val)) == StoreSensor(m, n, Int(val));
  }

  /** A key starting "-9" must be "value,name" with an integer value; it
      stores `filters[name] = value` and nothing else. */
  lemma FilterEntry(m: Meta, key: string, val: Value, parseReal: string -> Option<real>)
    requires Classify(key) == Filter
    ensures var parts := Split(key, ',');
      var r := ApplyEntry(m, Text(key), val, parseReal);
      (|parts| != 2 ==> r == Err(BadFilterLine)) &&
      (|parts| == 2 && Sanitize(parts[0]).Text? ==> r == Err(BadFilterValue)) &&
      (|parts| == 2 && Sanitize(parts[0]).Int? ==>
        r == Ok(m.(filters := m.filters[Sanitize(parts[1]) := Sanitize(parts[0]).i])))
  {
  }

  // ---------------------------------------------------------------------
  // parse_meta: the dictionary it returns

  /** The keys of the metadata dictionary. */
  datatype Key =
    | SiteNameKey | LocationKey | CoordsKey | TimezoneKey | ElevationKey | TimeStepKey
    | LoggerSamplingKey | TimePeriodKey | CollectorKey | ReportCreatedKey | SensorsKey
    | FiltersKey | CommentsKey

  function FieldItem(f: Field): Item {
    match f
    case Unset => Flag(false)
    case Given(v) => Val(v)
  }

  /** `coords` holds only the coordinates that were read. */
  function CoordsMap(m: Meta): map<string, real> {
    var lat := if m.latitude.Some? then map["latitude" := m.latitude.value] else map[];
    if m.longitude.Some? then lat["longitude" := m.longitude.value] else lat
  }

  /** `meta_dict['sensors']`: each sensor's dictionary under its number. */
  function SensorTable(sensors: map<int, SensorValues>): map<int, map<string, Value>> {
    map n | n in sensors :: SensorRecord(sensors[n])
  }

  /** The dictionary entry under a key. */
  function Lookup(m: Meta, k: Key): Item {
    match k
    case SiteNameKey => FieldItem(m.siteName)
    case LocationKey => FieldItem(m.location)
    case CoordsKey => Coords(CoordsMap(m))
    case TimezoneKey => FieldItem(m.timezone)
    case ElevationKey => FieldItem(m.elevation)
    case TimeStepKey => FieldItem(m.timeStep)
    case LoggerSamplingKey => FieldItem(m.loggerSampling)
    case TimePeriodKey => FieldItem(m.timePeriod)
    case CollectorKey => FieldItem(m.collector)
    case ReportCreatedKey => FieldItem(m.reportCreated)
    case SensorsKey => Sensors(SensorTable(m.sensors))
    case FiltersKey => Filters(m.filters)
    case CommentsKey => FieldItem(m.comments)
  }

  /** Every entry of the dictionary `parse_meta` returns except 'sensors'. */
  function GeneralDict(m: Meta): Dict {
    map[
      "site_name" := Lookup(m, SiteNameKey),
      "location" := Lookup(m, LocationKey),
      "coords" := Lookup(m, CoordsKey),
      "timezone" := Lookup(m, TimezoneKey),
      "elevation" := Lookup(m, ElevationKey),
      "time_step" := Lookup(m, TimeStepKey),
      "logger_sampling" := Lookup(m, LoggerSamplingKey),
      "time_period" := Lookup(m, TimePeriodKey),
      "collector" := Lookup(m, CollectorKey),
      "report_created" := Lookup(m, ReportCreatedKey),
      "filters" := Lookup(m, FiltersKey),
      "comments" := Lookup(m, CommentsKey)
    ]
  }

  /** The dictionary `parse_meta` returns: every key's entry under its name. */
  function MetaDict(m: Meta): Dict {
    GeneralDict(m)["sensors" := Lookup(m, SensorsKey)]
  }

  /** The sensors' entry, which `assign_meta` pops, is the sensor table, and
      what the pop leaves is every other entry. */
  lemma MetaDictSensors(m: Meta)
    ensures "sensors" in MetaDict(m) && MetaDict(m)["sensors"] == Sensors(SensorTable(m.sensors))
    ensures "sensors" !in GeneralDict(m) && MetaDict(m) - {"sensors"} == GeneralDict(m)
  {
    assert "sensors" !in GeneralDict(m);
  }

  /** The key a branch writes. */
  function WrittenKey(k: Kind): Key
    requires k != Other
  {
    match k
    case SiteName => SiteNameKey
    case Location => LocationKey
    case Latitude => CoordsKey
    case Longitude => CoordsKey
    case TimeZone => TimezoneKey
    case Elevation => ElevationKey
    case TimeStep => TimeStepKey
    case LoggerSampling => LoggerSamplingKey
    case TimePeriod => TimePeriodKey
    case Collector => CollectorKey
    case ReportCreated => ReportCreatedKey
    case Comments => CommentsKey
    case Sensor => SensorsKey
    case Filter => FiltersKey
  }

  /** The branch a key takes (an integer key never reaches the chain). */
  function EntryKind(key: Value): Kind {
    match key
    case Text(k) => Classify(k)
    case Int(_) => Other
  }

  function LineKind(line: string): Kind {
    EntryKind(LineKey(line))
  }

  /** A branch writes only its own key. */
  lemma ApplyBranchFrame(m: Meta, kind: Kind, k: string, val: Value, parseReal: string -> Option<real>, f: Key)
    requires ApplyBranch(m, kind, k, val, parseReal).Ok?
    requires kind == Other || f != WrittenKey(kind)
    ensures Lookup(ApplyBranch(m, kind, k, val, parseReal).value, f) == Lookup(m, f)
  {
    var m' := ApplyBranch(m, kind, k, val, parseReal).value;
    match kind
    case Latitude =>
      assert m' == m.(latitude := m'.latitude);
      CoordsFrame(m, m', f);
    case Longitude =>
      assert m' == m.(longitude := m'.longitude);
      CoordsFrame(m, m', f);
    case Sensor =>
      assert m' == ApplySensor(m, k, val).value;
      SensorShape(m, k, val);
      SensorsFrame(m, m', f);
    case Filter =>
      assert m' == m.(filters := m'.filters);
      FiltersFrame(m, m', f);
    case Other =>
    case _ => ScalarBranchFrame(m, kind, k, val, parseReal, f);
  }

  lemma ScalarBranchFrame(m: Meta, kind: Kind, k: string, val: Value, parseReal: string -> Option<real>, f: Key)
    requires IsScalarKind(kind) && f != WrittenKey(kind)
    ensures ApplyBranch(m, kind, k, val, parseReal).Ok?
    ensures Lookup(ApplyBranch(m, kind, k, val, parseReal).value, f) == Lookup(m, f)
  {
  }

  /** Changing only the coordinates changes only 'coords'. */
  lemma CoordsFrame(m: Meta, m': Meta, f: Key)
    requires m' == m.(latitude := m'.latitude, longitude := m'.longitude) && f != CoordsKey
    ensures Lookup(m', f) == Lookup(m, f)
  {
  }

  /** A stored sensor line changes only the sensor table. */
  lemma SensorShape(m: Meta, k: string, val: Value)
    requires ApplySensor(m, k, val).Ok?
    ensures ApplySensor(m, k, val).value == m.(sensors := ApplySensor(m, k, val).value.sensors)
  {
    var n := ParseInt(k[Find(k, '#') + 1..]).value;
    assert ApplySensor(m, k, val) == StoreSensor(m, n, val);
  }

  lemma SensorsFrame(m: Meta, m': Meta, f: Key)
    requires m' == m.(sensors := m'.sensors) && f != SensorsKey
    ensures Lookup(m', f) == Lookup(m, f)
  {
  }

  lemma FiltersFrame(m: Meta, m': Meta, f: Key)
    requires m' == m.(filters := m'.filters) && f != FiltersKey
    ensures Lookup(m', f) == Lookup(m, f)
  {
  }

  lemma ApplyEntryFrame(m: Meta, key: Value, val: Value, parseReal: string -> Option<real>, f: Key)
    requires ApplyEntry(m, key, val, parseReal).Ok?
    requires EntryKind(key) == Other || f != WrittenKey(EntryKind(key))
    ensures Lookup(ApplyEntry(m, key, val, parseReal).value, f) == Lookup(m, f)
  {
    ApplyBranchFrame(m, EntryKind(key), key.s, val, parseReal, f);
  }

  /** A key whose branch no header line takes keeps its default, `False` or `{}`. */
  lemma {:induction false} UnseenKeysKeepDefaults(es: seq<Entry>, parseReal: string -> Option<real>, f: Key)
    requires ParseEntries(es, parseReal).Ok?
    requires forall i :: 0 <= i < |es| ==> EntryKind(es[i].key) == Other || WrittenKey(EntryKind(es[i].key)) != f
    ensures Lookup(ParseEntries(es, parseReal).value, f) == Lookup(Defaults, f)
    decreases |es|
  {
    if |es| > 0 {
      var front := es[..|es| - 1];
      var last := es[|es| - 1];
      LastEntryKeeps(es, parseReal, f);
      UnseenKeysKeepDefaults(front, parseReal, f);
    }
  }

  /** A scalar branch: the key stores the sanitised value of the line. */
  predicate IsScalarKind(k: Kind) {
    k != Latitude && k != Longitude && k != Sensor && k != Filter && k != Other
  }

  lemma ScalarEntry(m: Meta, key: Value, val: Value, parseReal: string -> Option<real>)
    requires IsScalarKind(EntryKind(key))
    ensures ApplyEntry(m, key, val, parseReal).Ok?
    ensures Lookup(ApplyEntry(m, key, val, parseReal).value, WrittenKey(EntryKind(key))) == Val(val)
  {
    ScalarBranch(m, EntryKind(key), key.s, val, parseReal);
  }

  lemma ScalarBranch(m: Meta, kind: Kind, k: string, val: Value, parseReal: string -> Option<real>)
    requires IsScalarKind(kind)
    ensures ApplyBranch(m, kind, k, val, parseReal).Ok?
    ensures Lookup(ApplyBranch(m, kind, k, val, parseReal).value, WrittenKey(kind)) == Val(val)
  {
  }

  /** For a scalar key, the last line taking its branch decides the value. */
  lemma {:induction false} LastScalarEntryWins(es: seq<Entry>, parseReal: string -> Option<real>, j: nat)
    requires ParseEntries(es, parseReal).Ok?
    requires j < |es| && IsScalarKind(EntryKind(es[j].key))
    requires forall i :: j < i < |es| ==> EntryKind(es[i].key) != EntryKind(es[j].key)
    ensures Lookup(ParseEntries(es, parseReal).value, WrittenKey(EntryKind(es[j].key))) == Val(es[j].val)
    decreases |es|
  {
    var front := es[..|es| - 1];
    var last := es[|es| - 1];
    var f := WrittenKey(EntryKind(es[j].key));
    if j == |es| - 1 {
      LastEntryWrites(es, parseReal);
    } else {
      assert front[j] == es[j];
      forall i | j < i < |front| ensures EntryKind(front[i].key) != EntryKind(front[j].key) {
        assert front[i] == es[i];
      }
      LastScalarEntryWins(front, parseReal, j);
      DistinctScalarKeys(EntryKind(es[j].key), EntryKind(last.key));
      LastEntryKeeps(es, parseReal, f);
    }
  }

  /** A scalar branch shares its key with no other branch. */
  lemma DistinctScalarKeys(k: Kind, other: Kind)
    requires IsScalarKind(k) && other != k
    ensures other == Other || WrittenKey(other) != WrittenKey(k)
  {
  }

  /** The last entry, when scalar, decides its own key. */
  lemma LastEntryWrites(es: seq<Entry>, parseReal: string -> Option<real>)
    requires |es| > 0 && ParseEntries(es, parseReal).Ok?
    requires IsScalarKind(EntryKind(es[|es| - 1].key))
    ensures Lookup(ParseEntries(es, parseReal).value, WrittenKey(EntryKind(es[|es| - 1].key))) == Val(es[|es| - 1].val)
  {
    var last := es[|es| - 1];
    ScalarEntry(ParseEntries(es[..|es| - 1], parseReal).value, last.key, last.val, parseReal);
  }

  /** The last entry leaves every key it does not write as it was. */
  lemma LastEntryKeeps(es: seq<Entry>, parseReal: string -> Option<real>, f: Key)
    requires |es| > 0 && ParseEntries(es, parseReal).Ok?
    requires EntryKind(es[|es| - 1].key) == Other || f != WrittenKey(EntryKind(es[|es| - 1].key))
    ensures ParseEntries(es[..|es| - 1], parseReal).Ok?
    ensures Lookup(ParseEntries(es, parseReal).value, f) == Lookup(ParseEntries(es[..|es| - 1], parseReal).value, f)
  {
    var last := es[|es| - 1];
    ApplyEntryFrame(ParseEntries(es[..|es| - 1], parseReal).value, last.key, last.val, parseReal, f);
  }

  /** The same two facts for the header lines themselves. */
  lemma HeaderLastScalarLineWins(lines: seq<string>, parseReal: string -> Option<real>, j: nat)
    requires ParseMetaSpec(lines, parseReal).Ok?
    requires j < |lines| && IsScalarKind(LineKind(lines[j]))
    requires forall i :: j < i < |lines| ==> LineKind(lines[i]) != LineKind(lines[j])
    ensures Lookup(ParseMetaSpec(lines, parseReal).value, WrittenKey(LineKind(lines[j]))) == Val(LineValue(lines[j]))
  {
    var es := Entries(lines);
    forall i | 0 <= i < |lines| ensures EntryKind(es[i].key) == LineKind(lines[i]) {
    }
    LastScalarEntryWins(es, parseReal, j);
  }

  lemma HeaderUnseenKeysKeepDefaults(lines: seq<string>, parseReal: string -> Option<real>, f: Key)
    requires ParseMetaSpec(lines, parseReal).Ok?
    requires forall i :: 0 <= i < |lines| ==> LineKind(lines[i]) == Other || WrittenKey(LineKind(lines[i])) != f
    ensures Lookup(ParseMetaSpec(lines, parseReal).value, f) == Lookup(Defaults, f)
  {
    var es := Entries(lines);
    forall i | 0 <= i < |lines| ensures EntryKind(es[i].key) == LineKind(lines[i]) {
    }
    UnseenKeysKeepDefaults(es, parseReal, f);
  }
}
