/** The reading half of trunk/windenergytk/file_ops.py: the header loop of
    `parse_file`, the split of the data table into columns in
    `separate_timeseries`, and the wiring of columns to metadata in
    `assign_meta`. The data table that `tsfromtxt` reads is a parameter. */
module FileOps {
  import opened Wrappers
  import opened Text
  import opened PyValues
  import opened MetaParser

  // ---------------------------------------------------------------------
  // parse_file: the header loop

  /** `dat_file.readline()` at position `pos`; an exhausted file gives "". */
  function ReadLine(file: seq<string>, pos: nat): string {
    if pos < |file| then file[pos] else ""
  }

  /** The loop's stop test `'***' in line`, on the stripped line. */
  predicate IsMarker(line: string) {
    Contains(Strip(line), "***")
  }

  predicate HasMarker(file: seq<string>) {
    exists i :: 0 <= i < |file| && IsMarker(file[i])
  }

  /** The index of the first marker line. */
  function FirstMarker(file: seq<string>, from: nat): (k: nat)
    requires exists i :: from <= i < |file| && IsMarker(file[i])
    ensures from <= k < |file| && IsMarker(file[k])
    ensures forall i :: from <= i < k ==> !IsMarker(file[i])
    decreases |file| - from
  {
    if IsMarker(file[from]) then from else FirstMarker(file, from + 1)
  }

  /** The first `n` lines of the file, stripped. */
  function StrippedLines(file: seq<string>, n: nat): (h: seq<string>)
    requires n <= |file|
    ensures |h| == n
  {
    if n == 0 then [] else StrippedLines(file, n - 1) + [Strip(file[n - 1])]
  }

  lemma {:induction false} StrippedLinesAt(file: seq<string>, n: nat, j: nat)
    requires j < n <= |file|
    ensures StrippedLines(file, n)[j] == Strip(file[j])
    decreases n
  {
    if j < n - 1 {
      StrippedLinesAt(file, n - 1, j);
    }
  }

  /** The stripped lines up to and including the first one holding "***". */
  function HeaderLines(file: seq<string>): (h: seq<string>)
    requires HasMarker(file)
    ensures |h| == FirstMarker(file, 0) + 1
  {
    StrippedLines(file, FirstMarker(file, 0) + 1)
  }

  /** The header is every line up to the marker, stripped, the marker last. */
  lemma HeaderLinesShape(file: seq<string>)
    requires HasMarker(file)
    ensures var h := HeaderLines(file);
      Contains(h[|h| - 1], "***") &&
      forall j :: 0 <= j < |h| ==> h[j] == Strip(file[j]) && (j < |h| - 1 ==> !Contains(h[j], "***"))
  {
    var h := HeaderLines(file);
    forall j | 0 <= j < |h| ensures h[j] == Strip(file[j]) {
      StrippedLinesAt(file, |h|, j);
    }
  }

  /** The header loop of `parse_file`: it collects the header lines, reads
      and drops the two lines after the marker, and leaves the file at the
      first data line `dataStart`. */
  method ReadHeader(file: seq<string>) returns (meta: seq<string>, dataStart: nat)
    requires HasMarker(file)
    ensures meta == HeaderLines(file)
    ensures dataStart == |meta| + 2
  {
    ghost var k := FirstMarker(file, 0);
    meta := [];
    var pos := 0;
    var trigger := false;
    while !trigger
      invariant !trigger ==> pos <= k && meta == StrippedLines(file, pos)
      invariant trigger ==> pos == k + 3 && meta == StrippedLines(file, k + 1)
      decreases k + 1 - |meta|
    {
      var line := Strip(ReadLine(file, pos));
      HeaderStep(file, pos);
      meta := meta + [line];
      if Contains(line, "***") {
        // the two lines after the marker are read and dropped
        pos := pos + 3;
        trigger := true;
      } else {
        pos := pos + 1;
      }
    }
    dataStart := pos;
  }

  /** One round of the header loop before the marker: the line read is the
      next file line, and it is a marker line exactly at the first marker. */
  lemma HeaderStep(file: seq<string>, pos: nat)
    requires HasMarker(file) && pos <= FirstMarker(file, 0)
    ensures pos < |file| && ReadLine(file, pos) == file[pos]
    ensures StrippedLines(file, pos + 1) == StrippedLines(file, pos) + [Strip(file[pos])]
    ensures IsMarker(file[pos]) <==> pos == FirstMarker(file, 0)
  {
  }

  /** The header loop's state (lines read, position, trigger) after `n` rounds. */
  function HeaderRounds(file: seq<string>, n: nat): (seq<string>, nat, bool) {
    if n == 0 then ([], 0, false)
    else
      var (meta, pos, trigger) := HeaderRounds(file, n - 1);
      if trigger then (meta, pos, trigger)
      else
        var line := Strip(ReadLine(file, pos));
        if Contains(line, "***") then (meta + [line], pos + 3, true)
        else (meta + [line], pos + 1, false)
  }

  /** Before the marker, each round reads the next line and keeps going. */
  lemma RoundsBefore(file: seq<string>, n: nat)
    requires HasMarker(file) && n <= FirstMarker(file, 0)
    ensures HeaderRounds(file, n) == (StrippedLines(file, n), n, false)
  {
    RoundsWithoutMarker(file, n);
  }

  lemma {:induction false} RoundsWithoutMarker(file: seq<string>, n: nat)
    requires n <= |file| && forall i :: 0 <= i < n ==> !IsMarker(file[i])
    ensures HeaderRounds(file, n) == (StrippedLines(file, n), n, false)
    decreases n
  {
    if n > 0 {
      RoundsWithoutMarker(file, n - 1);
      assert !IsMarker(file[n - 1]) && ReadLine(file, n - 1) == file[n - 1];
      RoundStep(file, n - 1, StrippedLines(file, n - 1), n - 1, Strip(file[n - 1]));
    }
  }

  /** One round from a state whose trigger is down, on a line without "***". */
  lemma RoundStep(file: seq<string>, n: nat, meta: seq<string>, pos: nat, line: string)
    requires HeaderRounds(file, n) == (meta, pos, false)
    requires Strip(ReadLine(file, pos)) == line && !Contains(line, "***")
    ensures HeaderRounds(file, n + 1) == (meta + [line], pos + 1, false)
  {
  }

  /** The round that reads the marker raises the trigger. */
  lemma RoundStop(file: seq<string>, n: nat, meta: seq<string>, pos: nat, line: string)
    requires HeaderRounds(file, n) == (meta, pos, false)
    requires Strip(ReadLine(file, pos)) == line && Contains(line, "***")
    ensures HeaderRounds(file, n + 1) == (meta + [line], pos + 3, true)
    ensures HeaderRounds(file, n + 2) == HeaderRounds(file, n + 1)
  {
  }

  /** With a marker the rounds stop at it, having collected the header
      lines and skipped the two lines after the marker. */
  lemma RoundsAgree(file: seq<string>)
    requires HasMarker(file)
    ensures var k := FirstMarker(file, 0);
      HeaderRounds(file, k + 1) == (HeaderLines(file), k + 3, true) &&
      HeaderRounds(file, k + 2) == HeaderRounds(file, k + 1)
  {
    var k := FirstMarker(file, 0);
    RoundsBefore(file, k);
    HeaderStep(file, k);
    RoundStop(file, k, StrippedLines(file, k), k, Strip(file[k]));
  }

  /** Without a marker line the loop never stops: after any number of rounds
      the trigger is still down, and past the end it keeps reading "". */
  lemma {:induction false} HeaderLoopDiverges(file: seq<string>, n: nat)
    requires !HasMarker(file)
    ensures var (meta, pos, trigger) := HeaderRounds(file, n);
      !trigger && pos == n && |meta| == n
    decreases n
  {
    if n > 0 {
      HeaderLoopDiverges(file, n - 1);
      var pos := n - 1;
      if pos < |file| {
        assert !IsMarker(file[pos]);
      } else {
        assert Strip("") == "";
      }
    }
  }

  // ---------------------------------------------------------------------
  // separate_timeseries

  /** The table `tsfromtxt` returns: every row has the same number of columns. */
  predicate Rectangular(table: seq<seq<real>>) {
    forall i :: 0 <= i < |table| ==> |table[i]| == |table[0]|
  }

  /** `timeseries[:, c]`. */
  function Column(table: seq<seq<real>>, c: nat): (col: seq<real>)
    requires forall i :: 0 <= i < |table| ==> c < |table[i]|
    ensures |col| == |table| && forall i :: 0 <= i < |table| ==> col[i] == table[i][c]
  {
    seq(|table|, i requires 0 <= i < |table| => table[i][c])
  }

  /** `separate_timeseries`: column `c` under the key `c + 1`; a table
      without rows has no first row to count the columns of. */
  method SeparateTimeseries(table: seq<seq<real>>) returns (r: Result<map<int, seq<real>>, ParseError>)
    requires Rectangular(table)
    ensures r.Err? <==> |table| == 0
    ensures r.Err? ==> r.error == NoRows
    ensures r.Ok? ==> forall c :: c in r.value <==> 1 <= c <= |table[0]|
    ensures r.Ok? ==> forall c :: 1 <= c <= |table[0]| ==> r.value[c] == Column(table, c - 1)
  {
    if |table| == 0 {
      return Err(NoRows);
    }
    var columns: map<int, seq<real>> := map[];
    var index := 0;
    while index < |table[0]|
      invariant 0 <= index <= |table[0]|
      invariant forall c :: c in columns <==> 1 <= c <= index
      invariant forall c :: 1 <= c <= index ==> columns[c] == Column(table, c - 1)
    {
      // the key is `len(ts_dict) + 1`, which is `index + 1`
      columns := columns[index + 1 := Column(table, index)];
      index := index + 1;
    }
    r := Ok(columns);
  }

  // ---------------------------------------------------------------------
  // assign_meta

  /** The items of one sensor's dictionary. */
  function SensorItems(fields: map<string, Value>): Dict {
    map f | f in fields :: Val(fields[f])
  }

  /** What `assign_meta` makes of one column: 'timeseries', then the
      fields of its sensor if it has one, then every general field, a later
      one replacing an earlier one under the same key. */
  function ColumnEntry(series: seq<real>, sensor: Option<map<string, Value>>, general: Dict): Dict {
    map["timeseries" := Series(series)] + (if sensor.Some? then SensorItems(sensor.value) else map[]) + general
  }

  /** The first loop of `assign_meta`: one entry per column, holding its timeseries. */
  method InitEntries(tsDict: map<int, seq<real>>) returns (out: map<int, Dict>)
    ensures out.Keys == tsDict.Keys
    ensures forall k :: k in out ==> out[k] == map["timeseries" := Series(tsDict[k])]
  {
    out := map[];
    var todo := tsDict.Keys;
    while exists k :: k in todo
      invariant todo <= tsDict.Keys
      invariant out.Keys == tsDict.Keys - todo
      invariant forall k :: k in out ==> out[k] == map["timeseries" := Series(tsDict[k])]
      decreases todo
    {
      var k :| k in todo;
      out := out[k := map["timeseries" := Series(tsDict[k])]];
      todo := todo - {k};
    }
  }

  /** Sensor `n` has fields but no column: writing its first field into
      the missing entry is a KeyError. A sensor without fields writes
      nothing and so raises nothing. */
  predicate Unplaced(sensors: map<int, map<string, Value>>, columns: set<int>, n: int) {
    n in sensors && n !in columns && |sensors[n]| > 0
  }

  /** The second loop: each sensor's fields into the entry of its column. */
  method AddSensors(entries: map<int, Dict>, sensors: map<int, map<string, Value>>)
    returns (r: Result<map<int, Dict>, ParseError>)
    ensures r.Err? <==> exists n :: Unplaced(sensors, entries.Keys, n)
    ensures r.Err? ==> exists n :: Unplaced(sensors, entries.Keys, n) && r.error == NoSuchColumn(n)
    ensures r.Ok? ==> r.value.Keys == entries.Keys
    ensures r.Ok? ==> forall k :: k in entries ==>
      r.value[k] == entries[k] + (if k in sensors then SensorItems(sensors[k]) else map[])
  {
    var out := entries;
    var numbers := sensors.Keys;
    while exists n :: n in numbers
      invariant numbers <= sensors.Keys
      invariant out.Keys == entries.Keys
      invariant forall n :: n !in numbers ==> !Unplaced(sensors, entries.Keys, n)
      invariant PlacedBut(out, entries, sensors, numbers)
      decreases numbers
    {
      var n :| n in numbers;
      if n !in out {
        if |sensors[n]| > 0 {
          assert Unplaced(sensors, entries.Keys, n);
          return Err(NoSuchColumn(n));
        }
        PlacedSkip(out, entries, sensors, numbers, n);
      } else {
        PlacedStep(out, entries, sensors, numbers, n);
        out := out[n := out[n] + SensorItems(sensors[n])];
      }
      numbers := numbers - {n};
    }
    r := Ok(out);
  }

  /** Every entry holds its own fields and the items of the sensors already
      placed, those not in `pending`. */
  ghost predicate PlacedBut(out: map<int, Dict>, entries: map<int, Dict>, sensors: map<int, map<string, Value>>, pending: set<int>)
    requires out.Keys == entries.Keys
  {
    forall k :: k in out ==>
      out[k] == entries[k] + (if k in sensors && k !in pending then SensorItems(sensors[k]) else map[])
  }

  lemma PlacedStep(out: map<int, Dict>, entries: map<int, Dict>, sensors: map<int, map<string, Value>>, pending: set<int>, n: int)
    requires out.Keys == entries.Keys && n in pending && n in out && n in sensors
    requires PlacedBut(out, entries, sensors, pending)
    ensures PlacedBut(out[n := out[n] + SensorItems(sensors[n])], entries, sensors, pending - {n})
  {
  }

  lemma PlacedSkip(out: map<int, Dict>, entries: map<int, Dict>, sensors: map<int, map<string, Value>>, pending: set<int>, n: int)
    requires out.Keys == entries.Keys && n in pending && n !in out
    requires PlacedBut(out, entries, sensors, pending)
    ensures PlacedBut(out, entries, sensors, pending - {n})
  {
  }

  /** The third loop: every general field into every entry. */
  method AddGeneral(entries: map<int, Dict>, general: Dict) returns (out: map<int, Dict>)
    ensures out.Keys == entries.Keys
    ensures forall k :: k in entries ==> out[k] == entries[k] + general
  {
    out := entries;
    var keys := entries.Keys;
    while exists k :: k in keys
      invariant keys <= entries.Keys && out.Keys == entries.Keys
      invariant forall k :: k in out ==> out[k] == (if k in keys then entries[k] else entries[k] + general)
      decreases keys
    {
      var k :| k in keys;
      out := out[k := out[k] + general];
      keys := keys - {k};
    }
  }

  /** `assign_meta(ts_dict, meta_dict)`. It returns the new dictionary and,
      as `metaAfter`, the caller's `meta_dict` after its 'sensors' entry
      was popped; a missing 'sensors' entry is a KeyError. */
  method AssignMeta(tsDict: map<int, seq<real>>, meta: Dict) returns (r: Result<map<int, Dict>, ParseError>, metaAfter: Dict)
    requires "sensors" in meta ==> meta["sensors"].Sensors?
    ensures metaAfter == if "sensors" in meta then meta - {"sensors"} else meta
    ensures "sensors" !in meta ==> r == Err(MissingSensors)
    ensures "sensors" in meta ==>
      var sensors := meta["sensors"].sensors;
      && (r.Err? <==> exists n :: Unplaced(sensors, tsDict.Keys, n))
      && (r.Err? ==> exists n :: Unplaced(sensors, tsDict.Keys, n) && r == Err(NoSuchColumn(n)))
      && (r.Ok? ==> r.value.Keys == tsDict.Keys)
      && (r.Ok? ==> forall k :: k in tsDict ==>
            r.value[k] == ColumnEntry(tsDict[k], if k in sensors then Some(sensors[k]) else None, metaAfter))
  {
    var entries := InitEntries(tsDict);
    if "sensors" !in meta {
      return Err(MissingSensors), meta;
    }
    metaAfter := meta - {"sensors"};
    var sensors := meta["sensors"].sensors;
    var withSensors := AddSensors(entries, sensors);
    if withSensors.Err? {
      return Err(withSensors.error), metaAfter;
    }
    var out := AddGeneral(withSensors.value, metaAfter);
    r := Ok(out);
  }

  /** Within an entry the general fields win over the sensor's fields, which
      win over 'timeseries'; nothing else is in it. */
  lemma ColumnEntryLayers(series: seq<real>, sensor: Option<map<string, Value>>, general: Dict, key: string)
    ensures var e := ColumnEntry(series, sensor, general);
      && (key in general ==> key in e && e[key] == general[key])
      && (key !in general && sensor.Some? && key in sensor.value ==> key in e && e[key] == Val(sensor.value[key]))
      && (key == "timeseries" && key !in general && (sensor.Some? ==> key !in sensor.value) ==>
            key in e && e[key] == Series(series))
      && (key in e ==> key == "timeseries" || key in general || (sensor.Some? && key in sensor.value))
  {
  }

  // ---------------------------------------------------------------------
  // parse_file

  /** Every sensor with at least one field names a column of a table with
      `ncols` columns. */
  predicate SensorsInRange(m: Meta, ncols: nat) {
    forall n :: n in m.sensors && |m.sensors[n]| > 0 ==> 1 <= n <= ncols
  }

  /** `out` holds column `c` of the table under the key `c`, counted from
      1, together with the fields of sensor `c` and every general field. */
  ghost predicate CarriesMeta(out: map<int, Dict>, table: seq<seq<real>>, m: Meta)
    requires |table| > 0 && Rectangular(table)
  {
    && (forall c :: c in out <==> 1 <= c <= |table[0]|)
    && (forall c :: 1 <= c <= |table[0]| ==>
          out[c] == ColumnEntry(Column(table, c - 1),
                                if c in m.sensors then Some(SensorRecord(m.sensors[c])) else None,
                                GeneralDict(m)))
  }

  /** The end of `parse_file`: `assign_meta` on the separated columns and
      the parsed header. */
  method AttachMeta(columns: map<int, seq<real>>, table: seq<seq<real>>, m: Meta)
    returns (r: Result<map<int, Dict>, ParseError>)
    requires |table| > 0 && Rectangular(table)
    requires forall c :: c in columns <==> 1 <= c <= |table[0]|
    requires forall c :: 1 <= c <= |table[0]| ==> columns[c] == Column(table, c - 1)
    ensures r.Ok? <==> SensorsInRange(m, |table[0]|)
    ensures r.Err? ==> exists n :: n in m.sensors && |m.sensors[n]| > 0 && !(1 <= n <= |table[0]|) && r.error == NoSuchColumn(n)
    ensures r.Ok? ==> CarriesMeta(r.value, table, m)
  {
    MetaDictSensors(m);
    var sensors := SensorTable(m.sensors);
    assert sensors.Keys == m.sensors.Keys;
    UnplacedOutOfRange(m, columns.Keys, |table[0]|);
    var entries, popped := AssignMeta(columns, MetaDict(m));
    r := entries;
  }

  /** The sensors `assign_meta` cannot place are those of the header with
      at least one field and a number outside the columns 1..ncols. */
  lemma UnplacedOutOfRange(m: Meta, columns: set<int>, ncols: nat)
    requires forall c :: c in columns <==> 1 <= c <= ncols
    ensures forall n :: Unplaced(SensorTable(m.sensors), columns, n) <==>
      n in m.sensors && |m.sensors[n]| > 0 && !(1 <= n <= ncols)
  {
    forall n | n in m.sensors
      ensures |SensorTable(m.sensors)[n]| > 0 <==> |m.sensors[n]| > 0
    {
      SensorRecordEmpty(m.sensors[n]);
    }
  }

  /** `parse_file`, given the rows `tsfromtxt` reads after the header: the
      columns keyed 1.., each carrying every general header field. The
      columns are split before the header is parsed, so an empty table
      fails first. */
  method ParseFile(file: seq<string>, table: seq<seq<real>>, parseReal: string -> Option<real>)
    returns (r: Result<map<int, Dict>, ParseError>)
    requires HasMarker(file) && Rectangular(table)
    ensures |table| == 0 ==> r == Err(NoRows)
    ensures |table| > 0 && ParseMetaSpec(HeaderLines(file), parseReal).Err? ==>
      r == Err(ParseMetaSpec(HeaderLines(file), parseReal).error)
    ensures |table| > 0 && ParseMetaSpec(HeaderLines(file), parseReal).Ok? ==>
      var m := ParseMetaSpec(HeaderLines(file), parseReal).value;
      && (r.Ok? <==> SensorsInRange(m, |table[0]|))
      && (r.Err? ==> exists n :: n in m.sensors && |m.sensors[n]| > 0 && !(1 <= n <= |table[0]|) && r.error == NoSuchColumn(n))
      && (r.Ok? ==> CarriesMeta(r.value, table, m))
  {
    var header, dataStart := ReadHeader(file);
    var columns := SeparateTimeseries(table);
    if columns.Err? {
      return Err(columns.error);
    }
    var meta := ParseMeta(header, parseReal);
    if meta.Err? {
      return Err(meta.error);
    }
    // the masking of filter values is not modelled
    r := AttachMeta(columns.value, table, meta.value);
  }
}
