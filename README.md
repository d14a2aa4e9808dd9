# Wind Energy Engineering Toolkit: a verified model of its data handling

The Wind Energy Engineering Toolkit reads wind-measurement datalogger
files, synthesises wind series, analyses them, and keeps the series a user
has open in a GUI list. This project models the deterministic,
sequential parts of that code in Dafny and proves properties of them:

- **Datalogger files** (`trunk/windenergytk/file_ops.py`):
  - `sanitize` normalises one text field;
  - the header loop of `parse_file` reads lines up to the `***` marker;
  - `parse_meta` classifies header lines into the metadata dictionary:
    names, coordinates, sensors and filter sentinels;
  - `separate_timeseries` splits the data table into columns;
  - `assign_meta` attaches each sensor's fields and the general fields to
    those columns.

  These are the modules `MetaParser` (`meta_parser.dfy`) and `FileOps`
  (`file_ops.dfy`).
- **Synthesis** (`trunk/WindEnergyTK/windenergytk/synthesis.py`), in the
  module `Synthesis`:
  - `find_bin` computes a clamped bin index;
  - `gen_markov_tpm` tallies transitions in place in a bins x bins array
    and then normalises its rows;
  - `gen_cumu_tpm` takes the running sums of each row;
  - `gen_arma` builds the AR(1) series, with its noise vector passed in.
- **Analysis** (`windenergytk/analysis.py`), in the module `Analysis`:
  - `block_average` averages runs of equal dates;
  - `crosscorrelate` and `autocorrelate` compute lagged correlations.
- **Active series registry** (`windenergytk/gwindtk.py`), in the module
  `Registry`:
  - the `active_timeseries` dictionary, modelled as the class
    `ActiveTimeseries`;
  - its add, remove, renumber and refresh methods;
  - the remove-then-refresh sequence of the Remove button;
  - `create_ts_dict`.

Supporting modules:

- `Wrappers`: `Option` and `Result`. An `Err` stands for a raised exception.
- `Text`: the Python 2 `str` operations the parser uses:
  - `strip`, `lower` and `in`;
  - `partition`, `split` and `find`;
  - base-10 `int()`.
- `PyValues`: the values held in the dictionaries.
- `RealSums`: sums and means over exact reals.

Modelling choices:

- Numbers are exact reals; nothing about IEEE rounding is claimed.
- A Python exception is an `Err` result naming it.
- Loops that update state in the source are `method`s with loop
  invariants. Each is proved equal to a specification function, and the
  promised properties are lemmas about that function.
- Dictionary iteration is modelled as ascending order for the registry's
  small non-negative integer keys. For the other dictionaries the proved
  results do not depend on the order.

## Model

| member | source | states |
|---|---|---|
| Text.StripIdempotent | trunk/windenergytk/file_ops.py:45 | stripping twice is stripping once |
| Text.LowerIdempotent | trunk/windenergytk/file_ops.py:45 | lower-casing twice is lower-casing once |
| Text.Find | trunk/windenergytk/file_ops.py:187 | `find` gives -1 exactly when the character is absent, otherwise the index of its first occurrence |
| Text.Partition | trunk/windenergytk/file_ops.py:128 | with the separator present the text is head + separator + tail and the head has no separator; otherwise the head is the whole text and the tail is "" |
| Text.Split | trunk/windenergytk/file_ops.py:190 | `split` gives at least one part, no part contains the separator, and joining the parts with the separator gives back the text |
| Text.SplitJoin | trunk/windenergytk/file_ops.py:190 | splitting a join of separator-free parts gives back those parts (split and join are inverse) |
| Text.ParseIntDecimal | trunk/windenergytk/file_ops.py:50 | `int()` of the decimal form of any integer, padded with whitespace, is that integer |
| Text.ParseIntAccepts | trunk/windenergytk/file_ops.py:50 | whatever `int()` accepts is, once stripped, an optional sign followed by digits only |
| MetaParser.Sanitize | trunk/windenergytk/file_ops.py:40-53 | a str result is the stripped, lower-cased input and does not parse as an integer; an int result is the integer value `int()` gives for the stripped, lower-cased input |
| MetaParser.SanitizeTextShape | trunk/windenergytk/file_ops.py:45 | a str result has no whitespace at either end and no upper-case letter |
| MetaParser.SanitizeIdempotent | trunk/windenergytk/file_ops.py:40-53 | sanitising a str result again gives the same result |
| MetaParser.SanitizeDecimal | trunk/windenergytk/file_ops.py:40-53 | the decimal form of any integer, with any surrounding whitespace, sanitises to that integer |
| MetaParser.SanitizeAllAt | trunk/windenergytk/file_ops.py:193-194 | value i of the sanitised list is part i sanitised |
| MetaParser.SanitizeValues | trunk/windenergytk/file_ops.py:193-194 | the in-place sanitising loop yields the list of sanitised parts |
| MetaParser.LineSplit | trunk/windenergytk/file_ops.py:128-134 | a line with ':' is split at the first ':' (the key has no ':'), and key and value are sanitised; a line without ':' is all key, with value "" |
| MetaParser.MatchFrom | trunk/windenergytk/file_ops.py:137-180 | the index of the first containment test from j on that matches, and no test before it matches |
| MetaParser.ClassifyFirstMatch | trunk/windenergytk/file_ops.py:137-180 | a key takes branch i of the elif chain iff test i matches and no earlier test does (first match wins, "site name" before "location") |
| MetaParser.ClassifyFallThrough | trunk/windenergytk/file_ops.py:201-205 | when no containment test matches, the key is a filter line iff it starts with "-9", and otherwise it is unmatched |
| MetaParser.IntegerKeyFails | trunk/windenergytk/file_ops.py:137 | a key that sanitised to an int makes the first `in` test raise TypeError |
| MetaParser.UnmatchedKeyChangesNothing | trunk/windenergytk/file_ops.py:137-205 | a text key that matches no branch leaves the dictionary unchanged |
| MetaParser.SiteNameBeforeLocation | trunk/windenergytk/file_ops.py:137-141 | a key containing both "site name" and "location" sets only site_name |
| MetaParser.LatitudeSign | trunk/windenergytk/file_ops.py:143-147 | a latitude line stores the number negated iff the key contains "[s]", and changes nothing else |
| MetaParser.LongitudeSign | trunk/windenergytk/file_ops.py:149-153 | a longitude line stores the number negated iff the key contains "[w]", and changes nothing else |
| MetaParser.CoordinateNotANumber | trunk/windenergytk/file_ops.py:144-150 | a coordinate value that `float()` rejects raises an error |
| MetaParser.SensorErrors | trunk/windenergytk/file_ops.py:187-190 | a sensor key whose text after '#' is not an integer, or a sensor value that is an int, is an error |
| MetaParser.SensorEntry | trunk/windenergytk/file_ops.py:180-199 | a "sensor #N" line with more than five comma-separated values is an error; otherwise it sets sensors[N] to the sanitised values and nothing else |
| MetaParser.SensorValuesNotText | trunk/windenergytk/file_ops.py:190 | a sensor line whose value sanitised to an int has no `split` and is an error |
| MetaParser.SensorRecordFields | trunk/windenergytk/file_ops.py:197-199 | value i of a sensor is stored under field i of name, type, designation, meters_above_ground, units, and there are no other keys |
| MetaParser.SensorRecordEmpty | trunk/windenergytk/file_ops.py:197-199 | a sensor's dictionary is empty exactly when it has no values |
| MetaParser.SensorDictionary | trunk/windenergytk/file_ops.py:183-199 | for at most five parts, the sensor dictionary maps field i to part i sanitised, and has exactly those fields |
| MetaParser.FillSensor | trunk/windenergytk/file_ops.py:197-199 | the dictionary-filling loop fails iff there are more than five values, and otherwise builds the sensor's dictionary |
| MetaParser.SensorBranch | trunk/windenergytk/file_ops.py:180-199 | the sensor branch computes the sensor transition, and on success returns the dictionary stored under the number in the key |
| MetaParser.FilterEntry | trunk/windenergytk/file_ops.py:201-205 | a "-9" key that does not split into exactly two parts is an error, a non-integer value is an error, and otherwise it stores filters[name] = value and nothing else |
| MetaParser.ParseLine | trunk/windenergytk/file_ops.py:128-205 | one iteration of the loop body computes the transition that the line's branch specifies |
| MetaParser.ParseEntriesStep | trunk/windenergytk/file_ops.py:127-205 | after a successful prefix, the next line applies its branch to the dictionary built so far |
| MetaParser.ParseEntriesErrorStays | trunk/windenergytk/file_ops.py:127-208 | once a line raises, the later lines do not change the outcome |
| MetaParser.ParseMeta | trunk/windenergytk/file_ops.py:105-208 | the loop over header lines computes the fold of the line transitions over the defaults |
| MetaParser.ScalarEntry | trunk/windenergytk/file_ops.py:137-177 | a line of a scalar field stores its sanitised value under that field |
| MetaParser.ApplyEntryFrame | trunk/windenergytk/file_ops.py:137-205 | a successful line changes no field other than the one its branch writes |
| MetaParser.UnseenKeysKeepDefaults | trunk/windenergytk/file_ops.py:112-125 | a field that no line writes keeps its default (`False`, or `{}` for coords, sensors and filters) |
| MetaParser.LastScalarEntryWins | trunk/windenergytk/file_ops.py:127-177 | a scalar field holds the value of the last line of its kind |
| MetaParser.HeaderLastScalarLineWins | trunk/windenergytk/file_ops.py:127-177 | the same as above, stated on the raw header lines |
| MetaParser.HeaderUnseenKeysKeepDefaults | trunk/windenergytk/file_ops.py:112-125 | the same as above, stated on the raw header lines |
| MetaParser.MetaDictSensors | trunk/windenergytk/file_ops.py:233 | the metadata dictionary holds 'sensors', and popping it leaves exactly the general fields |
| FileOps.FirstMarker | trunk/windenergytk/file_ops.py:68-74 | the index of a marker line, and no line before it is a marker |
| FileOps.HeaderLinesShape | trunk/windenergytk/file_ops.py:64-74 | the header is the stripped lines up to and including the first line containing "***"; only the last of them contains it |
| FileOps.ReadHeader | trunk/windenergytk/file_ops.py:64-75 | the header loop collects exactly those lines and leaves the file two lines after the marker |
| FileOps.RoundsBefore | trunk/windenergytk/file_ops.py:68-71 | before the first marker, each round of the header loop reads the next line, stripped, and keeps the trigger down |
| FileOps.RoundsAgree | trunk/windenergytk/file_ops.py:68-74 | in a file with a marker, the rounds stop at it, holding exactly HeaderLines and positioned two lines past the marker, and further rounds change nothing |
| FileOps.HeaderLoopDiverges | trunk/windenergytk/file_ops.py:68-74 | in a file with no marker, the trigger is still down after any number of rounds, and each round consumes one line |
| FileOps.Column | trunk/windenergytk/file_ops.py:218 | `timeseries[:, c]` holds entry c of every row |
| FileOps.SeparateTimeseries | trunk/windenergytk/file_ops.py:214-219 | an empty table is an error; otherwise column c is stored under key c+1, and the keys are exactly 1..#columns |
| FileOps.InitEntries | trunk/windenergytk/file_ops.py:227-230 | every column gets an entry holding only its 'timeseries' |
| FileOps.AddSensors | trunk/windenergytk/file_ops.py:235-237 | raises KeyError iff some sensor has fields but no column; otherwise it adds each sensor's fields to its column's entry |
| FileOps.AddGeneral | trunk/windenergytk/file_ops.py:240-242 | every entry receives every general field, overriding what it had |
| FileOps.AssignMeta | trunk/windenergytk/file_ops.py:221-244 | the caller's dict loses 'sensors' (KeyError if it has none); the result has one entry per column; each entry holds timeseries, then sensor fields, then general fields; KeyError exactly when a sensor with fields has no column |
| FileOps.ColumnEntryLayers | trunk/windenergytk/file_ops.py:229-242 | in an entry the general fields win over the sensor's fields, which win over 'timeseries'; nothing else is in it |
| FileOps.UnplacedOutOfRange | trunk/windenergytk/file_ops.py:235-237 | the sensors that cannot be placed are exactly those with fields and a number outside 1..#columns |
| FileOps.AttachMeta | trunk/windenergytk/file_ops.py:97-98 | it succeeds iff every sensor with fields has a column, and then every column carries its sensor's and all general header fields |
| FileOps.ParseFile | trunk/windenergytk/file_ops.py:57-100 | an empty table fails first and a bad header line fails next; otherwise the result is the columns carrying the parsed header, as in AttachMeta |
| Synthesis.RoundHalfAway | trunk/WindEnergyTK/windenergytk/synthesis.py:41 | Python 2 `round`: the nearest integer, with halves rounded away from zero |
| Synthesis.RoundMonotone | trunk/WindEnergyTK/windenergytk/synthesis.py:41 | rounding is monotone |
| Synthesis.FindBin | trunk/WindEnergyTK/windenergytk/synthesis.py:38-51 | fails iff the range is 0 (division by zero); otherwise the bin is in [0, bins-1] for bins >= 1, whatever the value, and is 0 for bins < 1 |
| Synthesis.FindBinLow | trunk/WindEnergyTK/windenergytk/synthesis.py:38-51 | the minimum falls into bin 0 |
| Synthesis.FindBinHigh | trunk/WindEnergyTK/windenergytk/synthesis.py:38-51 | min + range falls into bin bins-1 |
| Synthesis.Clamp | trunk/WindEnergyTK/windenergytk/synthesis.py:42-50 | the rounded value clamped to 1..bins, upper bound first, then shifted: an index in [0, bins) for bins >= 1, and 0 for bins < 1 |
| Synthesis.ScaledMonotone | trunk/WindEnergyTK/windenergytk/synthesis.py:41 | over a positive range and non-negative bins, the value that `find_bin` rounds is non-decreasing in the input |
| Synthesis.ClampMonotone | trunk/WindEnergyTK/windenergytk/synthesis.py:42-50 | clamping keeps the order of the values |
| Synthesis.FindBinMonotone | trunk/WindEnergyTK/windenergytk/synthesis.py:38-51 | over a positive range the bin is non-decreasing in the value |
| Synthesis.Max | trunk/WindEnergyTK/windenergytk/synthesis.py:81 | an element of the series that no element exceeds |
| Synthesis.Min | trunk/WindEnergyTK/windenergytk/synthesis.py:82 | an element of the series that exceeds no element |
| Synthesis.BinAt | trunk/WindEnergyTK/windenergytk/synthesis.py:91-92 | the bin of a value of a non-constant series is a valid index |
| Synthesis.CountRow | trunk/WindEnergyTK/windenergytk/synthesis.py:86-96 | the row of transition counts out of a bin, one entry per destination |
| Synthesis.CountAtMostVisits | trunk/WindEnergyTK/windenergytk/synthesis.py:89-96 | no transition count exceeds the number of steps leaving its source bin |
| Synthesis.CountRowSum | trunk/WindEnergyTK/windenergytk/synthesis.py:89-99 | a row of counts sums to the number of steps leaving its bin |
| Synthesis.VisitsTotal | trunk/WindEnergyTK/windenergytk/synthesis.py:89-99 | the row totals sum to the number of steps, so the table holds one count per consecutive pair (len(tseries) - 1 in all) |
| Synthesis.Tally | trunk/WindEnergyTK/windenergytk/synthesis.py:86-96 | the in-place tally fails iff there is a step and the series is constant (ZeroRange) or there are no bins (an index into a 0 x 0 array); otherwise entry (a, b) is the number of steps from bin a to bin b |
| Synthesis.FillEmptyRows | trunk/WindEnergyTK/windenergytk/synthesis.py:99-107 | a row whose total is 0 becomes all ones with total bins; other rows and totals are unchanged |
| Synthesis.Normalise | trunk/WindEnergyTK/windenergytk/synthesis.py:110-111 | every entry is divided by its row's total |
| Synthesis.GenMarkovTpm | trunk/WindEnergyTK/windenergytk/synthesis.py:78-113 | an empty series is EmptySeries, negative bins NegativeBins, a constant series with a step ZeroRange (the division in `find_bin`), and no bins with a step BinOutOfRange (the index into the 0 x 0 matrix), and these are the only errors; otherwise the result is bins x bins and entry (a, b) is the share of steps leaving a that go to b, or 1/bins for a row with none |
| Synthesis.TpmRow | trunk/WindEnergyTK/windenergytk/synthesis.py:99-111 | one row of the matrix, entry b being the transition probability from the row's bin to b |
| Synthesis.TpmEntryBounds | trunk/WindEnergyTK/windenergytk/synthesis.py:99-111 | every probability is in [0, 1] |
| Synthesis.TpmRowSum | trunk/WindEnergyTK/windenergytk/synthesis.py:99-111 | every row sums to 1, including an empty row filled with 1/bins |
| Synthesis.PrefixSums | trunk/WindEnergyTK/windenergytk/synthesis.py:115-120 | entry k of `cumsum` is the sum of entries 0..k |
| Synthesis.CumulativeRows | trunk/WindEnergyTK/windenergytk/synthesis.py:115-120 | `gen_cumu_tpm`: entry (r, c) is the sum of tpm[r][0..c] |
| Synthesis.CumulativeRowShape | trunk/WindEnergyTK/windenergytk/synthesis.py:115-120 | a row of the cumulative matrix is non-decreasing when the tpm row has no negative entry, and its last entry is the row total |
| Synthesis.CumulativeTpmEndsAtOne | trunk/WindEnergyTK/windenergytk/synthesis.py:99-120 | the cumulative rows of a transition matrix end at exactly 1 |
| Synthesis.ArmaSeries | trunk/WindEnergyTK/windenergytk/synthesis.py:57-75 | the series has max(npoints, 1) entries |
| Synthesis.ArList | trunk/WindEnergyTK/windenergytk/synthesis.py:63-65 | the first append loop gives 0 followed by autocor * previous + noise[i] |
| Synthesis.Rescale | trunk/WindEnergyTK/windenergytk/synthesis.py:68-70 | the second loop gives mean + stdev * ar[i], entry by entry |
| Synthesis.GenArma | trunk/WindEnergyTK/windenergytk/synthesis.py:57-75 | fails iff autocor^2 > 1 (the noise deviation is the square root of a negative number); otherwise the result is the AR(1) series of the given noise |
| Synthesis.ArmaRecurrence | trunk/WindEnergyTK/windenergytk/synthesis.py:63-70 | element 0 is exactly the mean, and each later deviation from the mean is autocor times the previous one plus stdev * noise[i] |
| Synthesis.ArClosedForm | trunk/WindEnergyTK/windenergytk/synthesis.py:63-65 | ar[i] is the sum of autocor^(i-k) * noise[k] for k = 1..i |
| Synthesis.ArmaWhiteNoise | trunk/WindEnergyTK/windenergytk/synthesis.py:63-70 | with autocor 0, element i is mean + stdev * noise[i] |
| Analysis.Push | windenergytk/analysis.py:153-159 | a reading joins the current run or opens a new one; the last run then has the reading's date |
| Analysis.Group | windenergytk/analysis.py:153-163 | the runs of equal consecutive dates; there are none iff there are no readings |
| Analysis.GroupValues | windenergytk/analysis.py:153-163 | the runs' values, concatenated, are the input values in order, so every value lands in exactly one block |
| Analysis.GroupDates | windenergytk/analysis.py:153-163 | each run's date repeated once per value, concatenated, gives the input dates |
| Analysis.GroupBlocksDistinct | windenergytk/analysis.py:153-159 | every block is non-empty and adjacent blocks have distinct dates |
| Analysis.GroupSingletons | windenergytk/analysis.py:153-159 | with no two adjacent dates equal, every reading is a block of its own |
| Analysis.BlockMeans | windenergytk/analysis.py:155-162 | one mean per block |
| Analysis.BlockStep | windenergytk/analysis.py:153-159 | one loop round either extends the current block or closes it with its mean and date and opens the next |
| Analysis.BlockAverage | windenergytk/analysis.py:133-167 | empty input is an error (dates[0]); otherwise the averages are the means of the blocks and the timesteps their dates, in input order |
| Analysis.BlockAverageOfDistinctDates | windenergytk/analysis.py:153-163 | with no two adjacent dates equal, the averages are the input values and the timesteps the input dates |
| Analysis.Deviate | windenergytk/analysis.py:108-111 | each value minus the mean |
| Analysis.DeviationsSumToZero | windenergytk/analysis.py:104-111 | the deviations from the whole series' mean sum to 0 |
| Analysis.LagLoop | windenergytk/analysis.py:115-119 | the inner loop's sum is the lagged sum over the overlap; the value is that sum divided by std1 * std2 * overlap, or the previous value when the overlap is empty |
| Analysis.Correlations | windenergytk/analysis.py:114-121 | fails iff the shorter series is empty and there is at least one lag; otherwise lags are exactly 0..max_lag with one value each, the correlation at every lag below n and the last such value repeated beyond it |
| Analysis.CrossCorrelate | windenergytk/analysis.py:85-122 | the same over the deviations of both series: n is the shorter length (the second series on a tie) and a zero max_lag means n |
| Analysis.CorrelationAt | windenergytk/analysis.py:119 | the value at lag < n is the lagged sum divided by std1 * std2 * (n - lag), a non-zero divisor |
| Analysis.AutoCorrelate | windenergytk/analysis.py:124-131 | the cross-correlation of the series with itself: same shape and error case, and the lag-0 value is 1 |
| Analysis.AutoCorrelationAtZero | windenergytk/analysis.py:124-131 | at lag 0 a series correlates with itself at exactly 1 when std is its population standard deviation |
| Analysis.LagSumSquares | windenergytk/analysis.py:114-119 | the lag-0 sum of a series with itself is the sum of squared deviations |
| Analysis.LagSumSymmetric | windenergytk/analysis.py:114-119 | at lag 0 the sum does not depend on the order of the two series |
| Registry.CreateFromOrigin | windenergytk/gwindtk.py:346-349 | with a dict given: it fails iff the dict has no str name; otherwise the copy gets the new 'timeseries' and name = prefix + old name, keeps every other field, and adds no other key; the dict given is a value and stays unchanged |
| Registry.CreateFromTemplate | windenergytk/gwindtk.py:350-359 | with no dict (or an empty one): the fixed template with the new 'timeseries' and name = prefix + 'synthetic' |
| Registry.CreateTsDictCompose | windenergytk/gwindtk.py:339-360 | deriving with prefix p1 and then p2 is deriving once with p2 + p1 |
| Registry.SortedKeys | windenergytk/gwindtk.py:311 | the registry's keys in iteration order: increasing, each key exactly once |
| Registry.Build | windenergytk/gwindtk.py:309-313 | position j of the new dictionary holds the entry under the j-th key visited |
| Registry.RenumberedShape | windenergytk/gwindtk.py:307-314 | renumbering keeps the size, makes the keys exactly 0..n-1, and keeps the entries in iteration order |
| Registry.RenumberContiguous | windenergytk/gwindtk.py:307-314 | renumbering a registry with keys 0..n-1 changes nothing |
| Registry.RenumberIdempotent | windenergytk/gwindtk.py:307-314 | renumbering twice is renumbering once |
| Registry.AddContiguous | windenergytk/gwindtk.py:331-333 | adding to keys exactly 0..n-1 gives keys exactly 0..n, the new entry last and the others unchanged |
| Registry.AddIntoGap | windenergytk/gwindtk.py:331-333 | when key len() is already taken (after a removal without renumbering), adding overwrites that entry and the size stays the same |
| Registry.PopAll | windenergytk/gwindtk.py:438-439 | removing successfully leaves exactly the unselected keys, with their entries unchanged |
| Registry.PopAllSucceeds | windenergytk/gwindtk.py:438-439 | every removal succeeds iff the selections are distinct existing keys, and then k entries are gone |
| Registry.PopAllStops | windenergytk/gwindtk.py:438-439 | after a KeyError the remaining selections change nothing |
| Registry.RemoveSelectedShape | windenergytk/gwindtk.py:435-441 | from keys 0..n-1, removing k distinct selected keys and refreshing leaves n-k contiguous keys holding the unselected entries in their original order |
| Registry.ActiveTimeseries.constructor | windenergytk/gwindtk.py:54 | the registry starts empty |
| Registry.ActiveTimeseries.AddTimeseries | windenergytk/gwindtk.py:331-333 | the entry is stored under key len(active), and nothing else changes |
| Registry.ActiveTimeseries.RemoveTimeseries | windenergytk/gwindtk.py:335-337 | an existing key is deleted and its entry returned, with every other entry untouched; an absent key raises KeyError and changes nothing |
| Registry.ActiveTimeseries.Renumber | windenergytk/gwindtk.py:307-314 | the loop with its index counter leaves the renumbered registry |
| Registry.ActiveTimeseries.Refresh | windenergytk/gwindtk.py:326-329 | renumbers the registry |
| Registry.ActiveTimeseries.RemoveSelected | windenergytk/gwindtk.py:435-441 | pops each selected key in order and then refreshes; a KeyError stops the handler with the earlier pops done and no refresh |

## Left out

- FileOps.ReadHeader, FileOps.ParseFile: a file with no '***' line is excluded by the requires, because the source's loop never returns on it. FileOps.HeaderLoopDiverges states that divergence for HeaderRounds, and FileOps.RoundsAgree ties HeaderRounds to HeaderLines.
- IEEE-754 arithmetic, including the float32 matrix of `gen_markov_tpm`: numbers are exact reals, and no rounding-error claim is made.
- Analysis.CrossCorrelate: numpy's `mean` and `std`. The mean is computed exactly. The standard deviations are parameters that must satisfy `std * std` = the population variance, because `sqrt` is not modelled.
- Analysis.CrossCorrelate: a zero standard deviation, for which numpy gives inf or nan. It is excluded by a precondition.
- Analysis.CrossCorrelate: the empty series, for which numpy's mean is nan. The model then uses 0, which no lag reads.
- Analysis.IsCorrelation: stated in product form (value * divisor = lagged sum). Analysis.CorrelationAt turns it into the quotient the source computes.
- The noise draw `np.random.normal(0, sqrt(1 - autocor1**2), npoints)`: it is random, so `gen_arma` takes the noise vector as a parameter. Its length stands for `npoints`.
- The wrapping of the output in `ts.time_series` with a start date and frequency is not modelled.
- `weighted_choice`, `gen_ts_from_tpm` and `add_diurnal`: they are random draws and date arithmetic.
- `tsfromtxt`, which reads the data rows: its table is a parameter of FileOps.ParseFile. `dataStart`, where the rows begin, is computed but not otherwise used.
- `numpy.ma.masked_values`, the float-tolerance masking of filter values in `parse_file` (lines 91-93): FileOps.ParseFile does not mask.
- `asfreq` in `block_average`: the readings arrive with dates already at the new frequency, as integers.
- `float()` on header values: an abstract parameter `parseReal`. An int value is converted exactly.
- Python 2's `int()` tolerance of a space between the sign and the digits (`int("- 5")`): not modelled. `int()` accepts an optional sign directly followed by ASCII digits, after stripping.
- Unicode: `lower` and `strip` work on ASCII letters and whitespace.
- MetaParser.Meta: sensors are stored as their value lists. The dictionary view `MetaDict` turns each list into the field dictionary, and MetaParser.SensorRecordFields proves that view.
- FileOps.AssignMeta: requires that a 'sensors' entry holds a sensor table. `parse_meta` always builds one, and any other value would fail at `iteritems`.
- The aliasing of dictionaries: the model works on values. Python's shallow `copy` in `create_ts_dict` and the shared sensor dictionaries are not modelled. No later mutation of a shared nested value is modelled.
- Registry keys are natural numbers: the source only ever stores `len()` values and renumbering indices.
- Registry dictionary iteration order is ascending keys, which CPython 2 gives for small integer keys.
- Registry.CreateTsDict: a name that is not a `str` is the TypeError of `str + x`. An origin name is used only when it is a text value.
- The GUI: `sync_active_listbox`, the list box, its selection (`GetSelections` is the parameter of RemoveSelected), dialogs and plotting.
- `gen_pdf` and the other stubs.

Where the code and the natural reading differ, the model follows the code:

- `gen_markov_tpm` of a one-value series is not a division by zero. The tally loop has no step, so `find_bin` is never called, and the rows come out uniform.
- `find_bin` with fewer than one bin returns 0, because of the order of its clamps.
