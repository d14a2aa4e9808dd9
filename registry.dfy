/** The GUI frame's registry of active timeseries: a dictionary from a
    small integer key to a timeseries dictionary (metadata plus readings).
    Entries are appended under the key `len(active)`, popped by key, and
    renumbered to the keys 0..n-1 in iteration order after a removal.
    CPython 2 iterates a dictionary of small non-negative integer keys in
    ascending key order, which is the order modelled here. */
module Registry {
  import opened Wrappers
  import opened PyValues

  /** The exceptions the registry's operations raise. */
  datatype RegistryError =
    | KeyError(key: int)           // `pop` of an absent key
    | MissingField(field: string)  // a dictionary lookup of an absent field
    | TypeError                    // `str + x` with `x` not a str

  /** The fields of a synthetic timeseries, in the order the dictionary
      literal lists them, before its name and readings are filled in. */
  const TemplateFields: seq<(string, Item)> := [
    ("elevation", Val(Int(0))),
    ("name", Val(Text(""))),
    ("designation", Val(Text("primary"))),
    ("collector", Val(Text("synthetic"))),
    ("filters", Filters(map[])),
    ("comments", Val(Text("Generated with Wind Energy Engineering Toolkit"))),
    ("meters_above_ground", Val(Int(0))),
    ("site_name", Val(Text("None"))),
    ("coords", Coords(map[])),
    ("location", Val(Text("none"))),
    ("time_step", Val(Int(600))),
    ("units", Val(Text("units"))),
    ("timezone", Val(Int(0))),
    ("time_period", Val(Text(""))),
    ("logger_sampling", Val(Int(0))),
    ("type", Val(Text("synthetic"))),
    ("report_created", Val(Text("2001-01-01")))
  ]

  /** A dictionary built from a list of fields, later fields overriding
      earlier ones as in a Python dictionary literal. */
  function FromFields(fields: seq<(string, Item)>): Dict {
    if |fields| == 0 then map[]
    else FromFields(fields[..|fields| - 1])[fields[|fields| - 1].0 := fields[|fields| - 1].1]
  }

  function Template(): Dict {
    FromFields(TemplateFields)
  }

  /** Python truthiness of the optional `old_ts_dict` argument: the default
      `False` and an empty dictionary are both false. */
  predicate Truthy(origin: Option<Dict>) {
    origin.Some? && |origin.value| > 0
  }

  /** A dictionary for the new readings `newTs`: a copy of `origin` whose
      readings are replaced and whose name gets `prefix` in front, or, when
      `origin` is false, the synthetic template named `prefix + "synthetic"`.
      The copy is a new value, so the dictionary it came from is unchanged. */
  function CreateTsDict(newTs: seq<real>, origin: Option<Dict>, prefix: string): Result<Dict, RegistryError> {
    if Truthy(origin) then
      var copy := origin.value["timeseries" := Series(newTs)];
      if "name" !in origin.value then Err(MissingField("name"))
      else match origin.value["name"]
        case Val(Text(s)) => Ok(copy["name" := Val(Text(prefix + s))])
        case _ => Err(TypeError)
    else
      Ok(Template()["timeseries" := Series(newTs)]["name" := Val(Text(prefix + "synthetic"))])
  }

  /** Deriving from a dictionary succeeds exactly when it has a str name;
      the result then has the same fields plus 'timeseries', holds the new
      readings and the prefixed name, and keeps every other field. */
  lemma CreateFromOrigin(newTs: seq<real>, origin: Dict, prefix: string)
    requires |origin| > 0
    ensures var r := CreateTsDict(newTs, Some(origin), prefix);
      && (r.Ok? <==> "name" in origin && origin["name"].Val? && origin["name"].v.Text?)
      && ("name" !in origin ==> r == Err(MissingField("name")))
      && (r.Ok? ==> "name" in r.value && r.value["name"] == Val(Text(prefix + origin["name"].v.s)))
      && (r.Ok? ==> "timeseries" in r.value && r.value["timeseries"] == Series(newTs))
      && (r.Ok? ==> forall k :: k in r.value <==> k in origin || k == "timeseries")
      && (r.Ok? ==> forall k :: k in origin && k != "name" && k != "timeseries" ==> r.value[k] == origin[k])
  {
  }

  /** Without a dictionary to derive from, the result is the template with
      the new readings and the name `prefix + "synthetic"`. */
  lemma CreateFromTemplate(newTs: seq<real>, origin: Option<Dict>, prefix: string)
    requires !Truthy(origin)
    ensures var r := CreateTsDict(newTs, origin, prefix);
      && r.Ok?
      && "name" in r.value && r.value["name"] == Val(Text(prefix + "synthetic"))
      && "timeseries" in r.value && r.value["timeseries"] == Series(newTs)
      && (forall k :: k in r.value <==> k in Template() || k == "timeseries" || k == "name")
      && (forall k :: k in Template() && k != "name" && k != "timeseries" ==> r.value[k] == Template()[k])
  {
  }

  /** Deriving twice, first with prefix `p1` and then with `p2`, is deriving
      once with `p2 + p1` from the same origin. */
  lemma CreateTsDictCompose(ts1: seq<real>, ts2: seq<real>, origin: Option<Dict>, p1: string, p2: string)
    requires CreateTsDict(ts1, origin, p1).Ok?
    ensures CreateTsDict(ts2, Some(CreateTsDict(ts1, origin, p1).value), p2) == CreateTsDict(ts2, origin, p2 + p1)
  {
    var base := if Truthy(origin) then origin.value else Template();
    var s := if Truthy(origin) then base["name"].v.s else "synthetic";
    var first := base["timeseries" := Series(ts1)]["name" := Val(Text(p1 + s))];
    assert CreateTsDict(ts1, origin, p1) == Ok(first);
    assert "name" in first;
    assert (p2 + p1) + s == p2 + (p1 + s);
    var twice := first["timeseries" := Series(ts2)]["name" := Val(Text(p2 + (p1 + s)))];
    var once := base["timeseries" := Series(ts2)]["name" := Val(Text((p2 + p1) + s))];
    assert CreateTsDict(ts2, Some(first), p2) == Ok(twice);
    assert CreateTsDict(ts2, origin, p2 + p1) == Ok(once);
    assert twice == once;
  }

  // ----- Keys in iteration order -----

  predicate Increasing(ks: seq<nat>) {
    forall i, j :: 0 <= i < j < |ks| ==> ks[i] < ks[j]
  }

  predicate IsLeast(s: set<nat>, m: nat) {
    m in s && forall j :: j in s ==> m <= j
  }

  /** A set of keys holding `x` has a least key, which is at most `x`. */
  lemma {:induction false} LeastBelow(s: set<nat>, x: nat)
    requires x in s
    ensures exists m: nat :: IsLeast(s, m)
    decreases x
  {
    if exists y: nat :: y in s && y < x {
      var y :| y in s && y < x;
      LeastBelow(s, y);
    } else {
      assert IsLeast(s, x);
    }
  }

  /** Every non-empty set of keys has a least key. */
  lemma LeastExists(s: set<nat>)
    requires exists k: nat :: k in s
    ensures exists m: nat :: IsLeast(s, m)
  {
    var x :| x in s;
    LeastBelow(s, x);
  }

  /** The keys of `s` in the order a dictionary with those keys iterates. */
  ghost function SortedKeys(s: set<nat>): (ks: seq<nat>)
    ensures Increasing(ks)
    ensures forall k: nat :: k in ks <==> k in s
    ensures |ks| == |s|
    decreases |s|
  {
    if exists k: nat :: k in s then
      LeastExists(s);
      var m :| IsLeast(s, m);
      var rest := SortedKeys(s - {m});
      assert forall i :: 0 <= i < |rest| ==> m < rest[i];
      [m] + rest
    else
      []
  }

  /** The dictionary that maps position `j` to the entry under `ks[j]`. */
  function Build<V>(m: map<nat, V>, ks: seq<nat>): (b: map<nat, V>)
    requires forall i :: 0 <= i < |ks| ==> ks[i] in m
    ensures forall j: nat :: j in b <==> j < |ks|
    ensures forall j :: 0 <= j < |ks| ==> b[j] == m[ks[j]]
    ensures |b| == |ks|
  {
    if |ks| == 0 then map[]
    else
      var b0 := Build(m, ks[..|ks| - 1]);
      assert |ks| - 1 !in b0;
      b0[|ks| - 1 := m[ks[|ks| - 1]]]
  }

  lemma HeadIn(s: seq<nat>)
    ensures |s| > 0 ==> s[0] in s
  {
  }

  /** Two increasing sequences with the same keys are the same sequence. */
  lemma {:induction false} IncreasingUnique(a: seq<nat>, b: seq<nat>)
    requires Increasing(a) && Increasing(b)
    requires forall k: nat :: k in a <==> k in b
    ensures a == b
    decreases |a|
  {
    if |a| == 0 {
      HeadIn(b);
    } else {
      assert a[0] in a;
      assert |b| > 0;
      assert b[0] in b;
      var i :| 0 <= i < |b| && b[i] == a[0];
      var j :| 0 <= j < |a| && a[j] == b[0];
      assert a[0] == b[0];
      forall k: nat
        ensures k in a[1..] <==> k in b[1..]
      {
        if k in a[1..] {
          var p :| 1 <= p < |a| && a[p] == k;
          assert k in b;
          var q :| 0 <= q < |b| && b[q] == k;
          assert q != 0;
          assert b[1..][q - 1] == k;
        }
        if k in b[1..] {
          var q :| 1 <= q < |b| && b[q] == k;
          assert k in a;
          var p :| 0 <= p < |a| && a[p] == k;
          assert p != 0;
          assert a[1..][p - 1] == k;
        }
      }
      IncreasingUnique(a[1..], b[1..]);
      assert a == [a[0]] + a[1..];
      assert b == [b[0]] + b[1..];
    }
  }

  /** Visiting the least remaining key keeps the visited keys increasing
      and below every key still to come. */
  lemma VisitLeast(visited: seq<nat>, todo: set<nat>, key: nat)
    requires Increasing(visited)
    requires forall i, k :: 0 <= i < |visited| && k in todo ==> visited[i] < k
    requires IsLeast(todo, key)
    ensures Increasing(visited + [key])
    ensures forall i, k :: 0 <= i < |visited| + 1 && k in todo - {key} ==> (visited + [key])[i] < k
  {
  }

  /** Building from one more key adds one more position. */
  lemma BuildSnoc<V>(m: map<nat, V>, ks: seq<nat>, key: nat)
    requires forall i :: 0 <= i < |ks| ==> ks[i] in m
    requires key in m
    ensures Build(m, ks + [key]) == Build(m, ks)[|ks| := m[key]]
  {
    assert (ks + [key])[..|ks|] == ks;
  }

  /** What `renumber_active_timeseries` makes of the registry `m`. */
  ghost function Renumbered<V>(m: map<nat, V>): map<nat, V> {
    Build(m, SortedKeys(m.Keys))
  }

  /** The keys are exactly 0..n-1 for a registry of n entries. */
  predicate Contiguous<V>(m: map<nat, V>) {
    && (forall k: nat :: k in m ==> k < |m|)
    && (forall k: nat :: k < |m| ==> k in m)
  }

  /** Renumbering keeps the size, makes the keys 0..n-1, and puts the
      entries in their iteration order. */
  lemma RenumberedShape<V>(m: map<nat, V>)
    ensures |Renumbered(m)| == |m|
    ensures Contiguous(Renumbered(m))
    ensures forall j :: 0 <= j < |m| ==> Renumbered(m)[j] == m[SortedKeys(m.Keys)[j]]
  {
  }

  /** An increasing sequence of n keys below n is 0..n-1. */
  lemma {:induction false} IncreasingBelow(ks: seq<nat>, j: nat)
    requires Increasing(ks) && forall i :: 0 <= i < |ks| ==> ks[i] < |ks|
    requires j < |ks|
    ensures ks[j] == j
  {
    LowerBound(ks, j);
    UpperBound(ks, j);
  }

  lemma {:induction false} LowerBound(ks: seq<nat>, j: nat)
    requires Increasing(ks) && j < |ks|
    ensures ks[j] >= j
  {
    if j > 0 {
      LowerBound(ks, j - 1);
    }
  }

  lemma {:induction false} UpperBound(ks: seq<nat>, j: nat)
    requires Increasing(ks) && j < |ks| && forall i :: 0 <= i < |ks| ==> ks[i] < |ks|
    ensures ks[j] <= j
    decreases |ks| - j
  {
    if j < |ks| - 1 {
      UpperBound(ks, j + 1);
    }
  }

  /** The keys 0..n-1 iterate as 0, 1, ..., n-1. */
  lemma SortedContiguous<V>(m: map<nat, V>, j: nat)
    requires Contiguous(m) && j < |m|
    ensures j < |SortedKeys(m.Keys)| && SortedKeys(m.Keys)[j] == j
  {
    var ks := SortedKeys(m.Keys);
    forall i | 0 <= i < |ks|
      ensures ks[i] < |ks|
    {
      assert ks[i] in ks;
    }
    IncreasingBelow(ks, j);
  }

  /** Two registries with the keys 0..n-1 and the same entries are equal. */
  lemma ContiguousEqual<V>(a: map<nat, V>, b: map<nat, V>)
    requires Contiguous(a) && Contiguous(b) && |a| == |b|
    requires forall k: nat :: k in a ==> a[k] == b[k]
    ensures a == b
  {
    assert forall k: nat :: k in a <==> k in b;
  }

  /** A registry whose keys are already 0..n-1 is left as it is. */
  lemma RenumberContiguous<V>(m: map<nat, V>)
    requires Contiguous(m)
    ensures Renumbered(m) == m
  {
    RenumberedShape(m);
    forall k: nat | k in Renumbered(m)
      ensures Renumbered(m)[k] == m[k]
    {
      SortedContiguous(m, k);
    }
    ContiguousEqual(Renumbered(m), m);
  }

  /** Renumbering twice is renumbering once. */
  lemma RenumberIdempotent<V>(m: map<nat, V>)
    ensures Renumbered(Renumbered(m)) == Renumbered(m)
  {
    RenumberedShape(m);
    RenumberContiguous(Renumbered(m));
  }

  /** Adding to a registry with keys 0..n-1 gives keys 0..n, with the new
      entry under n and every other entry in place. */
  lemma AddContiguous<V>(m: map<nat, V>, entry: V)
    requires Contiguous(m)
    ensures Contiguous(m[|m| := entry])
    ensures |m[|m| := entry]| == |m| + 1
    ensures m[|m| := entry][|m|] == entry
    ensures forall k: nat :: k in m ==> m[|m| := entry][k] == m[k]
  {
    assert |m| !in m;
  }

  /** Adding to a registry with a gap (keys not 0..n-1) may land on a key
      already in use: that entry is then replaced and the size does not
      grow. */
  lemma AddIntoGap<V>(m: map<nat, V>, entry: V)
    requires |m| in m
    ensures |m[|m| := entry]| == |m|
    ensures m[|m| := entry][|m|] == entry
  {
  }

  // ----- Popping the selected keys -----

  /** The state after popping each of `indexes` in turn: the remaining
      entries, and the first key whose pop raised KeyError, if any (the
      keys after it are not popped). */
  function PopAll<V>(m: map<nat, V>, indexes: seq<int>): (p: (map<nat, V>, Option<int>))
    ensures p.1.None? ==> forall k: nat :: k in p.0 <==> k in m && k as int !in indexes
    ensures p.1.None? ==> forall k: nat :: k in p.0 ==> p.0[k] == m[k]
  {
    if |indexes| == 0 then (m, None)
    else
      var (rest, missing) := PopAll(m, indexes[..|indexes| - 1]);
      var key := indexes[|indexes| - 1];
      if missing.Some? then (rest, missing)
      else if key >= 0 && key as nat in rest then (rest - {key as nat}, None)
      else (rest, Some(key))
  }

  predicate Distinct(s: seq<int>) {
    forall i, j :: 0 <= i < j < |s| ==> s[i] != s[j]
  }

  /** Every one of `indexes` is a key of `m`. */
  predicate AllKeys<V>(m: map<nat, V>, indexes: seq<int>) {
    forall i :: 0 <= i < |indexes| ==> indexes[i] >= 0 && indexes[i] as nat in m
  }

  lemma DistinctSnoc(front: seq<int>, key: int)
    ensures Distinct(front + [key]) <==> Distinct(front) && key !in front
  {
    var s := front + [key];
    if Distinct(s) {
      assert forall i, j :: 0 <= i < j < |front| ==> front[i] == s[i] && front[j] == s[j];
    }
    if key in front {
      var i :| 0 <= i < |front| && front[i] == key;
      assert s[i] == s[|front|];
    }
  }

  lemma AllKeysSnoc<V>(m: map<nat, V>, front: seq<int>, key: int)
    ensures AllKeys(m, front + [key]) <==> AllKeys(m, front) && key >= 0 && key as nat in m
  {
    var s := front + [key];
    assert forall i :: 0 <= i < |front| ==> front[i] == s[i];
    assert s[|front|] == key;
  }

  /** Popping succeeds exactly when the keys are distinct keys of the
      registry; the registry then loses one entry per key. */
  lemma {:induction false} PopAllSucceeds<V>(m: map<nat, V>, indexes: seq<int>)
    ensures PopAll(m, indexes).1.None? <==> Distinct(indexes) && AllKeys(m, indexes)
    ensures PopAll(m, indexes).1.None? ==> |PopAll(m, indexes).0| == |m| - |indexes|
  {
    if |indexes| > 0 {
      var front := indexes[..|indexes| - 1];
      var key := indexes[|indexes| - 1];
      assert indexes == front + [key];
      PopAllSucceeds(m, front);
      DistinctSnoc(front, key);
      AllKeysSnoc(m, front, key);
      var rest := PopAll(m, front).0;
      if PopAll(m, front).1.None? && key >= 0 {
        assert key as nat in rest <==> key as nat in m && key !in front;
      }
    }
  }

  /** One more pop after a run of successful pops. */
  lemma PopOne<V>(m: map<nat, V>, indexes: seq<int>, i: nat, rest: map<nat, V>)
    requires i < |indexes| && PopAll(m, indexes[..i]) == (rest, None)
    ensures var key := indexes[i];
      PopAll(m, indexes[..i + 1]) ==
        if key >= 0 && key as nat in rest then (rest - {key as nat}, None) else (rest, Some(key))
  {
    assert indexes[..i + 1][..i] == indexes[..i];
  }

  /** Once a pop has failed, the keys after it change nothing. */
  lemma {:induction false} PopAllStops<V>(m: map<nat, V>, indexes: seq<int>, i: nat)
    requires i <= |indexes| && PopAll(m, indexes[..i]).1.Some?
    ensures PopAll(m, indexes) == PopAll(m, indexes[..i])
    decreases |indexes| - i
  {
    if i < |indexes| {
      assert indexes[..i + 1][..i] == indexes[..i];
      PopAllStops(m, indexes, i + 1);
    } else {
      assert indexes[..i] == indexes;
    }
  }

  /** Removing distinct selected keys from a registry with keys 0..n-1 and
      renumbering leaves n-k entries under 0..n-k-1: the unselected entries,
      in their original order. */
  lemma RemoveSelectedShape<V>(m: map<nat, V>, indexes: seq<int>)
    requires Contiguous(m)
    requires PopAll(m, indexes).1.None?
    ensures var r := Renumbered(PopAll(m, indexes).0);
      && Contiguous(r)
      && |r| == |m| - |indexes|
      && (forall j :: 0 <= j < |r| ==> r[j] == m[SortedKeys(PopAll(m, indexes).0.Keys)[j]])
    ensures var ks := SortedKeys(PopAll(m, indexes).0.Keys);
      && Increasing(ks)
      && (forall k: nat :: k in ks <==> k < |m| && k as int !in indexes)
  {
    PopAllSucceeds(m, indexes);
    RenumberedShape(PopAll(m, indexes).0);
  }

  // ----- The registry -----

  class ActiveTimeseries {
    /** `self.active_timeseries` */
    var active: map<nat, Dict>

    constructor ()
      ensures active == map[]
    {
      active := map[];
    }

    /** `add_timeseries`: store the entry under the key `len(active)`. */
    method AddTimeseries(entry: Dict)
      modifies this
      ensures active == old(active)[|old(active)| := entry]
    {
      active := active[|active| := entry];
    }

    /** `remove_timeseries`: pop the entry under `index`; an absent key
        raises KeyError and changes nothing. */
    method RemoveTimeseries(index: int) returns (r: Result<Dict, RegistryError>)
      modifies this
      ensures index >= 0 && index as nat in old(active) ==>
        r == Ok(old(active)[index as nat]) && active == old(active) - {index as nat}
      ensures !(index >= 0 && index as nat in old(active)) ==>
        r == Err(KeyError(index)) && active == old(active)
    {
      if index >= 0 && index as nat in active {
        r := Ok(active[index as nat]);
        active := active - {index as nat};
      } else {
        r := Err(KeyError(index));
      }
    }

    /** `renumber_active_timeseries`: copy the entries, in iteration order,
        to the keys 0, 1, 2, ... of a new dictionary. */
    method Renumber()
      modifies this
      ensures active == Renumbered(old(active))
    {
      var current := active;
      var index := 0;
      var newDict: map<nat, Dict> := map[];
      var todo := current.Keys;
      ghost var visited: seq<nat> := [];
      while exists k: nat :: k in todo
        invariant forall k: nat :: k in current <==> k in visited || k in todo
        invariant Increasing(visited)
        invariant forall i, k :: 0 <= i < |visited| && k in todo ==> visited[i] < k
        invariant index == |visited|
        invariant newDict == Build(current, visited)
        decreases |todo|
      {
        LeastExists(todo);
        var key :| IsLeast(todo, key);
        BuildSnoc(current, visited, key);
        VisitLeast(visited, todo, key);
        newDict := newDict[index := current[key]];
        index := index + 1;
        visited := visited + [key];
        todo := todo - {key};
      }
      IncreasingUnique(visited, SortedKeys(current.Keys));
      active := newDict;
    }

    /** `refresh_timeseries`: renumber (the list box it then redraws is
        not modelled). */
    method Refresh()
      modifies this
      ensures active == Renumbered(old(active))
    {
      Renumber();
    }

    /** `OnRemoveTSButton`: pop every selected key, then refresh. A KeyError
        stops the handler with the earlier pops done and no refresh. */
    method RemoveSelected(indexes: seq<int>) returns (r: Result<(), RegistryError>)
      modifies this
      ensures PopAll(old(active), indexes).1.None? ==>
        r == Ok(()) && active == Renumbered(PopAll(old(active), indexes).0)
      ensures PopAll(old(active), indexes).1.Some? ==>
        r == Err(KeyError(PopAll(old(active), indexes).1.value)) && active == PopAll(old(active), indexes).0
    {
      var i := 0;
      while i < |indexes|
        invariant 0 <= i <= |indexes|
        invariant PopAll(old(active), indexes[..i]) == (active, None)
      {
        PopOne(old(active), indexes, i, active);
        var popped := RemoveTimeseries(indexes[i]);
        if popped.Err? {
          PopAllStops(old(active), indexes, i + 1);
          r := Err(KeyError(indexes[i]));
          return;
        }
        i := i + 1;
      }
      assert indexes[..|indexes|] == indexes;
      Refresh();
      r := Ok(());
    }
  }
}
