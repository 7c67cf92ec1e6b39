/**
 * Conversion between the legacy flat order options (include_sr = True,
 * target_projection = 'aea', std_parallel_1 = ...) and the nested option
 * format ({'olitirs8_collection': {'products': ['sr']}, 'projection':
 * {'aea': {...}}}), driven by tables of (legacy name, nested name,
 * conversion) rows.
 *
 * Iterating a dict visits its keys in an order this model does not fix:
 * the methods below pick the next key arbitrarily, and their contracts hold
 * whatever the order.
 */
module OptionsConversion {
  import opened Wrappers
  import opened Text
  import opened Json
  import Sensor
  import OrderDomain

  // ---------------------------------------------------------------- tables

  /** How a row converts: copy the value, put a fixed value, or descend into a sub-table. */
  datatype Conv = Copy | Const(v: Json) | Nested(rows: seq<Row>)

  /** One (from, to, conversion) row; names is None for the nameless lonlat row. */
  datatype Row = Row(names: Option<(string, string)>, conv: Conv)

  function Copies(from: string, to: string): Row
  {
    Row(Some((from, to)), Copy)
  }

  function Flag(from: string, to: string): Row
  {
    Row(Some((from, to)), Const(JBool(true)))
  }

  function Nests(from: string, to: string, rows: seq<Row>): Row
  {
    Row(Some((from, to)), Nested(rows))
  }

  const AeaMap: seq<Row> := [
    Copies("std_parallel_1", "standard_parallel_1"), Copies("std_parallel_2", "standard_parallel_2"),
    Copies("central_meridian", "central_meridian"), Copies("false_easting", "false_easting"),
    Copies("false_northing", "false_northing"), Copies("origin_lat", "latitude_of_origin"),
    Copies("datum", "datum")]

  const PsMap: seq<Row> := [
    Copies("longitude_pole", "longitudinal_pole"), Copies("latitude_true_scale", "latitude_true_scale"),
    Copies("false_easting", "false_easting"), Copies("false_northing", "false_northing")]

  const UtmMap: seq<Row> := [Copies("utm_zone", "zone"), Copies("utm_north_south", "zone_ns")]

  const SinuMap: seq<Row> := [
    Copies("central_meridian", "central_meridian"), Copies("false_easting", "false_easting"),
    Copies("false_northing", "false_northing")]

  /** Geographic output has no parameters: one row without names. */
  const LonlatMap: seq<Row> := [Row(None, Copy)]

  const ProjNamesMap: seq<Row> := [
    Nests("target_projection", "aea", AeaMap), Nests("target_projection", "ps", PsMap),
    Nests("target_projection", "utm", UtmMap), Nests("target_projection", "lonlat", LonlatMap),
    Nests("target_projection", "sinu", SinuMap)]

  const ExtMap: seq<Row> := [
    Copies("image_extents_units", "units"), Copies("minx", "west"), Copies("miny", "south"),
    Copies("maxx", "east"), Copies("maxy", "north")]

  const ResizeMap: seq<Row> := [Copies("pixel_size", "pixel_size"), Copies("pixel_size_units", "pixel_size_units")]

  /** (legacy flag, product name) for every product. */
  const ProdPairs: seq<(string, string)> := [
    ("include_customized_source_data", "l1"), ("include_sourcefile", "include_sourcefile"),
    ("include_solr_index", "include_solr_index"), ("include_sca", "include_sca"),
    ("include_swe", "include_swe"), ("include_sr_browse", "sr_browse"),
    ("include_statistics", "stats"), ("include_source_metadata", "source_metadata"),
    ("include_sr_toa", "toa"), ("include_sr_thermal", "bt"), ("include_sr", "sr"),
    ("include_dswe", "swe"), ("include_sr_ndvi", "sr_ndvi"), ("include_sr_ndmi", "sr_ndmi"),
    ("include_sr_nbr", "sr_nbr"), ("include_sr_nbr2", "sr_nbr2"), ("include_sr_savi", "sr_savi"),
    ("include_sr_msavi", "sr_msavi"), ("include_sr_evi", "sr_evi"), ("include_st", "st"),
    ("include_pixel_qa", "pixel_qa")]

  /** prod_map: every product row puts the constant True. */
  const ProdMap: seq<Row> := seq(|ProdPairs|, i requires 0 <= i < |ProdPairs| => Flag(ProdPairs[i].0, ProdPairs[i].1))

  const ResampleMap: seq<Row> := [Copies("cubic", "cc"), Copies("near", "nn"), Copies("bilinear", "bil")]

  const KeywordsMap: seq<Row> := [
    Nests("resize", "resize", ResizeMap), Nests("resample_method", "resampling_method", ResampleMap),
    Copies("output_format", "format"), Nests("image_extents", "image_extents", ExtMap),
    Nests("reproject", "projection", ProjNamesMap)]

  /** The nested names of the keywords that carry nested properties (majorwords). */
  const MajorNew: set<string> := {"resize", "image_extents", "projection"}

  /** The shortnames of the sensor table. */
  function SensorKeys(): set<string>
  {
    Sensor.PatternKeys()
  }

  // ---------------------------------------------------------------- lookups

  predicate HasFrom(row: Row, key: string)
  {
    row.names.Some? && row.names.value.0 == key
  }

  /** The rows read in the other direction: zip(to, from, conv). */
  function Swap(rows: seq<Row>): (r: seq<Row>)
    ensures |r| == |rows|
    ensures forall i :: 0 <= i < |rows| ==> r[i].conv == rows[i].conv
    ensures forall i :: 0 <= i < |rows| ==>
              r[i].names == (if rows[i].names.None? then None else Some((rows[i].names.value.1, rows[i].names.value.0)))
  {
    seq(|rows|, i requires 0 <= i < |rows| =>
      Row(if rows[i].names.None? then None else Some((rows[i].names.value.1, rows[i].names.value.0)), rows[i].conv))
  }

  /** tuple.index on the from column: the first row whose from name is key. */
  function IndexIn(rows: seq<Row>, key: string): (r: Option<nat>)
    ensures r.None? <==> forall j :: 0 <= j < |rows| ==> !HasFrom(rows[j], key)
    ensures r.Some? ==> r.value < |rows| && HasFrom(rows[r.value], key)
    ensures r.Some? ==> forall j :: 0 <= j < r.value ==> !HasFrom(rows[j], key)
  {
    IndexFromRow(rows, key, 0)
  }

  function IndexFromRow(rows: seq<Row>, key: string, k: nat): (r: Option<nat>)
    requires k <= |rows| && forall j :: 0 <= j < k ==> !HasFrom(rows[j], key)
    ensures r.None? <==> forall j :: 0 <= j < |rows| ==> !HasFrom(rows[j], key)
    ensures r.Some? ==> k <= r.value < |rows| && HasFrom(rows[r.value], key)
    ensures r.Some? ==> forall j :: 0 <= j < r.value ==> !HasFrom(rows[j], key)
    decreases |rows| - k
  {
    if k == |rows| then None
    else if HasFrom(rows[k], key) then Some(k)
    else IndexFromRow(rows, key, k + 1)
  }

  /** The to name of the row a key selects. */
  function Target(rows: seq<Row>, key: string): string
    requires IndexIn(rows, key).Some?
  {
    rows[IndexIn(rows, key).value].names.value.1
  }

  function ReprName(n: Option<string>): string
  {
    if n.None? then "None" else "'" + n.value + "'"
  }

  /** str() of the from column, a tuple of strings and None. */
  function FromTuple(rows: seq<Row>): string
  {
    var items := seq(|rows|, i requires 0 <= i < |rows| =>
      ReprName(if rows[i].names.None? then None else Some(rows[i].names.value.0)));
    if |items| == 1 then "(" + items[0] + ",)" else "(" + Join(items, ", ") + ")"
  }

  // ---------------------------------------------------------------- _translate

  /**
   * One key of _translate's input, with its value when the input is a dict
   * (None when it is a list of names). Keys that are not strings are never
   * found in a table.
   */
  type Entry = (Json, Option<Json>)

  /** What _translate adds for one key: a (name, value) pair, nothing, or what it raises. */
  function Contribution(rows: seq<Row>, e: Entry): Result<Option<(string, Json)>>
  {
    if !e.0.JStr? then Err(Raised(ValueError, "Not found in tuple: " + FromTuple(rows)))
    else
      var key := e.0.s;
      match IndexIn(rows, key)
      case None => Err(Raised(ValueError, key + " Not found in tuple: " + FromTuple(rows)))
      case Some(i) =>
        var to := rows[i].names.value.1;
        match rows[i].conv
        case Nested(_) =>
          if key in MajorNew then Ok(Some((to, JBool(true))))
          else if key == "resampling_method" then Ok(None)
          else Ok(Some((to, JStr(key))))
        case Const(v) => Ok(Some((to, v)))
        case Copy =>
          if e.1.None? then Err(Raised(TypeError, "list indices must be integers, not str"))
          else Ok(Some((to, e.1.value)))
  }

  predicate Fails(rows: seq<Row>, e: Entry)
  {
    Contribution(rows, e).Err?
  }

  /** The entry sets name t. */
  predicate Gives(rows: seq<Row>, e: Entry, t: string)
  {
    Puts(Contribution(rows, e), t)
  }

  /** The dict _translate builds from the entries taken in order, or the first error. */
  function Translated(rows: seq<Row>, opts: seq<Entry>): Result<map<string, Json>>
  {
    if opts == [] then Ok(map[])
    else
      match Translated(rows, opts[..|opts| - 1])
      case Err(e) => Err(e)
      case Ok(acc) =>
        match Contribution(rows, opts[|opts| - 1])
        case Err(e) => Err(e)
        case Ok(None) => Ok(acc)
        case Ok(Some(pair)) => Ok(acc[pair.0 := pair.1])
  }

  /** _translate */
  method Translate(rows: seq<Row>, opts: seq<Entry>) returns (r: Result<map<string, Json>>)
    ensures r == Translated(rows, opts)
  {
    var ret: map<string, Json> := map[];
    var i := 0;
    while i < |opts|
      invariant 0 <= i <= |opts| && Translated(rows, opts[..i]) == Ok(ret)
    {
      assert opts[..i + 1][..i] == opts[..i];
      var c := Contribution(rows, opts[i]);
      if c.Err? {
        ErrorPersists(rows, opts, i + 1);
        return Err(c.error);
      }
      if c.value.Some? {
        ret := ret[c.value.value.0 := c.value.value.1];
      }
      i := i + 1;
    }
    assert opts[..i] == opts;
    r := Ok(ret);
  }

  /** Once a prefix of the keys raises, so does the whole translation, with the same error. */
  lemma {:induction false} ErrorPersists(rows: seq<Row>, opts: seq<Entry>, k: nat)
    requires k <= |opts| && Translated(rows, opts[..k]).Err?
    ensures Translated(rows, opts) == Translated(rows, opts[..k])
    decreases |opts| - k
  {
    if k < |opts| {
      assert opts[..k + 1][..k] == opts[..k];
      ErrorPersists(rows, opts, k + 1);
    } else {
      assert opts[..k] == opts;
    }
  }

  /** What each entry contributes, in order. */
  function Contributions(rows: seq<Row>, opts: seq<Entry>): (r: seq<Result<Option<(string, Json)>>>)
    ensures |r| == |opts| && forall i :: 0 <= i < |opts| ==> r[i] == Contribution(rows, opts[i])
  {
    seq(|opts|, i requires 0 <= i < |opts| => Contribution(rows, opts[i]))
  }

  /** The dict built from contributions taken in order, or the first error. */
  function Folded(cs: seq<Result<Option<(string, Json)>>>): Result<map<string, Json>>
  {
    if cs == [] then Ok(map[])
    else
      match Folded(cs[..|cs| - 1])
      case Err(e) => Err(e)
      case Ok(acc) =>
        match cs[|cs| - 1]
        case Err(e) => Err(e)
        case Ok(None) => Ok(acc)
        case Ok(Some(pair)) => Ok(acc[pair.0 := pair.1])
  }

  /** The contribution sets name t. */
  predicate Puts(c: Result<Option<(string, Json)>>, t: string)
  {
    c.Ok? && c.value.Some? && c.value.value.0 == t
  }

  /** _translate is the fold of the entries' contributions. */
  lemma {:induction false} TranslatedFolded(rows: seq<Row>, opts: seq<Entry>)
    ensures Translated(rows, opts) == Folded(Contributions(rows, opts))
  {
    if opts != [] {
      var n := |opts| - 1;
      TranslatedFolded(rows, opts[..n]);
      assert Contributions(rows, opts)[..n] == Contributions(rows, opts[..n]);
    }
  }

  /** The fold fails exactly when some contribution does, and then with the first one's error. */
  lemma {:induction false} FoldedErrors(cs: seq<Result<Option<(string, Json)>>>)
    ensures Folded(cs).Err? <==> exists i :: 0 <= i < |cs| && cs[i].Err?
    ensures forall i :: 0 <= i < |cs| && cs[i].Err? && (forall j :: 0 <= j < i ==> cs[j].Ok?) ==> Folded(cs) == Err(cs[i].error)
  {
    if cs != [] {
      var front := cs[..|cs| - 1];
      FoldedErrors(front);
      assert forall i :: 0 <= i < |front| ==> front[i] == cs[i];
    }
  }

  /** After a successful fold a name is set exactly when some contribution sets it, to the last such value. */
  lemma {:induction false} FoldedValues(cs: seq<Result<Option<(string, Json)>>>)
    requires Folded(cs).Ok?
    ensures forall t :: t in Folded(cs).value <==> exists i :: 0 <= i < |cs| && Puts(cs[i], t)
    ensures forall i, t :: 0 <= i < |cs| && Puts(cs[i], t) && (forall j :: i < j < |cs| ==> !Puts(cs[j], t)) ==>
              Folded(cs).value[t] == cs[i].value.value.1
  {
    if cs != [] {
      var n := |cs| - 1;
      var front := cs[..n];
      FoldedValues(front);
      assert forall i :: 0 <= i < n ==> front[i] == cs[i];
    }
  }

  /** _translate raises exactly when some key fails, and then with the first failing key's error. */
  lemma TranslatedErrors(rows: seq<Row>, opts: seq<Entry>)
    ensures Translated(rows, opts).Err? <==> exists i :: 0 <= i < |opts| && Fails(rows, opts[i])
    ensures forall i :: 0 <= i < |opts| && Fails(rows, opts[i]) && (forall j :: 0 <= j < i ==> !Fails(rows, opts[j])) ==>
              Translated(rows, opts) == Err(Contribution(rows, opts[i]).error)
  {
    TranslatedFolded(rows, opts);
    FoldedErrors(Contributions(rows, opts));
  }

  /**
   * After a successful _translate, a name is set exactly when some key sets
   * it, and holds what the last such key put there.
   */
  lemma TranslatedValues(rows: seq<Row>, opts: seq<Entry>)
    requires Translated(rows, opts).Ok?
    ensures forall t :: t in Translated(rows, opts).value <==> exists i :: 0 <= i < |opts| && Gives(rows, opts[i], t)
    ensures forall i, t :: 0 <= i < |opts| && Gives(rows, opts[i], t) && (forall j :: i < j < |opts| ==> !Gives(rows, opts[j], t)) ==>
              Translated(rows, opts).value[t] == Contribution(rows, opts[i]).value.value.1
  {
    TranslatedFolded(rows, opts);
    var cs := Contributions(rows, opts);
    FoldedValues(cs);
  }

  // ---------------------------------------------------------------- product flags

  /** Both columns of the product table are free of repeats. */
  lemma {:induction false} ProdPairsDistinct()
    ensures forall i, j :: 0 <= i < j < |ProdPairs| ==> ProdPairs[i].0 != ProdPairs[j].0
    ensures forall i, j :: 0 <= i < j < |ProdPairs| ==> ProdPairs[i].1 != ProdPairs[j].1
  {
  }

  /** Every legacy product flag is named include_*. */
  lemma ProdFlagsPrefixed(i: nat)
    requires i < |ProdPairs|
    ensures StartsWith(ProdPairs[i].0, "include_")
  {
  }

  /** Every row is named, with no repeated name in either column. */
  predicate Distinct(rows: seq<Row>)
  {
    && (forall i :: 0 <= i < |rows| ==> rows[i].names.Some?)
    && (forall i, j :: 0 <= i < j < |rows| ==> rows[i].names.value.0 != rows[j].names.value.0)
    && (forall i, j :: 0 <= i < j < |rows| ==> rows[i].names.value.1 != rows[j].names.value.1)
  }

  /** A table of distinct names whose every row puts True. */
  predicate FlagTable(rows: seq<Row>)
  {
    Distinct(rows) && forall i :: 0 <= i < |rows| ==> rows[i].conv == Const(JBool(true))
  }

  lemma ProdMapFlagTable()
    ensures FlagTable(ProdMap) && FlagTable(Swap(ProdMap))
  {
    ProdPairsDistinct();
  }

  /** The row whose from name is in keys sets its to name. */
  predicate Sets(row: Row, keys: set<string>, t: string)
  {
    row.names.Some? && row.names.value.0 in keys && row.names.value.1 == t
  }

  /** The flags a set of names sets through a table of flag rows: True at the to name of each row whose from name is given. */
  function Flags(rows: seq<Row>, keys: set<string>): (r: map<string, Json>)
    ensures forall t :: t in r <==> exists i :: 0 <= i < |rows| && Sets(rows[i], keys, t)
    ensures forall t :: t in r ==> r[t] == JBool(true)
  {
    if rows == [] then map[]
    else
      var rest := Flags(rows[1..], keys);
      assert forall i :: 1 <= i < |rows| ==> rows[i] == rows[1..][i - 1];
      if rows[0].names.Some? && rows[0].names.value.0 in keys then rest[rows[0].names.value.1 := JBool(true)] else rest
  }

  /** The keys of a list of names, with no values (a list passed to _translate). */
  function Unvalued(xs: seq<Json>): (r: seq<Entry>)
    ensures |r| == |xs| && forall i :: 0 <= i < |xs| ==> r[i] == (xs[i], None)
  {
    seq(|xs|, i requires 0 <= i < |xs| => (xs[i], None))
  }

  predicate Known(rows: seq<Row>, x: Json)
  {
    x.JStr? && IndexIn(rows, x.s).Some?
  }

  /** The strings among a list of names. */
  function NamesOf(xs: seq<Json>): set<string>
  {
    set i | 0 <= i < |xs| && xs[i].JStr? :: xs[i].s
  }

  /** Translating known names through a flag table sets exactly their flags. */
  lemma {:induction false} FlagsTranslated(rows: seq<Row>, xs: seq<Json>)
    requires FlagTable(rows)
    requires forall i :: 0 <= i < |xs| ==> Known(rows, xs[i])
    ensures Translated(rows, Unvalued(xs)) == Ok(Flags(rows, NamesOf(xs)))
  {
    var opts := Unvalued(xs);
    TranslatedErrors(rows, opts);
    FlagsTranslatedKeys(rows, xs);
    TranslatedTrue(rows, opts);
    SameValued(Translated(rows, opts).value, Flags(rows, NamesOf(xs)), JBool(true));
  }

  /** Through a flag table every name set is set to True. */
  lemma TranslatedTrue(rows: seq<Row>, opts: seq<Entry>)
    requires FlagTable(rows) && Translated(rows, opts).Ok?
    ensures forall t :: t in Translated(rows, opts).value ==> Translated(rows, opts).value[t] == JBool(true)
  {
    TranslatedValues(rows, opts);
    forall t | t in Translated(rows, opts).value
      ensures Translated(rows, opts).value[t] == JBool(true)
    {
      var i :| 0 <= i < |opts| && Gives(rows, opts[i], t);
      LastGiver(rows, opts, t, i);
    }
  }

  /** Two maps with the same keys and one value everywhere are equal. */
  lemma SameValued<K, V>(m: map<K, V>, f: map<K, V>, v: V)
    requires m.Keys == f.Keys
    requires forall k :: k in m ==> m[k] == v
    requires forall k :: k in f ==> f[k] == v
    ensures m == f
  {
  }

  /** Through a flag table translating names sets exactly the flags of those names. */
  lemma FlagsTranslatedKeys(rows: seq<Row>, xs: seq<Json>)
    requires FlagTable(rows)
    requires forall i :: 0 <= i < |xs| ==> Known(rows, xs[i])
    requires Translated(rows, Unvalued(xs)).Ok?
    ensures Translated(rows, Unvalued(xs)).value.Keys == Flags(rows, NamesOf(xs)).Keys
  {
    var opts := Unvalued(xs);
    TranslatedValues(rows, opts);
    var m := Translated(rows, opts).value;
    var f := Flags(rows, NamesOf(xs));
    forall t | t in m
      ensures t in f
    {
      var i :| 0 <= i < |opts| && Gives(rows, opts[i], t);
      GivesKnown(rows, xs, i, t);
    }
    forall t | t in f
      ensures t in m
    {
      var k :| 0 <= k < |rows| && Sets(rows[k], NamesOf(xs), t);
      var i :| 0 <= i < |xs| && xs[i].JStr? && xs[i].s == rows[k].names.value.0;
      GivesKnown(rows, xs, i, t);
    }
  }

  /** A known name given without a value sets the to name of its row, and nothing else. */
  lemma GivesKnown(rows: seq<Row>, xs: seq<Json>, i: nat, t: string)
    requires FlagTable(rows) && i < |xs| && Known(rows, xs[i])
    ensures var k := IndexIn(rows, xs[i].s).value;
            k < |rows| && rows[k].names.value.0 == xs[i].s
            && (Gives(rows, Unvalued(xs)[i], t) <==> rows[k].names.value.1 == t)
            && (rows[k].names.value.1 == t ==> Sets(rows[k], NamesOf(xs), t))
    ensures forall k :: 0 <= k < |rows| && rows[k].names.value.0 == xs[i].s ==> IndexIn(rows, xs[i].s) == Some(k)
  {
  }

  /** Among the keys that set t, there is a last one. */
  lemma {:induction false} LastGiver(rows: seq<Row>, opts: seq<Entry>, t: string, i: nat)
    requires FlagTable(rows) && Translated(rows, opts).Ok?
    requires i < |opts| && Gives(rows, opts[i], t)
    ensures t in Translated(rows, opts).value && Translated(rows, opts).value[t] == JBool(true)
    decreases |opts| - i
  {
    TranslatedValues(rows, opts);
    if j :| i < j < |opts| && Gives(rows, opts[j], t) {
      LastGiver(rows, opts, t, j);
    }
  }

  /** Through a flag table and back, a set of known names comes back unchanged. */
  lemma {:induction false} FlagsRoundTrip(rows: seq<Row>, keys: set<string>)
    requires FlagTable(rows) && FlagTable(Swap(rows))
    requires forall k :: k in keys ==> IndexIn(rows, k).Some?
    ensures Flags(Swap(rows), Flags(rows, keys).Keys).Keys == keys
  {
    var there := Flags(rows, keys);
    var back := Flags(Swap(rows), there.Keys);
    forall k
      ensures k in back <==> k in keys
    {
      if k in keys {
        var i := IndexIn(rows, k).value;
        assert rows[i].names.value.1 in there;
        assert Swap(rows)[i].names.value.0 == rows[i].names.value.1;
      }
      if k in back {
        var i :| 0 <= i < |rows| && Swap(rows)[i].names.value.0 in there.Keys && Swap(rows)[i].names.value.1 == k;
        var j :| 0 <= j < |rows| && rows[j].names.value.0 in keys && rows[j].names.value.1 == rows[i].names.value.1;
        assert i == j;
      }
    }
  }

  // ---------------------------------------------------------------- _flatten

  /** opts[key]['products']: what indexing a sensor entry gives, or raises. */
  function ProductsOf(val: Json): Result<Json>
  {
    GetItem(val, "products")
  }

  predicate Iterable(j: Json)
  {
    j.JList? || j.JStr? || j.JObj?
  }

  /** The values iterating j visits: list items, one-character strings, or dict keys. */
  function Elements(j: Json): set<Json>
  {
    match j
    case JList(items) => set x | x in items
    case JStr(s) => set i | 0 <= i < |s| :: JStr([s[i]])
    case JObj(fields) => set k | k in fields :: JStr(k)
    case _ => {}
  }

  /** list.extend(j): the values iterating j visits, in its order, or a TypeError. */
  method Extension(j: Json) returns (r: Result<seq<Json>>)
    ensures r.Ok? <==> Iterable(j)
    ensures r.Ok? ==> (set x | x in r.value) == Elements(j)
    ensures j.JList? ==> r == Ok(j.items)
  {
    match j
    case JList(items) =>
      r := Ok(items);
    case JStr(s) =>
      var chars := CharsOf(s);
      r := Ok(chars);
    case JObj(fields) =>
      var keys := KeysOf(fields);
      r := Ok(keys);
    case _ =>
      r := Err(Raised(TypeError, "'" + TypeName(j) + "' object is not iterable"));
  }

  /** Iterating a string: its one-character strings. */
  method CharsOf(s: string) returns (chars: seq<Json>)
    ensures (set x | x in chars) == Elements(JStr(s))
  {
    chars := seq(|s|, i requires 0 <= i < |s| => JStr([s[i]]));
    forall x
      ensures x in chars <==> x in Elements(JStr(s))
    {
      if x in Elements(JStr(s)) {
        var i :| 0 <= i < |s| && x == JStr([s[i]]);
        assert chars[i] == x;
      }
    }
  }

  /** Iterating a dict: its keys, in some order. */
  method KeysOf(fields: map<string, Json>) returns (keys: seq<Json>)
    ensures (set x | x in keys) == Elements(JObj(fields))
  {
    keys := Sensor.VisitKeys(fields);
    forall x
      ensures x in keys <==> x in Elements(JObj(fields))
    {
      if x in keys {
        var i :| 0 <= i < |keys| && keys[i] == x;
        assert JStr(x.s) in keys;
      }
    }
  }

  /** The products named by the sensor entries among keys. */
  function SensorProducts(fields: map<string, Json>, sensors: set<string>, keys: set<string>): set<Json>
  {
    set k, x | k in keys && k in fields && k in sensors && ProductsOf(fields[k]).Ok?
                 && x in Elements(ProductsOf(fields[k]).value) :: x
  }

  function Strings(xs: set<Json>): set<string>
  {
    set x | x in xs && x.JStr? :: x.s
  }

  /** Every from name of a table and of the tables nested in it. */
  function LegacyNames(rows: seq<Row>): set<string>
    decreases rows
  {
    if rows == [] then {}
    else
      assert rows[0] in rows;
      RowLegacyNames(rows[0]) + LegacyNames(rows[1..])
  }

  function RowLegacyNames(row: Row): set<string>
    decreases row
  {
    (if row.names.Some? then {row.names.value.0} else {})
    + (match row.conv case Nested(sub) => LegacyNames(sub) case _ => {})
  }

  /** The keys _flatten accepts at one level of a nested table. */
  predicate Recognised(attrMap: seq<Row>, sensors: set<string>, key: string)
  {
    key in sensors || IndexIn(Swap(attrMap), key).Some? || key == "plot_statistics" || key == "note"
  }

  /**
   * Only sensor entries, a note and the plot flag, where the table names
   * neither of the last two: the input carries products and nothing else.
   */
  predicate OnlyProducts(attrMap: seq<Row>, sensors: set<string>, fields: map<string, Json>)
  {
    forall k :: k in fields ==>
      k in sensors || ((k == "note" || k == "plot_statistics") && IndexIn(Swap(attrMap), k).None?)
  }

  lemma {:induction false} RowInLegacy(rows: seq<Row>, i: nat)
    requires i < |rows|
    ensures RowLegacyNames(rows[i]) <= LegacyNames(rows)
  {
    if i > 0 {
      RowInLegacy(rows[1..], i - 1);
      assert rows[1..][i - 1] == rows[i];
    }
  }

  /** How many rows a table holds, nested rows included: what _flatten's recursion uses up. */
  function RowsSize(rows: seq<Row>): nat
    decreases rows
  {
    if rows == [] then 0
    else
      assert rows[0] in rows;
      RowSize(rows[0]) + RowsSize(rows[1..])
  }

  function RowSize(row: Row): nat
    decreases row
  {
    1 + match row.conv case Nested(sub) => RowsSize(sub) case _ => 0
  }

  lemma {:induction false} RowSizeBound(rows: seq<Row>, i: nat)
    requires i < |rows|
    ensures RowSize(rows[i]) <= RowsSize(rows)
  {
    if i > 0 {
      RowSizeBound(rows[1..], i - 1);
      assert rows[1..][i - 1] == rows[i];
    }
  }

  /** Translating one key sets nothing but the name its row points to. */
  lemma TranslateOneKey(rows: seq<Row>, key: string, val: Json)
    requires IndexIn(rows, key).Some? && Translated(rows, [(JStr(key), Some(val))]).Ok?
    ensures Translated(rows, [(JStr(key), Some(val))]).value.Keys <= {Target(rows, key)}
  {
    assert [(JStr(key), Some(val))][..0] == [];
  }

  /** A key that sets a name sets the to name of the row it selects. */
  lemma GivesTarget(rows: seq<Row>, e: Entry, t: string)
    requires Gives(rows, e, t)
    ensures e.0.JStr? && IndexIn(rows, e.0.s).Some? && t == Target(rows, e.0.s)
  {
  }

  /** _translate through the reversed product table sets only legacy flag names. */
  lemma ProdTranslatedKeys(products: seq<Row>, opts: seq<Entry>)
    requires Translated(Swap(products), opts).Ok?
    ensures Translated(Swap(products), opts).value.Keys <= LegacyNames(products)
  {
    TranslatedValues(Swap(products), opts);
    forall t | t in Translated(Swap(products), opts).value
      ensures t in LegacyNames(products)
    {
      var i :| 0 <= i < |opts| && Gives(Swap(products), opts[i], t);
      GivesTarget(Swap(products), opts[i], t);
      var k := IndexIn(Swap(products), opts[i].0.s).value;
      RowInLegacy(products, k);
      assert products[k].names.Some?;
      assert t in RowLegacyNames(products[k]);
    }
  }

  /** Adding one key to those visited adds that entry's products. */
  lemma SensorProductsAdd(fields: map<string, Json>, sensors: set<string>, keys: set<string>, key: string)
    ensures SensorProducts(fields, sensors, keys + {key})
            == SensorProducts(fields, sensors, keys)
               + (if key in fields && key in sensors && ProductsOf(fields[key]).Ok?
                  then Elements(ProductsOf(fields[key]).value) else {})
  {
  }

  /** The product list grows by the products of the key just visited. */
  lemma ProductsStep(fields: map<string, Json>, sensors: set<string>, done: set<string>, key: string,
                     prodLs: seq<Json>, added: seq<Json>)
    requires (set x | x in prodLs) == SensorProducts(fields, sensors, done)
    requires key in fields
    requires key in sensors ==> ProductsOf(fields[key]).Ok? && (set x | x in added) == Elements(ProductsOf(fields[key]).value)
    requires key !in sensors ==> added == []
    ensures (set x | x in prodLs + added) == SensorProducts(fields, sensors, done + {key})
  {
    SensorProductsAdd(fields, sensors, done, key);
    assert (set x | x in prodLs + added) == (set x | x in prodLs) + (set x | x in added);
  }

  lemma NamesOfStrings(xs: seq<Json>)
    ensures NamesOf(xs) == Strings(set x | x in xs)
  {
    forall n | n in Strings(set x | x in xs)
      ensures n in NamesOf(xs)
    {
      var i :| 0 <= i < |xs| && xs[i] == JStr(n);
    }
  }

  /** A name a flag table does not reject is one it knows. */
  lemma NotFailsKnown(rows: seq<Row>, xs: seq<Json>)
    requires Translated(rows, Unvalued(xs)).Ok?
    ensures forall i :: 0 <= i < |xs| ==> Known(rows, xs[i])
  {
    TranslatedErrors(rows, Unvalued(xs));
    forall i | 0 <= i < |xs|
      ensures Known(rows, xs[i])
    {
      assert !Fails(rows, Unvalued(xs)[i]);
    }
  }

  /** The product list of a whole input, translated through the reversed product table. */
  lemma ProductFlags(fields: map<string, Json>, sensors: set<string>, products: seq<Row>, prodLs: seq<Json>)
    requires FlagTable(Swap(products))
    requires (set x | x in prodLs) == SensorProducts(fields, sensors, fields.Keys)
    requires Translated(Swap(products), Unvalued(prodLs)).Ok?
    ensures Translated(Swap(products), Unvalued(prodLs)).value
            == Flags(Swap(products), Strings(SensorProducts(fields, sensors, fields.Keys)))
    ensures Translated(Swap(products), Unvalued(prodLs)).value.Keys <= LegacyNames(products)
    ensures forall x :: x in SensorProducts(fields, sensors, fields.Keys) ==> Known(Swap(products), x)
  {
    NotFailsKnown(Swap(products), prodLs);
    FlagsTranslated(Swap(products), prodLs);
    NamesOfStrings(prodLs);
    ProdTranslatedKeys(products, Unvalued(prodLs));
    forall x | x in SensorProducts(fields, sensors, fields.Keys)
      ensures Known(Swap(products), x)
    {
      assert x in (set x | x in prodLs);
    }
  }

  /**
   * What one key of _flatten adds: the key is one _flatten knows; a sensor
   * entry adds its products (a list) and nothing flat; any other key adds
   * no product; every flat name is a legacy one, and nothing flat comes
   * from a key that is no table entry.
   */
  ghost predicate KeyFlattened(fields: map<string, Json>, attrMap: seq<Row>, sensors: set<string>, products: seq<Row>,
                               key: string, add: map<string, Json>, added: seq<Json>)
    requires key in fields
  {
    && Recognised(attrMap, sensors, key)
    && (key in sensors ==>
          && ProductsOf(fields[key]).Ok? && Iterable(ProductsOf(fields[key]).value)
          && (set x | x in added) == Elements(ProductsOf(fields[key]).value))
    && (key !in sensors ==> added == [])
    && add.Keys <= LegacyNames(attrMap) + LegacyNames(products)
    && ((key in sensors || IndexIn(Swap(attrMap), key).None?) ==> add == map[])
  }

  /**
   * One key of _flatten's loop: what it adds to the flat result and to the
   * product list, or what it raises. The sensor shortnames and the product
   * table are the module-level tables _flatten consults.
   */
  method FlattenKey(fields: map<string, Json>, attrMap: seq<Row>, sensors: set<string>, products: seq<Row>, key: string)
    returns (r: Result<(map<string, Json>, seq<Json>)>)
    requires FlagTable(Swap(products)) && key in fields
    ensures r.Ok? ==> KeyFlattened(fields, attrMap, sensors, products, key, r.value.0, r.value.1)
    decreases RowsSize(attrMap), 0
  {
    var val := fields[key];
    var convMap := Swap(attrMap);
    if key in sensors {
      var p := ProductsOf(val);
      if p.Err? {
        return Err(p.error);
      }
      var ext := Extension(p.value);
      if ext.Err? {
        return Err(ext.error);
      }
      return Ok((map[], ext.value));
    } else if IndexIn(convMap, key).Some? {
      var idx := IndexIn(convMap, key).value;
      var t := Translate(convMap, [(JStr(key), Some(val))]);
      if t.Err? {
        return Err(t.error);
      }
      TranslateOneKey(convMap, key, val);
      RowInLegacy(attrMap, idx);
      match attrMap[idx].conv
      case Nested(sub) =>
        RowSizeBound(attrMap, idx);
        var inner := Flatten(val, sub, sensors, products);
        if inner.Err? {
          return Err(inner.error);
        }
        return Ok((t.value + inner.value, []));
      case _ =>
        return Ok((t.value, []));
    } else if key == "plot_statistics" || key == "note" {
      return Ok((map[], []));
    } else {
      return Err(Raised(ValueError, "Unrecognized key: " + key));
    }
  }

  /**
   * _flatten's loop after the keys in done: each is one _flatten knows,
   * each sensor entry's products are a list, the product list holds the
   * products of the sensor entries, every flat name is a legacy one, and
   * nothing flat is set unless some key is a table entry.
   */
  ghost predicate FlattenSoFar(fields: map<string, Json>, attrMap: seq<Row>, sensors: set<string>, products: seq<Row>,
                               done: set<string>, ret: map<string, Json>, prodLs: seq<Json>)
  {
    && (forall k :: k in fields && k in done ==> Recognised(attrMap, sensors, k))
    && (forall k :: k in fields && k in done && k in sensors ==>
          ProductsOf(fields[k]).Ok? && Iterable(ProductsOf(fields[k]).value))
    && (set x | x in prodLs) == SensorProducts(fields, sensors, done)
    && ret.Keys <= LegacyNames(attrMap) + LegacyNames(products)
    && ((forall k :: k in fields && k in done ==> k in sensors || IndexIn(Swap(attrMap), k).None?) ==> ret == map[])
  }

  /** One more key of rest flattened as FlattenKey promises keeps FlattenSoFar. */
  lemma FlattenStep(fields: map<string, Json>, attrMap: seq<Row>, sensors: set<string>, products: seq<Row>,
                    rest: set<string>, key: string, ret: map<string, Json>, prodLs: seq<Json>,
                    add: map<string, Json>, added: seq<Json>)
    requires rest <= fields.Keys && key in rest
    requires FlattenSoFar(fields, attrMap, sensors, products, fields.Keys - rest, ret, prodLs)
    requires KeyFlattened(fields, attrMap, sensors, products, key, add, added)
    ensures FlattenSoFar(fields, attrMap, sensors, products, fields.Keys - (rest - {key}), ret + add, prodLs + added)
  {
    ProductsStep(fields, sensors, fields.Keys - rest, key, prodLs, added);
    assert fields.Keys - (rest - {key}) == (fields.Keys - rest) + {key};
  }

  /** One pass of _flatten's loop: the next key flattened and added, or what it raises. */
  method FlattenNext(fields: map<string, Json>, attrMap: seq<Row>, sensors: set<string>, products: seq<Row>,
                     rest: set<string>, ret: map<string, Json>, prodLs: seq<Json>)
    returns (err: Option<Raised>, rest1: set<string>, ret1: map<string, Json>, prodLs1: seq<Json>)
    requires FlagTable(Swap(products)) && rest != {} && rest <= fields.Keys
    requires FlattenSoFar(fields, attrMap, sensors, products, fields.Keys - rest, ret, prodLs)
    ensures err.None? ==> (rest1 <= fields.Keys && |rest1| < |rest|
                           && FlattenSoFar(fields, attrMap, sensors, products, fields.Keys - rest1, ret1, prodLs1))
    decreases RowsSize(attrMap), 1
  {
    var key :| key in rest;
    rest1, ret1, prodLs1 := rest, ret, prodLs;
    var step := FlattenKey(fields, attrMap, sensors, products, key);
    if step.Err? {
      return Some(step.error), rest1, ret1, prodLs1;
    }
    FlattenStep(fields, attrMap, sensors, products, rest, key, ret, prodLs, step.value.0, step.value.1);
    err, rest1, ret1, prodLs1 := None, rest - {key}, ret + step.value.0, prodLs + step.value.1;
  }

  /**
   * _flatten's loop over the keys of a dict: the flat options gathered so
   * far and the product list, or what the first offending key raises.
   */
  method FlattenFields(fields: map<string, Json>, attrMap: seq<Row>, sensors: set<string>, products: seq<Row>)
    returns (r: Result<(map<string, Json>, seq<Json>)>)
    requires FlagTable(Swap(products))
    ensures r.Ok? ==> FlattenSoFar(fields, attrMap, sensors, products, fields.Keys, r.value.0, r.value.1)
    decreases RowsSize(attrMap), 2
  {
    var ret: map<string, Json> := map[];
    var prodLs: seq<Json> := [];
    var rest := fields.Keys;
    while rest != {}
      invariant rest <= fields.Keys
      invariant FlattenSoFar(fields, attrMap, sensors, products, fields.Keys - rest, ret, prodLs)
      decreases |rest|
    {
      var err;
      err, rest, ret, prodLs := FlattenNext(fields, attrMap, sensors, products, rest, ret, prodLs);
      if err.Some? {
        return Err(err.value);
      }
    }
    assert fields.Keys - rest == fields.Keys;
    r := Ok((ret, prodLs));
  }

  /**
   * _flatten: the nested options brought to one level under their legacy
   * names, the products of every sensor entry set as legacy flags.
   */
  method Flatten(opts: Json, attrMap: seq<Row>, sensors: set<string>, products: seq<Row>)
    returns (r: Result<map<string, Json>>)
    requires FlagTable(Swap(products))
    ensures !opts.JObj? ==> r == Ok(map[])
    ensures opts.JObj? && r.Ok? ==> forall k :: k in opts.fields ==> Recognised(attrMap, sensors, k)
    ensures opts.JObj? && r.Ok? ==>
              forall k :: k in opts.fields && k in sensors ==>
                ProductsOf(opts.fields[k]).Ok? && Iterable(ProductsOf(opts.fields[k]).value)
    ensures opts.JObj? && r.Ok? ==>
              forall x :: x in SensorProducts(opts.fields, sensors, opts.fields.Keys) ==> Known(Swap(products), x)
    ensures r.Ok? ==> r.value.Keys <= LegacyNames(attrMap) + LegacyNames(products)
    ensures opts.JObj? && r.Ok? ==>
              var flags := Flags(Swap(products), Strings(SensorProducts(opts.fields, sensors, opts.fields.Keys)));
              forall t :: t in flags ==> t in r.value && r.value[t] == JBool(true)
    ensures opts.JObj? && r.Ok? && OnlyProducts(attrMap, sensors, opts.fields) ==>
              r.value == Flags(Swap(products), Strings(SensorProducts(opts.fields, sensors, opts.fields.Keys)))
    decreases RowsSize(attrMap), 3
  {
    if !opts.JObj? {
      return Ok(map[]);
    }
    var gathered := FlattenFields(opts.fields, attrMap, sensors, products);
    if gathered.Err? {
      return Err(gathered.error);
    }
    var (ret, prodLs) := gathered.value;
    var prods := Translate(Swap(products), Unvalued(prodLs));
    if prods.Err? {
      return Err(prods.error);
    }
    ProductFlags(opts.fields, sensors, products, prodLs);
    FlattenCombined(opts.fields, attrMap, sensors, products, ret, prods.value);
    r := Ok(ret + prods.value);
  }

  /** What _flatten returns, the options gathered and the product flags, keeps the bounds of both. */
  lemma FlattenCombined(fields: map<string, Json>, attrMap: seq<Row>, sensors: set<string>, products: seq<Row>,
                        ret: map<string, Json>, flags: map<string, Json>)
    requires ret.Keys <= LegacyNames(attrMap) + LegacyNames(products)
    requires (forall k :: k in fields ==> k in sensors || IndexIn(Swap(attrMap), k).None?) ==> ret == map[]
    requires flags == Flags(Swap(products), Strings(SensorProducts(fields, sensors, fields.Keys)))
    requires flags.Keys <= LegacyNames(products)
    ensures (ret + flags).Keys <= LegacyNames(attrMap) + LegacyNames(products)
    ensures forall t :: t in flags ==> t in ret + flags && (ret + flags)[t] == JBool(true)
    ensures OnlyProducts(attrMap, sensors, fields) ==> ret + flags == flags
  {
    if OnlyProducts(attrMap, sensors, fields) {
      assert forall k :: k in fields ==> k in sensors || IndexIn(Swap(attrMap), k).None?;
    }
  }

  // ---------------------------------------------------------------- _build_nested

  /**
   * The row a legacy key selects in _build_nested: none when the table
   * does not name it or its value is False or None; for target_projection
   * the row whose nested name is the value; otherwise the key's own row.
   */
  function Slot(rows: seq<Row>, key: string, val: Json): (r: Result<Option<nat>>)
    ensures r.Ok? && r.value.Some? ==> r.value.value < |rows| && rows[r.value.value].names.Some?
  {
    if IndexIn(rows, key).None? || val == JBool(false) || val == JNull then Ok(None)
    else if key == "target_projection" then
      if val.JStr? && IndexIn(Swap(rows), val.s).Some? then Ok(Some(IndexIn(Swap(rows), val.s).value))
      else Err(Raised(ValueError, "tuple.index(x): x not in tuple"))
    else Ok(IndexIn(rows, key))
  }

  /** The key selects a row whose nested name is t. */
  predicate Selects(rows: seq<Row>, key: string, val: Json, t: string)
  {
    var s := Slot(rows, key, val);
    s.Ok? && s.value.Some? && rows[s.value.value].names.value.1 == t
  }

  /** No other key of opts selects the name key selects. */
  predicate Sole(opts: map<string, Json>, rows: seq<Row>, key: string)
  {
    key in opts &&
    var s := Slot(rows, key, opts[key]);
    s.Ok? && s.value.Some? &&
    forall k :: k in opts && k != key ==> !Selects(rows, k, opts[k], rows[s.value.value].names.value.1)
  }

  /** _build_nested raises nothing for this key: its row exists, is not a constant, and its sub-table is safe. */
  predicate KeySafe(opts: map<string, Json>, rows: seq<Row>, key: string)
    requires key in opts
    decreases RowsSize(rows), 0
  {
    match Slot(rows, key, opts[key])
    case Err(_) => false
    case Ok(None) => true
    case Ok(Some(i)) =>
      match rows[i].conv
      case Const(_) => false
      case Copy => true
      case Nested(sub) => RowSizeBound(rows, i); SafeFor(opts, sub)
  }

  predicate SafeFor(opts: map<string, Json>, rows: seq<Row>)
    decreases RowsSize(rows), 1
  {
    forall k :: k in opts ==> KeySafe(opts, rows, k)
  }

  /** The entry of m for this key is what _build_nested puts there: the value, or the nested dict of the sub-table. */
  ghost predicate KeyDescribed(opts: map<string, Json>, rows: seq<Row>, key: string, m: map<string, Json>)
    requires key in opts
    decreases RowsSize(rows), 0
  {
    match Slot(rows, key, opts[key])
    case Err(_) => true
    case Ok(None) => true
    case Ok(Some(i)) =>
      var t := rows[i].names.value.1;
      t in m &&
      match rows[i].conv
      case Const(_) => true
      case Copy => m[t] == opts[key]
      case Nested(sub) => RowSizeBound(rows, i); m[t].JObj? && Describes(opts, sub, m[t].fields)
  }

  /**
   * m is the nested dict _build_nested gives for opts and rows: one name
   * for each selected row, with the selecting key's value or sub-dict
   * wherever a single key selects that name.
   */
  ghost predicate Describes(opts: map<string, Json>, rows: seq<Row>, m: map<string, Json>)
    decreases RowsSize(rows), 1
  {
    && (forall t :: t in m <==> exists k :: k in opts && Selects(rows, k, opts[k], t))
    && (forall k :: k in opts && Sole(opts, rows, k) ==> KeyDescribed(opts, rows, k, m))
  }

  /** Whether a key is described depends only on the entry at the name it selects. */
  lemma KeyDescribedLocal(opts: map<string, Json>, rows: seq<Row>, key: string, m1: map<string, Json>, m2: map<string, Json>, t: string)
    requires key in opts && Selects(rows, key, opts[key], t)
    requires t in m1 && t in m2 && m1[t] == m2[t]
    ensures KeyDescribed(opts, rows, key, m1) == KeyDescribed(opts, rows, key, m2)
  {
  }

  /** One key of _build_nested: the (name, value) it sets, nothing, or what it raises. */
  method NestKey(opts: map<string, Json>, rows: seq<Row>, key: string) returns (r: Result<Option<(string, Json)>>)
    requires key in opts
    ensures r.Ok? <==> KeySafe(opts, rows, key)
    ensures r.Ok? ==> (r.value.Some? <==> Slot(rows, key, opts[key]).value.Some?)
    ensures r.Ok? && r.value.Some? ==>
              Selects(rows, key, opts[key], r.value.value.0)
              && KeyDescribed(opts, rows, key, map[r.value.value.0 := r.value.value.1])
    decreases RowsSize(rows), 0
  {
    var val := opts[key];
    var slot := Slot(rows, key, val);
    if slot.Err? {
      return Err(slot.error);
    }
    if slot.value.None? {
      return Ok(None);
    }
    var i := slot.value.value;
    var t := rows[i].names.value.1;
    match rows[i].conv
    case Const(v) =>
      return Err(Raised(TypeError, "zip() argument after * must be a sequence, not " + TypeName(v)));
    case Copy =>
      return Ok(Some((t, val)));
    case Nested(sub) =>
      RowSizeBound(rows, i);
      var inner := BuildNested(opts, sub);
      if inner.Err? {
        return Err(inner.error);
      }
      return Ok(Some((t, JObj(inner.value))));
  }

  /**
   * _build_nested: every legacy key the table names, with a value other
   * than False or None, put under its nested name; tables recurse over the
   * whole of opts.
   */
  method BuildNested(opts: map<string, Json>, rows: seq<Row>) returns (r: Result<map<string, Json>>)
    ensures r.Ok? <==> SafeFor(opts, rows)
    ensures r.Ok? ==> Describes(opts, rows, r.value)
    decreases RowsSize(rows), 1
  {
    var ret: map<string, Json> := map[];
    var rest := opts.Keys;
    while rest != {}
      invariant rest <= opts.Keys
      invariant forall k :: k in opts && k !in rest ==> KeySafe(opts, rows, k)
      invariant forall t :: t in ret <==> exists k :: k in opts && k !in rest && Selects(rows, k, opts[k], t)
      invariant forall k :: k in opts && k !in rest && Sole(opts, rows, k) ==> KeyDescribed(opts, rows, k, ret)
      decreases |rest|
    {
      var key :| key in rest;
      var step := NestKey(opts, rows, key);
      if step.Err? {
        return Err(step.error);
      }
      if step.value.Some? {
        var (t, v) := step.value.value;
        forall k | k in opts && k !in rest && Sole(opts, rows, k)
          ensures KeyDescribed(opts, rows, k, ret[t := v])
        {
          var tk := rows[Slot(rows, k, opts[k]).value.value].names.value.1;
          KeyDescribedLocal(opts, rows, k, ret, ret[t := v], tk);
        }
        KeyDescribedLocal(opts, rows, key, map[t := v], ret[t := v], t);
        ret := ret[t := v];
      }
      rest := rest - {key};
    }
    r := Ok(ret);
  }

  // ---------------------------------------------------------------- _build_nested_sensors

  /** The scenes _build_nested_sensors files under a name, in scene order; 'plot' is no input. */
  function ScenesOf(group: Json -> string, scenes: seq<Json>, key: string): (r: seq<Json>)
    ensures forall j :: 0 <= j < |r| ==> r[j] in scenes && r[j] != JStr("plot") && group(r[j]) == key
  {
    if scenes == [] then []
    else
      var s := scenes[|scenes| - 1];
      var front := ScenesOf(group, scenes[..|scenes| - 1], key);
      if s != JStr("plot") && group(s) == key then front + [s] else front
  }

  /** The entry of one sensor: its inputs and the products every sensor shares. */
  function SensorEntry(inputs: seq<Json>, prods: seq<Json>): Json
  {
    JObj(map["inputs" := JList(inputs), "products" := JList(prods)])
  }

  /**
   * m is what _build_nested_sensors gives: plot_statistics set True when a
   * 'plot' scene is present, and one entry for every name some scene falls
   * under, listing those scenes in order.
   */
  ghost predicate SensorsDescribed(prods: seq<Json>, scenes: seq<Json>, group: Json -> string, m: map<string, Json>)
  {
    && ("plot_statistics" in m <==> JStr("plot") in scenes)
    && ("plot_statistics" in m ==> m["plot_statistics"] == JBool(true))
    && (forall k :: k != "plot_statistics" ==> (k in m <==> ScenesOf(group, scenes, k) != []))
    && (forall k :: k in m && k != "plot_statistics" ==> m[k] == SensorEntry(ScenesOf(group, scenes, k), prods))
  }

  /** The name a scene is filed under: its shortname, or 'invalid' when sensor.instance raises. */
  function GroupName(scene: Json): (r: string)
    ensures r != "plot_statistics" && r != "resampling_method"
  {
    if scene.JStr? && Sensor.Instance(scene.s).Ok? then
      Sensor.InstanceShortname(scene.s);
      Sensor.ReservedNames();
      Sensor.Instance(scene.s).value.shortname
    else "invalid"
  }

  /** Filing one more scene: plot sets the flag, any other scene joins the entry of its name. */
  lemma SensorsStep(prods: seq<Json>, scenes: seq<Json>, group: Json -> string, m: map<string, Json>,
                    scene: Json, m': map<string, Json>)
    requires forall s :: group(s) != "plot_statistics"
    requires SensorsDescribed(prods, scenes, group, m)
    requires scene == JStr("plot") ==> m' == m["plot_statistics" := JBool(true)]
    requires scene != JStr("plot") ==>
               m' == m[group(scene) := SensorEntry(ScenesOf(group, scenes, group(scene)) + [scene], prods)]
    ensures SensorsDescribed(prods, scenes + [scene], group, m')
  {
    var all := scenes + [scene];
    assert all[..|all| - 1] == scenes && all[|all| - 1] == scene;
  }

  /** _build_nested_sensors */
  method BuildNestedSensors(prods: seq<Json>, scenes: seq<Json>, group: Json -> string) returns (r: map<string, Json>)
    requires forall s :: group(s) != "plot_statistics"
    ensures SensorsDescribed(prods, scenes, group, r)
  {
    r := map[];
    var i := 0;
    while i < |scenes|
      invariant 0 <= i <= |scenes|
      invariant SensorsDescribed(prods, scenes[..i], group, r)
    {
      var scene := scenes[i];
      var next: map<string, Json>;
      if scene == JStr("plot") {
        next := r["plot_statistics" := JBool(true)];
      } else {
        var short := group(scene);
        if short in r {
          assert r[short].fields["inputs"].items == ScenesOf(group, scenes[..i], short);
          next := r[short := SensorEntry(r[short].fields["inputs"].items + [scene], prods)];
        } else {
          assert [scene] == ScenesOf(group, scenes[..i], short) + [scene];
          next := r[short := SensorEntry([scene], prods)];
        }
      }
      SensorsStep(prods, scenes[..i], group, r, scene, next);
      assert scenes[..i + 1] == scenes[..i] + [scene];
      r := next;
      i := i + 1;
    }
    assert scenes[..i] == scenes;
  }

  // ---------------------------------------------------------------- resampling names

  /** Reading a table in the other direction twice gives the table back. */
  lemma SwapSwap(rows: seq<Row>)
    ensures Swap(Swap(rows)) == rows
  {
    assert forall i :: 0 <= i < |rows| ==> Swap(Swap(rows))[i] == rows[i];
  }

  /** In a table of distinct names, the to name a key selects leads back to the key. */
  lemma LookupRoundTrip(rows: seq<Row>, key: string)
    requires Distinct(rows) && IndexIn(rows, key).Some?
    ensures IndexIn(Swap(rows), Target(rows, key)).Some?
    ensures Target(Swap(rows), Target(rows, key)) == key
  {
    var i := IndexIn(rows, key).value;
    assert HasFrom(Swap(rows)[i], Target(rows, key));
  }

  /** The nested resampling name of a legacy resample_method value, where the resample table has one. */
  function ResampleToNew(v: Json): Option<string>
  {
    if v.JStr? && IndexIn(ResampleMap, v.s).Some? then Some(Target(ResampleMap, v.s)) else None
  }

  /** The legacy name of a nested resampling_method value: the first row whose nested name is equal to it. */
  function ResampleToOld(v: Json): Option<string>
  {
    if v.JStr? && IndexIn(Swap(ResampleMap), v.s).Some? then Some(Target(Swap(ResampleMap), v.s)) else None
  }

  /** Each way, a resampling name converted and converted back is the original name. */
  lemma ResampleRoundTrip(v: Json)
    ensures ResampleToNew(v).Some? ==> ResampleToOld(JStr(ResampleToNew(v).value)) == Some(v.s)
    ensures ResampleToOld(v).Some? ==> ResampleToNew(JStr(ResampleToOld(v).value)) == Some(v.s)
  {
    assert Distinct(ResampleMap);
    if ResampleToNew(v).Some? {
      LookupRoundTrip(ResampleMap, v.s);
    }
    if ResampleToOld(v).Some? {
      LookupRoundTrip(Swap(ResampleMap), v.s);
      SwapSwap(ResampleMap);
    }
  }

  /** A lone key whose row nests a table that does not name the key itself. */
  predicate LoneNesting(opts: map<string, Json>, rows: seq<Row>, key: string, i: nat)
  {
    && opts.Keys == {key} && opts[key] != JBool(false) && opts[key] != JNull && key != "target_projection"
    && IndexIn(rows, key) == Some(i) && rows[i].conv.Nested? && IndexIn(rows[i].conv.rows, key).None?
  }

  /** _build_nested raises nothing for such a key. */
  lemma LoneNestingSafe(opts: map<string, Json>, rows: seq<Row>, key: string, i: nat)
    requires LoneNesting(opts, rows, key, i)
    ensures SafeFor(opts, rows)
  {
    assert forall k :: k in opts ==> k == key;
    assert SafeFor(opts, rows[i].conv.rows);
  }

  /** ... and puts an empty dict under the row's nested name. */
  lemma LoneNestingEmpty(opts: map<string, Json>, rows: seq<Row>, key: string, i: nat, m: map<string, Json>)
    requires LoneNesting(opts, rows, key, i)
    requires Describes(opts, rows, m)
    ensures m == map[rows[i].names.value.1 := JObj(map[])]
  {
    var t := rows[i].names.value.1;
    assert forall k :: k in opts ==> k == key;
    assert Selects(rows, key, opts[key], t);
    assert Sole(opts, rows, key);
    assert KeyDescribed(opts, rows, key, m);
    var sub := rows[i].conv.rows;
    assert Slot(sub, key, opts[key]) == Ok(None);
    assert Describes(opts, sub, m[t].fields);
    assert forall u :: !Selects(sub, key, opts[key], u);
    assert m[t].fields == map[];
  }

  /** The keyword table's resample row nests the resample table, which has no row for resample_method. */
  lemma ResampleRow()
    ensures IndexIn(KeywordsMap, "resample_method") == Some(1)
    ensures KeywordsMap[1] == Nests("resample_method", "resampling_method", ResampleMap)
    ensures IndexIn(ResampleMap, "resample_method").None?
  {
    assert !HasFrom(KeywordsMap[0], "resample_method") && HasFrom(KeywordsMap[1], "resample_method");
  }

  /**
   * _build_nested on a legacy resample_method: the keyword row nests the
   * resample table, whose legacy names (cubic, near, bilinear) are values
   * and never option keys, so the method is lost and an empty dict stands
   * in its place.
   */
  method ResampleMethodLost() returns (r: Result<map<string, Json>>)
    ensures r == Ok(map["resampling_method" := JObj(map[])])
  {
    var opts := map["resample_method" := JStr("cubic")];
    ResampleRow();
    LoneNestingSafe(opts, KeywordsMap, "resample_method", 1);
    r := BuildNested(opts, KeywordsMap);
    LoneNestingEmpty(opts, KeywordsMap, "resample_method", 1, r.value);
  }

  /**
   * The nested options with the legacy resample_method carried over under
   * its nested name, where the value is one the resample table names.
   */
  function Resampled(rest: map<string, Json>, nested: map<string, Json>): (r: map<string, Json>)
  {
    if "resample_method" in rest && ResampleToNew(rest["resample_method"]).Some? then
      nested["resampling_method" := JStr(ResampleToNew(rest["resample_method"]).value)]
    else nested
  }

  /**
   * The corrected conversion keeps a legacy resample_method that the
   * resample table names: the nested options carry it under
   * resampling_method, converting it back gives the legacy name, and
   * every other nested option is kept.
   */
  lemma ResampledKeepsMethod(rest: map<string, Json>, nested: map<string, Json>)
    requires "resample_method" in rest && ResampleToNew(rest["resample_method"]).Some?
    ensures "resampling_method" in Resampled(rest, nested)
    ensures ResampleToOld(Resampled(rest, nested)["resampling_method"]) == Some(rest["resample_method"].s)
    ensures forall k :: k in nested && k != "resampling_method" ==> k in Resampled(rest, nested) && Resampled(rest, nested)[k] == nested[k]
  {
    ResampleRoundTrip(rest["resample_method"]);
  }

  /** The corrected conversion of the example ResampleMethodLost shows: 'cubic' survives as its nested name. */
  lemma ResampledCubic(nested: map<string, Json>)
    ensures Resampled(map["resample_method" := JStr("cubic")], nested)["resampling_method"] == JStr("cc")
  {
    assert IndexIn(ResampleMap, "cubic") == Some(0);
  }

  // ---------------------------------------------------------------- _convert_old_to_new

  /** The product flags a legacy dict sets to True (the `is True` test). */
  function TrueFlags(legacy: map<string, Json>, products: seq<Row>): set<string>
  {
    set k | k in legacy && IndexIn(products, k).Some? && legacy[k] == JBool(true)
  }

  /** The legacy options left once every product flag, set or not, is taken out. */
  function NonFlags(legacy: map<string, Json>, products: seq<Row>): map<string, Json>
  {
    map k | k in legacy && IndexIn(products, k).None? :: legacy[k]
  }

  /** The nested product names an order converted from legacy options asks for; sr when it names none. */
  function Chosen(legacy: map<string, Json>, products: seq<Row>): set<string>
  {
    var names := Flags(products, TrueFlags(legacy, products)).Keys;
    if names == {} then {"sr"} else names
  }

  /** A list holding exactly the flags set True is a list of known names whose names are those flags. */
  lemma TrueFlagList(legacy: map<string, Json>, products: seq<Row>, prodLs: seq<Json>)
    requires forall x :: x in prodLs <==>
               x.JStr? && x.s in legacy && IndexIn(products, x.s).Some? && legacy[x.s] == JBool(true)
    ensures forall i :: 0 <= i < |prodLs| ==> Known(products, prodLs[i])
    ensures NamesOf(prodLs) == TrueFlags(legacy, products)
  {
    forall i | 0 <= i < |prodLs|
      ensures Known(products, prodLs[i])
    {
      assert prodLs[i] in prodLs;
    }
    forall k | k in TrueFlags(legacy, products)
      ensures k in NamesOf(prodLs)
    {
      var i :| 0 <= i < |prodLs| && prodLs[i] == JStr(k);
    }
  }

  /** The loop of _convert_old_to_new over the legacy keys: the flags set True, and the rest. */
  method SplitFlags(legacy: map<string, Json>, products: seq<Row>) returns (prodLs: seq<Json>, rest: map<string, Json>)
    ensures forall i :: 0 <= i < |prodLs| ==> Known(products, prodLs[i])
    ensures NamesOf(prodLs) == TrueFlags(legacy, products)
    ensures rest == NonFlags(legacy, products)
  {
    prodLs := [];
    rest := legacy;
    var todo := legacy.Keys;
    while todo != {}
      invariant todo <= legacy.Keys && rest.Keys <= legacy.Keys
      invariant forall x :: x in prodLs <==>
                  x.JStr? && x.s in legacy && x.s !in todo && IndexIn(products, x.s).Some? && legacy[x.s] == JBool(true)
      invariant forall k :: k in legacy ==> (k in rest <==> k in todo || IndexIn(products, k).None?)
      invariant forall k :: k in rest ==> rest[k] == legacy[k]
      decreases |todo|
    {
      var key :| key in todo;
      if IndexIn(products, key).Some? {
        if legacy[key] == JBool(true) {
          prodLs := prodLs + [JStr(key)];
        }
        rest := rest - {key};
      }
      todo := todo - {key};
    }
    TrueFlagList(legacy, products, prodLs);
  }

  /** The strings of a list of names are exactly those names. */
  lemma StrListMembers(names: seq<string>)
    ensures forall x :: x in StrList(names) <==> x.JStr? && x.s in names
  {
    forall x: Json | x.JStr? && x.s in names
      ensures x in StrList(names)
    {
      var i :| 0 <= i < |names| && names[i] == x.s;
      assert StrList(names)[i] == x;
    }
  }

  /**
   * The product list _convert_old_to_new gives every sensor: the nested
   * names of the flags set True, in some order, or sr alone when none is.
   */
  method ChosenProducts(products: seq<Row>, prodLs: seq<Json>) returns (prods: seq<Json>)
    requires FlagTable(products)
    requires forall i :: 0 <= i < |prodLs| ==> Known(products, prodLs[i])
    ensures forall x :: x in prods <==>
              x.JStr? && x.s in (var f := Flags(products, NamesOf(prodLs)).Keys; if f == {} then {"sr"} else f)
  {
    FlagsTranslated(products, prodLs);
    var t := Translate(products, Unvalued(prodLs));
    var names := Sensor.KeysInSomeOrder(t.value.Keys);
    prods := StrList(names);
    StrListMembers(names);
    if |prods| < 1 {
      assert t.value.Keys == {};
      prods := [JStr("sr")];
    }
  }

  /**
   * _convert_old_to_new: the product flags set True become the product
   * list of every sensor entry (sr when none is), the other options are
   * nested through the keyword table, and the scenes are filed by sensor.
   * A legacy resample_method is carried over under its nested name.
   */
  method ConvertOldToNew(legacy: map<string, Json>, scenes: seq<Json>)
    returns (r: Result<map<string, Json>>, ghost nested: map<string, Json>, ghost prods: seq<Json>,
             ghost sensors: map<string, Json>)
    ensures forall x :: x in prods <==> x.JStr? && x.s in Chosen(legacy, ProdMap)
    ensures r.Ok? <==> NonFlags(legacy, ProdMap) == map[] || SafeFor(NonFlags(legacy, ProdMap), KeywordsMap)
    ensures r.Ok? ==> r.value == Resampled(NonFlags(legacy, ProdMap), nested) + sensors
    ensures r.Ok? && NonFlags(legacy, ProdMap) == map[] ==> nested == map[]
    ensures r.Ok? && NonFlags(legacy, ProdMap) != map[] ==> Describes(NonFlags(legacy, ProdMap), KeywordsMap, nested)
    ensures r.Ok? ==> SensorsDescribed(prods, scenes, GroupName, sensors)
    ensures r.Ok? ==>
              forall k :: k != "plot_statistics" && ScenesOf(GroupName, scenes, k) != [] ==>
                k in r.value && r.value[k] == SensorEntry(ScenesOf(GroupName, scenes, k), prods)
  {
    var prodLs, rest := SplitFlags(legacy, ProdMap);
    ProdMapFlagTable();
    var ps := ChosenProducts(ProdMap, prodLs);
    prods := ps;
    var ret: map<string, Json> := map[];
    sensors := map[];
    if rest != map[] {
      var b := BuildNested(rest, KeywordsMap);
      if b.Err? {
        return Err(b.error), ret, prods, sensors;
      }
      ret := b.value;
    }
    nested := ret;
    var s := BuildNestedSensors(ps, scenes, GroupName);
    sensors := s;
    r := Ok(Resampled(rest, ret) + s);
  }

  // ---------------------------------------------------------------- _convert_new_to_old

  /** The options with every sensor entry other than the scene's own taken out. */
  function Kept(opts: map<string, Json>, sensors: set<string>, short: string): (r: map<string, Json>)
  {
    map k | k in opts && (k !in sensors || k == short) :: opts[k]
  }

  /** The loop of _convert_new_to_old that pops the entries of the other sensors. */
  method DropOtherSensors(opts: map<string, Json>, sensors: set<string>, short: string) returns (r: map<string, Json>)
    ensures r == Kept(opts, sensors, short)
  {
    r := opts;
    var todo := sensors;
    while todo != {}
      invariant todo <= sensors && r.Keys <= opts.Keys
      invariant forall k :: k in opts ==> (k in r <==> k !in sensors || k in todo || k == short)
      invariant forall k :: k in r ==> r[k] == opts[k]
      decreases |todo|
    {
      var sen :| sen in todo;
      if sen in r && sen != short {
        r := r - {sen};
      }
      todo := todo - {sen};
    }
  }

  /** The legacy defaults, with resample_method taken from a nested resampling_method the resample table names. */
  function LegacyBase(kept: map<string, Json>): map<string, Json>
  {
    var defaults := OrderDomain.DefaultOptions();
    if "resampling_method" in kept && ResampleToOld(kept["resampling_method"]).Some? then
      defaults["resample_method" := JStr(ResampleToOld(kept["resampling_method"]).value)]
    else defaults
  }

  /** The product names the kept sensor entry asks for. */
  function Requested(kept: map<string, Json>): set<string>
  {
    Strings(SensorProducts(kept, SensorKeys(), kept.Keys))
  }

  /**
   * The kept options in legacy form: the defaults with the resampling
   * method, updated with what _flatten gives through the keyword table.
   */
  method LegacyOptions(kept: map<string, Json>, keywords: seq<Row>, sensors: set<string>, products: seq<Row>)
    returns (r: Result<map<string, Json>>, ghost flat: map<string, Json>)
    requires FlagTable(Swap(products)) && "resampling_method" !in sensors
    ensures r.Ok? ==> OrderDomain.DefaultOptions().Keys <= r.value.Keys
    ensures r.Ok? ==>
              && r.value == LegacyBase(kept) + flat
              && flat.Keys <= LegacyNames(keywords) + LegacyNames(products)
              && (forall k :: k in kept ==> Recognised(keywords, sensors, k))
              && (forall x :: x in SensorProducts(kept, sensors, kept.Keys) ==> Known(Swap(products), x))
              && (forall t :: t in Flags(Swap(products), Strings(SensorProducts(kept, sensors, kept.Keys))) ==>
                    t in flat && flat[t] == JBool(true))
              && (OnlyProducts(keywords, sensors, kept) ==>
                    r.value == OrderDomain.DefaultOptions() + Flags(Swap(products), Strings(SensorProducts(kept, sensors, kept.Keys))))
  {
    var ret := LegacyBase(kept);
    var f := Flatten(JObj(kept), keywords, sensors, products);
    flat := map[];
    if f.Err? {
      return Err(f.error), flat;
    }
    flat := f.value;
    if OnlyProducts(keywords, sensors, kept) {
      assert "resampling_method" !in kept;
    }
    r := Ok(ret + f.value);
  }

  /**
   * _convert_new_to_old: the legacy defaults, updated with the resampling
   * method and with the flattened options of the scene's own sensor.
   */
  method ConvertNewToOld(opts: map<string, Json>, scene: Json) returns (r: Result<map<string, Json>>, ghost flat: map<string, Json>)
    ensures !scene.JStr? ==> r == Err(Raised(AttributeError, "object has no attribute 'lower'"))
    ensures scene.JStr? && Sensor.Instance(scene.s).Err? ==> r == Err(Sensor.Instance(scene.s).error)
    ensures r.Ok? ==> OrderDomain.DefaultOptions().Keys <= r.value.Keys
    ensures r.Ok? ==>
              && scene.JStr? && Sensor.Instance(scene.s).Ok?
              && var kept := Kept(opts, SensorKeys(), Sensor.Instance(scene.s).value.shortname);
                 && r.value == LegacyBase(kept) + flat
                 && flat.Keys <= LegacyNames(KeywordsMap) + LegacyNames(ProdMap)
                 && (forall k :: k in kept ==> Recognised(KeywordsMap, SensorKeys(), k))
                 && (forall x :: x in SensorProducts(kept, SensorKeys(), kept.Keys) ==> Known(Swap(ProdMap), x))
                 && (forall t :: t in Flags(Swap(ProdMap), Requested(kept)) ==> t in flat && flat[t] == JBool(true))
                 && (OnlyProducts(KeywordsMap, SensorKeys(), kept) ==>
                       r.value == OrderDomain.DefaultOptions() + Flags(Swap(ProdMap), Requested(kept)))
  {
    flat := map[];
    if !scene.JStr? {
      return Err(Raised(AttributeError, "object has no attribute 'lower'")), flat;
    }
    var inst := Sensor.Instance(scene.s);
    if inst.Err? {
      return Err(inst.error), flat;
    }
    var sensors := SensorKeys();
    var kept := DropOtherSensors(opts, sensors, inst.value.shortname);
    ProdMapFlagTable();
    Sensor.ReservedNames();
    r, flat := LegacyOptions(kept, KeywordsMap, sensors, ProdMap);
  }

  // ---------------------------------------------------------------- round trip of the products

  /**
   * Legacy options made of a base whose flags are all off and the flags of
   * a set of nested product names: the flags set True are those flags.
   */
  lemma TrueFlagsOfFlags(base: map<string, Json>, rows: seq<Row>, names: set<string>)
    requires FlagTable(Swap(rows))
    requires forall k :: k in base && IndexIn(rows, k).Some? ==> base[k] == JBool(false)
    ensures TrueFlags(base + Flags(Swap(rows), names), rows) == Flags(Swap(rows), names).Keys
  {
    var f := Flags(Swap(rows), names);
    forall k | k in f
      ensures IndexIn(rows, k).Some?
    {
      var i :| 0 <= i < |rows| && Sets(Swap(rows)[i], names, k);
      assert HasFrom(rows[i], k);
    }
  }

  /** Every legacy product flag is off in the legacy defaults. */
  lemma DefaultProductsOff()
    ensures forall k :: k in OrderDomain.DefaultOptions() && IndexIn(ProdMap, k).Some? ==>
              OrderDomain.DefaultOptions()[k] == JBool(false)
  {
    forall k | k in OrderDomain.DefaultOptions() && IndexIn(ProdMap, k).Some?
      ensures OrderDomain.DefaultOptions()[k] == JBool(false)
    {
      var i := IndexIn(ProdMap, k).value;
      ProdFlagsPrefixed(i);
      OrderDomain.DefaultFlagsOff(k);
    }
  }

  /**
   * The products survive a conversion to legacy options and back: the
   * legacy options _convert_new_to_old gives for a set of known product
   * names ask _convert_old_to_new for those names again, or for sr when
   * the set is empty.
   */
  lemma ProductsRoundTrip(names: set<string>)
    requires forall n :: n in names ==> IndexIn(Swap(ProdMap), n).Some?
    ensures Chosen(OrderDomain.DefaultOptions() + Flags(Swap(ProdMap), names), ProdMap)
            == if names == {} then {"sr"} else names
  {
    ProdMapFlagTable();
    DefaultProductsOff();
    TrueFlagsOfFlags(OrderDomain.DefaultOptions(), ProdMap, names);
    FlagsRoundTrip(Swap(ProdMap), names);
    SwapSwap(ProdMap);
  }

  // ---------------------------------------------------------------- convert

  /** Which conversion convert goes on to: the nested options and the first scene, or the legacy options and all scenes. */
  datatype Direction = NewToOld(opts: map<string, Json>, scene: Json) | OldToNew(legacy: map<string, Json>, scenes: seq<Json>)

  /** The argument checks of convert: what it raises, or which conversion it makes. */
  function ConvertArguments(newOpts: Json, oldOpts: Json, scenes: Json): (r: Result<Direction>)
    ensures !Truthy(newOpts) && !Truthy(oldOpts) ==>
              r == Err(Raised(ValueError, "You must provide either new or old order options to convert"))
    ensures Truthy(newOpts) && Truthy(oldOpts) ==>
              r == Err(Raised(ValueError, "You must only provide either new or old options to convert, not both"))
    ensures Truthy(newOpts) != Truthy(oldOpts) && !Truthy(scenes) ==>
              r == Err(Raised(ValueError, "Scenes are required to properly convert between the standards"))
    ensures Truthy(newOpts) != Truthy(oldOpts) && Truthy(scenes)
            && ((Truthy(newOpts) && !newOpts.JObj?) || (Truthy(oldOpts) && !oldOpts.JObj?)) ==>
              r == Err(Raised(TypeError, "Submitted options must be a dict"))
    ensures Truthy(newOpts) != Truthy(oldOpts) && Truthy(scenes)
            && (Truthy(newOpts) ==> newOpts.JObj?) && (Truthy(oldOpts) ==> oldOpts.JObj?) && !scenes.JList? ==>
              r == Err(Raised(TypeError, "Submitted scene(s) must be list or tuple"))
    ensures r.Ok? && Truthy(newOpts) ==> newOpts.JObj? && scenes.JList? && scenes.items != []
                                         && r.value == NewToOld(newOpts.fields, scenes.items[0])
    ensures r.Ok? && !Truthy(newOpts) ==> Truthy(oldOpts) && oldOpts.JObj? && scenes.JList?
                                          && r.value == OldToNew(oldOpts.fields, scenes.items)
  {
    if !Truthy(newOpts) && !Truthy(oldOpts) then
      Err(Raised(ValueError, "You must provide either new or old order options to convert"))
    else if Truthy(newOpts) && Truthy(oldOpts) then
      Err(Raised(ValueError, "You must only provide either new or old options to convert, not both"))
    else if !Truthy(scenes) then
      Err(Raised(ValueError, "Scenes are required to properly convert between the standards"))
    else
      var newDict := if Truthy(newOpts) then newOpts else JObj(map[]);
      var oldDict := if Truthy(oldOpts) then oldOpts else JObj(map[]);
      if !newDict.JObj? || !oldDict.JObj? then Err(Raised(TypeError, "Submitted options must be a dict"))
      else if !scenes.JList? then Err(Raised(TypeError, "Submitted scene(s) must be list or tuple"))
      else if Truthy(newDict) then Ok(NewToOld(newDict.fields, scenes.items[0]))
      else Ok(OldToNew(oldDict.fields, scenes.items))
  }

  /**
   * convert: exactly one of the nested and the legacy options, given as a
   * dict, with a list of scenes; nested options are converted for the first
   * scene, legacy options for all of them.
   */
  method Convert(newOpts: Json, oldOpts: Json, scenes: Json) returns (r: Result<map<string, Json>>)
    ensures ConvertArguments(newOpts, oldOpts, scenes).Err? ==> r == Err(ConvertArguments(newOpts, oldOpts, scenes).error)
    ensures r.Ok? ==> ConvertArguments(newOpts, oldOpts, scenes).Ok?
    ensures r.Ok? && ConvertArguments(newOpts, oldOpts, scenes).value.NewToOld? ==>
              OrderDomain.DefaultOptions().Keys <= r.value.Keys
  {
    var args := ConvertArguments(newOpts, oldOpts, scenes);
    if args.Err? {
      return Err(args.error);
    }
    match args.value
    case NewToOld(opts, scene) =>
      ghost var flat;
      r, flat := ConvertNewToOld(opts, scene);
    case OldToNew(legacy, all) =>
      ghost var nested, prods, sensors;
      r, nested, prods, sensors := ConvertOldToNew(legacy, all);
  }
}
