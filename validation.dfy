/**
 * The order validator's own checks: item-count limits across the arrays of
 * an order, the single-object, enum-key and one-or-more-objects checks,
 * and the case normalisation applied to a validated order.
 *
 * The validator collects problems instead of stopping at the first one;
 * only a malformed schema (SchemaError) or a missing counter stops it.
 */
module Validation {
  import opened Wrappers
  import opened Text
  import opened Json
  import Sensor
  import OrderDomain

  /** A problem recorded by the validator. */
  datatype Issue =
    | TooManyObjects(path: string, count: nat)
    | UnknownKey(field: Json, allowed: seq<Json>)
    | CountExceeded(max: int, key: string)
    | NoRequests

  /** The text of the plainly formatted issues; keys and lists are shown when they are strings. */
  function Message(issue: Issue): string
  {
    match issue
    case TooManyObjects(path, n) => path + " field only accepts one object, not " + NatToString(n)
    case UnknownKey(field, allowed) =>
      "Unknown key " + (if field.JStr? then field.s else TypeName(field)) + ": Allowed keys " + ReprStrings(allowed)
    case CountExceeded(max, key) => "Count exceeds size limit of " + IntToString(max) + " for " + key
    case NoRequests => "No requests for products were submitted"
  }

  /** repr() of a list of str values. */
  function ReprStrings(xs: seq<Json>): string
  {
    "[" + Join(ReprItems(xs), ", ") + "]"
  }

  function ReprItems(xs: seq<Json>): (r: seq<string>)
    ensures |r| == |xs|
  {
    if xs == [] then []
    else [if xs[0].JStr? then "'" + xs[0].s + "'" else TypeName(xs[0])] + ReprItems(xs[1..])
  }

  /** One item-count category: the items counted so far and the limit. */
  datatype Counter = Counter(count: int, max: int)

  /** x.get(fieldname): the value, or None. */
  function Get(x: map<string, Json>, fieldname: string): Json
  {
    if fieldname in x then x[fieldname] else JNull
  }

  /** The issues validate_enum_keys records for the visited values, in order. */
  function Unknowns(fields: seq<Json>, validList: seq<Json>): (r: seq<Issue>)
    ensures |r| <= |fields|
    ensures forall j :: 0 <= j < |r| ==> r[j].UnknownKey? && r[j].field in fields && r[j].field !in validList
    ensures forall j :: 0 <= j < |r| ==> r[j].allowed == validList
  {
    if fields == [] then []
    else
      Unknowns(fields[..|fields| - 1], validList)
      + (if fields[|fields| - 1] in validList then [] else [UnknownKey(fields[|fields| - 1], validList)])
  }

  /** Every visited value outside the list gets its issue; all allowed means none. */
  lemma {:induction false} UnknownsComplete(fields: seq<Json>, validList: seq<Json>)
    ensures (forall j :: 0 <= j < |fields| ==> fields[j] in validList) <==> Unknowns(fields, validList) == []
    ensures forall f :: f in fields && f !in validList ==> UnknownKey(f, validList) in Unknowns(fields, validList)
  {
    if fields != [] {
      var front := fields[..|fields| - 1];
      UnknownsComplete(front, validList);
      forall f | f in fields && f !in validList
        ensures UnknownKey(f, validList) in Unknowns(fields, validList)
      {
        if f != fields[|fields| - 1] {
          var j :| 0 <= j < |fields| && fields[j] == f;
          assert front[j] == f;
        }
      }
      if Unknowns(fields, validList) == [] {
        forall j | 0 <= j < |fields|
          ensures fields[j] in validList
        {
          if j < |front| {
            assert front[j] == fields[j];
          }
        }
      }
    }
  }

  /** The values `for field in value` visits in validate_enum_keys, in the given order of a dict's keys. */
  function EnumFields(value: Json, keyOrder: seq<string>): seq<Json>
  {
    match value
    case JList(items) => items
    case JObj(_) => StrList(keyOrder)
    case _ => [value]
  }

  /** The loop of validate_enum_keys over the visited values. */
  method UnknownFields(fields: seq<Json>, validList: seq<Json>) returns (found: seq<Issue>)
    ensures found == Unknowns(fields, validList)
  {
    found := [];
    var i := 0;
    while i < |fields|
      invariant 0 <= i <= |fields|
      invariant found == Unknowns(fields[..i], validList)
    {
      assert fields[..i + 1][..i] == fields[..i];
      if fields[i] !in validList {
        found := found + [UnknownKey(fields[i], validList)];
      }
      i := i + 1;
    }
    assert fields[..|fields|] == fields;
  }

  class OrderValidator {
    var errors: seq<Issue>
    var itemcount: map<string, Counter>

    /**
     * Every counter is non-negative, and one that is positive and over its
     * limit has had its issue recorded.
     */
    ghost predicate Valid()
      reads this
    {
      forall k :: k in itemcount ==>
        itemcount[k].count >= 0
        && (itemcount[k].count > itemcount[k].max && itemcount[k].count > 0
            ==> CountExceeded(itemcount[k].max, k) in errors)
    }

    /** validate(): no issues and no counters yet. */
    constructor ()
      ensures Valid() && errors == [] && itemcount == map[]
    {
      errors := [];
      itemcount := map[];
    }

    /**
     * validate_set_ItemCount: opens the counter of a category at 0 with the
     * given limit. A category set twice or a limit that is not an integer
     * is a schema error and changes nothing.
     */
    method SetItemCount(key: string, val: Json) returns (r: Result<()>)
      requires Valid()
      modifies this
      ensures Valid() && errors == old(errors)
      ensures r.Ok? <==> key !in old(itemcount) && val.JInt?
      ensures key in old(itemcount) ==> r == Err(Raised(SchemaError, "ItemCount " + key + " set multiple times"))
      ensures key !in old(itemcount) && !val.JInt? ==>
                r == Err(Raised(SchemaError, "Max value for " + key + " must be an integer"))
      ensures r.Err? ==> itemcount == old(itemcount)
      ensures r.Ok? ==> itemcount == old(itemcount)[key := Counter(0, val.i)]
    {
      if key in itemcount {
        return Err(Raised(SchemaError, "ItemCount " + key + " set multiple times"));
      }
      if !val.JInt? {
        return Err(Raised(SchemaError, "Max value for " + key + " must be an integer"));
      }
      itemcount := itemcount[key := Counter(0, val.i)];
      r := Ok(());
    }

    /**
     * validate_ItemCount: an array value adds its length to its category's
     * count, and a count over the limit records an issue. Anything else
     * than an array is ignored; a category never opened is a KeyError.
     */
    method ItemCount(x: map<string, Json>, fieldname: string, key: string) returns (r: Result<()>)
      requires Valid()
      modifies this
      ensures Valid()
      ensures !Get(x, fieldname).JList? ==> r.Ok? && errors == old(errors) && itemcount == old(itemcount)
      ensures Get(x, fieldname).JList? && key !in old(itemcount) ==>
                r == Err(Raised(KeyError, key)) && errors == old(errors) && itemcount == old(itemcount)
      ensures Get(x, fieldname).JList? && key in old(itemcount) ==>
                var c := old(itemcount)[key];
                var count := c.count + |Get(x, fieldname).items|;
                && r.Ok?
                && itemcount == old(itemcount)[key := Counter(count, c.max)]
                && errors == old(errors) + (if count > c.max then [CountExceeded(c.max, key)] else [])
    {
      var vals := Get(x, fieldname);
      if !vals.JList? {
        return Ok(());
      }
      if key !in itemcount {
        return Err(Raised(KeyError, key));
      }
      var c := itemcount[key];
      var count := c.count + |vals.items|;
      itemcount := itemcount[key := Counter(count, c.max)];
      if count > c.max {
        errors := errors + [CountExceeded(c.max, key)];
      }
      r := Ok(());
    }

    /** validate_single_obj: with single set, a dict of more than one entry records an issue. */
    method SingleObj(x: map<string, Json>, fieldname: string, path: string, single: bool)
      requires Valid()
      modifies this
      ensures Valid() && itemcount == old(itemcount)
      ensures var v := Get(x, fieldname);
              errors == old(errors) + (if v.JObj? && single && |v.fields| > 1 then [TooManyObjects(path, |v.fields|)] else [])
    {
      var value := Get(x, fieldname);
      if value.JObj? {
        if single {
          if |value.fields| > 1 {
            errors := errors + [TooManyObjects(path, |value.fields|)];
          }
        }
      }
    }

    /**
     * validate_enum_keys: one issue per visited value outside the valid
     * list, a value without __iter__ counting as a list of itself. A dict
     * is visited over its keys in some order, returned as `keyOrder`.
     */
    method EnumKeys(x: map<string, Json>, fieldname: string, validList: seq<Json>) returns (ghost keyOrder: seq<string>)
      requires Valid()
      modifies this
      ensures Valid() && itemcount == old(itemcount)
      ensures Get(x, fieldname).JObj? ==> forall k :: k in keyOrder <==> k in Get(x, fieldname).fields
      ensures Get(x, fieldname).JNull? ==> errors == old(errors)
      ensures !Get(x, fieldname).JNull? ==>
                errors == old(errors) + Unknowns(EnumFields(Get(x, fieldname), keyOrder), validList)
    {
      keyOrder := [];
      var value := Get(x, fieldname);
      if value.JNull? {
        return;
      }
      var fields: seq<Json>;
      if value.JObj? {
        var order := Sensor.KeysInSomeOrder(value.fields.Keys);
        keyOrder := order;
        fields := StrList(order);
      } else if value.JList? {
        fields := value.items;
      } else {
        fields := [value];
      }
      var found := UnknownFields(fields, validList);
      errors := errors + found;
    }

    /** validate_oneormoreobjects: a dict holding none of the listed keys records that nothing was requested. */
    method OneOrMoreObjects(x: map<string, Json>, fieldname: string, keyList: seq<string>)
      requires Valid()
      modifies this
      ensures Valid() && itemcount == old(itemcount)
      ensures var v := Get(x, fieldname);
              errors == old(errors)
                        + (if v.JObj? && forall j :: 0 <= j < |keyList| ==> keyList[j] !in v.fields then [NoRequests] else [])
    {
      var val := Get(x, fieldname);
      if val.JObj? {
        var i := 0;
        while i < |keyList|
          invariant 0 <= i <= |keyList|
          invariant forall j :: 0 <= j < i ==> keyList[j] !in val.fields
        {
          if keyList[i] in val.fields {
            return;
          }
          i := i + 1;
        }
        errors := errors + [NoRequests];
      }
    }
  }

  // ---------------------------------------------------------------- massage_formatting

  /** A Landsat id in upper case. */
  function UpperInputs(xs: seq<Json>): (r: Result<seq<Json>>)
    ensures r.Ok? <==> forall j :: 0 <= j < |xs| ==> xs[j].JStr?
    ensures r.Ok? ==> |r.value| == |xs| && forall j :: 0 <= j < |xs| ==> r.value[j] == JStr(Upper(xs[j].s))
    ensures r.Err? ==> r.error.kind == AttributeError
  {
    if xs == [] then Ok([])
    else if !xs[0].JStr? then Err(Raised(AttributeError, "'" + TypeName(xs[0]) + "' object has no attribute 'upper'"))
    else
      match UpperInputs(xs[1..])
      case Err(e) => Err(e)
      case Ok(rest) => Ok([JStr(Upper(xs[0].s))] + rest)
  }

  /**
   * A MODIS id rebuilt from its first five '.'-separated parts: short name
   * and date in upper case, tile in lower case, the next two as they are.
   */
  function ModisInput(s: string): (r: Result<string>)
    ensures r.Ok? <==> |Split(s, '.')| >= 5
    ensures r.Err? ==> r.error == Raised(IndexError, "list index out of range")
  {
    var p := Split(s, '.');
    if |p| < 5 then Err(Raised(IndexError, "list index out of range"))
    else Ok(Join([Upper(p[0]), Upper(p[1]), Lower(p[2]), p[3], p[4]], "."))
  }

  function ModisInputs(xs: seq<Json>): (r: Result<seq<Json>>)
    ensures r.Ok? <==> forall j :: 0 <= j < |xs| ==> xs[j].JStr? && ModisInput(xs[j].s).Ok?
    ensures r.Ok? ==> |r.value| == |xs| && forall j :: 0 <= j < |xs| ==> r.value[j] == JStr(ModisInput(xs[j].s).value)
  {
    if xs == [] then Ok([])
    else if !xs[0].JStr? then Err(Raised(AttributeError, "'" + TypeName(xs[0]) + "' object has no attribute 'split'"))
    else if ModisInput(xs[0].s).Err? then Err(ModisInput(xs[0].s).error)
    else
      match ModisInputs(xs[1..])
      case Err(e) => Err(e)
      case Ok(rest) => Ok([JStr(ModisInput(xs[0].s).value)] + rest)
  }

  /** products with 'stats' appended unless it is already there. */
  function WithStats(products: Json): (r: Result<Json>)
    ensures products.JList? ==> r.Ok? && r.value.JList?
    ensures products.JList? && JStr("stats") in products.items ==> r == Ok(products)
    ensures products.JList? && JStr("stats") !in products.items ==> r == Ok(JList(products.items + [JStr("stats")]))
  {
    match products
    case JList(items) => if JStr("stats") in items then Ok(products) else Ok(JList(items + [JStr("stats")]))
    case JStr(s) =>
      if Contains(s, "stats") then Ok(products)
      else Err(Raised(AttributeError, "'unicode' object has no attribute 'append'"))
    case JObj(fields) =>
      if "stats" in fields then Ok(products)
      else Err(Raised(AttributeError, "'dict' object has no attribute 'append'"))
    case _ => Err(Raised(TypeError, "argument of type '" + TypeName(products) + "' is not iterable"))
  }

  /** Adding stats to a list a second time changes nothing, and the list then holds it. */
  lemma WithStatsIdempotent(products: Json)
    requires products.JList?
    ensures JStr("stats") in WithStats(products).value.items
    ensures WithStats(WithStats(products).value) == WithStats(products)
  {
    if JStr("stats") !in products.items {
      var items' := products.items + [JStr("stats")];
      assert items'[|items'| - 1] == JStr("stats");
    }
  }

  /**
   * One sensor entry of a validated order, normalised: its inputs
   * re-cased by the family of its first input, and 'stats' added to its
   * products when plot statistics were asked for.
   */
  function MassageEntry(classify: string -> Result<Sensor.Product>, entry: Json, stats: bool): (r: Result<Json>)
    ensures r.Ok? ==> entry.JObj? && r.value.JObj? && r.value.fields.Keys == entry.fields.Keys
    ensures r.Ok? ==> forall k :: k in entry.fields && k != "inputs" && k != "products" ==> r.value.fields[k] == entry.fields[k]
    ensures r.Ok? && !stats && "products" in entry.fields ==> r.value.fields["products"] == entry.fields["products"]
  {
    var inputs := GetItem(entry, "inputs");
    if inputs.Err? then Err(inputs.error)
    else
      var first := OrderDomain.FirstInput(inputs.value);
      if first.Err? then Err(first.error)
      else if !first.value.JStr? then Err(Raised(AttributeError, "object has no attribute 'lower'"))
      else
        match classify(first.value.s)
        case Err(e) => Err(e)
        case Ok(prod) =>
          var xs := OrderDomain.Elements(inputs.value);
          var recased := if prod.Landsat? then UpperInputs(xs) else ModisInputs(xs);
          if recased.Err? then Err(recased.error)
          else
            var fields := entry.fields["inputs" := JList(recased.value)];
            if !stats then Ok(JObj(fields))
            else if "products" !in fields then Err(Raised(KeyError, "products"))
            else
              match WithStats(fields["products"])
              case Err(e) => Err(e)
              case Ok(p) => Ok(JObj(fields["products" := p]))
  }

  /**
   * What massage_formatting does to a Landsat entry: every input upper-cased,
   * and with plot statistics a products list that holds 'stats'.
   */
  lemma MassageLandsat(classify: string -> Result<Sensor.Product>, entry: Json, stats: bool)
    requires MassageEntry(classify, entry, stats).Ok?
    requires classify(OrderDomain.FirstInput(entry.fields["inputs"]).value.s).value.Landsat?
    ensures var xs := OrderDomain.Elements(entry.fields["inputs"]);
            var out := MassageEntry(classify, entry, stats).value.fields["inputs"];
            out.JList? && |out.items| == |xs|
            && forall j :: 0 <= j < |xs| ==> xs[j].JStr? && out.items[j] == JStr(Upper(xs[j].s))
    ensures stats && entry.fields["products"].JList? ==>
              JStr("stats") in MassageEntry(classify, entry, stats).value.fields["products"].items
  {
    if stats && entry.fields["products"].JList? {
      WithStatsIdempotent(entry.fields["products"]);
    }
  }

  /** What massage_formatting does to a MODIS entry: every input rebuilt by ModisInput. */
  lemma MassageModis(classify: string -> Result<Sensor.Product>, entry: Json, stats: bool)
    requires MassageEntry(classify, entry, stats).Ok?
    requires classify(OrderDomain.FirstInput(entry.fields["inputs"]).value.s).value.Modis?
    ensures var xs := OrderDomain.Elements(entry.fields["inputs"]);
            var out := MassageEntry(classify, entry, stats).value.fields["inputs"];
            out.JList? && |out.items| == |xs|
            && forall j :: 0 <= j < |xs| ==>
                 xs[j].JStr? && ModisInput(xs[j].s).Ok? && out.items[j] == JStr(ModisInput(xs[j].s).value)
    ensures stats && entry.fields["products"].JList? ==>
              JStr("stats") in MassageEntry(classify, entry, stats).value.fields["products"].items
  {
    if stats && entry.fields["products"].JList? {
      WithStatsIdempotent(entry.fields["products"]);
    }
  }

  /** The parts of a rebuilt MODIS id, recovered by splitting it again. */
  lemma ModisInputParts(s: string)
    requires ModisInput(s).Ok?
    ensures var p := Split(s, '.');
            Split(ModisInput(s).value, '.') == [Upper(p[0]), Upper(p[1]), Lower(p[2]), p[3], p[4]]
  {
    var p := Split(s, '.');
    SplitNoSep(s, '.');
    var parts := [Upper(p[0]), Upper(p[1]), Lower(p[2]), p[3], p[4]];
    CaseKeepsNonLetter(p[0], '.');
    CaseKeepsNonLetter(p[1], '.');
    CaseKeepsNonLetter(p[2], '.');
    SplitJoin(parts, '.');
  }

  /** Normalising a MODIS id twice gives what normalising it once gives. */
  lemma ModisInputIdempotent(s: string)
    requires ModisInput(s).Ok?
    ensures ModisInput(ModisInput(s).value) == ModisInput(s)
  {
    var p := Split(s, '.');
    ModisInputParts(s);
    UpperIdempotent(p[0]);
    UpperIdempotent(p[1]);
    LowerIdempotent(p[2]);
  }

  /** The order asks for plot statistics. */
  predicate WantsStats(order: map<string, Json>)
  {
    FieldTruthy(order, "plot_statistics")
  }

  /**
   * The loop of massage_formatting: each sensor entry, visited in some
   * order, is replaced by its normalised form; every other entry is kept.
   */
  method MassageSensors(classify: string -> Result<Sensor.Product>, sensorKeys: set<string>, order: map<string, Json>)
    returns (r: Result<map<string, Json>>)
    ensures r.Ok? <==> forall k :: k in order && k in sensorKeys ==> MassageEntry(classify, order[k], WantsStats(order)).Ok?
    ensures r.Ok? ==> r.value.Keys == order.Keys
    ensures r.Ok? ==> forall k :: k in order && k !in sensorKeys ==> r.value[k] == order[k]
    ensures r.Ok? ==> forall k :: k in order && k in sensorKeys ==>
              r.value[k] == MassageEntry(classify, order[k], WantsStats(order)).value
    ensures r.Err? ==> exists k :: k in order && k in sensorKeys
                                   && MassageEntry(classify, order[k], WantsStats(order)) == Err(r.error)
  {
    var stats := WantsStats(order);
    var out := order;
    var rest := order.Keys;
    while rest != {}
      invariant rest <= order.Keys && out.Keys == order.Keys
      invariant forall k :: k in out && (k !in sensorKeys || k in rest) ==> out[k] == order[k]
      invariant forall k :: k in order && k !in rest && k in sensorKeys ==>
                  MassageEntry(classify, order[k], stats) == Ok(out[k])
      decreases |rest|
    {
      var key :| key in rest;
      if key in sensorKeys {
        var e := MassageEntry(classify, order[key], stats);
        if e.Err? {
          return Err(e.error);
        }
        out := out[key := e.value];
      }
      rest := rest - {key};
    }
    r := Ok(out);
  }

  /** massage_formatting, for the sensors the product-id parser knows. */
  method MassageFormatting(order: map<string, Json>) returns (r: Result<map<string, Json>>)
    ensures r.Ok? <==> forall k :: k in order && k in Sensor.PatternKeys() ==>
                         MassageEntry(Sensor.Instance, order[k], WantsStats(order)).Ok?
    ensures r.Ok? ==> r.value.Keys == order.Keys
    ensures r.Ok? ==> forall k :: k in order && k !in Sensor.PatternKeys() ==> r.value[k] == order[k]
    ensures r.Ok? ==> forall k :: k in order && k in Sensor.PatternKeys() ==>
              r.value[k] == MassageEntry(Sensor.Instance, order[k], WantsStats(order)).value
  {
    r := MassageSensors(Sensor.Instance, Sensor.PatternKeys(), order);
  }
}
