/**
 * Order construction: the legacy default options, the defaults of an order
 * placed through Earth Explorer, order ids, and the scene rows an order
 * starts with.
 */
module OrderDomain {
  import opened Wrappers
  import opened Text
  import opened Json
  import Sensor

  // ---------------------------------------------------------------- legacy defaults

  /** get_default_product_options: every product switched off. */
  const ProductFlagNames: set<string> := {
    "include_source_data", "include_source_metadata", "include_customized_source_data",
    "include_sr_toa", "include_sr_thermal", "include_sr", "include_dswe", "include_sr_browse",
    "include_sr_ndvi", "include_sr_ndmi", "include_sr_nbr", "include_sr_nbr2", "include_sr_savi",
    "include_sr_msavi", "include_sr_evi", "include_st", "include_solr_index", "include_statistics"}

  const ProductDefaults: map<string, Json> := map k | k in ProductFlagNames :: JBool(false)

  /** get_default_projection_options: no reprojection, datum wgs84. */
  const ProjectionDefaults: map<string, Json> := map[
    "reproject" := JBool(false), "target_projection" := JNull, "central_meridian" := JNull,
    "false_easting" := JNull, "false_northing" := JNull, "origin_lat" := JNull,
    "std_parallel_1" := JNull, "std_parallel_2" := JNull, "datum" := JStr("wgs84"),
    "longitude_pole" := JNull, "latitude_true_scale" := JNull, "utm_zone" := JNull,
    "utm_north_south" := JNull]

  /** get_default_subset_options: no spatial subset. */
  const SubsetDefaults: map<string, Json> := map[
    "image_extents" := JBool(false), "image_extents_units" := JNull, "minx" := JNull,
    "miny" := JNull, "maxx" := JNull, "maxy" := JNull]

  /** get_default_resize_options: no resizing. */
  const ResizeDefaults: map<string, Json> := map[
    "resize" := JBool(false), "pixel_size" := JNull, "pixel_size_units" := JNull]

  const ResampleDefaults: map<string, Json> := map["resample_method" := JStr("near")]

  const FormatDefaults: map<string, Json> := map["output_format" := JStr("gtiff")]

  /** get_default_options: the six groups updated into one dict in this order. */
  function DefaultOptions(): map<string, Json>
  {
    ProductDefaults + ProjectionDefaults + SubsetDefaults + ResizeDefaults + ResampleDefaults + FormatDefaults
  }

  /** The projection group names no include_* flag. */
  lemma ProjectionNoFlags(k: string)
    requires k in ProjectionDefaults
    ensures !StartsWith(k, "include_")
  {
    assert |k| > 1 && k[1] != 'n';
    NotStartsWithAt(k, "include_", 1);
  }

  /** Nor do the subset, resize, resample and format groups. */
  lemma LaterGroupsNoFlags(k: string)
    requires k in SubsetDefaults + ResizeDefaults + ResampleDefaults + FormatDefaults
    ensures !StartsWith(k, "include_")
  {
    assert |k| > 1 && k[1] != 'n';
    NotStartsWithAt(k, "include_", 1);
  }

  /** Every include_* flag of the defaults is off. */
  lemma DefaultFlagsOff(k: string)
    requires k in DefaultOptions() && StartsWith(k, "include_")
    ensures DefaultOptions()[k] == JBool(false)
  {
    var later := SubsetDefaults + ResizeDefaults + ResampleDefaults + FormatDefaults;
    if k in ProjectionDefaults {
      ProjectionNoFlags(k);
    } else if k in later {
      LaterGroupsNoFlags(k);
    }
  }

  // ---------------------------------------------------------------- order ids

  /** generate_ee_order_id: 'espa-', the e-mail address, '-', then the Earth Explorer order id. */
  function EeOrderId(email: string, eeOrder: string): (r: string)
    ensures |r| == |email| + |eeOrder| + 6
    ensures r[..5] == "espa-" && r[5..5 + |email|] == email && r[5 + |email|] == '-'
    ensures r[6 + |email|..] == eeOrder
  {
    "espa-" + email + "-" + eeOrder
  }

  /** For one requestor, distinct Earth Explorer orders get distinct ids. */
  lemma EeOrderIdInjective(email: string, a: string, b: string)
    requires EeOrderId(email, a) == EeOrderId(email, b)
    ensures a == b
  {
    assert a == EeOrderId(email, a)[6 + |email|..];
  }

  // ---------------------------------------------------------------- Earth Explorer defaults

  /** The products an Earth Explorer order asks for: sr for Landsat, l1 for MODIS. */
  function EeProducts(p: Sensor.Product): seq<Json>
  {
    if p.Landsat? then [JStr("sr")] else [JStr("l1")]
  }

  /** One sensor entry: its inputs and its products. */
  function Entry(inputs: seq<Json>, products: seq<Json>): Json
  {
    JObj(map["inputs" := JList(inputs), "products" := JList(products)])
  }

  /** The scene id of an item can be read, and classifying it raises nothing but ProductNotImplemented. */
  predicate EeReadable(classify: string -> Result<Sensor.Product>, item: Json)
  {
    GetItem(item, "sceneid").Ok? && GetItem(item, "sceneid").value.JStr?
    && Sensor.Classifies(classify, GetItem(item, "sceneid").value.s)
  }

  function EeIds(classify: string -> Result<Sensor.Product>, items: seq<Json>): (r: seq<string>)
    requires forall j :: 0 <= j < |items| ==> EeReadable(classify, items[j])
    ensures |r| == |items|
    ensures forall j :: 0 <= j < |items| ==> EeReadable(classify, items[j]) && r[j] == GetItem(items[j], "sceneid").value.s
  {
    seq(|items|, j requires 0 <= j < |items| && EeReadable(classify, items[j]) => GetItem(items[j], "sceneid").value.s)
  }

  /** The entry of a shortname: its ids in order, with the products of the first one's family. */
  function EeEntry(classify: string -> Result<Sensor.Product>, ids: seq<string>, k: string): Json
    requires Sensor.InputsOf(classify, ids, k) != []
  {
    var inputs := Sensor.InputsOf(classify, ids, k);
    Entry(StrList(inputs), EeProducts(classify(inputs[0]).value))
  }

  /**
   * m is the Earth Explorer default order for these scene ids: format
   * gtiff, and one entry per shortname of the supported ids.
   */
  ghost predicate EeDescribed(classify: string -> Result<Sensor.Product>, ids: seq<string>, m: map<string, Json>)
  {
    && "format" in m && m["format"] == JStr("gtiff")
    && (forall k :: k != "format" ==> (k in m <==> Sensor.InputsOf(classify, ids, k) != []))
    && (forall k :: k in m && k != "format" ==> m[k] == EeEntry(classify, ids, k))
  }

  lemma StrListSnoc(xs: seq<string>, x: string)
    ensures StrList(xs + [x]) == StrList(xs) + [JStr(x)]
  {
  }

  /** A further id of a shortname already present is appended to its inputs; the products stay. */
  lemma EeAppend(classify: string -> Result<Sensor.Product>, ids: seq<string>, id: string, k: string)
    requires Sensor.HasShortname(classify, id, k) && Sensor.InputsOf(classify, ids, k) != []
    ensures Sensor.InputsOf(classify, ids + [id], k) != []
    ensures var e := EeEntry(classify, ids, k);
            EeEntry(classify, ids + [id], k) == Entry(e.fields["inputs"].items + [JStr(id)], e.fields["products"].items)
  {
    Sensor.GroupSnoc(classify, ids, id);
    StrListSnoc(Sensor.InputsOf(classify, ids, k), id);
  }

  /** The first id of a shortname opens its entry with its own products. */
  lemma EeFirst(classify: string -> Result<Sensor.Product>, ids: seq<string>, id: string, k: string)
    requires Sensor.HasShortname(classify, id, k) && Sensor.InputsOf(classify, ids, k) == []
    ensures Sensor.InputsOf(classify, ids + [id], k) == [id]
    ensures EeEntry(classify, ids + [id], k) == Entry([JStr(id)], EeProducts(classify(id).value))
  {
    Sensor.GroupSnoc(classify, ids, id);
    assert StrList([id]) == [JStr(id)];
  }

  /** A shortname the new id does not have keeps its inputs and its entry. */
  lemma EeKept(classify: string -> Result<Sensor.Product>, ids: seq<string>, id: string, k: string)
    requires !Sensor.HasShortname(classify, id, k)
    ensures Sensor.InputsOf(classify, ids + [id], k) == Sensor.InputsOf(classify, ids, k)
    ensures Sensor.InputsOf(classify, ids, k) != [] ==> EeEntry(classify, ids + [id], k) == EeEntry(classify, ids, k)
  {
    Sensor.GroupSnoc(classify, ids, id);
  }

  /** Taking in one more id: a supported id sets its shortname's entry, an unsupported one changes nothing. */
  lemma EeStep(classify: string -> Result<Sensor.Product>, ids: seq<string>, m: map<string, Json>, id: string)
    requires forall x :: classify(x).Ok? ==> classify(x).value.shortname != "format"
    requires EeDescribed(classify, ids, m)
    ensures classify(id).Err? ==> EeDescribed(classify, ids + [id], m)
    ensures classify(id).Ok? ==>
              var k := classify(id).value.shortname;
              Sensor.InputsOf(classify, ids + [id], k) != []
              && EeDescribed(classify, ids + [id], m[k := EeEntry(classify, ids + [id], k)])
  {
    if classify(id).Ok? {
      EeStepSupported(classify, ids, m, id);
    } else {
      forall k' | k' != "format"
        ensures Sensor.InputsOf(classify, ids + [id], k') == Sensor.InputsOf(classify, ids, k')
        ensures k' in m ==> m[k'] == EeEntry(classify, ids + [id], k')
      {
        EeKept(classify, ids, id, k');
      }
    }
  }

  /** EeStep for an id whose product is supported. */
  lemma EeStepSupported(classify: string -> Result<Sensor.Product>, ids: seq<string>, m: map<string, Json>, id: string)
    requires forall x :: classify(x).Ok? ==> classify(x).value.shortname != "format"
    requires EeDescribed(classify, ids, m) && classify(id).Ok?
    ensures var k := classify(id).value.shortname;
            Sensor.InputsOf(classify, ids + [id], k) != []
            && EeDescribed(classify, ids + [id], m[k := EeEntry(classify, ids + [id], k)])
  {
    var k := classify(id).value.shortname;
    Sensor.GroupSnoc(classify, ids, id);
    assert Sensor.InputsOf(classify, ids + [id], k) != [];
    var m' := m[k := EeEntry(classify, ids + [id], k)];
    forall k' | k' != "format" && k' != k
      ensures Sensor.InputsOf(classify, ids + [id], k') == Sensor.InputsOf(classify, ids, k')
      ensures k' in m' ==> m'[k'] == EeEntry(classify, ids + [id], k')
    {
      EeKept(classify, ids, id, k');
    }
  }

  /**
   * The loop of get_default_ee_options: each item's scene id is classified;
   * unsupported ids are skipped, any other exception escapes.
   */
  method EeOptions(classify: string -> Result<Sensor.Product>, items: seq<Json>) returns (r: Result<map<string, Json>>)
    requires forall x :: classify(x).Ok? ==> classify(x).value.shortname != "format"
    ensures r.Ok? <==> forall j :: 0 <= j < |items| ==> EeReadable(classify, items[j])
    ensures r.Ok? ==> EeDescribed(classify, EeIds(classify, items), r.value)
    ensures r.Err? ==> r.error.kind != ProductNotImplemented
  {
    var m := map["format" := JStr("gtiff")];
    ghost var ids: seq<string> := [];
    var i := 0;
    while i < |items|
      invariant 0 <= i <= |items| && |ids| == i
      invariant forall j :: 0 <= j < i ==> EeReadable(classify, items[j]) && ids[j] == GetItem(items[j], "sceneid").value.s
      invariant EeDescribed(classify, ids, m)
    {
      var sid := GetItem(items[i], "sceneid");
      if sid.Err? {
        return Err(sid.error);
      }
      if !sid.value.JStr? {
        return Err(Raised(AttributeError, "object has no attribute 'lower'"));
      }
      var id := sid.value.s;
      var info := classify(id);
      if info.Err? && info.error.kind != ProductNotImplemented {
        return Err(info.error);
      }
      EeStep(classify, ids, m, id);
      if info.Ok? {
        var short := info.value.shortname;
        if short in m {
          EeAppend(classify, ids, id, short);
          m := m[short := Entry(m[short].fields["inputs"].items + [JStr(id)], m[short].fields["products"].items)];
        } else {
          EeFirst(classify, ids, id, short);
          m := m[short := Entry([JStr(id)], EeProducts(info.value))];
        }
      }
      ids := ids + [id];
      i := i + 1;
    }
    assert ids == EeIds(classify, items);
    r := Ok(m);
  }

  /** get_default_ee_options */
  method DefaultEeOptions(items: seq<Json>) returns (r: Result<map<string, Json>>)
    ensures r.Ok? <==> forall j :: 0 <= j < |items| ==> EeReadable(Sensor.Instance, items[j])
    ensures r.Ok? ==> EeDescribed(Sensor.Instance, EeIds(Sensor.Instance, items), r.value)
    ensures r.Err? ==> r.error.kind != ProductNotImplemented
  {
    forall x | Sensor.Instance(x).Ok?
      ensures Sensor.Instance(x).value.shortname != "format"
    {
      Sensor.InstanceShortname(x);
      Sensor.ReservedNames();
    }
    r := EeOptions(Sensor.Instance, items);
  }

  // ---------------------------------------------------------------- products by sensor

  /** The values a Python 2 `for` loop over j visits: list items, one-character strings, dict keys. */
  function Members(j: Json): (r: Option<set<Json>>)
    ensures r.Some? <==> j.JList? || j.JStr? || j.JObj?
  {
    match j
    case JList(items) => Some(set x | x in items)
    case JStr(s) => Some(set c | c in s :: JStr([c]))
    case JObj(fields) => Some(set k | k in fields :: JStr(k))
    case _ => None
  }

  /** A value that can be a dict key: lists and dicts cannot. */
  predicate Hashable(j: Json)
  {
    !j.JList? && !j.JObj?
  }

  /** An entry of the order's options that products_by_sensor collects: a dict with 'products'. */
  predicate IsProductGroup(po: map<string, Json>, k: string)
  {
    k in po && po[k].JObj? && "products" in po[k].fields
  }

  /** The entry's inputs can be iterated and each one can be a dict key. */
  predicate GroupReadable(v: Json)
  {
    v.JObj? && "inputs" in v.fields && Members(v.fields["inputs"]).Some?
    && forall x :: x in Members(v.fields["inputs"]).value ==> Hashable(x)
  }

  /** The inputs an entry lists. */
  function GroupMembers(v: Json): set<Json>
  {
    if v.JObj? && "inputs" in v.fields && Members(v.fields["inputs"]).Some? then Members(v.fields["inputs"]).value else {}
  }

  /** The products an entry names. */
  function GroupProducts(v: Json): Json
  {
    if v.JObj? && "products" in v.fields then v.fields["products"] else JNull
  }

  /** Entry k of the order is the only one listing input x. */
  ghost predicate SoleGroup(po: map<string, Json>, k: string, x: Json)
  {
    forall k' :: IsProductGroup(po, k') && x in GroupMembers(po[k']) ==> k' == k
  }

  /**
   * out is what products_by_sensor has built after visiting the entries in
   * done: each of their inputs maps to the products of an entry listing it,
   * and to its own entry's products when no other entry lists it.
   */
  ghost predicate Collected(po: map<string, Json>, done: set<string>, out: map<Json, Json>)
    requires done <= po.Keys
  {
    && (forall x :: x in out <==> exists k :: k in done && x in GroupMembers(po[k]))
    && (forall x :: x in out ==> exists k :: k in done && x in GroupMembers(po[k]) && out[x] == GroupProducts(po[k]))
    && (forall k, x :: k in done && x in GroupMembers(po[k]) && SoleGroup(po, k, x) ==> out[x] == GroupProducts(po[k]))
  }

  lemma CollectStep(po: map<string, Json>, done: set<string>, out: map<Json, Json>, k: string)
    requires done <= po.Keys && (forall k' :: k' in done ==> IsProductGroup(po, k'))
    requires Collected(po, done, out) && IsProductGroup(po, k)
    ensures Collected(po, done + {k}, out + map x | x in GroupMembers(po[k]) :: GroupProducts(po[k]))
  {
    var mine := GroupMembers(po[k]);
    var next := out + map x | x in mine :: GroupProducts(po[k]);
    var done' := done + {k};
    forall x
      ensures x in next <==> exists k2 :: k2 in done' && x in GroupMembers(po[k2])
    {
      if x in mine {
        assert k in done';
      } else if x in out {
        var k2 :| k2 in done && x in GroupMembers(po[k2]);
        assert k2 in done';
      }
    }
    forall x | x in next
      ensures exists k2 :: k2 in done' && x in GroupMembers(po[k2]) && next[x] == GroupProducts(po[k2])
    {
      if x in mine {
        assert k in done' && next[x] == GroupProducts(po[k]);
      } else {
        var k2 :| k2 in done && x in GroupMembers(po[k2]) && out[x] == GroupProducts(po[k2]);
        assert k2 in done';
      }
    }
    forall k2, x | k2 in done' && x in GroupMembers(po[k2]) && SoleGroup(po, k2, x)
      ensures next[x] == GroupProducts(po[k2])
    {
      if x in mine {
        assert IsProductGroup(po, k2);
        assert k == k2;
      }
    }
  }

  /** Having visited every entry that names products, out maps the inputs as products_by_sensor promises. */
  lemma CollectedAll(po: map<string, Json>, groups: set<string>, out: map<Json, Json>)
    requires groups <= po.Keys && (forall k :: k in groups <==> IsProductGroup(po, k))
    requires Collected(po, groups, out)
    ensures forall x :: x in out <==> exists k :: IsProductGroup(po, k) && x in GroupMembers(po[k])
    ensures forall x :: x in out ==>
              exists k :: IsProductGroup(po, k) && x in GroupMembers(po[k]) && out[x] == GroupProducts(po[k])
    ensures forall k, x :: IsProductGroup(po, k) && x in GroupMembers(po[k]) && SoleGroup(po, k, x) ==>
              out[x] == GroupProducts(po[k])
  {
    forall x | x in out
      ensures exists k :: IsProductGroup(po, k) && x in GroupMembers(po[k]) && out[x] == GroupProducts(po[k])
    {
      var k :| k in groups && x in GroupMembers(po[k]) && out[x] == GroupProducts(po[k]);
      assert IsProductGroup(po, k);
    }
    forall x | exists k :: IsProductGroup(po, k) && x in GroupMembers(po[k])
      ensures x in out
    {
      var k :| IsProductGroup(po, k) && x in GroupMembers(po[k]);
      assert k in groups;
    }
  }

  /**
   * products_by_sensor: every input of every entry that names products,
   * mapped to the products of that entry. Entries are visited in some
   * order; an input listed in one entry only gets that entry's products.
   */
  method ProductsBySensor(po: map<string, Json>) returns (r: Result<map<Json, Json>>)
    ensures r.Ok? <==> forall k :: IsProductGroup(po, k) ==> GroupReadable(po[k])
    ensures r.Ok? ==> forall x :: x in r.value <==> exists k :: IsProductGroup(po, k) && x in GroupMembers(po[k])
    ensures r.Ok? ==> forall x :: x in r.value ==>
              exists k :: IsProductGroup(po, k) && x in GroupMembers(po[k]) && r.value[x] == GroupProducts(po[k])
    ensures r.Ok? ==> forall k, x :: IsProductGroup(po, k) && x in GroupMembers(po[k]) && SoleGroup(po, k, x) ==>
              r.value[x] == GroupProducts(po[k])
    ensures r.Err? ==> r.error.kind == KeyError || r.error.kind == TypeError
  {
    var groups := set k | k in po && IsProductGroup(po, k);
    var out: map<Json, Json> := map[];
    var rest := groups;
    ghost var done: set<string> := {};
    while rest != {}
      invariant done <= groups && rest == groups - done
      invariant forall k :: k in done ==> GroupReadable(po[k])
      invariant Collected(po, done, out)
      decreases |rest|
    {
      var k :| k in rest;
      var next := CollectEntry(po, done, out, k);
      if next.Err? {
        return Err(next.error);
      }
      out := next.value;
      rest := rest - {k};
      done := done + {k};
    }
    CollectedAll(po, groups, out);
    r := Ok(out);
  }

  /** The loop body of products_by_sensor for entry k: each of its inputs is mapped to its products. */
  method CollectEntry(po: map<string, Json>, ghost done: set<string>, out: map<Json, Json>, k: string)
    returns (r: Result<map<Json, Json>>)
    requires done <= po.Keys && (forall k' :: k' in done ==> IsProductGroup(po, k'))
    requires Collected(po, done, out) && IsProductGroup(po, k)
    ensures r.Ok? <==> GroupReadable(po[k])
    ensures r.Ok? ==> Collected(po, done + {k}, r.value)
    ensures r.Err? ==> r.error.kind == KeyError || r.error.kind == TypeError
  {
    var v := po[k].fields;
    if "inputs" !in v {
      return Err(Raised(KeyError, "inputs"));
    }
    var xs := Members(v["inputs"]);
    if xs.None? {
      return Err(Raised(TypeError, "'" + TypeName(v["inputs"]) + "' object is not iterable"));
    }
    var unhashable := set x | x in xs.value && !Hashable(x);
    if unhashable != {} {
      var x :| x in unhashable;
      return Err(Raised(TypeError, "unhashable type: '" + TypeName(x) + "'"));
    }
    forall x | x in xs.value
      ensures Hashable(x)
    {
      assert x !in unhashable;
    }
    CollectStep(po, done, out, k);
    r := Ok(out + map x | x in xs.value :: v["products"]);
  }

  // ---------------------------------------------------------------- the scenes of a new order

  /** One row of the bulk scene insert, without its Earth Explorer unit id. */
  datatype SceneRow = SceneRow(name: Json, sensorType: string, orderId: int, status: string)

  /** inputs[0] */
  function FirstInput(inputs: Json): (r: Result<Json>)
    ensures r.Ok? <==> (inputs.JList? && inputs.items != []) || (inputs.JStr? && inputs.s != [])
  {
    match inputs
    case JList(items) => if items == [] then Err(Raised(IndexError, "list index out of range")) else Ok(items[0])
    case JStr(s) => if s == [] then Err(Raised(IndexError, "string index out of range")) else Ok(JStr([s[0]]))
    case JObj(_) => Err(Raised(KeyError, "0"))
    case _ => Err(Raised(TypeError, "'" + TypeName(inputs) + "' object has no attribute '__getitem__'"))
  }

  /** The scenes' sensor type, from the family of the first input; classification errors escape. */
  function SensorType(classify: string -> Result<Sensor.Product>, first: Json): (r: Result<string>)
    ensures r.Ok? <==> first.JStr? && classify(first.s).Ok?
    ensures r.Ok? ==> r.value == (if classify(first.s).value.Landsat? then "landsat" else "modis")
  {
    if !first.JStr? then Err(Raised(AttributeError, "object has no attribute 'lower'"))
    else match classify(first.s)
      case Err(e) => Err(e)
      case Ok(p) => Ok(if p.Landsat? then "landsat" else "modis")
  }

  /** The values `for s in inputs` visits, for inputs that have a first element. */
  function Elements(inputs: Json): (r: seq<Json>)
  {
    match inputs
    case JList(items) => items
    case JStr(s) => seq(|s|, i requires 0 <= i < |s| => JStr([s[i]]))
    case _ => []
  }

  /** The scenes the entry of one sensor contributes, or what goes wrong reading it. */
  function EntryRows(classify: string -> Result<Sensor.Product>, v: Json, orderId: int): (r: Result<seq<SceneRow>>)
  {
    var inputs := GetItem(v, "inputs");
    if inputs.Err? then Err(inputs.error)
    else
      var first := FirstInput(inputs.value);
      if first.Err? then Err(first.error)
      else
        var kind := SensorType(classify, first.value);
        if kind.Err? then Err(kind.error)
        else
          var xs := Elements(inputs.value);
          Ok(seq(|xs|, i requires 0 <= i < |xs| => SceneRow(xs[i], kind.value, orderId, "submitted")))
  }

  /** The rows of the sensor entries in the order they are visited. */
  function AllRows(classify: string -> Result<Sensor.Product>, opts: map<string, Json>, keys: seq<string>, orderId: int): seq<SceneRow>
    requires forall j :: 0 <= j < |keys| ==> keys[j] in opts && EntryRows(classify, opts[keys[j]], orderId).Ok?
  {
    if keys == [] then []
    else AllRows(classify, opts, keys[..|keys| - 1], orderId) + EntryRows(classify, opts[keys[|keys| - 1]], orderId).value
  }

  lemma AllRowsSnoc(classify: string -> Result<Sensor.Product>, opts: map<string, Json>, keys: seq<string>, key: string, orderId: int)
    requires forall j :: 0 <= j < |keys| ==> keys[j] in opts && EntryRows(classify, opts[keys[j]], orderId).Ok?
    requires key in opts && EntryRows(classify, opts[key], orderId).Ok?
    ensures forall j :: 0 <= j < |keys + [key]| ==>
              (keys + [key])[j] in opts && EntryRows(classify, opts[(keys + [key])[j]], orderId).Ok?
    ensures AllRows(classify, opts, keys + [key], orderId)
            == AllRows(classify, opts, keys, orderId) + EntryRows(classify, opts[key], orderId).value
  {
    assert (keys + [key])[..|keys|] == keys;
  }

  /** The number of inputs the visited entries list. */
  function InputCount(opts: map<string, Json>, keys: seq<string>): nat
    requires forall j :: 0 <= j < |keys| ==> keys[j] in opts
  {
    if keys == [] then 0
    else
      var v := opts[keys[|keys| - 1]];
      InputCount(opts, keys[..|keys| - 1]) + (if GetItem(v, "inputs").Ok? then |Elements(GetItem(v, "inputs").value)| else 0)
  }

  /** The plot scene, when plot_statistics is set. */
  function PlotRows(opts: map<string, Json>, orderId: int): seq<SceneRow>
  {
    if FieldTruthy(opts, "plot_statistics") then [SceneRow(JStr("plot"), "plot", orderId, "submitted")] else []
  }

  /** The number of rows of sensor type 'plot'. */
  function PlotCount(rows: seq<SceneRow>): nat
  {
    if rows == [] then 0
    else PlotCount(rows[..|rows| - 1]) + (if rows[|rows| - 1].sensorType == "plot" then 1 else 0)
  }

  lemma PlotCountConcat(a: seq<SceneRow>, b: seq<SceneRow>)
    ensures PlotCount(a + b) == PlotCount(a) + PlotCount(b)
    decreases |b|
  {
    if b == [] {
      assert a + b == a;
    } else {
      assert (a + b)[..|a + b| - 1] == a + b[..|b| - 1];
      assert (a + b)[|a + b| - 1] == b[|b| - 1];
      PlotCountConcat(a, b[..|b| - 1]);
    }
  }

  /**
   * Every sensor row is a submitted scene of this order, of type landsat
   * or modis, one per input.
   */
  lemma {:induction false} AllRowsShape(classify: string -> Result<Sensor.Product>, opts: map<string, Json>, keys: seq<string>, orderId: int)
    requires forall j :: 0 <= j < |keys| ==> keys[j] in opts && EntryRows(classify, opts[keys[j]], orderId).Ok?
    ensures var rows := AllRows(classify, opts, keys, orderId);
            |rows| == InputCount(opts, keys) && PlotCount(rows) == 0
            && forall i :: 0 <= i < |rows| ==>
                 rows[i].status == "submitted" && rows[i].orderId == orderId
                 && (rows[i].sensorType == "landsat" || rows[i].sensorType == "modis")
  {
    if keys != [] {
      var front := keys[..|keys| - 1];
      AllRowsShape(classify, opts, front, orderId);
      var e := EntryRows(classify, opts[keys[|keys| - 1]], orderId).value;
      PlotCountConcat(AllRows(classify, opts, front, orderId), e);
      EntryNoPlot(e);
    }
  }

  lemma {:induction false} EntryNoPlot(e: seq<SceneRow>)
    requires forall i :: 0 <= i < |e| ==> e[i].sensorType != "plot"
    ensures PlotCount(e) == 0
  {
    if e != [] {
      EntryNoPlot(e[..|e| - 1]);
    }
  }

  /**
   * The scene list of Order.create: no rows for an Earth Explorer order;
   * otherwise one submitted row per input of each sensor entry, in the
   * order the entries are visited (returned as `keys`), then the plot row.
   */
  method SceneRows(classify: string -> Result<Sensor.Product>, sensorKeys: set<string>, opts: map<string, Json>,
                   eeOrderId: Json, orderId: int)
    returns (r: Result<seq<SceneRow>>, ghost keys: seq<string>)
    ensures Truthy(eeOrderId) ==> r == Ok([])
    ensures !Truthy(eeOrderId) ==>
              (r.Ok? <==> forall k :: k in opts && k in sensorKeys ==> EntryRows(classify, opts[k], orderId).Ok?)
    ensures !Truthy(eeOrderId) && r.Ok? ==> forall x :: x in keys <==> x in opts && x in sensorKeys
    ensures !Truthy(eeOrderId) && r.Ok? ==> forall a, b :: 0 <= a < b < |keys| ==> keys[a] != keys[b]
    ensures !Truthy(eeOrderId) && r.Ok? ==> r.value == AllRows(classify, opts, keys, orderId) + PlotRows(opts, orderId)
    ensures !Truthy(eeOrderId) && r.Err? ==>
              exists k :: k in opts && k in sensorKeys && EntryRows(classify, opts[k], orderId) == Err(r.error)
  {
    keys := [];
    if Truthy(eeOrderId) {
      return Ok([]), keys;
    }
    var order := Sensor.KeysInSomeOrder(opts.Keys);
    var rows: seq<SceneRow> := [];
    var i := 0;
    while i < |order|
      invariant 0 <= i <= |order|
      invariant RowsSoFar(classify, sensorKeys, opts, order, i, keys, rows, orderId)
    {
      var e;
      e, keys, rows := SceneRowsNext(classify, sensorKeys, opts, order, i, keys, rows, orderId);
      if e.Err? {
        return Err(e.error), keys;
      }
      i := i + 1;
    }
    r := Ok(rows + PlotRows(opts, orderId));
  }

  /** The rows of the sensor entries among the first i keys visited. */
  ghost predicate RowsSoFar(classify: string -> Result<Sensor.Product>, sensorKeys: set<string>, opts: map<string, Json>,
                            order: seq<string>, i: nat, keys: seq<string>, rows: seq<SceneRow>, orderId: int)
    requires i <= |order|
  {
    && (forall x :: x in keys <==> x in order[..i] && x in sensorKeys)
    && (forall j :: 0 <= j < |keys| ==> keys[j] in opts && EntryRows(classify, opts[keys[j]], orderId).Ok?)
    && (forall j :: 0 <= j < i && order[j] in sensorKeys ==> order[j] in opts && EntryRows(classify, opts[order[j]], orderId).Ok?)
    && (forall a, b :: 0 <= a < b < |keys| ==> keys[a] != keys[b])
    && rows == AllRows(classify, opts, keys, orderId)
  }

  /** One key of the scene list: a sensor entry's rows are appended, or its error is returned. */
  method SceneRowsNext(classify: string -> Result<Sensor.Product>, sensorKeys: set<string>, opts: map<string, Json>,
                       order: seq<string>, i: nat, ghost keys: seq<string>, rows: seq<SceneRow>, orderId: int)
    returns (e: Result<()>, ghost keys1: seq<string>, rows1: seq<SceneRow>)
    requires i < |order| && order[i] in opts
    requires forall a, b :: 0 <= a < b < |order| ==> order[a] != order[b]
    requires RowsSoFar(classify, sensorKeys, opts, order, i, keys, rows, orderId)
    ensures e.Ok? ==> RowsSoFar(classify, sensorKeys, opts, order, i + 1, keys1, rows1, orderId)
    ensures e.Err? ==> order[i] in sensorKeys && EntryRows(classify, opts[order[i]], orderId) == Err(e.error)
    ensures forall x :: x in keys1 ==> x in opts && x in sensorKeys
  {
    var key := order[i];
    keys1, rows1 := keys, rows;
    assert order[..i + 1] == order[..i] + [key];
    if key in sensorKeys {
      var r := EntryRows(classify, opts[key], orderId);
      if r.Err? {
        return Err(r.error), keys1, rows1;
      }
      AllRowsSnoc(classify, opts, keys, key, orderId);
      rows1 := rows + r.value;
      keys1 := keys + [key];
    }
    e := Ok(());
  }

  /**
   * Order.create's scenes: an Earth Explorer order gets none here; any
   * other order gets one submitted scene per input of its sensor entries
   * and exactly one plot scene if and only if plot_statistics is set.
   */
  method CreateScenes(opts: map<string, Json>, eeOrderId: Json, orderId: int)
    returns (r: Result<seq<SceneRow>>, ghost keys: seq<string>)
    ensures Truthy(eeOrderId) ==> r == Ok([])
    ensures !Truthy(eeOrderId) ==>
              (r.Ok? <==> forall k :: k in opts && k in Sensor.PatternKeys() ==> EntryRows(Sensor.Instance, opts[k], orderId).Ok?)
    ensures !Truthy(eeOrderId) && r.Ok? ==>
              && (forall x :: x in keys <==> x in opts && x in Sensor.PatternKeys())
              && (forall j :: 0 <= j < |keys| ==> keys[j] in opts)
              && |r.value| == InputCount(opts, keys) + (if FieldTruthy(opts, "plot_statistics") then 1 else 0)
              && PlotCount(r.value) == (if FieldTruthy(opts, "plot_statistics") then 1 else 0)
              && (forall i :: 0 <= i < |r.value| ==> r.value[i].status == "submitted" && r.value[i].orderId == orderId)
  {
    r, keys := SceneRows(Sensor.Instance, Sensor.PatternKeys(), opts, eeOrderId, orderId);
    if !Truthy(eeOrderId) && r.Ok? {
      AllRowsShape(Sensor.Instance, opts, keys, orderId);
      var plot := PlotRows(opts, orderId);
      PlotCountConcat(AllRows(Sensor.Instance, opts, keys, orderId), plot);
      assert plot != [] ==> plot[..0] == [];
    }
  }
}
