/**
 * The production provider's side of EarthExplorer orders: the scene rows
 * an EE order brings in, loading them into the store, reporting scene
 * statuses back to LTA, and resending the reports that failed.
 */
module ProductionEe {
  import opened Wrappers
  import opened Json
  import opened Store
  import Sensor
  import Restrictions
  import OrderDomain
  import opened Production

  /** One unit of an EE order as LTA lists it: {'sceneid': ..., 'unit_num': ...}. */
  datatype EeItem = EeItem(sceneId: string, unit: Json)

  /** The item as the dict the order defaults are built from. */
  function ItemJson(item: EeItem): Json
  {
    JObj(map["sceneid" := JStr(item.sceneId), "unit_num" := item.unit])
  }

  function ItemsJson(items: seq<EeItem>): (r: seq<Json>)
    ensures |r| == |items| && forall i :: 0 <= i < |items| ==> r[i] == ItemJson(items[i])
  {
    if items == [] then [] else [ItemJson(items[0])] + ItemsJson(items[1..])
  }

  /**
   * The restrictions file and the date helpers sr_date_restricted reads,
   * and the product-id parser the rows are built with: sensor.instance,
   * which is Sensor.Instance (EeRowFacts states the rows it gives).
   */
  datatype Aux = Aux(restr: Restrictions.Restricted, dateOk: (string, string) -> bool,
                     julianFromDate: (string, string, string) -> string, parse: string -> Result<Sensor.Product>)

  /** One row for Scene.create. */
  datatype NewScene = NewScene(name: string, sensorType: string, orderId: nat, status: SceneStatus, note: string, unit: Json)

  const AuxUnavailable := "auxiliary data unavailable forthis scenes acquisition date"

  /**
   * The row of one EE unit: the parsed product id, its sensor type, and
   * submitted, or unavailable when the date is outside the SR range.
   * A parse failure or a restrictions KeyError escapes.
   */
  function EeRow(item: EeItem, pk: nat, aux: Aux): (r: Result<NewScene>)
  {
    var inst := aux.parse(item.sceneId);
    if inst.Err? then Err(inst.error)
    else
      var p := inst.value;
      var restricted := Restrictions.SrDateRestricted(p, aux.restr, aux.dateOk, aux.julianFromDate);
      if restricted.Err? then Err(restricted.error)
      else
        Ok(NewScene(p.productId, if p.Landsat? then "landsat" else "modis", pk,
                    if restricted.value then Unavailable else Submitted,
                    if restricted.value then AuxUnavailable else "", item.unit))
  }

  /**
   * A unit's row is unavailable exactly when its date is outside the SR
   * range, carries the unit number, and is typed by its sensor; a MODIS
   * unit is never made unavailable.
   */
  lemma EeRowFacts(item: EeItem, pk: nat, aux: Aux)
    requires aux.parse == Sensor.Instance && EeRow(item, pk, aux).Ok?
    ensures var row := EeRow(item, pk, aux).value;
            var p := Sensor.Instance(item.sceneId).value;
            Sensor.Instance(item.sceneId).Ok? && row.unit == item.unit && row.orderId == pk && row.name == p.productId
            && (row.status == Unavailable <==> Restrictions.SrDateRestricted(p, aux.restr, aux.dateOk, aux.julianFromDate) == Ok(true))
            && (row.status == Unavailable || row.status == Submitted)
            && (row.sensorType == "modis" <==> p.Modis?)
            && (p.Modis? ==> row.status == Submitted && row.note == "")
  {
  }

  /**
   * gen_ee_scene_list: one row per unit, in the units' order; the first
   * unit that fails stops the list.
   */
  method GenEeSceneList(items: seq<EeItem>, pk: nat, aux: Aux) returns (r: Result<seq<NewScene>>)
    ensures r.Ok? <==> forall i :: 0 <= i < |items| ==> EeRow(items[i], pk, aux).Ok?
    ensures r.Ok? ==> |r.value| == |items| && forall i :: 0 <= i < |items| ==> r.value[i] == EeRow(items[i], pk, aux).value
    ensures r.Err? ==> exists i :: 0 <= i < |items| && EeRow(items[i], pk, aux) == Err(r.error)
  {
    var rows: seq<NewScene> := [];
    var i := 0;
    while i < |items|
      invariant 0 <= i <= |items| && |rows| == i
      invariant forall j :: 0 <= j < i ==> EeRow(items[j], pk, aux).Ok? && rows[j] == EeRow(items[j], pk, aux).value
    {
      var row := EeRow(items[i], pk, aux);
      if row.Err? {
        return Err(row.error);
      }
      rows := rows + [row.value];
      i := i + 1;
    }
    r := Ok(rows);
  }

  /** The store row Scene.create makes of a new row; the columns it does not name start empty. */
  function RowScene(row: NewScene): Scene
  {
    Scene(row.name, row.orderId, row.sensorType, row.status, row.note, "", "", "", None, None, None, None, None,
          "", "", "", "", None, None, row.unit, None, false)
  }

  /** A key above every key of the map: where the next inserted rows go. */
  method NextKey(m: map<nat, Scene>) returns (k: nat)
    ensures forall x :: x in m ==> x < k
  {
    k := 0;
    var todo := m.Keys;
    while todo != {}
      invariant todo <= m.Keys
      invariant forall x :: x in m.Keys - todo ==> x < k
      decreases |todo|
    {
      var x :| x in todo;
      assert m.Keys - (todo - {x}) == (m.Keys - todo) + {x};
      if x >= k {
        k := x + 1;
      }
      todo := todo - {x};
    }
    assert m.Keys - todo == m.Keys;
  }

  /** m is m0 with the rows added under the new keys first..first + |rows| - 1. */
  ghost predicate Created(m0: map<nat, Scene>, m: map<nat, Scene>, first: nat, rows: seq<NewScene>)
  {
    && (forall x :: x in m0 ==> x < first && x in m && m[x] == m0[x])
    && (forall k :: first <= k < first + |rows| ==> k in m && m[k] == RowScene(rows[k - first]))
    && (forall x :: x in m ==> x in m0 || first <= x < first + |rows|)
  }

  /** The rows of units that all build. */
  function EeRows(items: seq<EeItem>, pk: nat, aux: Aux): (r: seq<NewScene>)
    requires forall i :: 0 <= i < |items| ==> EeRow(items[i], pk, aux).Ok?
  {
    seq(|items|, i requires 0 <= i < |items| => EeRow(items[i], pk, aux).value)
  }

  /** Scene.create(rows): each row stored under a new key, first..first + |rows| - 1. */
  method CreateScenes(db: Db, rows: seq<NewScene>) returns (first: nat)
    modifies db
    ensures Created(old(db.scenes), db.scenes, first, rows)
    ensures db.orders == old(db.orders) && db.users == old(db.users) && db.cache == old(db.cache) && db.onDisk == old(db.onDisk)
  {
    first := NextKey(db.scenes);
    var i := 0;
    while i < |rows|
      invariant 0 <= i <= |rows|
      invariant forall x :: x in old(db.scenes) ==> x in db.scenes && db.scenes[x] == old(db.scenes)[x]
      invariant forall k :: first <= k < first + i ==> k in db.scenes && db.scenes[k] == RowScene(rows[k - first])
      invariant forall x :: x in db.scenes ==> x in old(db.scenes) || first <= x < first + i
      invariant db.orders == old(db.orders) && db.users == old(db.users) && db.cache == old(db.cache) && db.onDisk == old(db.onDisk)
    {
      assert first + i !in old(db.scenes);
      db.scenes := db.scenes[first + i := RowScene(rows[i])];
      i := i + 1;
    }
  }

  /** The exceptions load_ee_scenes catches from Scene.create. */
  predicate Caught(e: Raised)
  {
    e.kind == SceneException || e.kind == ProductNotImplemented
  }

  /**
   * load_ee_scenes: the rows are built, then created. createError is what
   * Scene.create raises, if anything. A caught failure of a new order
   * deletes the order; for scenes missed on an earlier import the order
   * stays. Either way the failure is raised as ProductionProviderException.
   */
  method LoadEeScenes(db: Db, items: seq<EeItem>, pk: nat, missed: bool, aux: Aux, createError: Option<Raised>)
    returns (r: Result<()>, ghost first: nat)
    modifies db
    ensures r.Ok? ==> (forall i :: 0 <= i < |items| ==> EeRow(items[i], pk, aux).Ok?) && createError.None?
    ensures r.Ok? ==> Created(old(db.scenes), db.scenes, first, EeRows(items, pk, aux)) && db.orders == old(db.orders)
    ensures r.Err? ==> db.scenes == old(db.scenes)
    ensures (forall i :: 0 <= i < |items| ==> EeRow(items[i], pk, aux).Ok?) && createError.None? ==> r.Ok?
    ensures r.Err? && createError.Some? && Caught(createError.value) && (forall i :: 0 <= i < |items| ==> EeRow(items[i], pk, aux).Ok?) ==>
              r.error.kind == ProductionProviderException
              && db.orders == (if missed then old(db.orders) else old(db.orders) - {pk})
    ensures r.Err? && !(createError.Some? && Caught(createError.value) && (forall i :: 0 <= i < |items| ==> EeRow(items[i], pk, aux).Ok?)) ==>
              db.orders == old(db.orders)
    ensures db.users == old(db.users) && db.cache == old(db.cache) && db.onDisk == old(db.onDisk)
  {
    first := 0;
    var rows := GenEeSceneList(items, pk, aux);
    if rows.Err? {
      return Err(rows.error), first;
    }
    if createError.Some? {
      var e := createError.value;
      if !Caught(e) {
        return Err(e), first;
      }
      if !missed {
        db.orders := db.orders - {pk};
      }
      return Err(Raised(ProductionProviderException, e.message)), first;
    }
    assert rows.value == EeRows(items, pk, aux);
    var k := CreateScenes(db, rows.value);
    first := k;
    r := Ok(());
  }

  // -------------------------------------------------------- update_ee_orders

  /** The LTA status a scene reports: complete is 'C', unavailable and cancelled are 'R', the rest report nothing. */
  function Letter(st: SceneStatus): (r: Option<string>)
  {
    if st == Complete then Some("C")
    else if st == Unavailable || st == Cancelled then Some("R")
    else None
  }

  /** A scene of order pk with that unit number. */
  predicate UnitOf(m: map<nat, Scene>, pk: nat, unit: Json, id: nat)
  {
    id in m && m[id].orderId == pk && m[id].eeUnitId == unit
  }

  /** The order has no scene with that unit number. */
  predicate NoUnit(m: map<nat, Scene>, pk: nat, unit: Json)
  {
    forall id :: id in m ==> !UnitOf(m, pk, unit, id)
  }

  /** Unit numbers name one scene each within an order. */
  predicate UnitsUnique(m: map<nat, Scene>, pk: nat)
  {
    forall a, b :: a in m && b in m && m[a].orderId == pk && m[b].orderId == pk && m[a].eeUnitId == m[b].eeUnitId ==> a == b
  }

  /** The units of the order with no scene yet, in the order listed: they were missed when the order was first loaded. */
  function Missing(m: map<nat, Scene>, pk: nat, items: seq<EeItem>): (r: seq<EeItem>)
    ensures |r| <= |items|
  {
    if items == [] then []
    else Missing(m, pk, items[..|items| - 1]) + (if NoUnit(m, pk, items[|items| - 1].unit) then [items[|items| - 1]] else [])
  }

  /** The missing units are exactly the listed units that no scene of the order carries. */
  lemma {:induction false} MissingMembers(m: map<nat, Scene>, pk: nat, items: seq<EeItem>)
    ensures forall x :: x in Missing(m, pk, items) <==> x in items && NoUnit(m, pk, x.unit)
  {
    if items != [] {
      var front := items[..|items| - 1];
      MissingMembers(m, pk, front);
      assert items == front + [items[|items| - 1]];
    }
  }

  /** Whether a scene's report to LTA fails: it reports a letter and the push of it is refused. */
  predicate ReportFails(s: Scene, eeorder: string, env: Env)
  {
    Letter(s.status).Some? && !env.push(eeorder, s.eeUnitId, Letter(s.status).value)
  }

  /** A scene of the order whose unit is listed. */
  predicate Listed(items: seq<EeItem>, s: Scene)
  {
    exists i :: 0 <= i < |items| && items[i].unit == s.eeUnitId
  }

  /** A scene as the report leaves it: flagged with its letter when the report fails. */
  function AfterReport(s: Scene, pk: nat, items: seq<EeItem>, eeorder: string, env: Env): (r: Scene)
  {
    if s.orderId == pk && Listed(items, s) && ReportFails(s, eeorder, env)
    then s.(failedLtaStatusUpdate := Letter(s.status)) else s
  }

  /** The scene rows after the reports: each listed scene whose report fails keeps its letter to resend. */
  function Reported(m: map<nat, Scene>, pk: nat, items: seq<EeItem>, eeorder: string, env: Env): (r: map<nat, Scene>)
    ensures r.Keys == m.Keys
  {
    map id | id in m :: AfterReport(m[id], pk, items, eeorder, env)
  }

  /** Listing one more unit lists the scenes of that unit besides. */
  lemma ListedSnoc(items: seq<EeItem>, x: EeItem, s: Scene)
    ensures Listed(items + [x], s) <==> Listed(items, s) || x.unit == s.eeUnitId
  {
    if Listed(items + [x], s) {
      var i :| 0 <= i < |items| + 1 && (items + [x])[i].unit == s.eeUnitId;
      if i < |items| {
        assert items[i] == (items + [x])[i];
      }
    }
    if Listed(items, s) {
      var i :| 0 <= i < |items| && items[i].unit == s.eeUnitId;
      assert (items + [x])[i] == items[i];
    }
    if x.unit == s.eeUnitId {
      assert (items + [x])[|items|] == x;
    }
  }

  /** Reporting a unit whose scene is id changes that row alone, and only when the report fails. */
  lemma ReportStep(m0: map<nat, Scene>, m: map<nat, Scene>, pk: nat, items: seq<EeItem>, x: EeItem, eeorder: string, env: Env, id: nat)
    requires m == Reported(m0, pk, items, eeorder, env) && UnitsUnique(m0, pk) && UnitOf(m0, pk, x.unit, id)
    ensures ReportFails(m0[id], eeorder, env) ==>
              Reported(m0, pk, items + [x], eeorder, env) == m[id := m0[id].(failedLtaStatusUpdate := Letter(m0[id].status))]
    ensures !ReportFails(m0[id], eeorder, env) ==> Reported(m0, pk, items + [x], eeorder, env) == m
  {
    forall y | y in m0
      ensures AfterReport(m0[y], pk, items + [x], eeorder, env) ==
              if y == id then AfterReport(m0[id], pk, [x], eeorder, env) else AfterReport(m0[y], pk, items, eeorder, env)
    {
      ListedSnoc(items, x, m0[y]);
      assert Listed([x], m0[id]) by { assert [x][0] == x; }
    }
  }

  /** Reporting a unit with no scene in the order changes nothing. */
  lemma ReportSkip(m0: map<nat, Scene>, pk: nat, items: seq<EeItem>, x: EeItem, eeorder: string, env: Env)
    requires NoUnit(m0, pk, x.unit)
    ensures Reported(m0, pk, items + [x], eeorder, env) == Reported(m0, pk, items, eeorder, env)
  {
    forall y | y in m0
      ensures AfterReport(m0[y], pk, items + [x], eeorder, env) == AfterReport(m0[y], pk, items, eeorder, env)
    {
      ListedSnoc(items, x, m0[y]);
      assert !UnitOf(m0, pk, x.unit, y);
    }
  }

  /**
   * The report of one unit: its scene in the order, if any, flagged when
   * its letter cannot be pushed; failed says that a push was refused.
   */
  method ReportUnit(m: map<nat, Scene>, ghost m0: map<nat, Scene>, ghost done: seq<EeItem>, x: EeItem, eeorder: string, pk: nat, env: Env)
    returns (m1: map<nat, Scene>, found: bool, failed: bool)
    requires m == Reported(m0, pk, done, eeorder, env) && UnitsUnique(m0, pk)
    ensures found <==> !NoUnit(m0, pk, x.unit)
    ensures m1 == Reported(m0, pk, done + [x], eeorder, env)
  {
    m1, failed := m, false;
    if id :| id in m && m[id].orderId == pk && m[id].eeUnitId == x.unit {
      assert UnitOf(m0, pk, x.unit, id);
      ReportStep(m0, m, pk, done, x, eeorder, env, id);
      var scene := m[id];
      assert scene.status == m0[id].status;
      var letter := Letter(scene.status);
      if letter.Some? {
        var ok := env.push(eeorder, x.unit, letter.value);
        if !ok {
          assert scene.(failedLtaStatusUpdate := letter) == m0[id].(failedLtaStatusUpdate := letter);
          m1, failed := m[id := scene.(failedLtaStatusUpdate := letter)], true;
        }
      }
      found := true;
    } else {
      forall y | y in m0 ensures !UnitOf(m0, pk, x.unit, y) {
        assert m[y].orderId == m0[y].orderId && m[y].eeUnitId == m0[y].eeUnitId;
      }
      ReportSkip(m0, pk, done, x, eeorder, env);
      found := false;
    }
  }

  /** update_ee_orders' loop over the scene rows: the reports, whether one failed, and the units still missing. */
  method ReportAll(m0: map<nat, Scene>, items: seq<EeItem>, eeorder: string, pk: nat, env: Env)
    returns (m: map<nat, Scene>, missing: seq<EeItem>, failed: bool)
    requires UnitsUnique(m0, pk)
    ensures m == Reported(m0, pk, items, eeorder, env)
    ensures missing == Missing(m0, pk, items)
  {
    m, missing, failed := m0, [], false;
    var i := 0;
    assert Reported(m0, pk, items[..0], eeorder, env) == m0;
    while i < |items|
      invariant 0 <= i <= |items| && m == Reported(m0, pk, items[..i], eeorder, env)
      invariant missing == Missing(m0, pk, items[..i])
    {
      assert items[..i + 1] == items[..i] + [items[i]];
      assert items[..i + 1][..i] == items[..i];
      var found, failedHere;
      m, found, failedHere := ReportUnit(m, m0, items[..i], items[i], eeorder, pk, env);
      if !found {
        missing := missing + [items[i]];
      }
      failed := failed || failedHere;
      i := i + 1;
    }
    assert items[..|items|] == items;
  }

  /**
   * update_ee_orders' loop: the reports, the flags they leave, and the
   * cache stamp a refused report sets; the units still missing.
   */
  method ReportUnits(db: Db, items: seq<EeItem>, eeorder: string, pk: nat, env: Env) returns (missing: seq<EeItem>)
    modifies db
    requires UnitsUnique(db.scenes, pk)
    ensures db.scenes == Reported(old(db.scenes), pk, items, eeorder, env)
    ensures missing == Missing(old(db.scenes), pk, items)
    ensures db.cache == old(db.cache) || db.cache == CacheSet(old(db.cache), LtaKey, env.now, 0)
    ensures db.orders == old(db.orders) && db.users == old(db.users) && db.onDisk == old(db.onDisk)
  {
    var m, failed;
    m, missing, failed := ReportAll(db.scenes, items, eeorder, pk, env);
    db.scenes := m;
    if failed {
      db.cache := CacheSet(db.cache, LtaKey, env.now, 0);
    }
  }

  /** Every unit's row builds. */
  predicate AllBuild(items: seq<EeItem>, pk: nat, aux: Aux)
  {
    forall i :: 0 <= i < |items| ==> EeRow(items[i], pk, aux).Ok?
  }

  /** What Order.find's None costs when the missed units' options are written to it. */
  const NoOrderUpdate := Raised(AttributeError, "'NoneType' object has no attribute 'update'")

  /**
   * The second half of update_ee_orders: the order of units missed on the
   * first load gets new default options, and those units are loaded as
   * missed scenes. Order.find's None is dereferenced when the order is gone.
   */
  method LoadMissed(db: Db, items: seq<EeItem>, missing: seq<EeItem>, pk: nat, aux: Aux, createError: Option<Raised>)
    returns (r: Result<()>)
    modifies db
    ensures pk !in old(db.orders) ==> r == Err(NoOrderUpdate)
    ensures pk in old(db.orders) && (forall j :: 0 <= j < |items| ==> OrderDomain.EeReadable(Sensor.Instance, ItemsJson(items)[j])) ==>
              db.orders.Keys == old(db.orders).Keys && db.orders[pk].productOpts.JObj?
              && OrderDomain.EeDescribed(Sensor.Instance, OrderDomain.EeIds(Sensor.Instance, ItemsJson(items)), db.orders[pk].productOpts.fields)
              && (createError.None? && AllBuild(missing, pk, aux) ==> r.Ok?)
    ensures forall id :: id in old(db.scenes) ==> id in db.scenes && db.scenes[id] == old(db.scenes)[id]
    ensures db.users == old(db.users) && db.onDisk == old(db.onDisk)
  {
    if pk !in db.orders {
      return Err(NoOrderUpdate);
    }
    var opts := OrderDomain.DefaultEeOptions(ItemsJson(items));
    if opts.Err? {
      return Err(opts.error);
    }
    db.orders := db.orders[pk := db.orders[pk].(productOpts := JObj(opts.value))];
    ghost var first;
    r, first := LoadEeScenes(db, missing, pk, true, aux, createError);
  }

  /**
   * update_ee_orders: every listed unit whose scene is complete,
   * unavailable or cancelled is reported to LTA, and a failed report keeps
   * its letter on the scene and stamps the cache. Units without a scene
   * lead to new default options for the order and to loading those units
   * as missed scenes.
   */
  method UpdateEeOrders(db: Db, items: seq<EeItem>, eeorder: string, pk: nat, env: Env, aux: Aux, createError: Option<Raised>)
    returns (r: Result<()>)
    modifies db
    requires UnitsUnique(db.scenes, pk)
    ensures Missing(old(db.scenes), pk, items) == [] ==>
              r.Ok? && db.scenes == Reported(old(db.scenes), pk, items, eeorder, env) && db.orders == old(db.orders)
    ensures Missing(old(db.scenes), pk, items) != [] && pk !in old(db.orders) ==> r == Err(NoOrderUpdate)
    ensures Missing(old(db.scenes), pk, items) != [] && pk in old(db.orders)
            && (forall j :: 0 <= j < |items| ==> OrderDomain.EeReadable(Sensor.Instance, ItemsJson(items)[j])) ==>
              db.orders.Keys == old(db.orders).Keys && db.orders[pk].productOpts.JObj?
              && OrderDomain.EeDescribed(Sensor.Instance, OrderDomain.EeIds(Sensor.Instance, ItemsJson(items)), db.orders[pk].productOpts.fields)
              && (createError.None? && AllBuild(Missing(old(db.scenes), pk, items), pk, aux) ==> r.Ok?)
    ensures forall id :: id in old(db.scenes) ==> id in db.scenes && db.scenes[id] == Reported(old(db.scenes), pk, items, eeorder, env)[id]
    ensures db.users == old(db.users) && db.onDisk == old(db.onDisk)
  {
    var missing := ReportUnits(db, items, eeorder, pk, env);
    if missing == [] {
      return Ok(());
    }
    r := LoadMissed(db, items, missing, pk, aux, createError);
  }

  // ------------------------------------------------- handle_failed_ee_updates

  /** The resend of a scene's flag goes through. */
  predicate Resends(s: Scene, orders: map<nat, Order>, env: Env)
  {
    s.orderId in orders && s.failedLtaStatusUpdate.Some?
    && env.push(orders[s.orderId].eeOrderId, s.eeUnitId, s.failedLtaStatusUpdate.value)
  }

  /** The rows after resending the failed reports of ids: a flag is cleared only when its resend succeeds. */
  function Resent(m: map<nat, Scene>, orders: map<nat, Order>, ids: set<nat>, env: Env): (r: map<nat, Scene>)
    ensures r.Keys == m.Keys
  {
    map id | id in m :: if id in ids && Resends(m[id], orders, env) then m[id].(failedLtaStatusUpdate := None) else m[id]
  }

  /** Resending one more scene changes its row alone. */
  lemma ResentStep(m: map<nat, Scene>, orders: map<nat, Order>, ids: set<nat>, env: Env, id: nat)
    requires id in m
    ensures Resends(m[id], orders, env) ==>
              Resent(m, orders, ids + {id}, env) == Resent(m, orders, ids, env)[id := m[id].(failedLtaStatusUpdate := None)]
    ensures !Resends(m[id], orders, env) ==> Resent(m, orders, ids + {id}, env) == Resent(m, orders, ids, env)
  {
  }

  /** The resend of one scene's flag; raised when it goes through but the flag cannot be cleared. */
  method ResendOne(db: Db, ghost m0: map<nat, Scene>, ghost done: set<nat>, id: nat, env: Env, dbUp: bool) returns (raised: bool)
    modifies db
    requires db.scenes == Resent(m0, db.orders, done, env)
    requires !dbUp ==> db.scenes == m0
    ensures raised <==> !dbUp && id in m0 && Resends(m0[id], db.orders, env)
    ensures !raised ==> db.scenes == Resent(m0, db.orders, done + {id}, env)
    ensures !dbUp ==> db.scenes == m0
    ensures db.orders == old(db.orders) && db.users == old(db.users) && db.cache == old(db.cache) && db.onDisk == old(db.onDisk)
  {
    raised := false;
    if id in db.scenes {
      ResentStep(m0, db.orders, done, env, id);
      var s := db.scenes[id];
      if s.orderId in db.orders && s.failedLtaStatusUpdate.Some? {
        var ok := env.push(db.orders[s.orderId].eeOrderId, s.eeUnitId, s.failedLtaStatusUpdate.value);
        if ok {
          if !dbUp {
            return true;
          }
          db.scenes := db.scenes[id := s.(failedLtaStatusUpdate := None)];
        }
      }
    } else {
      assert Resent(m0, db.orders, done + {id}, env) == Resent(m0, db.orders, done, env);
    }
  }

  /**
   * handle_failed_ee_updates: each flagged scene's letter is pushed again;
   * a push that fails leaves the flag for a later pass. dbUp is whether
   * the store accepts the update that clears a flag: when it does not,
   * the first successful resend raises as ProductionProviderException and
   * no flag has been cleared.
   */
  method HandleFailedEeUpdates(db: Db, ids: set<nat>, env: Env, dbUp: bool) returns (r: Result<bool>)
    modifies db
    ensures dbUp ==> r == Ok(true) && db.scenes == Resent(old(db.scenes), old(db.orders), ids, env)
    ensures !dbUp ==> db.scenes == old(db.scenes)
                      && (r.Err? <==> exists id :: id in ids && id in old(db.scenes) && Resends(old(db.scenes)[id], old(db.orders), env))
    ensures r.Err? ==> r.error.kind == ProductionProviderException
    ensures db.orders == old(db.orders) && db.users == old(db.users) && db.cache == old(db.cache) && db.onDisk == old(db.onDisk)
  {
    ghost var m0 := db.scenes;
    var todo := ids;
    assert Resent(m0, db.orders, {}, env) == m0;
    while todo != {}
      invariant todo <= ids && db.scenes == Resent(m0, db.orders, ids - todo, env)
      invariant !dbUp ==> db.scenes == m0 && forall id :: id in ids - todo && id in m0 ==> !Resends(m0[id], db.orders, env)
      invariant db.orders == old(db.orders) && db.users == old(db.users) && db.cache == old(db.cache) && db.onDisk == old(db.onDisk)
      decreases |todo|
    {
      var id :| id in todo;
      assert ids - (todo - {id}) == (ids - todo) + {id};
      var raised := ResendOne(db, m0, ids - todo, id, env, dbUp);
      if raised {
        return Err(Raised(ProductionProviderException, "ordering_scene update failed for handle_failed_ee_updates"));
      }
      todo := todo - {id};
    }
    assert ids - {} == ids;
    r := Ok(true);
  }

  /** Resending twice clears no more than resending once: a cleared flag has nothing left to send. */
  lemma ResentIdempotent(m: map<nat, Scene>, orders: map<nat, Order>, ids: set<nat>, env: Env)
    ensures Resent(Resent(m, orders, ids, env), orders, ids, env) == Resent(m, orders, ids, env)
  {
  }

  /** A flag stays set exactly when its resend does not go through. */
  lemma ResentKeepsFailures(m: map<nat, Scene>, orders: map<nat, Order>, ids: set<nat>, env: Env, id: nat)
    requires id in m && id in ids && m[id].failedLtaStatusUpdate.Some?
    ensures Resent(m, orders, ids, env)[id].failedLtaStatusUpdate.Some? <==> !Resends(m[id], orders, env)
  {
  }
}
