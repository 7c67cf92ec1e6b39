/**
 * The order-level passes of the production provider: plot products,
 * order completion, download sizes, purging and the initial e-mails.
 */
module ProductionOrders {
  import opened Wrappers
  import opened Text
  import opened Store
  import opened Production
  import opened ProductionHandlers

  // ------------------------------------------------ handle_submitted_plot_products

  /** The scenes of order pk. */
  function OrderScenes(m: map<nat, Scene>, pk: nat): (r: set<nat>)
    ensures forall id :: id in r <==> id in m && m[id].orderId == pk
  {
    set id | id in m && m[id].orderId == pk
  }

  /** The scenes of order pk in status st (scene_status_count(st) counts them). */
  function InStatus(m: map<nat, Scene>, pk: nat, st: SceneStatus): (r: set<nat>)
    ensures forall id :: id in r <==> id in m && m[id].orderId == pk && m[id].status == st
  {
    set id | id in m && m[id].orderId == pk && m[id].status == st
  }

  /** The plot scenes of order pk. */
  function Plots(m: map<nat, Scene>, pk: nat): (r: set<nat>)
    ensures forall id :: id in r <==> id in m && m[id].orderId == pk && m[id].sensorType == "plot"
  {
    set id | id in m && m[id].orderId == pk && m[id].sensorType == "plot"
  }

  /** How many scenes of the order are neither complete nor unavailable. */
  function Open(m: map<nat, Scene>, pk: nat): int
  {
    |OrderScenes(m, pk)| - (|InStatus(m, pk, Unavailable)| + |InStatus(m, pk, Complete)|)
  }

  const NoPlotInputs := "No input products were available for plotting and statistics"

  /** What Order.find's None costs when its scenes are counted. */
  const NoOrderCount := Raised(AttributeError, "'NoneType' object has no attribute 'scene_status_count'")

  /** The plot once the rest of its order is done: unavailable when nothing completed, otherwise on cache. */
  function PlotReady(s: Scene, complete: nat): Scene
  {
    if complete == 0 then s.(status := Unavailable, note := NoPlotInputs) else s.(status := Oncache, note := "")
  }

  /**
   * One order of the plot pass: when exactly one of its scenes is still
   * open, its single plot is released; an order with more plots than one
   * raises.
   */
  function PlotStep(m: map<nat, Scene>, orders: map<nat, Order>, pk: nat): Result<map<nat, Scene>>
  {
    if pk !in orders then Err(NoOrderCount)
    else if Open(m, pk) != 1 then Ok(m)
    else if |Plots(m, pk)| != 1 then
      Err(Raised(ValueError, "Too many (" + NatToString(|Plots(m, pk)|) + ") plots in order " + NatToString(pk)))
    else Ok(map id | id in m :: if id in Plots(m, pk) then PlotReady(m[id], |InStatus(m, pk, Complete)|) else m[id])
  }

  /** The plot pass over the orders in turn; the first error stops it. */
  function PlotPass(m: map<nat, Scene>, orders: map<nat, Order>, pks: seq<nat>): Result<map<nat, Scene>>
    decreases |pks|
  {
    if pks == [] then Ok(m)
    else match PlotPass(m, orders, pks[..|pks| - 1])
      case Err(e) => Err(e)
      case Ok(m1) => PlotStep(m1, orders, pks[|pks| - 1])
  }

  /** The order of each listed scene that exists. */
  function OrdersOf(m: map<nat, Scene>, ids: seq<nat>): (r: seq<nat>)
    ensures |r| <= |ids|
  {
    if ids == [] then []
    else (if ids[0] in m then [m[ids[0]].orderId] else []) + OrdersOf(m, ids[1..])
  }

  /** A step that is not an error changes at most the order's one plot, and only as PlotReady says. */
  lemma PlotStepFacts(m: map<nat, Scene>, orders: map<nat, Order>, pk: nat)
    ensures PlotStep(m, orders, pk).Err? <==> pk !in orders || (Open(m, pk) == 1 && |Plots(m, pk)| != 1)
    ensures PlotStep(m, orders, pk).Ok? ==> PlotStep(m, orders, pk).value.Keys == m.Keys
    ensures PlotStep(m, orders, pk).Ok? ==>
              forall id :: id in m ==>
                (PlotStep(m, orders, pk).value[id] == m[id]
                 || (id in Plots(m, pk) && Open(m, pk) == 1
                     && PlotStep(m, orders, pk).value[id] == PlotReady(m[id], |InStatus(m, pk, Complete)|)))
  {
  }

  /** Subtracting a subset counts what is left. */
  lemma CardDiff(a: set<nat>, b: set<nat>)
    requires b <= a
    ensures |a - b| == |a| - |b|
  {
    assert a == (a - b) + b;
  }

  /**
   * The plot is released only once everything else in its order is done:
   * a submitted plot is the one open scene, so every other scene of the
   * order is complete or unavailable.
   */
  lemma PlotWaitsForInputs(m: map<nat, Scene>, pk: nat, p: nat)
    requires p in Plots(m, pk) && m[p].status == Submitted && Open(m, pk) == 1
    ensures forall id :: id in OrderScenes(m, pk) && id != p ==> Finished(m[id].status)
  {
    var a, u, c := OrderScenes(m, pk), InStatus(m, pk, Unavailable), InStatus(m, pk, Complete);
    assert u * c == {};
    assert |u + c| == |u| + |c|;
    CardDiff(a, u + c);
    assert p in a - (u + c);
    forall id | id in a && id != p
      ensures Finished(m[id].status)
    {
      if !Finished(m[id].status) {
        assert {p, id} <= a - (u + c);
        assert |{p, id}| == 2;
        SubsetCard({p, id}, a - (u + c));
        assert false;
      }
    }
  }

  /** A subset is no larger. */
  lemma {:induction false} SubsetCard(a: set<nat>, b: set<nat>)
    requires a <= b
    ensures |a| <= |b|
    decreases |b|
  {
    if a != {} {
      var x :| x in a;
      SubsetCard(a - {x}, b - {x});
    }
  }

  /** An order with one plot has it as its only plot. */
  lemma SinglePlot(m: map<nat, Scene>, pk: nat) returns (p: nat)
    requires |Plots(m, pk)| == 1
    ensures Plots(m, pk) == {p}
  {
    p :| p in Plots(m, pk);
    forall q | q in Plots(m, pk)
      ensures q == p
    {
      if q != p {
        assert |{p, q}| == 2;
        SubsetCard({p, q}, Plots(m, pk));
        assert false;
      }
    }
  }

  /** Releasing the only plot of an order is a single-row update that keeps the order's scenes and plots. */
  lemma PlotReleased(m: map<nat, Scene>, pk: nat, p: nat, c: nat, m1: map<nat, Scene>)
    requires Plots(m, pk) == {p} && !Finished(m[p].status)
    requires m1 == map id | id in m :: if id in Plots(m, pk) then PlotReady(m[id], c) else m[id]
    ensures m1 == m[p := PlotReady(m[p], c)]
    ensures OrderScenes(m1, pk) == OrderScenes(m, pk) && Plots(m1, pk) == Plots(m, pk)
    ensures InStatus(m1, pk, Complete) == InStatus(m, pk, Complete)
    ensures InStatus(m1, pk, Unavailable) == if c == 0 then InStatus(m, pk, Unavailable) + {p} else InStatus(m, pk, Unavailable)
  {
  }

  /** Releasing a submitted plot and then running the step again changes nothing more. */
  lemma PlotIdempotent(m: map<nat, Scene>, orders: map<nat, Order>, pk: nat)
    requires PlotStep(m, orders, pk).Ok?
    requires forall id :: id in Plots(m, pk) ==> m[id].status == Submitted
    ensures PlotStep(PlotStep(m, orders, pk).value, orders, pk) == PlotStep(m, orders, pk)
  {
    var m1 := PlotStep(m, orders, pk).value;
    if pk in orders && Open(m, pk) == 1 {
      var c := |InStatus(m, pk, Complete)|;
      var p := SinglePlot(m, pk);
      PlotReleased(m, pk, p, c, m1);
      if c == 0 {
        assert Open(m1, pk) == 0;
      } else {
        assert Open(m1, pk) == 1;
        PlotRerun(m1, orders, pk, p, c);
      }
    }
  }

  /** Running the step again on an order whose plot is already on cache leaves the rows as they are. */
  lemma PlotRerun(m1: map<nat, Scene>, orders: map<nat, Order>, pk: nat, p: nat, c: nat)
    requires pk in orders && Open(m1, pk) == 1 && Plots(m1, pk) == {p} && |InStatus(m1, pk, Complete)| == c
    requires c != 0 && m1[p].status == Oncache && m1[p].note == ""
    ensures PlotStep(m1, orders, pk) == Ok(m1)
  {
    assert p in Plots(m1, pk);
    var m2 := PlotStep(m1, orders, pk).value;
    PlotReleased(m1, pk, p, c, m2);
    assert PlotReady(m1[p], c) == m1[p];
    assert m1[p := m1[p]] == m1;
  }

  /** The step for one order, written back to the store. */
  method PlotOrder(db: Db, pk: nat) returns (r: Result<()>)
    modifies db
    ensures PlotStep(old(db.scenes), db.orders, pk).Ok? ==> r.Ok? && db.scenes == PlotStep(old(db.scenes), db.orders, pk).value
    ensures PlotStep(old(db.scenes), db.orders, pk).Err? ==> r == Err(PlotStep(old(db.scenes), db.orders, pk).error)
                                                              && db.scenes == old(db.scenes)
    ensures db.orders == old(db.orders) && db.users == old(db.users) && db.cache == old(db.cache) && db.onDisk == old(db.onDisk)
  {
    var step := PlotStep(db.scenes, db.orders, pk);
    if step.Err? {
      return Err(step.error);
    }
    db.scenes := step.value;
    r := Ok(());
  }

  /**
   * handle_submitted_plot_products: the orders of the plot scenes are
   * visited in turn; the first missing order or order with several plots
   * stops the pass with the orders before it already done.
   */
  method HandleSubmittedPlotProducts(db: Db, plots: seq<nat>) returns (r: Result<bool>)
    modifies db
    ensures r.Ok? <==> PlotPass(old(db.scenes), db.orders, OrdersOf(old(db.scenes), plots)).Ok?
    ensures r.Ok? ==> r.value && db.scenes == PlotPass(old(db.scenes), db.orders, OrdersOf(old(db.scenes), plots)).value
    ensures r.Err? ==> r.error == PlotPass(old(db.scenes), db.orders, OrdersOf(old(db.scenes), plots)).error
    ensures r.Err? ==> exists k :: 0 <= k < |OrdersOf(old(db.scenes), plots)|
                                   && PlotPass(old(db.scenes), db.orders, OrdersOf(old(db.scenes), plots)[..k]) == Ok(db.scenes)
    ensures db.orders == old(db.orders) && db.users == old(db.users) && db.cache == old(db.cache) && db.onDisk == old(db.onDisk)
  {
    var pks := OrdersOf(db.scenes, plots);
    ghost var m0 := db.scenes;
    var i := 0;
    while i < |pks|
      invariant 0 <= i <= |pks|
      invariant PlotPass(m0, db.orders, pks[..i]) == Ok(db.scenes)
      invariant db.orders == old(db.orders) && db.users == old(db.users) && db.cache == old(db.cache) && db.onDisk == old(db.onDisk)
    {
      assert pks[..i + 1][..i] == pks[..i];
      var step := PlotOrder(db, pks[i]);
      if step.Err? {
        PassStops(m0, db.orders, pks, i);
        return Err(step.error);
      }
      i := i + 1;
    }
    assert pks[..i] == pks;
    r := Ok(true);
  }

  /** An error at one order is the error of the whole pass. */
  lemma {:induction false} PassStops(m: map<nat, Scene>, orders: map<nat, Order>, pks: seq<nat>, i: nat)
    requires i < |pks| && PlotPass(m, orders, pks[..i]).Ok?
    requires PlotStep(PlotPass(m, orders, pks[..i]).value, orders, pks[i]).Err?
    ensures PlotPass(m, orders, pks).Err?
    ensures PlotPass(m, orders, pks).error == PlotStep(PlotPass(m, orders, pks[..i]).value, orders, pks[i]).error
    decreases |pks| - i
  {
    assert pks[..i + 1][..i] == pks[..i];
    if i + 1 == |pks| {
      assert pks[..i + 1] == pks;
    } else {
      PassErrs(m, orders, pks, i + 1);
    }
  }

  /** Once the pass fails on a prefix it fails the same way on every longer prefix. */
  lemma {:induction false} PassErrs(m: map<nat, Scene>, orders: map<nat, Order>, pks: seq<nat>, n: nat)
    requires 0 < n <= |pks| && PlotPass(m, orders, pks[..n]).Err?
    ensures PlotPass(m, orders, pks) == PlotPass(m, orders, pks[..n])
    decreases |pks| - n
  {
    if n == |pks| {
      assert pks[..n] == pks;
    } else {
      assert pks[..n + 1][..n] == pks[..n];
      PassErrs(m, orders, pks, n + 1);
    }
  }

  // ----------------------------------------------------- update_order_if_complete

  /** No scene of order pk is still open. */
  predicate AllFinished(m: map<nat, Scene>, pk: nat)
  {
    forall id :: id in m && m[id].orderId == pk ==> Finished(m[id].status)
  }

  /**
   * The order as update_order_if_complete leaves it: once no scene is
   * open it is complete as of now; an espa order without a completion
   * e-mail is saved only when the e-mail goes out, and then records it.
   */
  function CheckedOrder(m: map<nat, Scene>, o: Order, pk: nat, ext: Ext, now: int): Order
  {
    if !AllFinished(m, pk) then o
    else
      var done := o.(status := OrderComplete, completionDate := Some(now));
      if o.orderSource == "espa" && o.completionEmailSent.None? then
        (if ext.mail("completion", o.orderid) then done.(completionEmailSent := Some(now)) else o)
      else done
  }

  /**
   * What the check promises: an order with an open scene is untouched; a
   * finished one is complete unless it is an espa order whose e-mail
   * failed; an espa order is never completed without its e-mail recorded;
   * checking twice at the same time checks once.
   */
  lemma CheckedOrderFacts(m: map<nat, Scene>, o: Order, pk: nat, ext: Ext, now: int)
    ensures !AllFinished(m, pk) ==> CheckedOrder(m, o, pk, ext, now) == o
    ensures CheckedOrder(m, o, pk, ext, now) != o ==> CheckedOrder(m, o, pk, ext, now).status == OrderComplete
    ensures AllFinished(m, pk) && !(o.orderSource == "espa" && o.completionEmailSent.None? && !ext.mail("completion", o.orderid)) ==>
              CheckedOrder(m, o, pk, ext, now).status == OrderComplete && CheckedOrder(m, o, pk, ext, now).completionDate == Some(now)
    ensures o.orderSource == "espa" && o.completionEmailSent.None? && CheckedOrder(m, o, pk, ext, now).status == OrderComplete
            && o.status != OrderComplete ==>
              CheckedOrder(m, o, pk, ext, now).completionEmailSent == Some(now)
    ensures CheckedOrder(m, CheckedOrder(m, o, pk, ext, now), pk, ext, now) == CheckedOrder(m, o, pk, ext, now)
    ensures CheckedOrder(m, o, pk, ext, now).orderid == o.orderid && CheckedOrder(m, o, pk, ext, now).orderSource == o.orderSource
  {
  }

  /** update_order_if_complete: a key with no order raises TypeError. */
  method UpdateOrderIfComplete(db: Db, pk: nat, ext: Ext, env: Env) returns (r: Result<bool>)
    modifies db
    ensures r.Err? <==> pk !in old(db.orders)
    ensures r.Err? ==> r.error == Raised(TypeError, "None must be of type Order, int or str") && db.orders == old(db.orders)
    ensures r.Ok? ==> r.value && db.orders == old(db.orders)[pk := CheckedOrder(db.scenes, old(db.orders)[pk], pk, ext, env.now)]
    ensures db.scenes == old(db.scenes) && db.users == old(db.users) && db.cache == old(db.cache) && db.onDisk == old(db.onDisk)
  {
    if pk !in db.orders {
      return Err(Raised(TypeError, "None must be of type Order, int or str"));
    }
    var o := db.orders[pk];
    var open := set id | id in db.scenes && db.scenes[id].orderId == pk && !Finished(db.scenes[id].status);
    if |open| == 0 {
      assert forall id :: id in db.scenes && db.scenes[id].orderId == pk ==> id !in open;
      var done := o.(status := OrderComplete, completionDate := Some(env.now));
      if o.orderSource == "espa" && o.completionEmailSent.None? {
        if ext.mail("completion", o.orderid) {
          db.orders := db.orders[pk := done.(completionEmailSent := Some(env.now))];
        }
      } else {
        db.orders := db.orders[pk := done];
      }
    }
    r := Ok(true);
  }

  /** The orders after checking each listed one (scenes do not change, so order and repeats do not matter). */
  predicate FinalizedAs(m: map<nat, Scene>, o0: map<nat, Order>, orders: map<nat, Order>, pks: seq<nat>, ext: Ext, now: int)
  {
    orders.Keys == o0.Keys
    && forall pk :: pk in o0 ==> orders[pk] == if pk in pks then CheckedOrder(m, o0[pk], pk, ext, now) else o0[pk]
  }

  /** finalize_orders: every listed order is checked; the first missing one raises. */
  method FinalizeOrders(db: Db, pks: seq<nat>, ext: Ext, env: Env) returns (r: Result<bool>)
    modifies db
    ensures r.Ok? <==> forall pk :: pk in pks ==> pk in old(db.orders)
    ensures r.Ok? ==> r.value && FinalizedAs(db.scenes, old(db.orders), db.orders, pks, ext, env.now)
    ensures r.Err? ==> r.error.kind == TypeError
    ensures db.scenes == old(db.scenes) && db.users == old(db.users) && db.cache == old(db.cache) && db.onDisk == old(db.onDisk)
  {
    var i := 0;
    while i < |pks|
      invariant 0 <= i <= |pks|
      invariant forall j :: 0 <= j < i ==> pks[j] in old(db.orders)
      invariant FinalizedAs(db.scenes, old(db.orders), db.orders, pks[..i], ext, env.now)
      invariant db.scenes == old(db.scenes) && db.users == old(db.users) && db.cache == old(db.cache) && db.onDisk == old(db.onDisk)
    {
      ghost var before := db.orders;
      var step := UpdateOrderIfComplete(db, pks[i], ext, env);
      if step.Err? {
        return Err(step.error);
      }
      FinalizeStep(db.scenes, old(db.orders), before, db.orders, pks[..i], pks[i], ext, env.now);
      assert pks[..i + 1] == pks[..i] + [pks[i]];
      i := i + 1;
    }
    assert pks[..i] == pks;
    r := Ok(true);
  }

  /** Checking one more order, listed before or not, extends FinalizedAs. */
  lemma FinalizeStep(m: map<nat, Scene>, o0: map<nat, Order>, orders: map<nat, Order>, orders1: map<nat, Order>,
                     pks: seq<nat>, pk: nat, ext: Ext, now: int)
    requires FinalizedAs(m, o0, orders, pks, ext, now) && pk in orders
    requires orders1 == orders[pk := CheckedOrder(m, orders[pk], pk, ext, now)]
    ensures FinalizedAs(m, o0, orders1, pks + [pk], ext, now)
  {
    assert forall q :: q in pks + [pk] <==> q in pks || q == pk;
    CheckedOrderFacts(m, o0[pk], pk, ext, now);
  }

  // ---------------------------------------------------- calc_scene_download_sizes

  const DownloadMissing := "product download not found"

  /** A completed scene once its product file is looked for: its size, or an error when the file is gone. */
  function Sized(s: Scene, env: Env): (r: Scene)
  {
    var size := env.fileSize(s.productDistroLocation);
    if size.Some? then s.(downloadSize := Some(size.value)) else s.(status := Error, note := DownloadMissing)
  }

  /** Exactly one of the two happens, and nothing else about the scene changes. */
  lemma SizedFacts(s: Scene, env: Env)
    ensures env.fileSize(s.productDistroLocation).Some? ==>
              Sized(s, env).downloadSize == Some(env.fileSize(s.productDistroLocation).value) && Sized(s, env).(downloadSize := s.downloadSize) == s
    ensures env.fileSize(s.productDistroLocation).None? ==>
              Sized(s, env).status == Error && Sized(s, env).note == DownloadMissing && Sized(s, env).(status := s.status, note := s.note) == s
    ensures Sized(Sized(s, env), env) == Sized(s, env)
  {
  }

  /** calc_scene_download_sizes over the listed scenes. */
  method CalcSceneDownloadSizes(db: Db, ids: seq<nat>, env: Env) returns (r: bool)
    modifies db
    ensures r && db.scenes.Keys == old(db.scenes).Keys
    ensures forall id :: id in old(db.scenes) ==> db.scenes[id] == if id in ids then Sized(old(db.scenes)[id], env) else old(db.scenes)[id]
    ensures db.orders == old(db.orders) && db.users == old(db.users) && db.cache == old(db.cache) && db.onDisk == old(db.onDisk)
  {
    var i := 0;
    while i < |ids|
      invariant 0 <= i <= |ids| && db.scenes.Keys == old(db.scenes).Keys
      invariant forall id :: id in old(db.scenes) ==> db.scenes[id] == if id in ids[..i] then Sized(old(db.scenes)[id], env) else old(db.scenes)[id]
      invariant db.orders == old(db.orders) && db.users == old(db.users) && db.cache == old(db.cache) && db.onDisk == old(db.onDisk)
    {
      var id := ids[i];
      assert forall q :: q in ids[..i + 1] <==> q in ids[..i] || q == id by {
        assert ids[..i + 1] == ids[..i] + [id];
      }
      if id in db.scenes {
        SizedFacts(old(db.scenes)[id], env);
        db.scenes := db.scenes[id := Sized(db.scenes[id], env)];
      }
      i := i + 1;
    }
    assert ids[..i] == ids;
    r := true;
  }

  // ----------------------------------------------------------------- purge_orders

  /** The purge cutoff: that many days before now. */
  function Cutoff(now: int, days: int): int
  {
    now - days * 86400
  }

  /** The completed orders whose completion date is before the cutoff. */
  function Purgeable(orders: map<nat, Order>, cutoff: int): (r: set<nat>)
    ensures forall pk :: pk in r <==> pk in orders && orders[pk].status == OrderComplete
                                      && orders[pk].completionDate.Some? && orders[pk].completionDate.value < cutoff
  {
    set pk | pk in orders && orders[pk].status == OrderComplete
             && orders[pk].completionDate.Some? && orders[pk].completionDate.value < cutoff
  }

  /** A purged product: its status, and the log, locations, urls and job name cleared. */
  function PurgedScene(s: Scene): Scene
  {
    s.(status := Purged, logFileContents := "", productDistroLocation := "", productDloadUrl := "",
       cksumDistroLocation := "", cksumDownloadUrl := "", jobName := "")
  }

  /** The store after purging the orders in ps. */
  predicate PurgedAs(m0: map<nat, Scene>, o0: map<nat, Order>, d0: set<string>,
                     m: map<nat, Scene>, orders: map<nat, Order>, onDisk: set<string>, ps: set<nat>, ext: Ext)
  {
    orders.Keys == o0.Keys && m.Keys == m0.Keys
    && (forall pk :: pk in o0 ==> orders[pk] == if pk in ps then o0[pk].(status := OrderPurged) else o0[pk])
    && (forall id :: id in m0 ==> m[id] == if m0[id].orderId in ps then PurgedScene(m0[id]) else m0[id])
    && onDisk == d0 - PurgedDirs(o0, ps, ext)
  }

  /** The directories of the purged orders whose delete succeeds. */
  function PurgedDirs(o0: map<nat, Order>, ps: set<nat>, ext: Ext): set<string>
  {
    set pk | pk in ps && pk in o0 && ext.deleteOk(o0[pk].orderid) :: o0[pk].orderid
  }

  /** One more purged order adds its directory when the delete succeeds. */
  lemma PurgedDirsStep(o0: map<nat, Order>, ps: set<nat>, pk: nat, ext: Ext)
    requires pk in o0
    ensures PurgedDirs(o0, ps + {pk}, ext) == PurgedDirs(o0, ps, ext) + (if ext.deleteOk(o0[pk].orderid) then {o0[pk].orderid} else {})
  {
  }

  /** Purging one more order extends PurgedAs. */
  lemma PurgeStep(m0: map<nat, Scene>, o0: map<nat, Order>, d0: set<string>,
                  m: map<nat, Scene>, orders: map<nat, Order>, onDisk: set<string>, ps: set<nat>, pk: nat, ext: Ext,
                  m1: map<nat, Scene>, orders1: map<nat, Order>, onDisk1: set<string>)
    requires PurgedAs(m0, o0, d0, m, orders, onDisk, ps, ext) && pk in o0 && pk !in ps
    requires orders1 == orders[pk := orders[pk].(status := OrderPurged)]
    requires m1.Keys == m.Keys && forall id :: id in m ==> m1[id] == if m[id].orderId == pk then PurgedScene(m[id]) else m[id]
    requires onDisk1 == if ext.deleteOk(o0[pk].orderid) then onDisk - {o0[pk].orderid} else onDisk
    ensures PurgedAs(m0, o0, d0, m1, orders1, onDisk1, ps + {pk}, ext)
  {
    PurgedDirsStep(o0, ps, pk, ext);
    forall id | id in m0
      ensures m1[id] == if m0[id].orderId in ps + {pk} then PurgedScene(m0[id]) else m0[id]
    {
      assert m[id].orderId == m0[id].orderId;
    }
  }

  /** One order of the purge. */
  method PurgeOne(db: Db, pk: nat, ext: Ext)
    requires pk in db.orders
    modifies db
    ensures db.orders == old(db.orders)[pk := old(db.orders)[pk].(status := OrderPurged)]
    ensures db.scenes.Keys == old(db.scenes).Keys
    ensures forall id :: id in old(db.scenes) ==>
              db.scenes[id] == if old(db.scenes)[id].orderId == pk then PurgedScene(old(db.scenes)[id]) else old(db.scenes)[id]
    ensures db.onDisk == if ext.deleteOk(old(db.orders)[pk].orderid) then old(db.onDisk) - {old(db.orders)[pk].orderid} else old(db.onDisk)
    ensures db.users == old(db.users) && db.cache == old(db.cache)
  {
    var o := db.orders[pk];
    db.orders := db.orders[pk := o.(status := OrderPurged)];
    db.scenes := map id | id in db.scenes :: if db.scenes[id].orderId == pk then PurgedScene(db.scenes[id]) else db.scenes[id];
    if o.orderid in db.onDisk {
      if ext.deleteOk(o.orderid) {
        db.onDisk := db.onDisk - {o.orderid};
      }
    }
  }

  /** Purging one more of the orders still to do. */
  method PurgeNext(db: Db, ghost m0: map<nat, Scene>, ghost o0: map<nat, Order>, ghost d0: set<string>,
                   ghost done: set<nat>, todo: set<nat>, ghost purge: set<nat>, ext: Ext)
    returns (ghost done1: set<nat>, todo1: set<nat>)
    requires todo != {} && PurgeProgress(m0, o0, d0, db.scenes, db.orders, db.onDisk, done, todo, purge, ext)
    modifies db
    ensures PurgeProgress(m0, o0, d0, db.scenes, db.orders, db.onDisk, done1, todo1, purge, ext) && |todo1| < |todo|
    ensures db.users == old(db.users) && db.cache == old(db.cache)
  {
    var pk :| pk in todo;
    ghost var m, orders, onDisk := db.scenes, db.orders, db.onDisk;
    PurgeOne(db, pk, ext);
    PurgeStep(m0, o0, d0, m, orders, onDisk, done, pk, ext, db.scenes, db.orders, db.onDisk);
    done1, todo1 := done + {pk}, todo - {pk};
  }

  /**
   * purge_orders: every completed order older than the policy's days is
   * purged with its products, and its directory leaves the online cache
   * unless the delete fails (which is logged and skipped).
   */
  method PurgeOrders(db: Db, days: int, ext: Ext, env: Env) returns (r: bool)
    modifies db
    ensures r
    ensures PurgedAs(old(db.scenes), old(db.orders), old(db.onDisk), db.scenes, db.orders, db.onDisk,
                     Purgeable(old(db.orders), Cutoff(env.now, days)), ext)
    ensures db.users == old(db.users) && db.cache == old(db.cache)
  {
    PurgeAll(db, Purgeable(db.orders, Cutoff(env.now, days)), ext);
    r := true;
  }

  /** Part of the orders purged, the rest still to do. */
  predicate PurgeProgress(m0: map<nat, Scene>, o0: map<nat, Order>, d0: set<string>,
                          m: map<nat, Scene>, orders: map<nat, Order>, onDisk: set<string>,
                          done: set<nat>, todo: set<nat>, purge: set<nat>, ext: Ext)
  {
    done + todo == purge && done * todo == {} && (forall pk :: pk in purge ==> pk in o0)
    && PurgedAs(m0, o0, d0, m, orders, onDisk, done, ext)
  }

  /** The purge loop over a set of orders. */
  method PurgeAll(db: Db, purge: set<nat>, ext: Ext)
    requires forall pk :: pk in purge ==> pk in db.orders
    modifies db
    ensures PurgedAs(old(db.scenes), old(db.orders), old(db.onDisk), db.scenes, db.orders, db.onDisk, purge, ext)
    ensures db.users == old(db.users) && db.cache == old(db.cache)
  {
    var todo := purge;
    ghost var done: set<nat> := {};
    ghost var m0, o0, d0 := db.scenes, db.orders, db.onDisk;
    while todo != {}
      invariant PurgeProgress(m0, o0, d0, db.scenes, db.orders, db.onDisk, done, todo, purge, ext)
      invariant db.users == old(db.users) && db.cache == old(db.cache)
      decreases |todo|
    {
      done, todo := PurgeNext(db, m0, o0, d0, done, todo, purge, ext);
    }
  }

  /** A second purge with the same cutoff finds nothing left to purge. */
  lemma PurgeIdempotent(m0: map<nat, Scene>, o0: map<nat, Order>, d0: set<string>,
                        m: map<nat, Scene>, orders: map<nat, Order>, onDisk: set<string>, cutoff: int, ext: Ext)
    requires PurgedAs(m0, o0, d0, m, orders, onDisk, Purgeable(o0, cutoff), ext)
    ensures Purgeable(orders, cutoff) == {}
    ensures forall pk :: pk in Purgeable(o0, cutoff) ==> orders[pk].status == OrderPurged
  {
    forall pk | pk in orders
      ensures pk !in Purgeable(orders, cutoff)
    {
      if pk in Purgeable(o0, cutoff) {
        assert orders[pk].status == OrderPurged;
      } else {
        assert orders[pk] == o0[pk];
      }
    }
  }

  // ------------------------------------------------------------- send_all_initial

  /** The order after its initial e-mail: recorded only when it was not yet sent and the send succeeds. */
  function InitialSent(o: Order, ext: Ext, now: int): Order
  {
    if o.initialEmailSent.None? && ext.mail("initial", o.orderid) then o.(initialEmailSent := Some(now)) else o
  }

  /** Sending the initial e-mails again sends none twice. */
  lemma InitialSentIdempotent(o: Order, ext: Ext, now: int, later: int)
    ensures InitialSent(InitialSent(o, ext, now), ext, later) == InitialSent(o, ext, now)
    ensures InitialSent(o, ext, now).initialEmailSent.Some? <==> o.initialEmailSent.Some? || ext.mail("initial", o.orderid)
  {
  }

  /** send_all_initial: a failed send is logged and the order left to a later pass. */
  method SendAllInitial(db: Db, pks: seq<nat>, ext: Ext, env: Env) returns (r: bool)
    modifies db
    ensures r && db.orders.Keys == old(db.orders).Keys
    ensures forall pk :: pk in old(db.orders) ==>
              db.orders[pk] == if pk in pks then InitialSent(old(db.orders)[pk], ext, env.now) else old(db.orders)[pk]
    ensures db.scenes == old(db.scenes) && db.users == old(db.users) && db.cache == old(db.cache) && db.onDisk == old(db.onDisk)
  {
    var i := 0;
    while i < |pks|
      invariant 0 <= i <= |pks| && db.orders.Keys == old(db.orders).Keys
      invariant forall pk :: pk in old(db.orders) ==>
                  db.orders[pk] == if pk in pks[..i] then InitialSent(old(db.orders)[pk], ext, env.now) else old(db.orders)[pk]
      invariant db.scenes == old(db.scenes) && db.users == old(db.users) && db.cache == old(db.cache) && db.onDisk == old(db.onDisk)
    {
      var pk := pks[i];
      assert forall q :: q in pks[..i + 1] <==> q in pks[..i] || q == pk by {
        assert pks[..i + 1] == pks[..i] + [pk];
      }
      if pk in db.orders {
        var o := db.orders[pk];
        InitialSentIdempotent(old(db.orders)[pk], ext, env.now, env.now);
        if o.initialEmailSent.None? && ext.mail("initial", o.orderid) {
          db.orders := db.orders[pk := o.(initialEmailSent := Some(env.now))];
        }
      }
      i := i + 1;
    }
    assert pks[..i] == pks;
    r := true;
  }
}
