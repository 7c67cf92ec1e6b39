/**
 * The production provider's reconciliation handlers: the passes
 * handle_orders makes over the store to move scenes along once the
 * upstream systems (LTA, the inventory, the online cache) have answered.
 * Each upstream answer is a field of Ext.
 */
module ProductionHandlers {
  import opened Wrappers
  import opened Json
  import opened Store
  import opened Production

  /** One unit of an LTA order status: the scene id and its one-letter status. */
  datatype Unit = Unit(sceneId: string, status: string)

  /** What the external systems answer. */
  datatype Ext = Ext(
    /** Whether the e-mail of that kind ("initial", "cancelled", "completion") for that order goes out. */
    mail: (string, string) -> bool,
    /** Whether onlinecache.delete of the order's directory succeeds. */
    deleteOk: string -> bool,
    /** lta.get_order_status(tid)['units']: the units of a tram order. */
    units: Option<nat> -> seq<Unit>,
    /** inventory.available(). */
    inventoryUp: bool,
    /** inventory.check_valid for one product name. */
    valid: string -> bool,
    /** Whether the MODIS datapool (needed by the 'st' product) is reachable. */
    datapoolUp: bool,
    /** sensor.instance(name).shortname. */
    shortname: string -> Result<string>)

  /** Scene.bulk_update(ids, {'status': st, 'note': note}). */
  function BulkSet(m: map<nat, Scene>, ids: set<nat>, st: SceneStatus, note: string): (r: map<nat, Scene>)
    ensures r.Keys == m.Keys
  {
    map id | id in m :: if id in ids then m[id].(status := st, note := note) else m[id]
  }

  /** A bulk update writes the status and note of the named rows and leaves every other column and row alone. */
  lemma BulkSetFacts(m: map<nat, Scene>, ids: set<nat>, st: SceneStatus, note: string, id: nat)
    requires id in m
    ensures id in ids ==> BulkSet(m, ids, st, note)[id].status == st && BulkSet(m, ids, st, note)[id].note == note
                          && SameProduct(BulkSet(m, ids, st, note)[id], m[id])
                          && BulkSet(m, ids, st, note)[id].(status := m[id].status, note := m[id].note) == m[id]
    ensures id !in ids ==> BulkSet(m, ids, st, note)[id] == m[id]
  {
  }

  // ------------------------------------------------------ handle_retry_products

  /** handle_retry_products: the matured retries go back to submitted with an empty note. */
  method HandleRetryProducts(db: Db, ids: set<nat>) returns (r: bool)
    modifies db
    ensures r
    ensures db.scenes == BulkSet(old(db.scenes), ids, Submitted, "")
    ensures db.orders == old(db.orders) && db.users == old(db.users) && db.cache == old(db.cache) && db.onDisk == old(db.onDisk)
  {
    if |ids| > 0 {
      db.scenes := BulkSet(db.scenes, ids, Submitted, "");
    }
    r := true;
  }

  // ---------------------------------------------------- handle_cancelled_orders

  /** Every scene of the order is cancelled (the cancelled count equals the scene count). */
  predicate AllCancelled(m: map<nat, Scene>, pk: nat)
  {
    forall id :: id in m && m[id].orderId == pk ==> m[id].status == Cancelled
  }

  /** A cancelled order still to finish: all its scenes cancelled and no e-mail recorded yet. */
  predicate CancelPending(m: map<nat, Scene>, o: Order, pk: nat)
  {
    AllCancelled(m, pk) && o.completionEmailSent.None?
  }

  /** The order once its cancellation is finished: an espa order records the e-mail. */
  function FinishedCancel(m: map<nat, Scene>, o: Order, pk: nat, now: int): (r: Order)
  {
    if CancelPending(m, o, pk) && o.orderSource == "espa" then o.(completionEmailSent := Some(now)) else o
  }

  /**
   * The directories the pass removes: those of the listed orders still to
   * finish whose delete succeeds. A failed delete answers False, which the
   * handler does not look at.
   */
  function CancelledDirs(m: map<nat, Scene>, orders: map<nat, Order>, pks: seq<nat>, ext: Ext): (r: set<string>)
  {
    set pk | pk in pks && pk in orders && CancelPending(m, orders[pk], pk) && ext.deleteOk(orders[pk].orderid) :: orders[pk].orderid
  }

  /** Finishing twice finishes once. */
  lemma FinishedCancelIdempotent(m: map<nat, Scene>, o: Order, pk: nat, now: int)
    ensures FinishedCancel(m, FinishedCancel(m, o, pk, now), pk, now) == FinishedCancel(m, o, pk, now)
    ensures FinishedCancel(m, o, pk, now).orderid == o.orderid && FinishedCancel(m, o, pk, now).orderSource == o.orderSource
  {
  }

  /** One order of handle_cancelled_orders. */
  method FinishCancel(db: Db, pk: nat, ext: Ext, env: Env) returns (r: Result<()>)
    modifies db
    ensures r.Ok? ==> db.orders == (if pk in old(db.orders) then old(db.orders)[pk := FinishedCancel(db.scenes, old(db.orders)[pk], pk, env.now)]
                                    else old(db.orders))
    ensures r.Ok? ==> db.onDisk == (if pk in old(db.orders) && CancelPending(db.scenes, old(db.orders)[pk], pk) && ext.deleteOk(old(db.orders)[pk].orderid)
                                    then old(db.onDisk) - {old(db.orders)[pk].orderid} else old(db.onDisk))
    ensures r.Ok? && pk in old(db.orders) && CancelPending(db.scenes, old(db.orders)[pk], pk) && old(db.orders)[pk].orderSource == "espa" ==>
              ext.mail("cancelled", old(db.orders)[pk].orderid)
    ensures r.Err? <==> pk in old(db.orders) && CancelPending(db.scenes, old(db.orders)[pk], pk) && old(db.orders)[pk].orderSource == "espa"
                        && !ext.mail("cancelled", old(db.orders)[pk].orderid)
    ensures r.Err? ==> r.error.kind == SmtpException
    ensures db.scenes == old(db.scenes) && db.users == old(db.users) && db.cache == old(db.cache)
  {
    if pk !in db.orders {
      return Ok(());
    }
    var o := db.orders[pk];
    if !AllCancelled(db.scenes, pk) {
      return Ok(());
    }
    if o.completionEmailSent.None? {
      if o.orderid in db.onDisk && ext.deleteOk(o.orderid) {
        db.onDisk := db.onDisk - {o.orderid};
      }
      if o.orderSource == "espa" {
        if !ext.mail("cancelled", o.orderid) {
          return Err(Raised(SmtpException, "could not send the cancellation e-mail"));
        }
        db.orders := db.orders[pk := o.(completionEmailSent := Some(env.now))];
      }
    }
    r := Ok(());
  }

  /** The state after finishing the listed orders, starting from orders o0 and directories d0. */
  predicate CancelDone(m: map<nat, Scene>, o0: map<nat, Order>, d0: set<string>, orders: map<nat, Order>, onDisk: set<string>,
                       pks: seq<nat>, now: int, ext: Ext)
  {
    orders.Keys == o0.Keys
    && (forall pk :: pk in o0 ==> orders[pk] == if pk in pks then FinishedCancel(m, o0[pk], pk, now) else o0[pk])
    && onDisk == d0 - CancelledDirs(m, o0, pks, ext)
    && forall pk :: (pk in pks && pk in o0 && CancelPending(m, o0[pk], pk) && o0[pk].orderSource == "espa") ==>
                      ext.mail("cancelled", o0[pk].orderid)
  }

  /** Finishing one more order, whether listed before or not, extends the finished state. */
  lemma CancelStep(m: map<nat, Scene>, o0: map<nat, Order>, d0: set<string>, orders: map<nat, Order>, onDisk: set<string>,
                   pks: seq<nat>, pk: nat, now: int, ext: Ext, orders1: map<nat, Order>, onDisk1: set<string>)
    requires CancelDone(m, o0, d0, orders, onDisk, pks, now, ext)
    requires orders1 == if pk in orders then orders[pk := FinishedCancel(m, orders[pk], pk, now)] else orders
    requires onDisk1 == if pk in orders && CancelPending(m, orders[pk], pk) && ext.deleteOk(orders[pk].orderid) then onDisk - {orders[pk].orderid} else onDisk
    requires pk in orders && CancelPending(m, orders[pk], pk) && orders[pk].orderSource == "espa" ==> ext.mail("cancelled", orders[pk].orderid)
    ensures CancelDone(m, o0, d0, orders1, onDisk1, pks + [pk], now, ext)
  {
    assert forall q :: q in pks + [pk] <==> q in pks || q == pk;
    if pk in o0 {
      FinishedCancelIdempotent(m, o0[pk], pk, now);
      if pk in pks && CancelPending(m, orders[pk], pk) {
        assert CancelPending(m, o0[pk], pk);
      }
    }
    CancelledDirsSnoc(m, o0, pks, pk, ext);
  }

  /** The directories after one more order: its own, when it is pending and its delete succeeds. */
  lemma CancelledDirsSnoc(m: map<nat, Scene>, o0: map<nat, Order>, pks: seq<nat>, pk: nat, ext: Ext)
    ensures CancelledDirs(m, o0, pks + [pk], ext) ==
            CancelledDirs(m, o0, pks, ext) + (if pk in o0 && CancelPending(m, o0[pk], pk) && ext.deleteOk(o0[pk].orderid) then {o0[pk].orderid} else {})
  {
    assert forall q :: q in pks + [pk] <==> q in pks || q == pk;
  }

  /**
   * handle_cancelled_orders: each listed order whose scenes are all
   * cancelled and whose e-mail is not recorded has its directory removed
   * from the online cache and, for an espa order, the cancellation
   * e-mail sent and recorded. A failed delete leaves the directory and
   * the pass goes on; a failed e-mail escapes.
   */
  method HandleCancelledOrders(db: Db, pks: seq<nat>, ext: Ext, env: Env) returns (r: Result<bool>)
    modifies db
    ensures r.Ok? ==> r.value
    ensures r.Ok? ==> CancelDone(db.scenes, old(db.orders), old(db.onDisk), db.orders, db.onDisk, pks, env.now, ext)
    ensures r.Err? ==> r.error.kind == SmtpException
    ensures db.scenes == old(db.scenes) && db.users == old(db.users) && db.cache == old(db.cache)
  {
    ghost var o0 := db.orders;
    ghost var d0 := db.onDisk;
    var i := 0;
    while i < |pks|
      invariant 0 <= i <= |pks| && CancelDone(db.scenes, o0, d0, db.orders, db.onDisk, pks[..i], env.now, ext)
      invariant db.scenes == old(db.scenes) && db.users == old(db.users) && db.cache == old(db.cache)
    {
      ghost var orders, onDisk := db.orders, db.onDisk;
      var step := FinishCancel(db, pks[i], ext, env);
      if step.Err? {
        return Err(step.error);
      }
      CancelStep(db.scenes, o0, d0, orders, onDisk, pks[..i], pks[i], env.now, ext, db.orders, db.onDisk);
      assert pks[..i + 1] == pks[..i] + [pks[i]];
      i := i + 1;
    }
    assert pks[..|pks|] == pks;
    r := Ok(true);
  }

  // --------------------------------------------- handle_onorder_landsat_products

  /** The least element of a non-empty set. */
  method LeastOf(s: set<nat>) returns (m: nat)
    requires s != {}
    ensures m in s && forall x :: x in s ==> m <= x
  {
    var x0 :| x0 in s;
    m := x0;
    var todo := s - {x0};
    while todo != {}
      invariant todo <= s && m in s
      invariant forall x :: x in s - todo ==> m <= x
      decreases |todo|
    {
      var x :| x in todo;
      assert s - (todo - {x}) == (s - todo) + {x};
      if x < m {
        m := x;
      }
      todo := todo - {x};
    }
    assert s - todo == s;
  }

  /** sorted(s)[:n]: the n least elements, ascending (all of them when there are fewer). */
  method Smallest(s: set<nat>, n: nat) returns (r: seq<nat>)
    ensures |r| == if |s| < n then |s| else n
    ensures forall i, j :: 0 <= i < j < |r| ==> r[i] < r[j]
    ensures forall x :: x in r ==> x in s
    ensures forall x :: x in s && x !in r ==> |r| == n && forall y :: y in r ==> y < x
  {
    r := [];
    var rest := s;
    while |r| < n && rest != {}
      invariant rest <= s && |rest| == |s| - |r|
      invariant forall x :: x in s ==> (x in r <==> x !in rest)
      invariant forall x :: x in r ==> x in s
      invariant forall i, j :: 0 <= i < j < |r| ==> r[i] < r[j]
      invariant forall i, x :: 0 <= i < |r| && x in rest ==> r[i] < x
      invariant |r| <= n
      decreases |rest|
    {
      var m := LeastOf(rest);
      r := r + [m];
      rest := rest - {m};
    }
  }

  /** A tram order id as a sort key: Python 2 sorts None before every number. */
  function TramKey(t: Option<nat>): (k: nat)
    ensures t.None? <==> k == 0
    ensures t.Some? ==> k == t.value + 1
  {
    if t.None? then 0 else t.value + 1
  }

  /** The tram order id of a sort key. */
  function TramOf(k: nat): (t: Option<nat>)
    ensures TramKey(t) == k
  {
    if k == 0 then None else Some(k - 1)
  }

  /** The sort keys of the products' tram order ids. */
  function TramKeys(m: map<nat, Scene>, products: set<nat>): (r: set<nat>)
  {
    set id | id in products && id in m :: TramKey(m[id].tramOrderId)
  }

  /** The scene ids of the units in that status, in order. */
  function UnitsIn(units: seq<Unit>, status: string): (r: seq<string>)
    ensures forall n :: n in r <==> exists u :: u in units && u.status == status && u.sceneId == n
  {
    if units == [] then []
    else
      var rest := UnitsIn(units[1..], status);
      assert forall u :: u in units <==> u == units[0] || u in units[1..];
      (if units[0].status == status then [units[0].sceneId] else []) + rest
  }

  /** The scene ids LTA reports in that status for the polled tram orders. */
  predicate Reports(ext: Ext, polled: seq<nat>, status: string, n: string)
  {
    exists k :: k in polled && n in UnitsIn(ext.units(TramOf(k)), status)
  }

  /** What the on-order pass leaves of one scene. */
  function OnorderOutcome(s: Scene, isProduct: bool, ext: Ext, polled: seq<nat>, orders: map<nat, Order>, env: Env): Scene
  {
    var s1 := if isProduct && Reports(ext, polled, "R", s.name)
              then Flagged(MarkedUnavailable(s, env.now, L1Unavailable), "R", RejectPushed(orders, s, env)) else s;
    if s1.status == Onorder && Reports(ext, polled, "C", s1.name) then s1.(status := Oncache, note := "") else s1
  }

  const L1Unavailable := "Level 1 product could not be produced"

  /** The names LTA reports rejected and complete, polling the tram orders in turn. */
  method CollectUnits(polled: seq<nat>, ext: Ext) returns (rejected: seq<string>, available: seq<string>)
    ensures forall n :: n in rejected <==> Reports(ext, polled, "R", n)
    ensures forall n :: n in available <==> Reports(ext, polled, "C", n)
  {
    rejected, available := [], [];
    var i := 0;
    while i < |polled|
      invariant 0 <= i <= |polled|
      invariant forall n :: n in rejected <==> Reports(ext, polled[..i], "R", n)
      invariant forall n :: n in available <==> Reports(ext, polled[..i], "C", n)
    {
      var units := ext.units(TramOf(polled[i]));
      var j := 0;
      ghost var r0, a0 := rejected, available;
      while j < |units|
        invariant 0 <= j <= |units|
        invariant forall n :: n in rejected <==> n in r0 || n in UnitsIn(units[..j], "R")
        invariant forall n :: n in available <==> n in a0 || n in UnitsIn(units[..j], "C")
      {
        assert units[..j + 1] == units[..j] + [units[j]];
        if units[j].status == "R" {
          rejected := rejected + [units[j].sceneId];
        } else if units[j].status == "C" {
          available := available + [units[j].sceneId];
        }
        j := j + 1;
      }
      assert units[..j] == units;
      forall n, st | st == "R" || st == "C"
        ensures Reports(ext, polled[..i + 1], st, n) <==> Reports(ext, polled[..i], st, n) || n in UnitsIn(units, st)
      {
        assert polled[..i + 1] == polled[..i] + [polled[i]];
      }
      i := i + 1;
    }
    assert polled[..i] == polled;
  }

  /**
   * handle_onorder_landsat_products: the 500 least distinct tram order ids
   * of the products are polled in ascending order; the products LTA
   * rejected become unavailable, then every on-order scene LTA completed
   * goes on cache. Other unit statuses are ignored.
   */
  method HandleOnorderLandsatProducts(db: Db, products: set<nat>, ext: Ext, env: Env) returns (r: bool, ghost polled: seq<nat>)
    modifies db
    ensures r
    ensures |polled| <= 500 && forall i, j :: 0 <= i < j < |polled| ==> polled[i] < polled[j]
    ensures forall k :: k in polled ==> k in TramKeys(old(db.scenes), products)
    ensures forall k :: k in TramKeys(old(db.scenes), products) && k !in polled ==> |polled| == 500 && forall j :: j in polled ==> j < k
    ensures db.scenes.Keys == old(db.scenes).Keys
    ensures forall id :: id in old(db.scenes) ==>
              db.scenes[id] == OnorderOutcome(old(db.scenes)[id], id in products, ext, polled, old(db.orders), env)
    ensures db.orders == old(db.orders) && db.users == old(db.users) && db.cache == old(db.cache) && db.onDisk == old(db.onDisk)
  {
    var sorted := Smallest(TramKeys(db.scenes, products), 500);
    polled := sorted;
    var rejected, available := CollectUnits(sorted, ext);
    ghost var m0 := db.scenes;
    RejectProducts(db, products, rejected, env);
    ghost var m1 := db.scenes;
    PromoteAvailable(db, available);
    OnorderCompose(m0, m1, db.scenes, products, rejected, available, ext, polled, db.orders, env);
    r := true;
  }

  /** The two halves of the pass make up OnorderOutcome. */
  lemma OnorderCompose(m0: map<nat, Scene>, m1: map<nat, Scene>, m2: map<nat, Scene>, products: set<nat>,
                       rejected: seq<string>, available: seq<string>, ext: Ext, polled: seq<nat>, orders: map<nat, Order>, env: Env)
    requires forall n :: n in rejected <==> Reports(ext, polled, "R", n)
    requires forall n :: n in available <==> Reports(ext, polled, "C", n)
    requires m1.Keys == m0.Keys && m2.Keys == m1.Keys
    requires forall id :: id in m0 ==>
               m1[id] == if id in products && m0[id].name in rejected
                         then Flagged(MarkedUnavailable(m0[id], env.now, L1Unavailable), "R", RejectPushed(orders, m0[id], env))
                         else m0[id]
    requires forall id :: id in m1 ==>
               m2[id] == if m1[id].status == Onorder && m1[id].name in available then m1[id].(status := Oncache, note := "") else m1[id]
    ensures forall id :: id in m0 ==> m2[id] == OnorderOutcome(m0[id], id in products, ext, polled, orders, env)
  {
    forall id | id in m0
      ensures m2[id] == OnorderOutcome(m0[id], id in products, ext, polled, orders, env)
    {
      var n := m0[id].name;
      assert n in rejected <==> Reports(ext, polled, "R", n);
      assert m1[id].name == n;
      assert n in available <==> Reports(ext, polled, "C", n);
    }
  }

  /** The first half of the pass: the products whose names LTA rejected become unavailable. */
  method RejectProducts(db: Db, products: set<nat>, rejected: seq<string>, env: Env)
    modifies db
    ensures db.scenes.Keys == old(db.scenes).Keys
    ensures forall id :: id in old(db.scenes) ==>
              db.scenes[id] == if id in products && old(db.scenes)[id].name in rejected
                               then Flagged(MarkedUnavailable(old(db.scenes)[id], env.now, L1Unavailable), "R",
                                            RejectPushed(old(db.orders), old(db.scenes)[id], env))
                               else old(db.scenes)[id]
    ensures db.orders == old(db.orders) && db.users == old(db.users) && db.cache == old(db.cache) && db.onDisk == old(db.onDisk)
  {
    if |rejected| > 0 {
      var rejectedIds := set id | id in products && id in db.scenes && db.scenes[id].name in rejected;
      if rejectedIds != {} {
        SetProductsUnavailable(db, rejectedIds, L1Unavailable, env);
      } else {
        assert forall id | id in db.scenes && id in products :: id !in rejectedIds;
      }
    }
  }

  /** The second half: every scene still on order whose name LTA completed goes on cache. */
  method PromoteAvailable(db: Db, available: seq<string>)
    modifies db
    ensures db.scenes.Keys == old(db.scenes).Keys
    ensures forall id :: id in old(db.scenes) ==>
              db.scenes[id] == if old(db.scenes)[id].status == Onorder && old(db.scenes)[id].name in available
                               then old(db.scenes)[id].(status := Oncache, note := "") else old(db.scenes)[id]
    ensures db.orders == old(db.orders) && db.users == old(db.users) && db.cache == old(db.cache) && db.onDisk == old(db.onDisk)
  {
    if |available| > 0 {
      var ids := set id | id in db.scenes && db.scenes[id].status == Onorder && db.scenes[id].name in available;
      db.scenes := BulkSet(db.scenes, ids, Oncache, "");
    }
  }

  /**
   * What the on-order pass promises: a product LTA rejected ends
   * unavailable; an on-order scene LTA completed and not rejected ends on
   * cache with an empty note; a scene LTA reports neither way keeps its
   * status.
   */
  lemma OnorderFacts(s: Scene, isProduct: bool, ext: Ext, polled: seq<nat>, orders: map<nat, Order>, env: Env)
    ensures isProduct && Reports(ext, polled, "R", s.name) ==> OnorderOutcome(s, isProduct, ext, polled, orders, env).status == Unavailable
    ensures !(isProduct && Reports(ext, polled, "R", s.name)) && s.status == Onorder && Reports(ext, polled, "C", s.name) ==>
              OnorderOutcome(s, isProduct, ext, polled, orders, env) == s.(status := Oncache, note := "")
    ensures !Reports(ext, polled, "R", s.name) && !Reports(ext, polled, "C", s.name) ==> OnorderOutcome(s, isProduct, ext, polled, orders, env) == s
    ensures SameProduct(OnorderOutcome(s, isProduct, ext, polled, orders, env), s)
  {
  }

  // ------------------------------------------------ handle_submitted_*_products

  const ArchiveMissing := "No longer found in the archive, please search again"

  /** What the inventory check leaves of one listed product: on cache when valid, otherwise unavailable. */
  function Verified(s: Scene, ext: Ext, orders: map<nat, Order>, env: Env): Scene
  {
    if ext.valid(s.name) then s.(status := Oncache, note := "''")
    else Flagged(MarkedUnavailable(s, env.now, ArchiveMissing), "R", RejectPushed(orders, s, env))
  }

  /** A checked product is settled one way or the other and is never submitted again. */
  lemma VerifiedFacts(s: Scene, ext: Ext, orders: map<nat, Order>, env: Env)
    ensures Verified(s, ext, orders, env).status == (if ext.valid(s.name) then Oncache else Unavailable)
    ensures ext.valid(s.name) ==> Verified(s, ext, orders, env).note == "''"
    ensures !ext.valid(s.name) ==> Verified(s, ext, orders, env).note == ArchiveMissing
                                   && Verified(s, ext, orders, env).completionDate == Some(env.now)
    ensures SameProduct(Verified(s, ext, orders, env), s)
  {
  }

  /** The valid products go on cache in one bulk update; the rest are made unavailable. */
  method VerifyAvailability(db: Db, ids: set<nat>, ext: Ext, env: Env)
    modifies db
    ensures db.scenes.Keys == old(db.scenes).Keys
    ensures forall id :: id in old(db.scenes) ==>
              db.scenes[id] == if id in ids then Verified(old(db.scenes)[id], ext, old(db.orders), env) else old(db.scenes)[id]
    ensures db.orders == old(db.orders) && db.users == old(db.users) && db.cache == old(db.cache) && db.onDisk == old(db.onDisk)
  {
    var valid := set id | id in ids && id in db.scenes && ext.valid(db.scenes[id].name);
    var invalid := set id | id in ids && id in db.scenes && !ext.valid(db.scenes[id].name);
    ghost var m0 := db.scenes;
    if valid != {} {
      db.scenes := BulkSet(db.scenes, valid, Oncache, "''");
    }
    ghost var m1 := db.scenes;
    if invalid != {} {
      SetProductsUnavailable(db, invalid, ArchiveMissing, env);
    }
    VerifyCompose(m0, m1, db.scenes, ids, valid, invalid, ext, db.orders, env);
  }

  /** The bulk update of the valid products and the marking of the rest make up Verified. */
  lemma VerifyCompose(m0: map<nat, Scene>, m1: map<nat, Scene>, m2: map<nat, Scene>, ids: set<nat>, valid: set<nat>,
                      invalid: set<nat>, ext: Ext, orders: map<nat, Order>, env: Env)
    requires forall id :: id in valid <==> id in ids && id in m0 && ext.valid(m0[id].name)
    requires forall id :: id in invalid <==> id in ids && id in m0 && !ext.valid(m0[id].name)
    requires m1 == BulkSet(m0, valid, Oncache, "''") || (valid == {} && m1 == m0)
    requires m2.Keys == m1.Keys
    requires forall id :: id in m1 ==>
               m2[id] == (if id in invalid then Flagged(MarkedUnavailable(m1[id], env.now, ArchiveMissing), "R",
                                                        RejectPushed(orders, m1[id], env))
                          else m1[id])
    ensures m2.Keys == m0.Keys
    ensures forall id :: id in m0 ==> m2[id] == if id in ids then Verified(m0[id], ext, orders, env) else m0[id]
  {
    forall id | id in m0
      ensures m2[id] == if id in ids then Verified(m0[id], ext, orders, env) else m0[id]
    {
      assert m1[id] == if id in valid then m0[id].(status := Oncache, note := "''") else m0[id];
    }
  }

  /**
   * handle_submitted_modis_products: nothing happens while the inventory
   * is down; otherwise every listed product is checked against it.
   */
  method HandleSubmittedModisProducts(db: Db, ids: set<nat>, ext: Ext, env: Env) returns (r: bool)
    modifies db
    ensures r == ext.inventoryUp
    ensures db.scenes.Keys == old(db.scenes).Keys
    ensures forall id :: id in old(db.scenes) ==>
              db.scenes[id] == if r && id in ids then Verified(old(db.scenes)[id], ext, old(db.orders), env) else old(db.scenes)[id]
    ensures db.orders == old(db.orders) && db.users == old(db.users) && db.cache == old(db.cache) && db.onDisk == old(db.onDisk)
  {
    if !ext.inventoryUp {
      return false;
    }
    if |ids| > 0 {
      VerifyAvailability(db, ids, ext, env);
    }
    r := true;
  }

  /**
   * The contact ids of the users who placed the orders of the scenes
   * (users that no longer exist drop out); a scene whose order is gone
   * raises when its user id is read.
   */
  function ContactIds(m: map<nat, Scene>, orders: map<nat, Order>, users: map<nat, User>, ids: set<nat>): Result<set<string>>
  {
    if exists id :: id in ids && id in m && m[id].orderId !in orders then Err(NoOrder)
    else Ok(set id | id in ids && id in m && m[id].orderId in orders && orders[m[id].orderId].userId in users
                  :: users[orders[m[id].orderId].userId].contactId)
  }

  /** A submitted landsat scene of one of the user's orders. */
  predicate LandsatOf(m: map<nat, Scene>, orders: map<nat, Order>, uid: nat, id: nat)
  {
    id in m && m[id].orderId in orders && orders[m[id].orderId].userId == uid
    && m[id].sensorType == "landsat" && m[id].status == Submitted
  }

  /** The submitted landsat scenes of the user's orders (Order.get_user_scenes). */
  function LandsatScenes(m: map<nat, Scene>, orders: map<nat, Order>, uid: nat): (r: set<nat>)
    ensures forall id :: id in r <==> LandsatOf(m, orders, uid, id)
  {
    set id | id in m && LandsatOf(m, orders, uid, id)
  }

  /**
   * Whether the products requested for the scene's sensor can be made now:
   * 'st' needs the MODIS datapool. Iterating a string yields characters
   * (never 'st'); iterating anything but a list, dict or string raises.
   */
  function DepsOk(s: Scene, orders: map<nat, Order>, ext: Ext): Result<bool>
  {
    if s.orderId !in orders then Err(NoOrder)
    else
      match ext.shortname(s.name)
      case Err(e) => Err(e)
      case Ok(sn) =>
        match GetItem(orders[s.orderId].productOpts, sn)
        case Err(e) => Err(e)
        case Ok(group) =>
          match GetItem(group, "products")
          case Err(e) => Err(e)
          case Ok(prods) =>
            match prods
            case JList(xs) => Ok(JStr("st") !in xs || ext.datapoolUp)
            case JObj(fs) => Ok("st" !in fs || ext.datapoolUp)
            case JStr(_) => Ok(true)
            case _ => Err(Raised(TypeError, "'" + TypeName(prods) + "' object is not iterable"))
  }

  /** check_dependencies_for_products: the listed scenes whose external dependencies are reachable. */
  method CheckDependencies(db: Db, list: seq<nat>, ext: Ext) returns (r: Result<seq<nat>>)
    requires forall i :: 0 <= i < |list| ==> list[i] in db.scenes
    ensures r.Ok? <==> forall i :: 0 <= i < |list| ==> DepsOk(db.scenes[list[i]], db.orders, ext).Ok?
    ensures r.Err? ==> exists i :: 0 <= i < |list| && DepsOk(db.scenes[list[i]], db.orders, ext) == Err(r.error)
    ensures r.Ok? ==> forall id :: id in r.value <==> id in list && DepsOk(db.scenes[id], db.orders, ext) == Ok(true)
  {
    var passed := [];
    var i := 0;
    while i < |list|
      invariant 0 <= i <= |list|
      invariant forall j :: 0 <= j < i ==> DepsOk(db.scenes[list[j]], db.orders, ext).Ok?
      invariant forall id :: id in passed <==> id in list[..i] && DepsOk(db.scenes[id], db.orders, ext) == Ok(true)
    {
      var ok := DepsOk(db.scenes[list[i]], db.orders, ext);
      if ok.Err? {
        return Err(ok.error);
      }
      assert list[..i + 1] == list[..i] + [list[i]];
      if ok.value {
        passed := passed + [list[i]];
      }
      i := i + 1;
    }
    assert list[..i] == list;
    r := Ok(passed);
  }

  /**
   * update_landsat_product_status: the user with that contact id has the
   * 500 least ids of their submitted landsat scenes picked; those whose
   * dependencies are reachable are checked against the inventory. A
   * missing user or a failed dependency lookup raises before anything is
   * written.
   */
  method UpdateLandsatProductStatus(db: Db, contact: string, ext: Ext, env: Env)
    returns (r: Result<bool>, ghost uid: nat, ghost picked: seq<nat>, ghost batch: set<nat>)
    modifies db
    ensures (forall u :: u in old(db.users) ==> old(db.users)[u].contactId != contact) ==> r == Err(NoOrder)
    ensures r.Ok? ==> r.value && uid in db.users && db.users[uid].contactId == contact
    ensures r.Ok? ==> |picked| <= 500 && forall i, j :: 0 <= i < j < |picked| ==> picked[i] < picked[j]
    ensures r.Ok? ==> forall id :: id in picked ==> LandsatOf(old(db.scenes), db.orders, uid, id)
    ensures r.Ok? ==> forall id :: LandsatOf(old(db.scenes), db.orders, uid, id) && id !in picked ==>
                        |picked| == 500 && forall j :: j in picked ==> j < id
    ensures r.Ok? ==> forall id :: id in batch <==> id in picked && id in old(db.scenes) && DepsOk(old(db.scenes)[id], db.orders, ext) == Ok(true)
    ensures db.scenes.Keys == old(db.scenes).Keys
    ensures forall id :: id in old(db.scenes) ==>
              db.scenes[id] == if r.Ok? && id in batch then Verified(old(db.scenes)[id], ext, old(db.orders), env) else old(db.scenes)[id]
    ensures db.orders == old(db.orders) && db.users == old(db.users) && db.cache == old(db.cache) && db.onDisk == old(db.onDisk)
  {
    picked, batch := [], {};
    var user: nat;
    if u :| u in db.users && db.users[u].contactId == contact {
      user := u;
    } else {
      return Err(NoOrder), 0, picked, batch;
    }
    uid := user;
    var list := Smallest(LandsatScenes(db.scenes, db.orders, user), 500);
    picked := list;
    assert forall i :: 0 <= i < |list| ==> list[i] in LandsatScenes(db.scenes, db.orders, user);
    var passed := CheckDependencies(db, list, ext);
    if passed.Err? {
      return Err(passed.error), uid, picked, batch;
    }
    var available := set id | id in passed.value;
    batch := available;
    VerifyAvailability(db, available, ext, env);
    r := Ok(true);
  }

  /**
   * Every scene so far is either untouched or a submitted landsat scene of
   * a listed contact whose dependencies are reachable, checked.
   */
  predicate LandsatDone(m0: map<nat, Scene>, cur: map<nat, Scene>, orders: map<nat, Order>, users: map<nat, User>,
                        contacts: set<string>, ext: Ext, env: Env)
  {
    cur.Keys == m0.Keys
    && forall id :: id in m0 ==> cur[id] == m0[id] || CheckedLandsat(m0[id], cur[id], orders, users, contacts, ext, env)
  }

  /** s0 is a submitted landsat scene of a listed contact whose dependencies are reachable, and s is its verdict. */
  predicate CheckedLandsat(s0: Scene, s: Scene, orders: map<nat, Order>, users: map<nat, User>,
                           contacts: set<string>, ext: Ext, env: Env)
  {
    s0.sensorType == "landsat" && s0.status == Submitted && s0.orderId in orders
    && orders[s0.orderId].userId in users && users[orders[s0.orderId].userId].contactId in contacts
    && users[orders[s0.orderId].userId].contactId != ""
    && DepsOk(s0, orders, ext) == Ok(true)
    && s == Verified(s0, ext, orders, env)
  }

  /** One contact's update keeps the pass within LandsatDone. */
  lemma LandsatStep(m0: map<nat, Scene>, cur: map<nat, Scene>, next: map<nat, Scene>, orders: map<nat, Order>,
                    users: map<nat, User>, contacts: set<string>, ext: Ext, env: Env,
                    ok: bool, contact: string, uid: nat, picked: seq<nat>, batch: set<nat>)
    requires LandsatDone(m0, cur, orders, users, contacts, ext, env)
    requires contact in contacts && contact != ""
    requires ok ==> uid in users && users[uid].contactId == contact
    requires ok ==> forall id :: id in batch ==> id in picked && id in cur && DepsOk(cur[id], orders, ext) == Ok(true)
    requires ok ==> forall id :: id in picked ==> LandsatOf(cur, orders, uid, id)
    requires next.Keys == cur.Keys
    requires forall id :: id in cur ==> next[id] == if ok && id in batch then Verified(cur[id], ext, orders, env) else cur[id]
    ensures LandsatDone(m0, next, orders, users, contacts, ext, env)
  {
    forall id | id in m0 && ok && id in batch
      ensures cur[id] == m0[id]
    {
      VerifiedFacts(m0[id], ext, orders, env);
    }
  }

  /**
   * handle_submitted_landsat_products: nothing happens while the inventory
   * is down. Otherwise each non-empty contact id of the scenes' users has
   * its products updated; a contact whose update raises is skipped. Only
   * submitted landsat scenes of those users change, each to its
   * inventory verdict.
   */
  method HandleSubmittedLandsatProducts(db: Db, ids: set<nat>, ext: Ext, env: Env) returns (r: Result<bool>)
    modifies db
    ensures r == Ok(false) <==> !ext.inventoryUp
    ensures r.Err? <==> ext.inventoryUp && ContactIds(old(db.scenes), old(db.orders), old(db.users), ids).Err?
    ensures r.Err? ==> r.error == NoOrder
    ensures !r.Ok? || !r.value ==> db.scenes == old(db.scenes)
    ensures r == Ok(true) ==> LandsatDone(old(db.scenes), db.scenes, db.orders, db.users,
                                  ContactIds(old(db.scenes), old(db.orders), old(db.users), ids).value, ext, env)
    ensures db.orders == old(db.orders) && db.users == old(db.users) && db.cache == old(db.cache) && db.onDisk == old(db.onDisk)
  {
    if !ext.inventoryUp {
      return Ok(false);
    }
    var found := ContactIds(db.scenes, db.orders, db.users, ids);
    if found.Err? {
      return Err(found.error);
    }
    var contacts := found.value;
    ghost var m0 := db.scenes;
    var todo := contacts;
    while todo != {}
      invariant todo <= contacts
      invariant LandsatDone(m0, db.scenes, db.orders, db.users, contacts, ext, env)
      invariant db.orders == old(db.orders) && db.users == old(db.users) && db.cache == old(db.cache) && db.onDisk == old(db.onDisk)
      decreases |todo|
    {
      var c :| c in todo;
      if c != "" {
        ghost var cur := db.scenes;
        var ok, uid, picked, batch := UpdateLandsatProductStatus(db, c, ext, env);
        LandsatStep(m0, cur, db.scenes, db.orders, db.users, contacts, ext, env, ok.Ok?, c, uid, picked, batch);
      }
      todo := todo - {c};
    }
    r := Ok(true);
  }
}
