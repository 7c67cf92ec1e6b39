/**
 * The rows the production and ordering providers read and write: orders,
 * their scenes and the users who placed them, kept in an in-memory store
 * that stands for the ordering_order, ordering_scene and auth_user tables,
 * together with the shared cache (a key, the time it was set and when it
 * expires). Times are seconds on an integer clock.
 */
module Store {
  import opened Wrappers
  import opened Json

  datatype SceneStatus =
    | Submitted | Oncache | Onorder | Queued | Processing | Retry
    | Complete | Error | Unavailable | Cancelled | Purged

  datatype OrderStatus = Ordered | OrderComplete | OrderCancelled | OrderPurged

  /** One ordering_scene row; orderId is the numeric key of its order. */
  datatype Scene = Scene(
    name: string,
    orderId: nat,
    sensorType: string,
    status: SceneStatus,
    note: string,
    processingLocation: string,
    logFileContents: string,
    jobName: string,
    retryCount: Option<int>,
    retryLimit: Option<int>,
    retryAfter: Option<int>,
    completionDate: Option<int>,
    downloadSize: Option<int>,
    productDistroLocation: string,
    productDloadUrl: string,
    cksumDistroLocation: string,
    cksumDownloadUrl: string,
    failedLtaStatusUpdate: Option<string>,
    tramOrderId: Option<nat>,
    eeUnitId: Json,
    reportedOrphan: Option<int>,
    orphaned: bool)

  /** One ordering_order row; orderid is the public order name. */
  datatype Order = Order(
    orderid: string,
    userId: nat,
    status: OrderStatus,
    orderSource: string,
    eeOrderId: string,
    productOpts: Json,
    completionEmailSent: Option<int>,
    completionDate: Option<int>,
    initialEmailSent: Option<int>)

  datatype User = User(username: string, email: string, staff: bool, contactId: string)

  /** A cache entry: when it was written and, if it has a timeout, when it expires. */
  datatype CacheEntry = CacheEntry(stamp: int, expires: Option<int>)

  /** Some order has this public name (Order.find would find one). */
  predicate Named(orders: map<nat, Order>, orderid: string)
  {
    exists pk :: pk in orders && orders[pk].orderid == orderid
  }

  /** Order.find(orderid) over the orders table: the key of an order with that public name. */
  method FindOrderIn(orders: map<nat, Order>, orderid: string) returns (r: Result<nat>)
    ensures r.Ok? ==> r.value in orders && orders[r.value].orderid == orderid
    ensures r.Err? <==> !Named(orders, orderid)
    ensures r.Err? ==> r.error == NoOrder
  {
    if pk :| pk in orders && orders[pk].orderid == orderid {
      return Ok(pk);
    }
    return Err(NoOrder);
  }

  /** The order name is the table's unique key. */
  predicate Keyed(orders: map<nat, Order>)
  {
    forall a, b :: a in orders && b in orders && orders[a].orderid == orders[b].orderid ==> a == b
  }

  /** A cache holds a key at time now: it is set and has not expired. */
  predicate LiveIn(cache: map<string, CacheEntry>, key: string, now: int)
  {
    key in cache && (cache[key].expires.None? || now < cache[key].expires.value)
  }

  /** The statuses a scene is in while the cluster works on it. */
  predicate InFlight(st: SceneStatus)
  {
    st == Queued || st == Processing
  }

  /** The statuses in which a scene needs no more work. */
  predicate Finished(st: SceneStatus)
  {
    st == Complete || st == Unavailable
  }

  /** The status as the database column spells it. */
  function StatusName(st: SceneStatus): string
  {
    match st
    case Submitted => "submitted" case Oncache => "oncache" case Onorder => "onorder"
    case Queued => "queued" case Processing => "processing" case Retry => "retry"
    case Complete => "complete" case Error => "error" case Unavailable => "unavailable"
    case Cancelled => "cancelled" case Purged => "purged"
  }

  /**
   * Scene.cancel_opts() applied to a scene. domain/scene.py is not part of
   * this model: the options are taken to set the status to cancelled and
   * nothing else.
   */
  function CancelOpts(s: Scene): (r: Scene)
    ensures r.status == Cancelled && r.name == s.name && r.orderId == s.orderId
  {
    s.(status := Cancelled)
  }

  /** What a missing order costs a caller that goes on to read its id. */
  const NoOrder := Raised(AttributeError, "'NoneType' object has no attribute 'id'")

  /** What the scene lookups raise for a name the order does not hold. */
  const NoScene := Raised(SceneException, "scene not found")

  class Db {
    var scenes: map<nat, Scene>
    var orders: map<nat, Order>
    var users: map<nat, User>
    var cache: map<string, CacheEntry>
    /** The order directories present on the online cache disk. */
    var onDisk: set<string>

    constructor ()
      ensures scenes == map[] && orders == map[] && users == map[] && cache == map[] && onDisk == {}
    {
      scenes := map[];
      orders := map[];
      users := map[];
      cache := map[];
      onDisk := {};
    }

    /** The ids of the scenes of order pk (order.scenes()). */
    function ScenesOf(pk: nat): (r: set<nat>)
      reads this
      ensures forall id :: id in r <==> id in scenes && scenes[id].orderId == pk
    {
      set id | id in scenes && scenes[id].orderId == pk
    }

    /** cache.get(key) is not None: the key is set and has not expired. */
    predicate Live(key: string, now: int)
      reads this
    {
      LiveIn(cache, key, now)
    }

    /** The source of the order a scene belongs to, '' when the order is absent. */
    function SourceOf(id: nat): string
      reads this
    {
      if id in scenes && scenes[id].orderId in orders then orders[scenes[id].orderId].orderSource else ""
    }

    /** Order.find(orderid): the key of the order with that public name. */
    method FindOrder(orderid: string) returns (r: Result<nat>)
      ensures r.Ok? ==> r.value in orders && orders[r.value].orderid == orderid
      ensures r.Err? <==> forall pk :: pk in orders ==> orders[pk].orderid != orderid
      ensures r.Err? ==> r.error == NoOrder
    {
      r := FindOrderIn(orders, orderid);
    }

    /** Scene.by_name_orderid(name, pk): the scene of that name in order pk. */
    method FindScene(name: string, pk: nat) returns (r: Result<nat>)
      ensures r.Ok? ==> r.value in scenes && scenes[r.value].name == name && scenes[r.value].orderId == pk
      ensures r.Err? <==> forall id :: id in scenes ==> !(scenes[id].name == name && scenes[id].orderId == pk)
      ensures r.Err? ==> r.error == NoScene
    {
      if id :| id in scenes && scenes[id].name == name && scenes[id].orderId == pk {
        return Ok(id);
      }
      return Err(NoScene);
    }

    /** The order, then the scene of that name in it: the lookups every per-scene primitive starts with. */
    method Locate(name: string, orderid: string) returns (r: Result<(nat, nat)>)
      ensures r.Ok? ==> r.value.0 in orders && orders[r.value.0].orderid == orderid
      ensures r.Ok? ==> r.value.1 in scenes && scenes[r.value.1].name == name && scenes[r.value.1].orderId == r.value.0
      ensures r.Err? ==> r.error == NoOrder || r.error == NoScene
      ensures (forall pk :: pk in orders ==> orders[pk].orderid != orderid) ==> r == Err(NoOrder)
    {
      var o := FindOrder(orderid);
      if o.Err? {
        return Err(o.error);
      }
      var s := FindScene(name, o.value);
      if s.Err? {
        return Err(s.error);
      }
      return Ok((o.value, s.value));
    }
  }
}
