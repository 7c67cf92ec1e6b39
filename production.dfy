/**
 * The transition primitives of the production provider: the calls through
 * which the processing cluster moves a scene along (queue it, mark it
 * complete, unavailable, in retry or in error), each a method on the
 * store. What each leaves in a scene row is a function of the old row, so
 * the lemmas below can speak about the outcomes without the store.
 *
 * The systems the provider talks to are parameters: the clock, the
 * distribution cache url, the file sizes on disk, whether an LTA status
 * push succeeds, and the retry settings of the error classifier.
 */
module Production {
  import opened Wrappers
  import opened Json
  import opened Text
  import opened Store
  import ErrorClassifier

  /** What the provider reads from the outside world during one call. */
  datatype Env = Env(
    now: int,
    baseUrl: string,
    fileSize: string -> Option<nat>,
    push: (string, Json, string) -> bool,
    retry: ErrorClassifier.RetryConfig)

  /** The cache key that remembers a failed LTA push. */
  const LtaKey := "lta.cannot.update"

  /** CachingProvider's timeout when cache.set is given none. */
  const DefaultTimeout := 600

  /** cache.set(key, now, timeout): a falsy timeout falls back to the provider's default. */
  function CacheSet(cache: map<string, CacheEntry>, key: string, now: int, timeout: int): (r: map<string, CacheEntry>)
    ensures r.Keys == cache.Keys + {key}
    ensures forall k :: k in cache && k != key ==> r[k] == cache[k]
    ensures timeout >= 0 ==> forall t :: LiveIn(r, key, t) <==> t < now + (if timeout == 0 then DefaultTimeout else timeout)
  {
    cache[key := CacheEntry(now, Some(now + (if timeout != 0 then timeout else DefaultTimeout)))]
  }

  // ------------------------------------------------------------ scene rows

  /** The key fields that make a row stand for one product of one order. */
  predicate SameProduct(a: Scene, b: Scene)
  {
    a.name == b.name && a.orderId == b.orderId && a.sensorType == b.sensorType
    && a.eeUnitId == b.eeUnitId && a.tramOrderId == b.tramOrderId
  }

  /** queue_products' bulk update. */
  function QueuedScene(s: Scene, loc: string, job: string): Scene
  {
    s.(status := Queued, processingLocation := loc, logFileContents := "''", note := "''", jobName := job)
  }

  /** What the cluster reports when a product is done. */
  datatype Delivery = Delivery(loc: string, productPath: string, cksumPath: string, log: string)

  /** The public url of a delivered file: the distribution cache, /orders/, the order name, the file's basename. */
  function DownloadUrl(base: string, orderid: string, path: string): string
  {
    base + "/orders/" + orderid + "/" + Basename(path)
  }

  /** mark_product_complete on an open order; a missing product file is recorded as size 0. */
  function CompletedScene(s: Scene, d: Delivery, orderid: string, env: Env): Scene
  {
    var size := env.fileSize(d.productPath);
    s.(status := Complete, processingLocation := d.loc, productDistroLocation := d.productPath,
       completionDate := Some(env.now), cksumDistroLocation := d.cksumPath, logFileContents := d.log,
       productDloadUrl := DownloadUrl(env.baseUrl, orderid, d.productPath),
       cksumDownloadUrl := DownloadUrl(env.baseUrl, orderid, d.cksumPath),
       downloadSize := Some(if size.Some? then size.value else 0))
  }

  /** set_product_unavailable's fields. */
  function UnavailableScene(s: Scene, loc: string, now: int, error: string, note: string): Scene
  {
    s.(status := Unavailable, processingLocation := loc, completionDate := Some(now),
       logFileContents := error, note := note)
  }

  /** The fields set_products_unavailable writes in bulk. */
  function MarkedUnavailable(s: Scene, now: int, reason: string): Scene
  {
    s.(status := Unavailable, completionDate := Some(now), note := reason)
  }

  /** set_product_error's fallback: the scene goes to error with the log. */
  function ErroredScene(s: Scene, loc: string, error: string): Scene
  {
    s.(status := Error, processingLocation := loc, logFileContents := error)
  }

  /** update_status: a non-empty location and a given status are written. */
  function StatusUpdated(s: Scene, loc: string, status: Option<SceneStatus>): Scene
  {
    var moved := if loc != "" then s.(processingLocation := loc) else s;
    if status.Some? then moved.(status := status.value) else moved
  }

  /** The scene after an LTA push: a failed push leaves the flag to resend for a later pass. */
  function Flagged(s: Scene, flag: string, pushed: bool): Scene
  {
    if pushed then s else s.(failedLtaStatusUpdate := Some(flag))
  }

  /** Whether the status of a scene of order o reaches LTA: only 'ee' orders push at all. */
  predicate Pushed(o: Order, s: Scene, flag: string, env: Env)
  {
    o.orderSource != "ee" || env.push(o.eeOrderId, s.eeUnitId, flag)
  }

  /** The cache after that push: a failure stamps LtaKey with the time, for the provider's default timeout. */
  function LtaCache(cache: map<string, CacheEntry>, o: Order, s: Scene, flag: string, env: Env): map<string, CacheEntry>
  {
    if Pushed(o, s, flag, env) then cache else CacheSet(cache, LtaKey, env.now, 0)
  }

  // ------------------------------------------------------------------ retry

  /** The retry count as set_product_retry reads it: a missing count is 0. */
  function CountOf(s: Scene): int
  {
    if s.retryCount.Some? then s.retryCount.value else 0
  }

  /** The limit set_product_retry applies: the one given unless falsy, else the scene's own. */
  function LimitOf(s: Scene, limit: Option<int>): Option<int>
  {
    if limit.Some? && limit.value != 0 then limit else s.retryLimit
  }

  const NoLimit := Raised(TypeError, "int() argument must be a string or a number, not 'NoneType'")

  function RetryExceeded(name: string): Raised
  {
    Raised(ProductionProviderException, "Retry limit exceeded, name: " + name)
  }

  /** set_product_retry on one row: the count goes up by one, or the call raises and nothing is written. */
  function RetriedScene(s: Scene, name: string, loc: string, error: string, note: string,
                        after: int, limit: Option<int>): (r: Result<Scene>)
  {
    var lim := LimitOf(s, limit);
    if lim.None? then Err(NoLimit)
    else if CountOf(s) + 1 > lim.value then Err(RetryExceeded(name))
    else Ok(s.(status := Retry, retryCount := Some(CountOf(s) + 1), retryAfter := Some(after),
               retryLimit := lim, logFileContents := error, processingLocation := loc, note := note))
  }

  /** The count never passes the limit stored beside it. */
  predicate RetryBounded(s: Scene)
  {
    s.retryCount.Some? && s.retryLimit.Some? ==> s.retryCount.value <= s.retryLimit.value
  }

  /**
   * set_product_retry succeeds exactly when a limit can be found and one
   * more try stays within it; it then counts exactly one more try, stores
   * the limit it used, and leaves a row whose count is within its limit.
   */
  lemma RetryOutcome(s: Scene, name: string, loc: string, error: string, note: string, after: int, limit: Option<int>)
    ensures RetriedScene(s, name, loc, error, note, after, limit).Ok?
            <==> LimitOf(s, limit).Some? && CountOf(s) + 1 <= LimitOf(s, limit).value
    ensures LimitOf(s, limit).None? ==> RetriedScene(s, name, loc, error, note, after, limit) == Err(NoLimit)
    ensures LimitOf(s, limit).Some? && CountOf(s) + 1 > LimitOf(s, limit).value
            ==> RetriedScene(s, name, loc, error, note, after, limit) == Err(RetryExceeded(name))
    ensures RetriedScene(s, name, loc, error, note, after, limit).Ok? ==>
              var t := RetriedScene(s, name, loc, error, note, after, limit).value;
              t.status == Retry && CountOf(t) == CountOf(s) + 1 && t.retryLimit == LimitOf(s, limit)
              && RetryBounded(t) && SameProduct(s, t)
  {
  }

  /** k retries in a row, each with the same arguments; the first refusal ends the run. */
  function RetriedTimes(s: Scene, k: nat, name: string, loc: string, error: string, note: string,
                        after: int, limit: Option<int>): Result<Scene>
    decreases k
  {
    if k == 0 then Ok(s)
    else match RetriedScene(s, name, loc, error, note, after, limit)
      case Err(e) => Err(e)
      case Ok(t) => RetriedTimes(t, k - 1, name, loc, error, note, after, limit)
  }

  /**
   * Repeated retries of a scene with a limit all go through exactly when
   * the count stays within the limit: k tries from count c succeed iff
   * c + k is at most the limit, and the count is then c + k.
   */
  lemma {:induction false} RetriesRunOut(s: Scene, k: nat, name: string, loc: string, error: string, note: string,
                                         after: int, limit: Option<int>)
    requires k > 0 && LimitOf(s, limit).Some?
    ensures RetriedTimes(s, k, name, loc, error, note, after, limit).Ok? <==> CountOf(s) + k <= LimitOf(s, limit).value
    ensures RetriedTimes(s, k, name, loc, error, note, after, limit).Ok? ==>
              CountOf(RetriedTimes(s, k, name, loc, error, note, after, limit).value) == CountOf(s) + k
    decreases k
  {
    var r := RetriedScene(s, name, loc, error, note, after, limit);
    RetryOutcome(s, name, loc, error, note, after, limit);
    if r.Ok? && k > 1 {
      var t := r.value;
      assert LimitOf(t, limit) == LimitOf(s, limit);
      RetriesRunOut(t, k - 1, name, loc, error, note, after, limit);
    }
  }

  // ------------------------------------------------------------------ error

  /**
   * What set_product_error leaves in the row for a resolution: submitted
   * clears the note, unavailable becomes set_product_unavailable with the
   * resolution's reason, retry becomes set_product_retry with its extras,
   * and a refused retry, a retry without extras or no resolution at all
   * leave the scene in error.
   */
  function ErrorScene(s: Scene, name: string, res: Option<ErrorClassifier.Resolution>, loc: string,
                      error: string, now: int, pushedR: bool): Scene
  {
    if res.None? then ErroredScene(s, loc, error)
    else
      match res.value.status
      case Submitted => s.(status := Submitted, note := "")
      case Unavailable => Flagged(UnavailableScene(s, loc, now, error, res.value.reason), "R", pushedR)
      case Retry =>
        if res.value.extra.None? then ErroredScene(s, loc, error)
        else
          var t := RetriedScene(s, name, loc, error, res.value.reason, res.value.extra.value.retryAfter,
                                Some(res.value.extra.value.retryLimit));
          if t.Ok? then t.value else ErroredScene(s, loc, error)
  }

  /** A retry the row accepts: the resolution asks for one with extras, and the count stays within the limit. */
  predicate RetryAccepted(s: Scene, name: string, res: Option<ErrorClassifier.Resolution>)
  {
    res.Some? && res.value.status == ErrorClassifier.Retry && res.value.extra.Some?
    && var lim := LimitOf(s, Some(res.value.extra.value.retryLimit));
       lim.Some? && CountOf(s) + 1 <= lim.value
  }

  /**
   * The routing of set_product_error, in both directions: the row ends
   * submitted exactly for a submitted resolution, unavailable exactly for
   * an unavailable one, in retry exactly when a retry is accepted, and in
   * error in every other case; the row still stands for the same product.
   */
  lemma ErrorRouting(s: Scene, name: string, res: Option<ErrorClassifier.Resolution>, loc: string,
                     error: string, now: int, pushedR: bool)
    ensures var t := ErrorScene(s, name, res, loc, error, now, pushedR);
            SameProduct(s, t)
            && (t.status == Submitted <==> res.Some? && res.value.status == ErrorClassifier.Submitted)
            && (t.status == Unavailable <==> res.Some? && res.value.status == ErrorClassifier.Unavailable)
            && (t.status == Retry <==> RetryAccepted(s, name, res))
            && (t.status == Error <==> !(res.Some? && res.value.status != ErrorClassifier.Retry) && !RetryAccepted(s, name, res))
  {
    if res.Some? && res.value.status == ErrorClassifier.Retry && res.value.extra.Some? {
      RetryOutcome(s, name, loc, error, res.value.reason, res.value.extra.value.retryAfter,
                   Some(res.value.extra.value.retryLimit));
    }
  }

  /** A resolution of the classifier never carries extras unless it asks for a retry: only a retry can be refused. */
  lemma ErrorRoutingNoRetry(s: Scene, name: string, res: ErrorClassifier.Resolution, loc: string,
                            error: string, now: int, pushedR: bool)
    requires res.status != ErrorClassifier.Retry
    ensures ErrorScene(s, name, Some(res), loc, error, now, pushedR).status
            == (if res.status == ErrorClassifier.Submitted then Submitted else Unavailable)
  {
  }

  // ---------------------------------------------------------- the methods

  /** A scene of an order, as the per-scene lookups find it. */
  predicate At(orders: map<nat, Order>, scenes: map<nat, Scene>, name: string, orderid: string, pk: nat, id: nat)
  {
    pk in orders && orders[pk].orderid == orderid && id in scenes && scenes[id].name == name && scenes[id].orderId == pk
  }

  /** set_product_unavailable on a located scene, with the LTA push for 'ee' orders. */
  method SetUnavailableAt(db: Db, pk: nat, id: nat, loc: string, error: string, note: string, env: Env)
    requires pk in db.orders && id in db.scenes && db.scenes[id].orderId == pk
    modifies db
    ensures db.scenes == old(db.scenes)[id := Flagged(UnavailableScene(old(db.scenes)[id], loc, env.now, error, note), "R",
                                                      Pushed(old(db.orders)[pk], old(db.scenes)[id], "R", env))]
    ensures db.cache == LtaCache(old(db.cache), old(db.orders)[pk], old(db.scenes)[id], "R", env)
    ensures db.orders == old(db.orders) && db.users == old(db.users) && db.onDisk == old(db.onDisk)
  {
    var order := db.orders[pk];
    var scene := UnavailableScene(db.scenes[id], loc, env.now, error, note);
    db.scenes := db.scenes[id := scene];
    if order.orderSource == "ee" {
      var ok := env.push(order.eeOrderId, scene.eeUnitId, "R");
      if !ok {
        db.cache := CacheSet(db.cache, LtaKey, env.now, 0);
        scene := scene.(failedLtaStatusUpdate := Some("R"));
        db.scenes := db.scenes[id := scene];
      }
    }
  }

  /** set_product_unavailable(name, orderid, ...). */
  method SetProductUnavailable(db: Db, name: string, orderid: string, loc: string, error: string, note: string, env: Env)
    returns (r: Result<bool>, ghost at: (nat, nat))
    modifies db
    ensures r.Err? ==> (r.error == NoOrder || r.error == NoScene)
                       && db.scenes == old(db.scenes) && db.cache == old(db.cache)
    ensures !Named(old(db.orders), orderid) ==> r == Err(NoOrder)
    ensures r.Ok? ==> r.value && At(old(db.orders), old(db.scenes), name, orderid, at.0, at.1)
                      && db.scenes == old(db.scenes)[at.1 := Flagged(UnavailableScene(old(db.scenes)[at.1], loc, env.now, error, note), "R",
                                                                     Pushed(old(db.orders)[at.0], old(db.scenes)[at.1], "R", env))]
                      && db.cache == LtaCache(old(db.cache), old(db.orders)[at.0], old(db.scenes)[at.1], "R", env)
    ensures db.orders == old(db.orders) && db.users == old(db.users) && db.onDisk == old(db.onDisk)
  {
    at := (0, 0);
    var loc1 := db.Locate(name, orderid);
    if loc1.Err? {
      return Err(loc1.error), at;
    }
    var hit := loc1.value;
    at := hit;
    SetUnavailableAt(db, hit.0, hit.1, loc, error, note, env);
    r := Ok(true);
  }

  /**
   * mark_product_complete: on a cancelled order the scene is cancelled and
   * the call answers false; otherwise the scene is complete with its
   * delivery recorded, and for an 'ee' order a failed push leaves the 'C'
   * flag and stamps the cache.
   */
  method MarkProductComplete(db: Db, name: string, orderid: string, d: Delivery, env: Env)
    returns (r: Result<bool>, ghost at: (nat, nat))
    modifies db
    ensures r.Err? ==> (r.error == NoOrder || r.error == NoScene)
                       && db.scenes == old(db.scenes) && db.cache == old(db.cache)
    ensures !Named(old(db.orders), orderid) ==> r == Err(NoOrder)
    ensures r.Ok? ==> At(old(db.orders), old(db.scenes), name, orderid, at.0, at.1)
    ensures r.Ok? && old(db.orders)[at.0].status == OrderCancelled ==>
              r.value == false && db.scenes == old(db.scenes)[at.1 := CancelOpts(old(db.scenes)[at.1])]
              && db.cache == old(db.cache)
    ensures r.Ok? && old(db.orders)[at.0].status != OrderCancelled ==>
              var o := old(db.orders)[at.0];
              r.value == true
              && db.scenes == old(db.scenes)[at.1 := Flagged(CompletedScene(old(db.scenes)[at.1], d, orderid, env), "C",
                                                             Pushed(o, old(db.scenes)[at.1], "C", env))]
              && db.cache == LtaCache(old(db.cache), o, old(db.scenes)[at.1], "C", env)
    ensures db.orders == old(db.orders) && db.users == old(db.users) && db.onDisk == old(db.onDisk)
  {
    at := (0, 0);
    var loc1 := db.Locate(name, orderid);
    if loc1.Err? {
      return Err(loc1.error), at;
    }
    var hit := loc1.value;
    at := hit;
    var pk := hit.0;
    var id := hit.1;
    var order := db.orders[pk];
    if order.status == OrderCancelled {
      db.scenes := db.scenes[id := CancelOpts(db.scenes[id])];
      return Ok(false), at;
    }
    CompleteAt(db, pk, id, orderid, d, env);
    r := Ok(true);
  }

  /** mark_product_complete on a located scene of an open order, with the LTA push for 'ee' orders. */
  method CompleteAt(db: Db, pk: nat, id: nat, orderid: string, d: Delivery, env: Env)
    requires pk in db.orders && id in db.scenes
    modifies db
    ensures db.scenes == old(db.scenes)[id := Flagged(CompletedScene(old(db.scenes)[id], d, orderid, env), "C",
                                                      Pushed(old(db.orders)[pk], old(db.scenes)[id], "C", env))]
    ensures db.cache == LtaCache(old(db.cache), old(db.orders)[pk], old(db.scenes)[id], "C", env)
    ensures db.orders == old(db.orders) && db.users == old(db.users) && db.onDisk == old(db.onDisk)
  {
    var order := db.orders[pk];
    var s0 := db.scenes[id];
    var scene := CompletedScene(s0, d, orderid, env);
    assert scene.eeUnitId == s0.eeUnitId;
    var pushed := true;
    if order.orderSource == "ee" {
      pushed := env.push(order.eeOrderId, scene.eeUnitId, "C");
    }
    assert pushed == Pushed(order, s0, "C", env);
    if !pushed {
      db.cache := CacheSet(db.cache, LtaKey, env.now, 0);
    }
    db.scenes := db.scenes[id := Flagged(scene, "C", pushed)];
  }

  /** Every row of the ids in the map, updated by set_products_unavailable's bulk update. */
  function BulkUnavailable(m: map<nat, Scene>, ids: set<nat>, now: int, reason: string): (r: map<nat, Scene>)
    ensures r.Keys == m.Keys
  {
    map id | id in m :: if id in ids then MarkedUnavailable(m[id], now, reason) else m[id]
  }

  /** Whether an 'ee' scene's rejection reaches LTA; the scene's order source as order_attr reads it. */
  predicate RejectPushed(orders: map<nat, Order>, s: Scene, env: Env)
  {
    s.orderId !in orders || Pushed(orders[s.orderId], s, "R", env)
  }

  /**
   * set_products_unavailable: the ids are made unavailable in one bulk
   * update; then each 'ee' scene whose push fails is flagged 'R'. No cache
   * stamp is written here.
   */
  method SetProductsUnavailable(db: Db, ids: set<nat>, reason: string, env: Env)
    modifies db
    ensures db.scenes.Keys == old(db.scenes).Keys
    ensures forall id :: id in old(db.scenes) ==>
              db.scenes[id] == (if id in ids then Flagged(MarkedUnavailable(old(db.scenes)[id], env.now, reason), "R",
                                                          RejectPushed(old(db.orders), old(db.scenes)[id], env))
                                else old(db.scenes)[id])
    ensures db.orders == old(db.orders) && db.users == old(db.users) && db.cache == old(db.cache) && db.onDisk == old(db.onDisk)
  {
    ghost var m0 := db.scenes;
    var m1 := BulkUnavailable(db.scenes, ids, env.now, reason);
    var m := FlagRejects(m1, db.orders, ids, env);
    db.scenes := m;
    forall id | id in m0 && id in ids
      ensures RejectPushed(db.orders, m1[id], env) == RejectPushed(db.orders, m0[id], env)
    {
      assert m1[id].orderId == m0[id].orderId && m1[id].eeUnitId == m0[id].eeUnitId;
    }
  }

  /** The loop of set_products_unavailable: each listed 'ee' scene whose push fails is flagged 'R'. */
  method FlagRejects(m1: map<nat, Scene>, orders: map<nat, Order>, ids: set<nat>, env: Env) returns (m: map<nat, Scene>)
    ensures m.Keys == m1.Keys
    ensures forall id :: id in m1 ==> m[id] == if id in ids then Flagged(m1[id], "R", RejectPushed(orders, m1[id], env)) else m1[id]
  {
    m := m1;
    var todo := ids;
    while todo != {}
      invariant todo <= ids && m.Keys == m1.Keys
      invariant forall id :: id in m1 ==>
                  m[id] == (if id in ids - todo then Flagged(m1[id], "R", RejectPushed(orders, m1[id], env)) else m1[id])
      decreases |todo|
    {
      var id :| id in todo;
      if id in m {
        var s := m[id];
        if s.orderId in orders && orders[s.orderId].orderSource == "ee" {
          var o := orders[s.orderId];
          var ok := env.push(o.eeOrderId, s.eeUnitId, "R");
          if !ok {
            m := m[id := s.(failedLtaStatusUpdate := Some("R"))];
          }
        }
      }
      todo := todo - {id};
    }
  }

  /** update_status: a cancelled order cancels the scene and answers false. */
  method UpdateStatus(db: Db, name: string, orderid: string, loc: string, status: Option<SceneStatus>)
    returns (r: Result<bool>, ghost at: (nat, nat))
    modifies db
    ensures r.Err? ==> (r.error == NoOrder || r.error == NoScene) && db.scenes == old(db.scenes)
    ensures !Named(old(db.orders), orderid) ==> r == Err(NoOrder)
    ensures r.Ok? ==> At(old(db.orders), old(db.scenes), name, orderid, at.0, at.1)
    ensures r.Ok? ==>
              (r.value <==> old(db.orders)[at.0].status != OrderCancelled)
              && db.scenes == old(db.scenes)[at.1 := if r.value then StatusUpdated(old(db.scenes)[at.1], loc, status)
                                                     else CancelOpts(old(db.scenes)[at.1])]
    ensures db.orders == old(db.orders) && db.users == old(db.users) && db.cache == old(db.cache) && db.onDisk == old(db.onDisk)
  {
    at := (0, 0);
    var loc1 := db.Locate(name, orderid);
    if loc1.Err? {
      return Err(loc1.error), at;
    }
    var hit := loc1.value;
    at := hit;
    var id := hit.1;
    if db.orders[hit.0].status == OrderCancelled {
      db.scenes := db.scenes[id := CancelOpts(db.scenes[id])];
      return Ok(false), at;
    }
    db.scenes := db.scenes[id := StatusUpdated(db.scenes[id], loc, status)];
    r := Ok(true);
  }

  /** set_product_retry on a located scene: on a refusal nothing is written. */
  method SetRetryAt(db: Db, id: nat, name: string, loc: string, error: string, note: string, after: int, limit: Option<int>)
    returns (r: Result<bool>)
    requires id in db.scenes
    modifies db
    ensures var t := RetriedScene(old(db.scenes)[id], name, loc, error, note, after, limit);
            (r.Ok? <==> t.Ok?)
            && (t.Ok? ==> r.value && db.scenes == old(db.scenes)[id := t.value])
            && (t.Err? ==> r.error == t.error && db.scenes == old(db.scenes))
    ensures db.orders == old(db.orders) && db.users == old(db.users) && db.cache == old(db.cache) && db.onDisk == old(db.onDisk)
  {
    var scene := db.scenes[id];
    var count := if scene.retryCount.Some? then scene.retryCount.value else 0;
    var lim := limit;
    if !(lim.Some? && lim.value != 0) {
      lim := scene.retryLimit;
    }
    if lim.None? {
      return Err(NoLimit);
    }
    var next := count + 1;
    if next > lim.value {
      return Err(RetryExceeded(name));
    }
    db.scenes := db.scenes[id := scene.(status := Retry, retryCount := Some(next), retryAfter := Some(after), retryLimit := lim,
                                        logFileContents := error, processingLocation := loc, note := note)];
    r := Ok(true);
  }

  /** set_product_retry(name, orderid, ...). */
  method SetProductRetry(db: Db, name: string, orderid: string, loc: string, error: string, note: string,
                         after: int, limit: Option<int>)
    returns (r: Result<bool>, ghost at: (nat, nat))
    modifies db
    ensures !Named(old(db.orders), orderid) ==> r == Err(NoOrder)
    ensures r.Ok? ==> At(old(db.orders), old(db.scenes), name, orderid, at.0, at.1) && r.value
                      && RetriedScene(old(db.scenes)[at.1], name, loc, error, note, after, limit).Ok?
                      && db.scenes == old(db.scenes)[at.1 := RetriedScene(old(db.scenes)[at.1], name, loc, error, note, after, limit).value]
    ensures r.Err? ==> db.scenes == old(db.scenes)
    ensures db.orders == old(db.orders) && db.users == old(db.users) && db.cache == old(db.cache) && db.onDisk == old(db.onDisk)
  {
    at := (0, 0);
    var loc1 := db.Locate(name, orderid);
    if loc1.Err? {
      return Err(loc1.error), at;
    }
    var hit := loc1.value;
    at := hit;
    r := SetRetryAt(db, hit.1, name, loc, error, note, after, limit);
  }

  /** The classifier's answer that set_product_error acts on: the plot scene is never classified. */
  function ResolutionFor(name: string, error: string, env: Env): Result<Option<ErrorClassifier.Resolution>>
  {
    if name != "plot" then ErrorClassifier.ResolveFrom(0, error, ErrorClassifier.NameError(Some(name)), env.retry, env.now)
    else Ok(None)
  }

  /** errors.resolve(error, name), skipped for the plot scene. */
  method Classify(name: string, error: string, env: Env) returns (r: Result<Option<ErrorClassifier.Resolution>>)
    ensures r == ResolutionFor(name, error, env)
  {
    r := Ok(None);
    if name != "plot" {
      r := ErrorClassifier.Resolve(error, Some(name), env.retry, env.now);
    }
  }

  /** The cache after set_product_error: only the unavailable route pushes to LTA and may stamp it. */
  function ErrorCache(cache: map<string, CacheEntry>, res: Option<ErrorClassifier.Resolution>, o: Order, s: Scene, env: Env)
    : map<string, CacheEntry>
  {
    if res.Some? && res.value.status == ErrorClassifier.Unavailable then LtaCache(cache, o, s, "R", env) else cache
  }

  /** The routing of set_product_error on a located scene, once the resolution is known. */
  method ApplyResolution(db: Db, pk: nat, id: nat, name: string, res: Option<ErrorClassifier.Resolution>,
                         loc: string, error: string, env: Env)
    requires pk in db.orders && id in db.scenes && db.scenes[id].orderId == pk
    modifies db
    ensures var o := old(db.orders)[pk];
            var s := old(db.scenes)[id];
            db.scenes == old(db.scenes)[id := ErrorScene(s, name, res, loc, error, env.now, Pushed(o, s, "R", env))]
            && db.cache == ErrorCache(old(db.cache), res, o, s, env)
    ensures db.orders == old(db.orders) && db.users == old(db.users) && db.onDisk == old(db.onDisk)
  {
    var product := db.scenes[id];
    if res.None? {
      db.scenes := db.scenes[id := ErroredScene(product, loc, error)];
      return;
    }
    var status := res.value.status;
    if status == ErrorClassifier.Submitted {
      db.scenes := db.scenes[id := product.(status := Submitted, note := "")];
    } else if status == ErrorClassifier.Unavailable {
      SetUnavailableAt(db, pk, id, loc, error, res.value.reason, env);
    } else {
      var tried: Result<bool> := Err(Raised(TypeError, "'NoneType' object has no attribute '__getitem__'"));
      if res.value.extra.Some? {
        var extra := res.value.extra.value;
        tried := SetRetryAt(db, id, name, loc, error, res.value.reason, extra.retryAfter, Some(extra.retryLimit));
      }
      if tried.Err? {
        db.scenes := db.scenes[id := ErroredScene(product, loc, error)];
      }
    }
  }

  /**
   * set_product_error: the error is classified (unless the scene is the
   * plot), and the row ends as ErrorScene says; an exception of the
   * classifier escapes and writes nothing.
   */
  method SetProductError(db: Db, name: string, orderid: string, loc: string, error: string, env: Env)
    returns (r: Result<bool>, ghost at: (nat, nat))
    modifies db
    ensures !Named(old(db.orders), orderid) ==> r == Err(NoOrder)
    ensures r.Err? ==> db.scenes == old(db.scenes) && db.cache == old(db.cache)
    ensures r.Ok? ==>
              At(old(db.orders), old(db.scenes), name, orderid, at.0, at.1) && r.value
              && ResolutionFor(name, error, env).Ok?
              && var res := ResolutionFor(name, error, env).value;
                 var o := old(db.orders)[at.0];
                 var s := old(db.scenes)[at.1];
                 db.scenes == old(db.scenes)[at.1 := ErrorScene(s, name, res, loc, error, env.now, Pushed(o, s, "R", env))]
                 && db.cache == ErrorCache(old(db.cache), res, o, s, env)
    ensures db.orders == old(db.orders) && db.users == old(db.users) && db.onDisk == old(db.onDisk)
  {
    at := (0, 0);
    var loc1 := db.Locate(name, orderid);
    if loc1.Err? {
      return Err(loc1.error), at;
    }
    var hit := loc1.value;
    at := hit;
    var resolution := Classify(name, error, env);
    if resolution.Err? {
      return Err(resolution.error), at;
    }
    ApplyResolution(db, hit.0, hit.1, name, resolution.value, loc, error, env);
    r := Ok(true);
  }

  /** What update_product answers: the action's own result, or the message for an unknown action. */
  datatype Reply = Done(b: bool) | Rejected(msg: string)

  /** The arguments update_product passes on to the action it dispatches to. */
  datatype Update = Update(loc: string, status: Option<SceneStatus>, error: string, note: string, delivery: Delivery)

  /** The actions update_product dispatches. */
  predicate Accepted(action: string)
  {
    action == "update_status" || action == "set_product_error" || action == "set_product_unavailable"
    || action == "mark_product_complete"
  }

  /** update_product: dispatch on the action's name. */
  method UpdateProduct(db: Db, action: string, name: string, orderid: string, u: Update, env: Env)
    returns (r: Result<Reply>)
    modifies db
    ensures !Accepted(action) ==>
              r == Ok(Rejected(action + " is not an accepted action for update_product"))
              && db.scenes == old(db.scenes) && db.cache == old(db.cache)
    ensures r.Ok? && r.value.Rejected? ==> !Accepted(action)
    ensures !Named(old(db.orders), orderid) && Accepted(action) ==> r == Err(NoOrder)
    ensures db.orders == old(db.orders) && db.users == old(db.users) && db.onDisk == old(db.onDisk)
  {
    if !Accepted(action) {
      return Ok(Rejected(action + " is not an accepted action for update_product"));
    }
    var res: Result<bool>;
    ghost var at: (nat, nat);
    if action == "update_status" {
      res, at := UpdateStatus(db, name, orderid, u.loc, u.status);
    } else if action == "set_product_error" {
      res, at := SetProductError(db, name, orderid, u.loc, u.error, env);
    } else if action == "set_product_unavailable" {
      res, at := SetProductUnavailable(db, name, orderid, u.loc, u.error, u.note, env);
    } else {
      res, at := MarkProductComplete(db, name, orderid, u.delivery, env);
    }
    r := if res.Err? then Err(res.error) else Ok(Done(res.value));
  }

  // ---------------------------------------------------------- queue_products

  /** The orders dict queue_products builds: each order name with its products, in the order given. */
  function GroupPairs(pairs: seq<(string, string)>): map<string, seq<string>>
  {
    if pairs == [] then map[]
    else
      var g := GroupPairs(pairs[..|pairs| - 1]);
      var (o, n) := pairs[|pairs| - 1];
      g[o := (if o in g then g[o] else []) + [n]]
  }

  /** Every pair lands in its order's list, and nothing else does. */
  lemma {:induction false} GroupPairsMembers(pairs: seq<(string, string)>)
    ensures forall o :: o in GroupPairs(pairs) <==> exists n :: (o, n) in pairs
    ensures forall o, n :: o in GroupPairs(pairs) ==> (n in GroupPairs(pairs)[o] <==> (o, n) in pairs)
  {
    if pairs != [] {
      var front := pairs[..|pairs| - 1];
      var last := pairs[|pairs| - 1];
      GroupPairsMembers(front);
      assert pairs == front + [last];
      var g := GroupPairs(pairs);
      assert forall x :: x in pairs <==> x in front || x == last;
      forall o | o in g
        ensures exists n :: (o, n) in pairs
      {
        if o != last.0 {
          var n :| (o, n) in front;
          assert (o, n) in pairs;
        } else {
          assert (o, last.1) in pairs;
        }
      }
      forall o, n | (o, n) in pairs
        ensures o in g
      {
        if (o, n) in front {
          assert o in GroupPairs(front);
        }
      }
    }
  }

  /** The scenes queue_products queues: those whose order and name appear as a pair. */
  function QueuedScenes(m: map<nat, Scene>, orders: map<nat, Order>, pairs: seq<(string, string)>, loc: string, job: string)
    : (r: map<nat, Scene>)
    ensures r.Keys == m.Keys
  {
    map id | id in m :: if m[id].orderId in orders && (orders[m[id].orderId].orderid, m[id].name) in pairs
                        then QueuedScene(m[id], loc, job) else m[id]
  }

  /** The rows of order pk named in names, queued. */
  function QueueIn(m: map<nat, Scene>, pk: nat, names: seq<string>, loc: string, job: string): (r: map<nat, Scene>)
    ensures r.Keys == m.Keys
  {
    map id | id in m :: if m[id].orderId == pk && m[id].name in names then QueuedScene(m[id], loc, job) else m[id]
  }

  /** Whether the update loop has already queued a row: its order name was looked up and found its own order. */
  predicate Hit(orders: map<nat, Order>, found: map<string, nat>, groups: map<string, seq<string>>, s: Scene)
  {
    s.orderId in orders && orders[s.orderId].orderid in found && found[orders[s.orderId].orderid] == s.orderId
    && orders[s.orderId].orderid in groups && s.name in groups[orders[s.orderId].orderid]
  }

  /** The first loop of queue_products: the pairs grouped by order name. */
  method GroupOrders(pairs: seq<(string, string)>) returns (groups: map<string, seq<string>>)
    ensures groups == GroupPairs(pairs)
  {
    groups := map[];
    var i := 0;
    while i < |pairs|
      invariant 0 <= i <= |pairs| && groups == GroupPairs(pairs[..i])
    {
      assert pairs[..i + 1][..i] == pairs[..i];
      var (o, n) := pairs[i];
      groups := groups[o := (if o in groups then groups[o] else []) + [n]];
      i := i + 1;
    }
    assert pairs[..|pairs|] == pairs;
  }

  /** One order of the second loop: its rows join the queued ones. */
  lemma QueueStep(m0: map<nat, Scene>, cur: map<nat, Scene>, orders: map<nat, Order>, found: map<string, nat>,
                  groups: map<string, seq<string>>, o: string, pk: nat, loc: string, job: string)
    requires cur.Keys == m0.Keys && o in groups && o !in found && pk in orders && orders[pk].orderid == o
    requires forall o' :: o' in found ==> found[o'] in orders && orders[found[o']].orderid == o'
    requires forall id :: id in m0 ==> cur[id] == (if Hit(orders, found, groups, m0[id]) then QueuedScene(m0[id], loc, job) else m0[id])
    ensures forall id :: id in m0 ==>
              QueueIn(cur, pk, groups[o], loc, job)[id]
              == (if Hit(orders, found[o := pk], groups, m0[id]) then QueuedScene(m0[id], loc, job) else m0[id])
  {
    forall id | id in m0
      ensures QueueIn(cur, pk, groups[o], loc, job)[id]
              == (if Hit(orders, found[o := pk], groups, m0[id]) then QueuedScene(m0[id], loc, job) else m0[id])
    {
      var s := m0[id];
      assert cur[id].orderId == s.orderId && cur[id].name == s.name;
      if s.orderId == pk && s.name in groups[o] {
        assert !Hit(orders, found, groups, s);
        assert Hit(orders, found[o := pk], groups, s);
      } else if Hit(orders, found, groups, s) {
        assert Hit(orders, found[o := pk], groups, s);
      } else {
        assert !Hit(orders, found[o := pk], groups, s);
      }
    }
  }

  /**
   * The second loop of queue_products: each order name is looked up and
   * its named scenes queued; found records the order each name found.
   */
  method QueueGroups(db: Db, groups: map<string, seq<string>>, loc: string, job: string)
    returns (r: Result<bool>, ghost found: map<string, nat>)
    modifies db
    ensures r.Ok? <==> forall o :: o in groups ==> Named(old(db.orders), o)
    ensures r.Err? ==> r.error == NoOrder
    ensures r.Ok? ==> r.value && found.Keys == groups.Keys
    ensures forall o :: o in found ==> found[o] in old(db.orders) && old(db.orders)[found[o]].orderid == o
    ensures db.scenes.Keys == old(db.scenes).Keys
    ensures forall id :: id in old(db.scenes) ==>
              db.scenes[id] == (if Hit(old(db.orders), found, groups, old(db.scenes)[id])
                                then QueuedScene(old(db.scenes)[id], loc, job) else old(db.scenes)[id])
    ensures db.orders == old(db.orders) && db.users == old(db.users) && db.cache == old(db.cache) && db.onDisk == old(db.onDisk)
  {
    var m;
    r, m, found := QueueAll(db.scenes, db.orders, groups, loc, job);
    db.scenes := m;
  }

  /** The loop of QueueGroups over the scene rows, which are written back once. */
  method QueueAll(m0: map<nat, Scene>, orders: map<nat, Order>, groups: map<string, seq<string>>, loc: string, job: string)
    returns (r: Result<bool>, m: map<nat, Scene>, ghost found: map<string, nat>)
    ensures r.Ok? <==> forall o :: o in groups ==> Named(orders, o)
    ensures r.Err? ==> r.error == NoOrder
    ensures r.Ok? ==> r.value && found.Keys == groups.Keys
    ensures forall o :: o in found ==> found[o] in orders && orders[found[o]].orderid == o
    ensures m.Keys == m0.Keys
    ensures forall id :: id in m0 ==>
              m[id] == (if Hit(orders, found, groups, m0[id]) then QueuedScene(m0[id], loc, job) else m0[id])
  {
    m := m0;
    found := map[];
    var todo := groups.Keys;
    while todo != {}
      invariant todo <= groups.Keys && found.Keys == groups.Keys - todo
      invariant forall o :: o in found ==> found[o] in orders && orders[found[o]].orderid == o
      invariant forall o :: o in found ==> Named(orders, o)
      invariant m.Keys == m0.Keys
      invariant forall id :: id in m0 ==>
                  m[id] == (if Hit(orders, found, groups, m0[id]) then QueuedScene(m0[id], loc, job) else m0[id])
      decreases |todo|
    {
      var o :| o in todo;
      var pk := FindOrderIn(orders, o);
      if pk.Err? {
        return Err(pk.error), m, found;
      }
      QueueStep(m0, m, orders, found, groups, o, pk.value, loc, job);
      m := QueueIn(m, pk.value, groups[o], loc, job);
      found := found[o := pk.value];
      todo := todo - {o};
    }
    r := Ok(true);
  }

  /**
   * queue_products: the pairs are grouped by order, then each order is
   * looked up and its named scenes are queued in one bulk update. An order
   * name with no order raises, leaving the orders handled before it
   * queued; when every name is found (and names are unique) exactly the
   * named scenes are queued.
   */
  method QueueProducts(db: Db, pairs: seq<(string, string)>, loc: string, job: string) returns (r: Result<bool>)
    modifies db
    ensures r.Ok? <==> forall i :: 0 <= i < |pairs| ==> Named(old(db.orders), pairs[i].0)
    ensures r.Err? ==> r.error == NoOrder
    ensures r.Ok? ==> r.value
    ensures db.scenes.Keys == old(db.scenes).Keys
    ensures forall id :: id in old(db.scenes) ==>
              db.scenes[id] == old(db.scenes)[id] || db.scenes[id] == QueuedScene(old(db.scenes)[id], loc, job)
    ensures r.Ok? && Keyed(old(db.orders)) ==> db.scenes == QueuedScenes(old(db.scenes), old(db.orders), pairs, loc, job)
    ensures db.orders == old(db.orders) && db.users == old(db.users) && db.cache == old(db.cache) && db.onDisk == old(db.onDisk)
  {
    var groups := GroupOrders(pairs);
    GroupPairsMembers(pairs);
    ghost var found;
    r, found := QueueGroups(db, groups, loc, job);
    if r.Ok? {
      forall i | 0 <= i < |pairs|
        ensures Named(old(db.orders), pairs[i].0)
      {
        assert pairs[i] in pairs;
        assert pairs[i].0 in groups;
      }
    } else {
      ghost var o :| o in groups && !Named(old(db.orders), o);
      ghost var n :| (o, n) in pairs;
      ghost var k :| 0 <= k < |pairs| && pairs[k] == (o, n);
      assert !Named(old(db.orders), pairs[k].0);
    }
    if r.Ok? && Keyed(old(db.orders)) {
      forall id | id in old(db.scenes)
        ensures db.scenes[id] == QueuedScenes(old(db.scenes), old(db.orders), pairs, loc, job)[id]
      {
        var s := old(db.scenes)[id];
        if s.orderId in old(db.orders) && (old(db.orders)[s.orderId].orderid, s.name) in pairs {
          assert old(db.orders)[s.orderId].orderid in found;
        }
      }
    }
  }

  /** Queueing the same pairs twice writes what queueing them once wrote. */
  lemma QueueIdempotent(m: map<nat, Scene>, orders: map<nat, Order>, pairs: seq<(string, string)>, loc: string, job: string)
    ensures QueuedScenes(QueuedScenes(m, orders, pairs, loc, job), orders, pairs, loc, job) == QueuedScenes(m, orders, pairs, loc, job)
  {
    var once := QueuedScenes(m, orders, pairs, loc, job);
    forall id | id in once
      ensures QueuedScenes(once, orders, pairs, loc, job)[id] == once[id]
    {
      assert SameProduct(m[id], once[id]);
    }
  }

  /**
   * A completed row is finished and dated now, and is sized by the file
   * on disk, or 0 when the file cannot be found.
   */
  lemma CompletedFacts(s: Scene, d: Delivery, orderid: string, env: Env, pushed: bool)
    ensures var t := Flagged(CompletedScene(s, d, orderid, env), "C", pushed);
            Finished(t.status) && t.completionDate == Some(env.now)
            && t.downloadSize == Some(if env.fileSize(d.productPath).Some? then env.fileSize(d.productPath).value else 0)
            && (!pushed ==> t.failedLtaStatusUpdate == Some("C"))
  {
  }
}
