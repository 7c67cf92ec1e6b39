/**
 * handle_orders: the pass that accepts orders into the system by running
 * every handler in turn over the pending orders of one user (or of all
 * users), and then purges old orders when the purge lease has lapsed.
 */
module ProductionRun {
  import opened Wrappers
  import opened Store
  import opened Production
  import opened ProductionHandlers
  import opened ProductionOrders
  import opened ProductionEe
  import opened ProductionCycle

  /** What handle_orders reads besides the store and the external systems. */
  datatype Run = Run(
    /** The job names hadoop lists as running (for the stuck-job catch). */
    jobs: set<string>,
    /** The scenes whose status_modified is more than six hours old. */
    stale: set<nat>,
    /** Which lapse rule the orphan catch applies. */
    rule: Rule,
    /** Whether the database accepts the retried LTA status updates. */
    dbUp: bool,
    /** policy.purge_orders_after, in days. */
    purgeDays: int,
    /** system.run_order_purge_every, the lease's timeout in seconds. */
    purgeEvery: int)

  /** The cache key of the purge lease. */
  const PurgeKey := "orders_last_purged"

  /** User.by_username found nothing, and its username was read. */
  const NoUser := Raised(AttributeError, "'NoneType' object has no attribute 'username'")

  /** The orders still waiting to be handled, of one user when one is given. */
  function Pending(orders: map<nat, Order>, user: Option<nat>): (r: set<nat>)
    ensures forall pk :: pk in r <==> pk in orders && orders[pk].status == Ordered
                                      && (user.None? || orders[pk].userId == user.value)
  {
    set pk | pk in orders && orders[pk].status == Ordered && (user.None? || orders[pk].userId == user.value)
  }

  /** A user with that username. */
  predicate HasUser(users: map<nat, User>, username: string)
  {
    exists u :: u in users && users[u].username == username
  }

  /** auth_user's usernames are unique. */
  predicate NamesUnique(users: map<nat, User>)
  {
    forall a, b :: a in users && b in users && users[a].username == users[b].username ==> a == b
  }

  /** The rows of a query, in the order a loop happens to take them. */
  method ListOf(s: set<nat>) returns (r: seq<nat>)
    ensures forall x :: x in r <==> x in s
  {
    r := [];
    var rest := s;
    while rest != {}
      invariant rest <= s
      invariant forall x :: x in r <==> x in s && x !in rest
      decreases |rest|
    {
      var x :| x in rest;
      r := r + [x];
      rest := rest - {x};
    }
  }

  /**
   * The handlers up to the cancellations: initial e-mails, products on
   * order at LTA, stuck jobs, matured retries, failed LTA status updates
   * and cancelled orders. The first error ends the pass.
   */
  method EarlyPasses(db: Db, pending: set<nat>, user: Option<nat>, ext: Ext, env: Env, run: Run) returns (r: Result<()>)
    modifies db
    ensures r.Err? ==> r.error.kind in {ProductionProviderException, SmtpException}
    ensures db.users == old(db.users) && db.cache == old(db.cache)
  {
    var unsent := ListOf(set pk | pk in db.orders && pk in pending && db.orders[pk].initialEmailSent.None?);
    var _ := SendAllInitial(db, unsent, ext, env);

    var onorder := set id | id in db.scenes && db.scenes[id].status == Onorder && db.scenes[id].tramOrderId.Some?
                            && db.scenes[id].orderId in pending;
    var done;
    ghost var polled;
    done, polled := HandleOnorderLandsatProducts(db, onorder, ext, env);

    var stuck := set id | id in db.scenes && InFlight(db.scenes[id].status) && id in run.stale;
    var _ := HandleStuckJobs(db, stuck, run.jobs, env.now, run.rule);

    var retry := set id | id in db.scenes && db.scenes[id].status == Retry && db.scenes[id].retryAfter.Some?
                          && db.scenes[id].retryAfter.value < env.now && db.scenes[id].orderId in pending;
    var _ := HandleRetryProducts(db, retry);

    var failed := set id | id in db.scenes && db.scenes[id].failedLtaStatusUpdate.Some? && db.scenes[id].orderId in pending;
    var e := HandleFailedEeUpdates(db, failed, env, run.dbUp);
    if e.Err? {
      return Err(e.error);
    }

    var cancelled := ListOf(set pk | pk in db.orders && db.orders[pk].status == OrderCancelled
                                     && db.orders[pk].completionEmailSent.None?
                                     && (user.None? || db.orders[pk].userId == user.value));
    var c := HandleCancelledOrders(db, cancelled, ext, env);
    if c.Err? {
      return Err(c.error);
    }
    r := Ok(());
  }

  /**
   * The handlers from the submitted products on: landsat (the first 500),
   * modis and plot products, download sizes and order completion. The
   * first error ends the pass.
   */
  method LatePasses(db: Db, pending: set<nat>, ext: Ext, env: Env) returns (r: Result<()>)
    modifies db
    ensures db.users == old(db.users) && db.cache == old(db.cache)
  {
    var landsat := Smallest(set id | id in db.scenes && db.scenes[id].status == Submitted
                                     && db.scenes[id].sensorType == "landsat" && db.scenes[id].orderId in pending, 500);
    var l := HandleSubmittedLandsatProducts(db, (set id | id in landsat), ext, env);
    if l.Err? {
      return Err(l.error);
    }

    var modis := set id | id in db.scenes && db.scenes[id].status == Submitted
                          && db.scenes[id].sensorType == "modis" && db.scenes[id].orderId in pending;
    var _ := HandleSubmittedModisProducts(db, modis, ext, env);

    var plots := ListOf(set id | id in db.scenes && db.scenes[id].status == Submitted
                                 && db.scenes[id].sensorType == "plot" && db.scenes[id].orderId in pending);
    var p := HandleSubmittedPlotProducts(db, plots);
    if p.Err? {
      return Err(p.error);
    }

    var unsized := ListOf(set id | id in db.scenes && db.scenes[id].status == Complete
                                   && db.scenes[id].downloadSize == Some(0) && db.scenes[id].orderId in pending);
    var _ := CalcSceneDownloadSizes(db, unsized, env);

    var open := ListOf(set pk | pk in db.orders && db.orders[pk].status == Ordered && pk in pending);
    var f := FinalizeOrders(db, open, ext, env);
    if f.Err? {
      return Err(f.error);
    }
    r := Ok(());
  }

  /**
   * The purge lease: when no live lease is cached, one is taken for
   * run.purgeEvery seconds and the purge runs; otherwise nothing happens.
   */
  method PurgeUnderLease(db: Db, ext: Ext, env: Env, run: Run) returns (ran: bool)
    modifies db
    ensures ran <==> !LiveIn(old(db.cache), PurgeKey, env.now)
    ensures db.cache == if ran then CacheSet(old(db.cache), PurgeKey, env.now, run.purgeEvery) else old(db.cache)
    ensures ran ==> PurgedAs(old(db.scenes), old(db.orders), old(db.onDisk), db.scenes, db.orders, db.onDisk,
                            Purgeable(old(db.orders), Cutoff(env.now, run.purgeDays)), ext)
                    && Purgeable(db.orders, Cutoff(env.now, run.purgeDays)) == {}
    ensures !ran ==> db.scenes == old(db.scenes) && db.orders == old(db.orders) && db.onDisk == old(db.onDisk)
    ensures db.users == old(db.users)
  {
    ran := !db.Live(PurgeKey, env.now);
    if ran {
      db.cache := CacheSet(db.cache, PurgeKey, env.now, run.purgeEvery);
      var _ := PurgeOrders(db, run.purgeDays, ext, env);
      PurgeIdempotent(old(db.scenes), old(db.orders), old(db.onDisk), db.scenes, db.orders, db.onDisk,
                      Cutoff(env.now, run.purgeDays), ext);
    }
  }

  /**
   * handle_orders(username): an empty username means every user. A
   * username nobody has fails before anything changes; no pending order
   * means Ok(false) and no change; otherwise every handler runs in turn,
   * the first error is passed on, and the purge runs under its lease.
   */
  method HandleOrders(db: Db, username: string, ext: Ext, env: Env, run: Run) returns (r: Result<bool>)
    modifies db
    requires NamesUnique(db.users)
    ensures username != "" && !HasUser(old(db.users), username) ==> r == Err(NoUser) && unchanged(db)
    ensures r == Ok(false) <==> ((username == "" || HasUser(old(db.users), username))
                                 && (username == "" ==> Pending(old(db.orders), None) == {})
                                 && forall u :: u in old(db.users) && old(db.users)[u].username == username ==>
                                                  Pending(old(db.orders), Some(u)) == {})
    ensures r == Ok(false) ==> unchanged(db)
    ensures r == Ok(true) ==> PurgeKey in db.cache && db.cache[PurgeKey] == if LiveIn(old(db.cache), PurgeKey, env.now) then old(db.cache)[PurgeKey]
                                                   else CacheEntry(env.now, Some(env.now + (if run.purgeEvery != 0 then run.purgeEvery else DefaultTimeout)))
    ensures r == Ok(true) && !LiveIn(old(db.cache), PurgeKey, env.now) ==> Purgeable(db.orders, Cutoff(env.now, run.purgeDays)) == {}
    ensures db.users == old(db.users)
  {
    var user: Option<nat> := None;
    if username != "" {
      if u :| u in db.users && db.users[u].username == username {
        user := Some(u);
      } else {
        return Err(NoUser);
      }
    }
    var pending := Pending(db.orders, user);
    if |pending| < 1 {
      return Ok(false);
    }
    var early := EarlyPasses(db, pending, user, ext, env, run);
    if early.Err? {
      return Err(early.error);
    }
    var late := LatePasses(db, pending, ext, env);
    if late.Err? {
      return Err(late.error);
    }
    var _ := PurgeUnderLease(db, ext, env, run);
    r := Ok(true);
  }
}
