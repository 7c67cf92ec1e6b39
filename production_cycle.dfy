/**
 * The production provider's housekeeping of work the cluster lost
 * (orphaned jobs) and the option stripping done for each scene.
 */
module ProductionCycle {
  import opened Wrappers
  import opened Json
  import opened Store
  import Sensor

  // -------------------------------------------------------------------- orphans

  /** datetime.timedelta(seconds=e).seconds: the part of e within its day. */
  function DaySeconds(e: int): (r: int)
    ensures 0 <= r < 86400
  {
    e % 86400
  }

  /** catch_orphaned_scenes' rule as written: the delta's within-day seconds, in whole minutes, above 10. */
  predicate LapsedAsWritten(elapsed: int)
  {
    DaySeconds(elapsed) / 60 > 10
  }

  /** The rule the code means: more than ten minutes since the scene was first reported. */
  predicate Lapsed(elapsed: int)
  {
    elapsed > 600
  }

  /** Within a day the rule as written only fires from eleven whole minutes on. */
  lemma LapsedAsWrittenThreshold(elapsed: int)
    requires 0 <= elapsed < 86400
    ensures LapsedAsWritten(elapsed) <==> elapsed >= 660
  {
  }

  /** Two inputs on which the rules disagree: the resubmit pass's 630-second gap, and a day and five minutes. */
  lemma LapsedRulesDisagree()
    ensures Lapsed(630) && !LapsedAsWritten(630)
    ensures Lapsed(86400 + 300) && !LapsedAsWritten(86400 + 300)
  {
    assert DaySeconds(630) == 630;
    assert DaySeconds(86400 + 300) == 300;
  }

  /** Which of the two rules a catch pass applies. */
  datatype Rule = AsWritten | Intended

  /** Whether the rule counts that many seconds as long enough. */
  predicate LapsedBy(rule: Rule, elapsed: int)
  {
    if rule.AsWritten? then LapsedAsWritten(elapsed) else Lapsed(elapsed)
  }

  /** A queued or processing scene whose job the cluster no longer lists. */
  predicate Orphan(s: Scene, jobs: set<string>)
  {
    InFlight(s.status) && s.jobName !in jobs
  }

  /**
   * One scene after catch_orphaned_scenes at time now: an orphan not yet
   * marked is first noted with the time, and marked orphaned on a later
   * pass once the rule says enough time has lapsed.
   */
  function Caught(s: Scene, jobs: set<string>, now: int, rule: Rule): Scene
  {
    if !Orphan(s, jobs) || s.orphaned then s
    else if s.reportedOrphan.None? then s.(reportedOrphan := Some(now))
    else if LapsedBy(rule, now - s.reportedOrphan.value) then s.(orphaned := true)
    else s
  }

  /** Only orphans change; a scene is marked only after it was noted; catching never unmarks. */
  lemma CaughtFacts(s: Scene, jobs: set<string>, now: int, rule: Rule)
    ensures !Orphan(s, jobs) ==> Caught(s, jobs, now, rule) == s
    ensures Caught(s, jobs, now, rule).orphaned && !s.orphaned ==>
              s.reportedOrphan.Some? && LapsedBy(rule, now - s.reportedOrphan.value)
    ensures s.orphaned ==> Caught(s, jobs, now, rule).orphaned
    ensures Caught(s, jobs, now, rule).reportedOrphan.Some? <==> s.reportedOrphan.Some? || (Orphan(s, jobs) && !s.orphaned)
    ensures Caught(s, jobs, now, rule).(reportedOrphan := s.reportedOrphan, orphaned := s.orphaned) == s
  {
  }

  /** The scenes after a catch pass. */
  function CaughtAll(m: map<nat, Scene>, jobs: set<string>, now: int, rule: Rule): (r: map<nat, Scene>)
    ensures r.Keys == m.Keys
  {
    map id | id in m :: Caught(m[id], jobs, now, rule)
  }

  /** catch_orphaned_scenes: the job list (hadoop's job names) and the clock are read once. */
  method CatchOrphanedScenes(db: Db, jobs: set<string>, now: int, rule: Rule) returns (r: bool)
    modifies db
    ensures r && db.scenes == CaughtAll(old(db.scenes), jobs, now, rule)
    ensures db.orders == old(db.orders) && db.users == old(db.users) && db.cache == old(db.cache) && db.onDisk == old(db.onDisk)
  {
    var orphans := set id | id in db.scenes && Orphan(db.scenes[id], jobs);
    var scenes := CatchAll(db.scenes, orphans, jobs, now, rule);
    db.scenes := scenes;
    r := true;
  }

  /** The loop of catch_orphaned_scenes over the orphans found; each saved row is written back. */
  method CatchAll(m0: map<nat, Scene>, orphans: set<nat>, jobs: set<string>, now: int, rule: Rule) returns (m: map<nat, Scene>)
    requires forall id :: id in orphans <==> id in m0 && Orphan(m0[id], jobs)
    ensures m == CaughtAll(m0, jobs, now, rule)
  {
    m := m0;
    ghost var done: set<nat> := {};
    var todo := orphans;
    while todo != {}
      invariant CatchProgress(m0, m, done, todo, orphans, jobs, now, rule)
      decreases |todo|
    {
      m, done, todo := CatchNext(m, m0, done, todo, orphans, jobs, now, rule);
    }
    CatchDone(m0, m, done, orphans, jobs, now, rule);
  }

  /** Part of the orphans handled, the rest still to do. */
  predicate CatchProgress(m0: map<nat, Scene>, m: map<nat, Scene>, done: set<nat>, todo: set<nat>, orphans: set<nat>,
                          jobs: set<string>, now: int, rule: Rule)
  {
    done + todo == orphans && done * todo == {} && m.Keys == m0.Keys
    && (forall id :: id in orphans ==> id in m0 && Orphan(m0[id], jobs))
    && forall id :: id in m0 ==> m[id] == if id in done then Caught(m0[id], jobs, now, rule) else m0[id]
  }

  /** Once every orphan is handled the scenes are CaughtAll. */
  lemma CatchDone(m0: map<nat, Scene>, m: map<nat, Scene>, done: set<nat>, orphans: set<nat>,
                  jobs: set<string>, now: int, rule: Rule)
    requires CatchProgress(m0, m, done, {}, orphans, jobs, now, rule)
    requires forall id :: id in m0 && Orphan(m0[id], jobs) ==> id in orphans
    ensures m == CaughtAll(m0, jobs, now, rule)
  {
    forall id | id in m0
      ensures m[id] == Caught(m0[id], jobs, now, rule)
    {
      CaughtFacts(m0[id], jobs, now, rule);
    }
  }

  /** One orphan of the catch pass: noted, marked, or left as it is. */
  method CatchNext(m: map<nat, Scene>, ghost m0: map<nat, Scene>, ghost done: set<nat>, todo: set<nat>, ghost orphans: set<nat>,
                   jobs: set<string>, now: int, rule: Rule) returns (m1: map<nat, Scene>, ghost done1: set<nat>, todo1: set<nat>)
    requires todo != {} && CatchProgress(m0, m, done, todo, orphans, jobs, now, rule)
    ensures CatchProgress(m0, m1, done1, todo1, orphans, jobs, now, rule) && |todo1| < |todo|
  {
    var id :| id in todo;
    assert id !in done * todo;
    var s, save := CatchOne(m[id], now, rule);
    m1 := if save then m[id := s] else m;
    CatchStep(m0, m, m1, done, todo, orphans, id, jobs, now, rule);
    done1, todo1 := done + {id}, todo - {id};
  }

  /** The loop body of catch_orphaned_scenes on one orphan: the row and whether it is saved. */
  method CatchOne(s: Scene, now: int, rule: Rule) returns (t: Scene, save: bool)
    ensures save <==> !s.orphaned
    ensures !save ==> t == s
    ensures forall jobs :: Orphan(s, jobs) ==> t == Caught(s, jobs, now, rule)
  {
    t := s;
    save := !s.orphaned;
    if !s.orphaned {
      if s.reportedOrphan.Some? {
        if LapsedBy(rule, now - s.reportedOrphan.value) {
          t := s.(orphaned := true);
        }
      } else {
        t := s.(reportedOrphan := Some(now));
      }
    }
  }

  /** Handling one more orphan keeps CatchProgress. */
  lemma CatchStep(m0: map<nat, Scene>, m: map<nat, Scene>, m1: map<nat, Scene>, done: set<nat>, todo: set<nat>,
                  orphans: set<nat>, id: nat, jobs: set<string>, now: int, rule: Rule)
    requires CatchProgress(m0, m, done, todo, orphans, jobs, now, rule) && id in todo
    requires m1 == m[id := Caught(m[id], jobs, now, rule)] || (m[id].orphaned && m1 == m)
    ensures CatchProgress(m0, m1, done + {id}, todo - {id}, orphans, jobs, now, rule)
  {
    assert id !in done * todo;
    assert m[id] == m0[id];
    forall q | q in m0
      ensures m1[q] == if q in done + {id} then Caught(m0[q], jobs, now, rule) else m0[q]
    {
    }
  }

  /** The scenes after handle_stuck_jobs: the listed ones marked orphaned go back to submitted. */
  function Unstuck(m: map<nat, Scene>, ids: set<nat>): map<nat, Scene>
  {
    map id | id in m :: if id in ids && m[id].orphaned then m[id].(status := Submitted) else m[id]
  }

  /**
   * handle_stuck_jobs: with no stuck scenes nothing happens (and nothing
   * is returned); otherwise a catch pass runs and the stuck scenes now
   * marked orphaned are resubmitted.
   */
  method HandleStuckJobs(db: Db, ids: set<nat>, jobs: set<string>, now: int, rule: Rule) returns (r: bool)
    modifies db
    ensures r <==> ids != {}
    ensures db.scenes == if r then Unstuck(CaughtAll(old(db.scenes), jobs, now, rule), ids) else old(db.scenes)
    ensures db.orders == old(db.orders) && db.users == old(db.users) && db.cache == old(db.cache) && db.onDisk == old(db.onDisk)
  {
    if |ids| == 0 {
      return false;
    }
    var _ := CatchOrphanedScenes(db, jobs, now, rule);
    var orphaned := set id | id in ids && id in db.scenes && db.scenes[id].orphaned;
    if |orphaned| > 0 {
      db.scenes := Unstuck(db.scenes, ids);
    } else {
      assert Unstuck(db.scenes, ids) == db.scenes by {
        forall id | id in db.scenes && id in ids
          ensures !db.scenes[id].orphaned
        {
          assert id !in orphaned;
        }
      }
    }
    r := true;
  }

  /** The orphan bookkeeping cleared: no report time, not orphaned (None reads as not orphaned). */
  function Cleared(s: Scene): Scene
  {
    s.(reportedOrphan := None, orphaned := false)
  }

  /**
   * One scene after resubmit_orphaned_scenes: the bookkeeping is cleared,
   * two catch passes run at now and at later, and a scene then marked
   * orphaned and still queued or processing is cleared and resubmitted.
   */
  function Resubmitted(s: Scene, jobs1: set<string>, jobs2: set<string>, now: int, later: int, rule: Rule): Scene
  {
    var c := Caught(Caught(Cleared(s), jobs1, now, rule), jobs2, later, rule);
    if c.orphaned && InFlight(c.status) then Cleared(c).(status := Submitted) else c
  }

  /** The scenes with their orphan bookkeeping cleared. */
  function ClearedAll(m: map<nat, Scene>): (r: map<nat, Scene>)
    ensures r.Keys == m.Keys
  {
    map id | id in m :: Cleared(m[id])
  }

  /** The scenes after the final bulk update: marked orphans still queued or processing are resubmitted. */
  function MarkedResubmitted(m: map<nat, Scene>): (r: map<nat, Scene>)
    ensures r.Keys == m.Keys
  {
    map id | id in m :: if m[id].orphaned && InFlight(m[id].status) then Cleared(m[id]).(status := Submitted) else m[id]
  }

  /** A bulk update that clears the bookkeeping of the listed scenes. */
  function ClearIn(m: map<nat, Scene>, ids: set<nat>): (r: map<nat, Scene>)
    ensures r.Keys == m.Keys
  {
    map id | id in m :: if id in ids then Cleared(m[id]) else m[id]
  }

  /** Clearing the reported scenes, then the still-marked ones, clears every scene. */
  lemma ClearTwice(m: map<nat, Scene>, reported: set<nat>, marked: set<nat>)
    requires forall id :: id in reported <==> id in m && m[id].reportedOrphan.Some?
    requires forall id :: id in marked <==> id in m && ClearIn(m, reported)[id].orphaned
    ensures ClearIn(ClearIn(m, reported), marked) == ClearedAll(m)
  {
    forall id | id in m
      ensures ClearIn(ClearIn(m, reported), marked)[id] == Cleared(m[id])
    {
    }
  }

  /** The two bulk updates that clear the bookkeeping (a report time, then an orphaned flag). */
  method ClearOrphanFlags(db: Db)
    modifies db
    ensures db.scenes == ClearedAll(old(db.scenes))
    ensures db.orders == old(db.orders) && db.users == old(db.users) && db.cache == old(db.cache) && db.onDisk == old(db.onDisk)
  {
    var reported := set id | id in db.scenes && db.scenes[id].reportedOrphan.Some?;
    if |reported| > 0 {
      db.scenes := ClearIn(db.scenes, reported);
    } else {
      assert ClearIn(db.scenes, reported) == db.scenes;
    }
    var marked := set id | id in db.scenes && db.scenes[id].orphaned;
    if |marked| > 0 {
      db.scenes := ClearIn(db.scenes, marked);
    } else {
      assert ClearIn(db.scenes, marked) == db.scenes;
    }
    ClearTwice(old(db.scenes), reported, marked);
  }

  /** The final bulk update of resubmit_orphaned_scenes. */
  method ResubmitMarked(db: Db)
    modifies db
    ensures db.scenes == MarkedResubmitted(old(db.scenes))
    ensures db.orders == old(db.orders) && db.users == old(db.users) && db.cache == old(db.cache) && db.onDisk == old(db.onDisk)
  {
    var orphans := set id | id in db.scenes && db.scenes[id].orphaned && InFlight(db.scenes[id].status);
    if |orphans| > 0 {
      db.scenes := map id | id in db.scenes :: if id in orphans then Cleared(db.scenes[id]).(status := Submitted) else db.scenes[id];
    } else {
      forall id | id in db.scenes
        ensures !(db.scenes[id].orphaned && InFlight(db.scenes[id].status))
      {
        assert id !in orphans;
      }
    }
  }

  /** resubmit_orphaned_scenes; `later` is the clock after the 630-second sleep. */
  method ResubmitOrphanedScenes(db: Db, jobs1: set<string>, jobs2: set<string>, now: int, later: int, rule: Rule)
    returns (r: bool)
    requires later >= now + 630
    modifies db
    ensures r && db.scenes.Keys == old(db.scenes).Keys
    ensures forall id :: id in old(db.scenes) ==> db.scenes[id] == Resubmitted(old(db.scenes)[id], jobs1, jobs2, now, later, rule)
    ensures db.orders == old(db.orders) && db.users == old(db.users) && db.cache == old(db.cache) && db.onDisk == old(db.onDisk)
  {
    ClearOrphanFlags(db);
    var _ := CatchOrphanedScenes(db, jobs1, now, rule);
    var _ := CatchOrphanedScenes(db, jobs2, later, rule);
    ResubmitMarked(db);
    r := true;
  }

  /**
   * With the rule as written nothing is ever resubmitted when the second
   * catch comes less than eleven minutes after the first, as it does
   * after the 630-second sleep: the first pass only notes each orphan.
   */
  lemma ResubmitAsWrittenFindsNothing(s: Scene, jobs1: set<string>, jobs2: set<string>, now: int, later: int)
    requires now <= later < now + 660
    ensures !Caught(Caught(Cleared(s), jobs1, now, AsWritten), jobs2, later, AsWritten).orphaned
    ensures Resubmitted(s, jobs1, jobs2, now, later, AsWritten).status == s.status
  {
    LapsedAsWrittenThreshold(later - now);
  }

  /**
   * With the intended rule a scene is resubmitted exactly when it was
   * queued or processing under a job the cluster listed on neither catch.
   */
  lemma ResubmitIntended(s: Scene, jobs1: set<string>, jobs2: set<string>, now: int, later: int)
    requires later >= now + 630
    ensures Resubmitted(s, jobs1, jobs2, now, later, Intended).status == Submitted && InFlight(s.status)
            <==> Orphan(s, jobs1) && Orphan(s, jobs2)
    ensures Orphan(s, jobs1) && Orphan(s, jobs2) ==>
              Resubmitted(s, jobs1, jobs2, now, later, Intended) == Cleared(s).(status := Submitted)
    ensures !(Orphan(s, jobs1) && Orphan(s, jobs2)) ==>
              Resubmitted(s, jobs1, jobs2, now, later, Intended).status == s.status
  {
  }

  /** The scenes after reset_processing_status. */
  function ResetAll(m: map<nat, Scene>): map<nat, Scene>
  {
    map id | id in m :: if InFlight(m[id].status) then m[id].(status := Submitted) else m[id]
  }

  /** reset_processing_status: every queued or processing scene goes back to submitted; true iff there was one. */
  method ResetProcessingStatus(db: Db) returns (r: bool)
    modifies db
    ensures r <==> exists id :: id in old(db.scenes) && InFlight(old(db.scenes)[id].status)
    ensures db.scenes == ResetAll(old(db.scenes))
    ensures db.orders == old(db.orders) && db.users == old(db.users) && db.cache == old(db.cache) && db.onDisk == old(db.onDisk)
  {
    var busy := set id | id in db.scenes && InFlight(db.scenes[id].status);
    if |busy| > 0 {
      db.scenes := map id | id in db.scenes :: if id in busy then db.scenes[id].(status := Submitted) else db.scenes[id];
      var id :| id in busy;
      return true;
    }
    forall id | id in db.scenes
      ensures !InFlight(db.scenes[id].status)
    {
      assert id !in busy;
    }
    assert ResetAll(db.scenes) == db.scenes;
    r := false;
  }

  /** After a reset nothing is left queued or processing, and a second reset reports nothing. */
  lemma ResetLeavesNothingInFlight(m: map<nat, Scene>)
    ensures forall id :: id in ResetAll(m) ==> !InFlight(ResetAll(m)[id].status)
    ensures ResetAll(ResetAll(m)) == ResetAll(m)
  {
  }

  // ------------------------------------------------------------ strip_unrelated

  /**
   * strip_unrelated: the scene's own sensor group's products become the
   * top-level 'products' and every sensor group is dropped. The scene
   * name must be a supported product and the options must hold its
   * group. parse is sensor.instance and keys the shortnames of the sensor
   * table (StripUnrelatedProducts ties them to Sensor).
   */
  function StripUnrelated(sceneid: string, opts: Json, parse: string -> Result<Sensor.Product>, keys: set<string>): (r: Result<Json>)
    ensures r.Ok? ==> opts.JObj? && r.value.JObj?
    ensures r.Ok? && "products" !in keys ==> "products" in r.value.fields
    ensures r.Ok? ==> forall k :: k in r.value.fields && k != "products" ==>
                        (k !in keys && k in opts.fields && r.value.fields[k] == opts.fields[k])
    ensures r.Ok? ==> forall k :: k in opts.fields && k !in keys && k != "products" ==> k in r.value.fields
    ensures parse(sceneid).Err? ==> r == Err(parse(sceneid).error)
  {
    match parse(sceneid)
    case Err(e) => Err(e)
    case Ok(p) =>
      match GetItem(opts, p.shortname)
      case Err(e) => Err(e)
      case Ok(group) =>
        match GetItem(group, "products")
        case Err(e) => Err(e)
        case Ok(prods) =>
          var fields := opts.fields["products" := prods];
          Ok(JObj(map k | k in fields && k !in keys :: fields[k]))
  }

  /**
   * With the real parser and table: a supported scene's group is a key of
   * the options, the new 'products' is that group's products, and no
   * sensor group is left.
   */
  lemma StripUnrelatedProducts(sceneid: string, opts: Json)
    requires StripUnrelated(sceneid, opts, Sensor.Instance, Sensor.PatternKeys()).Ok?
    ensures Sensor.Instance(sceneid).Ok?
    ensures var sn := Sensor.Instance(sceneid).value.shortname;
            var r := StripUnrelated(sceneid, opts, Sensor.Instance, Sensor.PatternKeys()).value;
            sn in opts.fields && GetItem(opts.fields[sn], "products").Ok?
            && "products" in r.fields && r.fields["products"] == GetItem(opts.fields[sn], "products").value
            && sn !in r.fields
  {
    Sensor.InstanceShortname(sceneid);
    Sensor.ProductsNotASensor();
  }
}
