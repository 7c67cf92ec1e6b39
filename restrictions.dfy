/**
 * The restrictions file (domain/restricted.yaml) as a value: per sensor, the
 * products only staff may order and the acquisition-date ranges outside
 * which a product cannot be made; under 'all', restrictions that apply to
 * every sensor. Whether a julian date lies in a range (julian_date_check)
 * and the day of year of a calendar date (julian_from_date) are
 * parameters of the functions that need them.
 */
module Restrictions {
  import opened Wrappers
  import opened Text
  import opened Sensor

  /** One sensor's entry; byDate is None when the entry has no 'by_date' key. */
  datatype SensorRules = SensorRules(role: seq<string>, byDate: Option<map<string, string>>)

  /** The whole file: the sensors' entries and the 'all' entry's role, by_date and ordering lists. */
  datatype Restricted = Restricted(
    sensors: map<string, SensorRules>,
    allRole: seq<string>,
    allByDate: map<string, string>,
    allOrdering: seq<string>)

  /** restricted.get(name, {}) */
  function RulesOf(restr: Restricted, name: string): (r: SensorRules)
    ensures name !in restr.sensors ==> r.role == [] && r.byDate.None?
  {
    if name in restr.sensors then restr.sensors[name] else SensorRules([], None)
  }

  /** The sensor's own date ranges, overridden product by product by those under 'all'. */
  function ByDateFor(restr: Restricted, name: string): (r: map<string, string>)
    ensures r.Keys == restr.allByDate.Keys + (if RulesOf(restr, name).byDate.Some? then RulesOf(restr, name).byDate.value.Keys else {})
    ensures forall p :: p in restr.allByDate ==> r[p] == restr.allByDate[p]
    ensures forall p :: p in r && p !in restr.allByDate ==> r[p] == RulesOf(restr, name).byDate.value[p]
  {
    var own := RulesOf(restr, name).byDate;
    (if own.Some? then own.value else map[]) + restr.allByDate
  }

  /** The products only staff may order from this sensor: its own role list, then the one under 'all'. */
  function RoleFor(restr: Restricted, name: string): (r: seq<string>)
    ensures forall p :: p in r <==> p in RulesOf(restr, name).role || p in restr.allRole
  {
    RulesOf(restr, name).role + restr.allRole
  }

  /** The julian date string of a product: its year followed by its day of year. */
  function Julian(p: Product, julianFromDate: (string, string, string) -> string): string
  {
    match p
    case Landsat(_, _, _, year, acquired, _, _, _, _, _, _) =>
      year + julianFromDate(Slice(acquired, 0, 4), Slice(acquired, 4, 6), Slice(acquired, 6, 8))
    case Modis(_, _, _, _, _, year, doy, _, _, _, _, _) => year + doy
  }

  /**
   * Landsat.sr_date_restricted: a Landsat product whose sensor has an entry
   * is restricted when its date is outside that entry's 'sr' range; an
   * entry without by_date or without sr raises KeyError. MODIS products are
   * never restricted.
   */
  function SrDateRestricted(p: Product, restr: Restricted, dateOk: (string, string) -> bool,
                            julianFromDate: (string, string, string) -> string): (r: Result<bool>)
    ensures p.Modis? ==> r == Ok(false)
    ensures p.Landsat? && p.SensorName() !in restr.sensors ==> r == Ok(false)
    ensures r.Err? ==> r.error.kind == KeyError && p.SensorName() in restr.sensors
    ensures r == Ok(true) <==>
              p.Landsat? && p.SensorName() in restr.sensors
              && restr.sensors[p.SensorName()].byDate.Some?
              && "sr" in restr.sensors[p.SensorName()].byDate.value
              && !dateOk(Julian(p, julianFromDate), restr.sensors[p.SensorName()].byDate.value["sr"])
  {
    if p.Modis? then Ok(false)
    else SrDateRestrictedAsWritten(p, restr, dateOk, julianFromDate)
  }

  /**
   * sr_date_restricted as the source defines it: a method of the Landsat
   * class only, so the EE scene import, which calls it on every product,
   * raises AttributeError for a MODIS product.
   */
  function SrDateRestrictedAsWritten(p: Product, restr: Restricted, dateOk: (string, string) -> bool,
                                     julianFromDate: (string, string, string) -> string): (r: Result<bool>)
  {
    if p.Modis? then Err(Raised(AttributeError, "object has no attribute 'sr_date_restricted'"))
    else if p.SensorName() !in restr.sensors then Ok(false)
    else
      var rules := restr.sensors[p.SensorName()];
      if rules.byDate.None? then Err(Raised(KeyError, "by_date"))
      else if "sr" !in rules.byDate.value then Err(Raised(KeyError, "sr"))
      else Ok(!dateOk(Julian(p, julianFromDate), rules.byDate.value["sr"]))
  }

  /** The as-written method fails on every MODIS product and agrees with SrDateRestricted on Landsat. */
  lemma SrDateRestrictedOnlyLandsat(p: Product, restr: Restricted, dateOk: (string, string) -> bool,
                                    julianFromDate: (string, string, string) -> string)
    ensures p.Modis? ==> SrDateRestrictedAsWritten(p, restr, dateOk, julianFromDate).Err?
                         && SrDateRestrictedAsWritten(p, restr, dateOk, julianFromDate).error.kind == AttributeError
    ensures p.Landsat? ==> SrDateRestrictedAsWritten(p, restr, dateOk, julianFromDate)
                           == SrDateRestricted(p, restr, dateOk, julianFromDate)
  {
  }

  /**
   * available_products reads a product's range as sensor_restr['by_date'][prod].
   * For a sensor with a by_date key, by_date_restr is that very dict, not a
   * copy, and its update with 'all' changes it in place; so the read gives
   * the merged entry, which is why the Some branch reads ByDateFor. A sensor
   * without one raises KeyError('by_date') even when the product's range
   * comes from 'all'.
   */
  function ByDateLookupAsWritten(restr: Restricted, name: string, prod: string): (r: Result<string>)
    requires prod in ByDateFor(restr, name)
  {
    if RulesOf(restr, name).byDate.Some? then Ok(ByDateFor(restr, name)[prod])
    else Err(Raised(KeyError, "by_date"))
  }

  /** The lookup the merged table was built for: the product's range after the 'all' overrides. */
  function ByDateLookup(restr: Restricted, name: string, prod: string): (r: string)
    requires prod in ByDateFor(restr, name)
    ensures prod in restr.allByDate ==> r == restr.allByDate[prod]
    ensures prod !in restr.allByDate ==> r == RulesOf(restr, name).byDate.value[prod]
  {
    ByDateFor(restr, name)[prod]
  }

  /**
   * The two lookups agree for a sensor with its own by_date entry; a
   * sensor without one, offering a product that 'all' restricts by date,
   * makes the as-written lookup raise.
   */
  lemma ByDateLookupFails(restr: Restricted, name: string, prod: string)
    requires prod in ByDateFor(restr, name)
    ensures RulesOf(restr, name).byDate.Some? ==> ByDateLookupAsWritten(restr, name, prod) == Ok(ByDateLookup(restr, name, prod))
    ensures RulesOf(restr, name).byDate.None? ==> prod in restr.allByDate
                                                  && ByDateLookupAsWritten(restr, name, prod) == Err(Raised(KeyError, "by_date"))
  {
  }

  /** A concrete file that shows it: 'all' restricts sr by date, and tm5 has an entry with no by_date. */
  lemma ByDateLookupFailsExample()
    ensures ByDateLookupAsWritten(Restricted(map["tm5" := SensorRules(["st"], None)], [], map["sr" := "2012001-2012365"], []),
                                  "tm5", "sr").Err?
  {
    var restr := Restricted(map["tm5" := SensorRules(["st"], None)], [], map["sr" := "2012001-2012365"], []);
    assert "sr" in ByDateFor(restr, "tm5");
  }
}
