/**
 * Assembly of the SQL behind a metrics report: a query template with a
 * '{{WHERE}}' placeholder, a base condition, required fragments that every
 * call must supply and optional fragments used when the caller supplies them.
 *
 * A YAML mapping is an association list in its iteration order; the
 * arguments of a call are the set of names the caller passed.
 */
module Metrics {
  import opened Wrappers
  import opened Text

  type Dict = seq<(string, string)>

  /** A mapping-valued or string-valued entry of a query definition. */
  datatype Field = FText(s: string) | FDict(d: Dict)

  /** One entry of queries.yaml (the MetricsQuery named tuple). */
  datatype MetricsQuery = MetricsQuery(
    description: Field,
    displayName: Field,
    query: string,
    where: string,
    optionals: Dict,
    required: Dict,
    returnsField: Field)

  /** What metric_info reports for one field: the string, or the mapping's keys. */
  datatype Info = IText(s: string) | IKeys(keys: seq<string>)

  function Keys(d: Dict): (r: seq<string>)
    ensures |r| == |d| && forall i :: 0 <= i < |d| ==> r[i] == d[i].0
  {
    if d == [] then [] else [d[0].0] + Keys(d[1..])
  }

  function Values(d: Dict): (r: seq<string>)
    ensures |r| == |d| && forall i :: 0 <= i < |d| ==> r[i] == d[i].1
  {
    if d == [] then [] else [d[0].1] + Values(d[1..])
  }

  /** The entries whose key the caller passed, in the mapping's order. */
  function Passed(d: Dict, args: set<string>): (r: Dict)
    ensures forall e :: e in r <==> e in d && e.0 in args
    ensures |r| <= |d|
  {
    if d == [] then []
    else if d[0].0 in args then [d[0]] + Passed(d[1..], args)
    else Passed(d[1..], args)
  }

  /** The keys of d the caller did not pass, in the mapping's order. */
  function Missing(d: Dict, args: set<string>): (r: seq<string>)
    ensures forall k :: k in r <==> k in Keys(d) && k !in args
  {
    if d == [] then []
    else if d[0].0 in args then Missing(d[1..], args)
    else [d[0].0] + Missing(d[1..], args)
  }

  /** repr() of a list of plain strings, as str.format prints it. */
  function ReprList(xs: seq<string>): string
  {
    "[" + Join(ReprItems(xs), ", ") + "]"
  }

  function ReprItems(xs: seq<string>): (r: seq<string>)
    ensures |r| == |xs| && forall i :: 0 <= i < |xs| ==> r[i] == "'" + xs[i] + "'"
  {
    if xs == [] then [] else ["'" + xs[0] + "'"] + ReprItems(xs[1..])
  }

  /** The names of the required arguments the caller did not pass: build_sql's delta. */
  function MissingSet(q: MetricsQuery, args: set<string>): (r: set<string>)
    ensures forall k :: k in r <==> k in Keys(q.required) && k !in args
  {
    set k | k in Missing(q.required, args)
  }

  /** The names of the optional arguments the caller passed. */
  function PresentSet(q: MetricsQuery, args: set<string>): (r: set<string>)
    ensures forall k :: k in r <==> k in Keys(q.optionals) && k in args
  {
    set e | e in Passed(q.optionals, args) :: e.0
  }

  /**
   * xs is list() of the set s: every member once, in the set's iteration
   * order, which Python leaves unspecified.
   */
  predicate Enumerates(xs: seq<string>, s: set<string>)
  {
    (forall k :: k in xs ==> k in s) && (forall k :: k in s ==> k in xs) && forall i, j :: 0 <= i < j < |xs| ==> xs[i] != xs[j]
  }

  /** The fragment of the first entry with that name: the mapping's d[k]. */
  function Get(d: Dict, k: string): (r: string)
    requires k in Keys(d)
    ensures (k, r) in d
  {
    if d[0].0 == k then d[0].1 else Get(d[1..], k)
  }

  /** The fragments of the named entries, in the order named. */
  function Fragments(d: Dict, ks: seq<string>): (r: seq<string>)
    requires forall k :: k in ks ==> k in Keys(d)
    ensures |r| == |ks| && forall i :: 0 <= i < |ks| ==> r[i] == Get(d, ks[i])
  {
    if ks == [] then [] else [Get(d, ks[0])] + Fragments(d, ks[1..])
  }

  /**
   * The conjuncts of the WHERE clause: the base condition, every required
   * fragment in the mapping's order, then one fragment per passed optional
   * name, in the order listOf gives the set of those names.
   */
  function Conjuncts(q: MetricsQuery, args: set<string>, listOf: set<string> -> seq<string>): (r: seq<string>)
    requires Enumerates(listOf(PresentSet(q, args)), PresentSet(q, args))
    ensures |r| == 1 + |q.required| + |listOf(PresentSet(q, args))|
    ensures r[0] == q.where
    ensures forall i :: 0 <= i < |q.required| ==> r[1 + i] == q.required[i].1
    ensures forall i :: 0 <= i < |listOf(PresentSet(q, args))| ==>
              r[1 + |q.required| + i] == Get(q.optionals, listOf(PresentSet(q, args))[i])
  {
    [q.where] + Values(q.required) + Fragments(q.optionals, listOf(PresentSet(q, args)))
  }

  /** Whatever order the set is listed in, every passed optional name contributes its fragment. */
  lemma {:induction false} OptionalsPassed(q: MetricsQuery, args: set<string>, listOf: set<string> -> seq<string>, k: string)
    requires Enumerates(listOf(PresentSet(q, args)), PresentSet(q, args))
    requires k in Keys(q.optionals) && k in args
    ensures Get(q.optionals, k) in Conjuncts(q, args, listOf)[1 + |q.required|..]
  {
    var ks := listOf(PresentSet(q, args));
    var i :| 0 <= i < |ks| && ks[i] == k;
    assert Conjuncts(q, args, listOf)[1 + |q.required|..][i] == Get(q.optionals, k);
  }

  const Placeholder: string := "{{WHERE}}"

  /**
   * build_sql: a MetricsException naming the missing required arguments,
   * listed in the order listOf gives that set, or the template with the
   * WHERE clause put in place of '{{WHERE}}'. listOf stands for Python's
   * list() of a set.
   */
  function BuildSql(q: MetricsQuery, args: set<string>, listOf: set<string> -> seq<string>): (r: Result<string>)
    requires Enumerates(listOf(MissingSet(q, args)), MissingSet(q, args))
    requires Enumerates(listOf(PresentSet(q, args)), PresentSet(q, args))
    ensures r.Err? <==> exists k :: k in Keys(q.required) && k !in args
    ensures r.Err? ==> r.error == Raised(MetricsException,
                                         "Missing required arguments: " + ReprList(listOf(MissingSet(q, args))))
    ensures r.Ok? ==> r.value == Replace(q.query, Placeholder, Join(Conjuncts(q, args, listOf), " AND "))
  {
    var delta := MissingSet(q, args);
    if delta != {} then
      Err(Raised(MetricsException, "Missing required arguments: " + ReprList(listOf(delta))))
    else
      Ok(Replace(q.query, Placeholder, Join(Conjuncts(q, args, listOf), " AND ")))
  }

  /**
   * A template with no placeholder comes back unchanged; a template with
   * one placeholder keeps the text on either side of it.
   */
  lemma BuildSqlKeepsTemplate(q: MetricsQuery, args: set<string>, listOf: set<string> -> seq<string>, k: nat)
    requires Enumerates(listOf(MissingSet(q, args)), MissingSet(q, args))
    requires Enumerates(listOf(PresentSet(q, args)), PresentSet(q, args))
    requires BuildSql(q, args, listOf).Ok?
    requires OccursAt(q.query, Placeholder, k)
    requires forall i :: 0 <= i < |q.query| && i != k ==> !OccursAt(q.query, Placeholder, i)
    ensures BuildSql(q, args, listOf).value
            == q.query[..k] + Join(Conjuncts(q, args, listOf), " AND ") + q.query[k + |Placeholder|..]
  {
    ReplaceOnce(q.query, Placeholder, Join(Conjuncts(q, args, listOf), " AND "), k);
  }

  /** list_metrics: each query name with its description. */
  function ListMetrics(queries: map<string, MetricsQuery>): (r: map<string, Field>)
    ensures r.Keys == queries.Keys
    ensures forall k :: k in r ==> r[k] == queries[k].description
  {
    map k | k in queries :: queries[k].description
  }

  /** The named tuple's _asdict(): field name to value. */
  function AsDict(q: MetricsQuery): map<string, Field>
  {
    map["description" := q.description, "display_name" := q.displayName, "query" := FText(q.query),
        "where" := FText(q.where), "optionals" := FDict(q.optionals), "required" := FDict(q.required),
        "returns" := q.returnsField]
  }

  /** A string is shown as it is, a mapping by its keys. */
  function Describe(f: Field): Info
  {
    match f
    case FText(s) => IText(s)
    case FDict(d) => IKeys(Keys(d))
  }

  /** metric_info: the requested fields of a query, mappings replaced by their keys. */
  function MetricInfo(q: MetricsQuery, wanted: seq<string>): (r: map<string, Info>)
    ensures r.Keys <= AsDict(q).Keys
    ensures forall k :: k in AsDict(q) ==> (k in r <==> k in wanted)
    ensures forall k :: k in r ==> r[k] == Describe(AsDict(q)[k])
  {
    var fields := AsDict(q);
    map k | k in fields && k in wanted :: Describe(fields[k])
  }

  /** The info keys the provider asks for; the query text and the WHERE condition are not among them. */
  const InfoKeys: seq<string> := ["returns", "display_name", "description", "optionals", "required"]

  lemma InfoHidesQuery(q: MetricsQuery)
    ensures "query" !in MetricInfo(q, InfoKeys) && "where" !in MetricInfo(q, InfoKeys)
  {
    assert forall k :: k in InfoKeys ==> |k| != 5;
    assert "query" !in InfoKeys && "where" !in InfoKeys;
  }

  lemma InfoShowsRequired(q: MetricsQuery)
    ensures "required" in MetricInfo(q, InfoKeys)
    ensures MetricInfo(q, InfoKeys)["required"] == IKeys(Keys(q.required))
  {
    assert InfoKeys[4] == "required";
  }
}
