/**
 * The ordering provider: what a user may order for a list of inputs
 * (available_products with its role, date and ordering restrictions),
 * cancelling an order, and the filter checks of the order and item
 * queries.
 */
module Ordering {
  import opened Wrappers
  import opened Text
  import opened Json
  import opened Sensor
  import opened Restrictions
  import opened Store

  // ------------------------------------------------------ sensor_products

  /**
   * sensor_products: a string is split on ',' into a list of ids; anything
   * else goes to sensor.available_products as it is.
   */
  method SensorProducts(productId: Json) returns (r: Result<Availability>, visited: seq<Json>)
    ensures productId.JStr? ==> visited == StrList(Split(productId.s, ','))
    ensures productId.JList? ==> visited == productId.items
    ensures productId.JObj? ==> forall k :: JStr(k) in visited <==> k in productId.fields
    ensures !productId.JStr? && !HasIter(productId) ==> r == Err(Raised(TypeError, "input_products must be iterable"))
    ensures productId.JStr? || HasIter(productId) ==>
              (r.Ok? <==> AllStrings(visited) && forall j :: 0 <= j < |visited| ==> Classifies(Instance, visited[j].s))
    ensures r.Ok? ==> AllStrings(visited) && Summarises(Instance, r.value, Ids(visited))
  {
    var input := productId;
    if productId.JStr? {
      input := JList(StrList(Split(productId.s, ',')));
    }
    r, visited := Sensor.AvailableProducts(input);
  }

  // ------------------------------------------------ list removal helpers

  predicate Distinct(xs: seq<string>)
  {
    forall i, j :: 0 <= i < j < |xs| ==> xs[i] != xs[j]
  }

  /** list.remove(x), with the ValueError for an absent x caught: the first occurrence goes. */
  function RemoveFirst(xs: seq<string>, x: string): (r: seq<string>)
    ensures x !in xs ==> r == xs
    ensures multiset(r) == multiset(xs) - multiset{x}
  {
    if xs == [] then []
    else
      assert xs == [xs[0]] + xs[1..];
      if xs[0] == x then xs[1..] else [xs[0]] + RemoveFirst(xs[1..], x)
  }

  /** In a list without repetitions, remove takes out exactly x. */
  lemma RemoveFirstDistinct(xs: seq<string>, x: string)
    requires Distinct(xs)
    ensures Distinct(RemoveFirst(xs, x))
    ensures forall y :: y in RemoveFirst(xs, x) <==> y in xs && y != x
  {
    var r := RemoveFirst(xs, x);
    forall y
      ensures y in r <==> y in xs && y != x
    {
      assert y in r <==> multiset(r)[y] > 0;
      assert y in xs <==> multiset(xs)[y] > 0;
      if y == x && x in xs {
        assert multiset(xs)[x] == 1 by { DistinctCount(xs, x); }
      }
    }
    forall i, j | 0 <= i < j < |r|
      ensures r[i] != r[j]
    {
      if r[i] == r[j] {
        assert multiset(r)[r[i]] >= 2 by { TwiceCount(r, i, j); }
        DistinctCount(xs, r[i]);
      }
    }
  }

  lemma {:induction false} DistinctCount(xs: seq<string>, x: string)
    requires Distinct(xs)
    ensures multiset(xs)[x] <= 1
  {
    if xs != [] {
      assert xs == [xs[0]] + xs[1..];
      assert Distinct(xs[1..]);
      DistinctCount(xs[1..], x);
      if xs[0] == x {
        assert x !in xs[1..];
      }
    }
  }

  lemma TwiceCount(xs: seq<string>, i: nat, j: nat)
    requires i < j < |xs| && xs[i] == xs[j]
    ensures multiset(xs)[xs[i]] >= 2
  {
    assert xs == xs[..i] + [xs[i]] + xs[i + 1..j] + [xs[j]] + xs[j + 1..];
  }

  /** Removing each of ys in turn, as the loops over role_restr and remove_me do. */
  function RemoveEach(xs: seq<string>, ys: seq<string>): seq<string>
  {
    if ys == [] then xs else RemoveFirst(RemoveEach(xs, ys[..|ys| - 1]), ys[|ys| - 1])
  }

  /** From a list without repetitions, removing each of ys leaves exactly the elements not in ys. */
  lemma {:induction false} RemoveEachDistinct(xs: seq<string>, ys: seq<string>)
    requires Distinct(xs)
    ensures Distinct(RemoveEach(xs, ys))
    ensures forall p :: p in RemoveEach(xs, ys) <==> p in xs && p !in ys
  {
    if ys != [] {
      var front := ys[..|ys| - 1];
      RemoveEachDistinct(xs, front);
      RemoveFirstDistinct(RemoveEach(xs, front), ys[|ys| - 1]);
      assert ys == front + [ys[|ys| - 1]];
    }
  }

  function Repeat(x: string, n: nat): (r: seq<string>)
    ensures |r| == n && forall y :: y in r <==> n > 0 && y == x
  {
    if n == 0 then [] else [x] + Repeat(x, n - 1)
  }

  // ------------------------------------------------- available_products

  /** Whether the user is staff, the restrictions file and the two date helpers. */
  datatype Ctx = Ctx(staff: bool, restr: Restricted, dateOk: (string, string) -> bool,
                     julianFromDate: (string, string, string) -> string)

  /** The restrictions key of a shortname: '_collection' removed. */
  function Stype(st: string): string
  {
    if Contains(st, "_collection") then Replace(st, "_collection", "") else st
  }

  /** A product the julian date check rejects. */
  predicate DateFails(sc: string, range: string, ctx: Ctx)
  {
    Instance(sc).Ok? && !ctx.dateOk(Julian(Instance(sc).value, ctx.julianFromDate), range)
  }

  /** The inputs whose acquisition date is outside the range, in input order. */
  function DateFailures(ins: seq<string>, range: string, ctx: Ctx): (r: seq<string>)
    ensures forall sc :: sc in r <==> sc in ins && DateFails(sc, range, ctx)
  {
    if ins == [] then []
    else
      var rest := DateFailures(ins[..|ins| - 1], range, ctx);
      assert ins == ins[..|ins| - 1] + [ins[|ins| - 1]];
      if DateFails(ins[|ins| - 1], range, ctx) then rest + [ins[|ins| - 1]] else rest
  }

  /** The outputs left after the role restrictions, which only non-staff users get. */
  function RoleFiltered(outs: seq<string>, ctx: Ctx, stype: string): seq<string>
  {
    if ctx.staff then outs else RemoveEach(outs, RoleFor(ctx.restr, stype))
  }

  /** remove_me: a product once for every input that fails its date range. */
  function Removals(prods: seq<string>, byDate: map<string, string>, ins: seq<string>, ctx: Ctx): seq<string>
  {
    if prods == [] then []
    else
      var front := prods[..|prods| - 1];
      var p := prods[|prods| - 1];
      assert prods == front + [p];
      Removals(front, byDate, ins, ctx)
      + (if p in byDate then Repeat(p, |DateFailures(ins, byDate[p], ctx)|) else [])
  }

  /** Appending xs one by one to the list under k, the list being created by the first append. */
  function AppendAll(m: map<string, seq<string>>, k: string, xs: seq<string>): map<string, seq<string>>
  {
    if xs == [] then m else m[k := (if k in m then m[k] else []) + xs]
  }

  /** The date_restricted lists after the product loop of one sensor. */
  function DateUpd(m: map<string, seq<string>>, prods: seq<string>, byDate: map<string, string>,
                   ins: seq<string>, ctx: Ctx): map<string, seq<string>>
  {
    if prods == [] then m
    else
      var front := prods[..|prods| - 1];
      var p := prods[|prods| - 1];
      assert prods == front + [p];
      var prev := DateUpd(m, front, byDate, ins, ctx);
      if p in byDate then AppendAll(prev, p, DateFailures(ins, byDate[p], ctx)) else prev
  }

  /** remove_me names exactly the products with a date range that some input fails. */
  lemma {:induction false} RemovalsMembers(prods: seq<string>, byDate: map<string, string>, ins: seq<string>, ctx: Ctx)
    ensures forall p :: p in Removals(prods, byDate, ins, ctx) <==> p in prods && p in byDate && DateFailures(ins, byDate[p], ctx) != []
  {
    if prods != [] {
      var front := prods[..|prods| - 1];
      assert prods == front + [prods[|prods| - 1]];
      RemovalsMembers(front, byDate, ins, ctx);
    }
  }

  /**
   * After a sensor's product loop, upd['date_restricted'] lists under each
   * product what it listed before plus the inputs that fail the product's
   * range; a product gets a key only when some input fails.
   */
  lemma {:induction false} DateUpdAt(m: map<string, seq<string>>, prods: seq<string>, byDate: map<string, string>,
                                     ins: seq<string>, ctx: Ctx, k: string, sc: string)
    ensures k in DateUpd(m, prods, byDate, ins, ctx) <==>
              k in m || (k in prods && k in byDate && DateFailures(ins, byDate[k], ctx) != [])
    ensures (k in DateUpd(m, prods, byDate, ins, ctx) && sc in DateUpd(m, prods, byDate, ins, ctx)[k]) <==>
              (k in m && sc in m[k]) || (k in prods && k in byDate && sc in DateFailures(ins, byDate[k], ctx))
  {
    if prods != [] {
      var front := prods[..|prods| - 1];
      assert prods == front + [prods[|prods| - 1]];
      DateUpdAt(m, front, byDate, ins, ctx, k, sc);
    }
  }

  /** The class whose `products` list a product's class inherits: one list object per class. */
  function ListOwner(p: Product): string
  {
    match p
    case Landsat(_, _, s, _, _, _, _, _, _, _, _) =>
      (match s
       case Tm4 => "LandsatTM" case Tm5 => "LandsatTM" case Etm7 => "LandsatETM"
       case OliTirs8 => "LandsatOLITIRS" case Oli8 => "LandsatOLI")
    case Modis(_, _, pl, _, _, _, _, _, _, _, _, _) => if pl == Terra then "Terra" else "Aqua"
  }

  /**
   * The list a group's 'products' entry is. In the source every group of
   * the same class shares the class's list (the deep copy keeps the
   * sharing), so removing a product for one sensor removes it for the
   * others of that class; with `shared` false each group has a list of
   * its own.
   */
  function OwnerOf(shared: bool, st: string, g: Group): string
  {
    if shared && g.inputs != [] && Instance(g.inputs[0]).Ok? then ListOwner(Instance(g.inputs[0]).value) else st
  }

  /** What the loop over the sensors has built: the product lists and the two upd mappings. */
  datatype Pass = Pass(lists: map<string, seq<string>>, dateR: map<string, seq<string>>, ordR: map<string, seq<string>>)

  /** The outputs a sensor's list holds when the loop reaches it. */
  function Current(p: Pass, owner: string, g: Group): seq<string>
  {
    if owner in p.lists then p.lists[owner] else g.products
  }

  /** One pass of the loop over pub_prods for the sensor st, whose group is g. */
  function Visit(p: Pass, st: string, g: Group, ctx: Ctx, shared: bool): Pass
  {
    if st in ctx.restr.allOrdering then
      p.(ordR := AppendAll(p.ordR, st, g.inputs))
    else
      var owner := OwnerOf(shared, st, g);
      var outs := RoleFiltered(Current(p, owner, g), ctx, Stype(st));
      var byDate := ByDateFor(ctx.restr, Stype(st));
      p.(lists := p.lists[owner := RemoveEach(outs, Removals(outs, byDate, g.inputs, ctx))],
         dateR := DateUpd(p.dateR, outs, byDate, g.inputs, ctx))
  }

  /** The loop over the sensors after visiting the first n of the order (names without a group are passed over). */
  function Fold(groups: map<string, Group>, order: seq<string>, n: nat, ctx: Ctx, shared: bool): Pass
    requires n <= |order|
  {
    if n == 0 then Pass(map[], map[], map[])
    else if order[n - 1] !in groups then Fold(groups, order, n - 1, ctx, shared)
    else Visit(Fold(groups, order, n - 1, ctx, shared), order[n - 1], groups[order[n - 1]], ctx, shared)
  }

  /** One key of the dict available_products returns. */
  datatype Entry = Offered(group: Group) | Listed(ids: seq<string>) | ByProduct(lists: map<string, seq<string>>)

  /** The sensors that stay, with their lists as the loop left them, and the keys added when non-empty. */
  function OfferOf(a: Availability, p: Pass, ctx: Ctx, shared: bool): map<string, Entry>
  {
    Kept(a, p, ctx, shared) + Extras(a, p)
  }

  /** The sensors left in pub_prods, each with the list its group holds at the end. */
  function Kept(a: Availability, p: Pass, ctx: Ctx, shared: bool): map<string, Entry>
  {
    map st | st in a.groups && st !in ctx.restr.allOrdering ::
      Offered(Group(Current(p, OwnerOf(shared, st, a.groups[st]), a.groups[st]), a.groups[st].inputs))
  }

  /** 'not_implemented', 'date_restricted' and 'ordering_restricted', each added only when not empty. */
  function Extras(a: Availability, p: Pass): map<string, Entry>
  {
    var ni := if a.notImplemented != [] then map["not_implemented" := Listed(a.notImplemented)] else map[];
    var dr := if p.dateR != map[] then map["date_restricted" := ByProduct(p.dateR)] else map[];
    var orr := if p.ordR != map[] then map["ordering_restricted" := ByProduct(p.ordR)] else map[];
    ni + dr + orr
  }

  /** The order-independent part of a sensor's treatment: the products left to offer with its own list. */
  function OwnOuts(st: string, g: Group, ctx: Ctx): seq<string>
  {
    var outs := RoleFiltered(g.products, ctx, Stype(st));
    RemoveEach(outs, Removals(outs, ByDateFor(ctx.restr, Stype(st)), g.inputs, ctx))
  }

  /** The loop over role_restr: each restricted product is removed from the outputs if there. */
  method RemoveListed(outs0: seq<string>, ys: seq<string>) returns (outs: seq<string>)
    ensures outs == RemoveEach(outs0, ys)
  {
    outs := outs0;
    var j := 0;
    while j < |ys|
      invariant 0 <= j <= |ys| && outs == RemoveEach(outs0, ys[..j])
    {
      assert ys[..j + 1][..j] == ys[..j];
      outs := RemoveFirst(outs, ys[j]);
      j := j + 1;
    }
    assert ys[..|ys|] == ys;
  }

  /** The loop over the inputs for one product with a date range: the inputs that fail it. */
  method CheckDates(ins: seq<string>, range: string, ctx: Ctx) returns (fails: seq<string>)
    requires forall j :: 0 <= j < |ins| ==> Instance(ins[j]).Ok?
    ensures fails == DateFailures(ins, range, ctx)
  {
    fails := [];
    var m := 0;
    while m < |ins|
      invariant 0 <= m <= |ins| && fails == DateFailures(ins[..m], range, ctx)
    {
      assert ins[..m + 1][..m] == ins[..m];
      var obj := Instance(ins[m]).value;
      if !ctx.dateOk(Julian(obj, ctx.julianFromDate), range) {
        fails := fails + [ins[m]];
      }
      m := m + 1;
    }
    assert ins[..|ins|] == ins;
  }

  /**
   * The loop over a sensor's outputs: every product with a date range is
   * checked against every input; each failure adds the product to
   * remove_me once and the input to upd['date_restricted'][prod].
   */
  method DateChecks(outs: seq<string>, ins: seq<string>, byDate: map<string, string>, ctx: Ctx,
                    dateR0: map<string, seq<string>>)
    returns (removeMe: seq<string>, dateR: map<string, seq<string>>)
    requires forall j :: 0 <= j < |ins| ==> Instance(ins[j]).Ok?
    ensures removeMe == Removals(outs, byDate, ins, ctx)
    ensures dateR == DateUpd(dateR0, outs, byDate, ins, ctx)
  {
    removeMe := [];
    dateR := dateR0;
    var k := 0;
    while k < |outs|
      invariant 0 <= k <= |outs|
      invariant removeMe == Removals(outs[..k], byDate, ins, ctx)
      invariant dateR == DateUpd(dateR0, outs[..k], byDate, ins, ctx)
    {
      var prod := outs[k];
      assert outs[..k + 1][..k] == outs[..k];
      if prod in byDate {
        var fails := CheckDates(ins, byDate[prod], ctx);
        removeMe := removeMe + Repeat(prod, |fails|);
        dateR := AppendAll(dateR, prod, fails);
      }
      k := k + 1;
    }
    assert outs[..|outs|] == outs;
  }

  /**
   * The product loop of one sensor that is not ordering restricted: the
   * role removals for non-staff users, the date checks, then the removal
   * of every product remove_me names.
   */
  method FilterSensor(outs0: seq<string>, ins: seq<string>, stype: string, ctx: Ctx, dateR0: map<string, seq<string>>)
    returns (outs: seq<string>, dateR: map<string, seq<string>>)
    requires forall j :: 0 <= j < |ins| ==> Instance(ins[j]).Ok?
    ensures outs == RemoveEach(RoleFiltered(outs0, ctx, stype),
                               Removals(RoleFiltered(outs0, ctx, stype), ByDateFor(ctx.restr, stype), ins, ctx))
    ensures dateR == DateUpd(dateR0, RoleFiltered(outs0, ctx, stype), ByDateFor(ctx.restr, stype), ins, ctx)
  {
    outs := outs0;
    if !ctx.staff {
      outs := RemoveListed(outs0, RoleFor(ctx.restr, stype));
    }
    var removeMe;
    removeMe, dateR := DateChecks(outs, ins, ByDateFor(ctx.restr, stype), ctx, dateR0);
    outs := RemoveListed(outs, removeMe);
  }

  /** A group whose inputs instance() accepts, as every group sensor.available_products builds is. */
  predicate Parsed(g: Group)
  {
    g.inputs != [] && forall j :: 0 <= j < |g.inputs| ==> Instance(g.inputs[j]).Ok?
  }

  /** Every input of every group parses: each is in the group because instance accepted it. */
  lemma GroupsParsed(a: Availability, ids: seq<string>)
    requires Summarises(Instance, a, ids)
    ensures forall st :: st in a.groups ==> Parsed(a.groups[st])
  {
  }

  /** The body of the loop over pub_prods for the sensor st. */
  method VisitSensor(p: Pass, groups: map<string, Group>, order: seq<string>, n: nat, ctx: Ctx, shared: bool)
    returns (q: Pass)
    requires n < |order| && order[n] in groups
    requires Parsed(groups[order[n]]) && p == Fold(groups, order, n, ctx, shared)
    ensures q == Fold(groups, order, n + 1, ctx, shared)
  {
    var st := order[n];
    var g := groups[st];
    if st in ctx.restr.allOrdering {
      // each input is appended to upd['ordering_restricted'][st] and the sensor is popped
      q := p.(ordR := AppendAll(p.ordR, st, g.inputs));
    } else {
      var owner := if shared then ListOwner(Instance(g.inputs[0]).value) else st;
      var outs, dateR := FilterSensor(Current(p, owner, g), g.inputs, Stype(st), ctx, p.dateR);
      q := p.(lists := p.lists[owner := outs], dateR := dateR);
    }
  }

  /** The loop over pub_prods, visiting the sensors in some order. */
  method VisitAll(av: Availability, ctx: Ctx, shared: bool) returns (p: Pass, order: seq<string>)
    requires forall st :: st in av.groups ==> Parsed(av.groups[st])
    ensures Distinct(order) && forall st :: st in order <==> st in av.groups
    ensures p == Fold(av.groups, order, |order|, ctx, shared)
  {
    var keys := KeysInSomeOrder(av.groups.Keys);
    order := keys;
    p := Pass(map[], map[], map[]);
    var i := 0;
    while i < |keys|
      invariant 0 <= i <= |keys|
      invariant p == Fold(av.groups, keys, i, ctx, shared)
    {
      assert keys[i] in av.groups;
      p := VisitSensor(p, av.groups, keys, i, ctx, shared);
      i := i + 1;
    }
    assert i == |keys|;
    assert p == Fold(av.groups, keys, |keys|, ctx, shared);
  }

  /**
   * available_products over the inputs as sensor_products reads them. The
   * sensors are visited in some order (returned as `order`); `shared`
   * chooses whether groups of one product class share their list as in
   * the source.
   */
  method AvailableProductsWith(productId: Json, ctx: Ctx, shared: bool)
    returns (r: Result<map<string, Entry>>, ghost a: Availability, ghost visited: seq<Json>, ghost order: seq<string>)
    ensures productId.JStr? ==> visited == StrList(Split(productId.s, ','))
    ensures productId.JList? ==> visited == productId.items
    ensures !productId.JStr? && !HasIter(productId) ==> r == Err(Raised(TypeError, "input_products must be iterable"))
    ensures productId.JStr? || HasIter(productId) ==>
              (r.Ok? <==> AllStrings(visited) && forall j :: 0 <= j < |visited| ==> Classifies(Instance, visited[j].s))
    ensures r.Ok? ==> AllStrings(visited) && Summarises(Instance, a, Ids(visited))
    ensures r.Ok? ==> Distinct(order) && forall st :: st in order <==> st in a.groups
    ensures r.Ok? ==> r.value == OfferOf(a, Fold(a.groups, order, |order|, ctx, shared), ctx, shared)
  {
    var pub;
    pub, visited := SensorProducts(productId);
    order := [];
    if pub.Err? {
      return Err(pub.error), Availability(map[], []), visited, order;
    }
    var av := pub.value;
    a := av;
    var p;
    GroupsParsed(av, Ids(visited));
    p, order := VisitAll(av, ctx, shared);
    // the popped sensors are gone; the two upd mappings are added when non-empty
    r := Ok(OfferOf(av, p, ctx, shared));
  }

  /** available_products as the source behaves: groups of one class share their product list. */
  method AvailableProducts(productId: Json, ctx: Ctx)
    returns (r: Result<map<string, Entry>>, ghost a: Availability, ghost visited: seq<Json>, ghost order: seq<string>)
    ensures productId.JStr? || HasIter(productId) ==>
              (r.Ok? <==> AllStrings(visited) && forall j :: 0 <= j < |visited| ==> Classifies(Instance, visited[j].s))
    ensures !productId.JStr? && !HasIter(productId) ==> r == Err(Raised(TypeError, "input_products must be iterable"))
    ensures r.Ok? ==> Summarises(Instance, a, Ids(visited)) && Distinct(order) && forall st :: st in order <==> st in a.groups
    ensures r.Ok? ==> r.value == OfferOf(a, Fold(a.groups, order, |order|, ctx, true), ctx, true)
  {
    r, a, visited, order := AvailableProductsWith(productId, ctx, true);
  }

  /** available_products with a list of its own for every sensor, as the restrictions are meant. */
  method AvailableProductsUnshared(productId: Json, ctx: Ctx)
    returns (r: Result<map<string, Entry>>, ghost a: Availability, ghost visited: seq<Json>, ghost order: seq<string>)
    ensures productId.JStr? || HasIter(productId) ==>
              (r.Ok? <==> AllStrings(visited) && forall j :: 0 <= j < |visited| ==> Classifies(Instance, visited[j].s))
    ensures !productId.JStr? && !HasIter(productId) ==> r == Err(Raised(TypeError, "input_products must be iterable"))
    ensures r.Ok? ==> Summarises(Instance, a, Ids(visited)) && Distinct(order) && forall st :: st in order <==> st in a.groups
    ensures r.Ok? ==> r.value == OfferOf(a, Fold(a.groups, order, |order|, ctx, false), ctx, false)
  {
    r, a, visited, order := AvailableProductsWith(productId, ctx, false);
  }

  // ------------------------------------------- available_products: lemmas

  /** No product appears twice in a sensor's product list. */
  lemma ProductsDistinct(p: Product)
    ensures Distinct(p.Products())
  {
    if p.Landsat? && p.sensor != Oli8 {
      LandsatProductsDistinct();
    }
  }

  lemma LandsatProductsDistinct()
    ensures Distinct(LandsatProducts)
  {
    forall i, j | 0 <= i < j < |LandsatProducts|
      ensures LandsatProducts[i] != LandsatProducts[j]
    {
      ProductsDiffer(LandsatProducts, i, j);
    }
  }

  /** Two entries of a product list differ in length or in their first or last two characters. */
  lemma ProductsDiffer(xs: seq<string>, i: nat, j: nat)
    requires xs == LandsatProducts && i < j < |xs|
    ensures xs[i] != xs[j]
  {
  }

  /** Removing never adds. */
  lemma {:induction false} RemoveEachSubset(xs: seq<string>, ys: seq<string>, p: string)
    requires p in RemoveEach(xs, ys)
    ensures p in xs
  {
    if ys != [] {
      assert multiset(RemoveEach(xs, ys))[p] > 0;
      RemoveEachSubset(xs, ys[..|ys| - 1], p);
    }
  }

  /**
   * What a sensor offers, judged on its own list: a product of the list
   * that is not staff-only for a non-staff user and whose date range (if
   * any) every input meets.
   */
  lemma OwnOutsMembers(st: string, g: Group, ctx: Ctx)
    requires Distinct(g.products)
    ensures Distinct(OwnOuts(st, g, ctx))
    ensures forall p :: p in OwnOuts(st, g, ctx) <==>
              && p in g.products
              && (ctx.staff || p !in RoleFor(ctx.restr, Stype(st)))
              && !(p in ByDateFor(ctx.restr, Stype(st)) && DateFailures(g.inputs, ByDateFor(ctx.restr, Stype(st))[p], ctx) != [])
  {
    var outs := RoleFiltered(g.products, ctx, Stype(st));
    if !ctx.staff {
      RemoveEachDistinct(g.products, RoleFor(ctx.restr, Stype(st)));
    }
    var byDate := ByDateFor(ctx.restr, Stype(st));
    RemovalsMembers(outs, byDate, g.inputs, ctx);
    RemoveEachDistinct(outs, Removals(outs, byDate, g.inputs, ctx));
  }

  /** One step of the loop, unfolded. */
  lemma FoldStep(groups: map<string, Group>, order: seq<string>, n: nat, ctx: Ctx, shared: bool)
    requires 0 < n <= |order| && order[n - 1] in groups
    ensures Fold(groups, order, n, ctx, shared)
            == Visit(Fold(groups, order, n - 1, ctx, shared), order[n - 1], groups[order[n - 1]], ctx, shared)
  {
  }

  /**
   * With a list per sensor, a visited sensor's list is what its own
   * restrictions leave, whatever the other sensors; an unvisited one still
   * has its full list.
   */
  lemma {:induction false} UnsharedList(groups: map<string, Group>, order: seq<string>, n: nat, ctx: Ctx, st: string)
    requires n <= |order| && Distinct(order)
    requires st in groups && st !in ctx.restr.allOrdering
    ensures Current(Fold(groups, order, n, ctx, false), st, groups[st])
            == if st in order[..n] then OwnOuts(st, groups[st], ctx) else groups[st].products
  {
    if n > 0 {
      UnsharedList(groups, order, n - 1, ctx, st);
      var s := order[n - 1];
      var prev := Fold(groups, order, n - 1, ctx, false);
      var next := Fold(groups, order, n, ctx, false);
      assert order[..n] == order[..n - 1] + [s];
      assert st in order[..n] <==> st in order[..n - 1] || st == s;
      if s !in groups {
        assert next == prev;
      } else {
        FoldStep(groups, order, n, ctx, false);
        if s in ctx.restr.allOrdering {
          assert next.lists == prev.lists;
        } else {
          var outs := RoleFiltered(Current(prev, s, groups[s]), ctx, Stype(s));
          var kept := RemoveEach(outs, Removals(outs, ByDateFor(ctx.restr, Stype(s)), groups[s].inputs, ctx));
          assert next.lists == prev.lists[s := kept];
          if s == st {
            assert s !in order[..n - 1];
            assert Current(prev, s, groups[s]) == groups[s].products;
            assert kept == OwnOuts(st, groups[st], ctx);
          } else {
            assert Current(next, st, groups[st]) == Current(prev, st, groups[st]);
          }
        }
      }
    }
  }

  /** A sensor whose date range a product of its own fails at input sc. */
  predicate DateRejects(groups: map<string, Group>, st: string, prod: string, sc: string, ctx: Ctx)
  {
    && st in groups && st !in ctx.restr.allOrdering
    && prod in RoleFiltered(groups[st].products, ctx, Stype(st))
    && prod in ByDateFor(ctx.restr, Stype(st))
    && sc in DateFailures(groups[st].inputs, ByDateFor(ctx.restr, Stype(st))[prod], ctx)
  }

  /** Some sensor among the first n of the order rejects input sc for product prod by date. */
  predicate RejectedAmong(groups: map<string, Group>, order: seq<string>, n: nat, prod: string, sc: string, ctx: Ctx)
    requires n <= |order|
  {
    exists i :: 0 <= i < n && DateRejects(groups, order[i], prod, sc, ctx)
  }

  lemma RejectedSnoc(groups: map<string, Group>, order: seq<string>, n: nat, prod: string, sc: string, ctx: Ctx)
    requires 0 < n <= |order|
    ensures RejectedAmong(groups, order, n, prod, sc, ctx) <==>
              RejectedAmong(groups, order, n - 1, prod, sc, ctx) || DateRejects(groups, order[n - 1], prod, sc, ctx)
  {
    if RejectedAmong(groups, order, n, prod, sc, ctx) {
      var i :| 0 <= i < n && DateRejects(groups, order[i], prod, sc, ctx);
      if i < n - 1 {
        assert RejectedAmong(groups, order, n - 1, prod, sc, ctx);
      }
    }
  }

  /**
   * With a list per sensor, upd['date_restricted'] lists under a product
   * exactly the inputs some visited sensor rejects for it by date.
   */
  lemma {:induction false} DateRestrictedUnshared(groups: map<string, Group>, order: seq<string>, n: nat, ctx: Ctx,
                                                  prod: string, sc: string)
    requires n <= |order| && Distinct(order)
    ensures (prod in Fold(groups, order, n, ctx, false).dateR && sc in Fold(groups, order, n, ctx, false).dateR[prod])
            <==> RejectedAmong(groups, order, n, prod, sc, ctx)
  {
    if n > 0 {
      DateRestrictedUnshared(groups, order, n - 1, ctx, prod, sc);
      RejectedSnoc(groups, order, n, prod, sc, ctx);
      var s := order[n - 1];
      var prev := Fold(groups, order, n - 1, ctx, false);
      var next := Fold(groups, order, n, ctx, false);
      var before := prod in prev.dateR && sc in prev.dateR[prod];
      var after := prod in next.dateR && sc in next.dateR[prod];
      if s !in groups {
        assert next == prev;
        assert !DateRejects(groups, s, prod, sc, ctx);
      } else {
        FoldStep(groups, order, n, ctx, false);
        if s in ctx.restr.allOrdering {
          assert next.dateR == prev.dateR;
          assert !DateRejects(groups, s, prod, sc, ctx);
        } else {
          UnsharedList(groups, order, n - 1, ctx, s);
          assert s !in order[..n - 1];
          var outs := RoleFiltered(groups[s].products, ctx, Stype(s));
          var byDate := ByDateFor(ctx.restr, Stype(s));
          assert next.dateR == DateUpd(prev.dateR, outs, byDate, groups[s].inputs, ctx);
          DateUpdAt(prev.dateR, outs, byDate, groups[s].inputs, ctx, prod, sc);
          assert after <==> before || DateRejects(groups, s, prod, sc, ctx);
        }
      }
    }
  }

  /** The keys available_products adds never collide with a shortname. */
  lemma ReservedKeys()
    ensures "not_implemented" !in PatternKeys()
    ensures "date_restricted" !in PatternKeys()
    ensures "ordering_restricted" !in PatternKeys()
  {
    forall i | 0 <= i < |Patterns|
      ensures Patterns[i].key != "not_implemented" && Patterns[i].key != "date_restricted"
              && Patterns[i].key != "ordering_restricted"
    {
      assert Patterns[i].key[|Patterns[i].key| - 1] != 'd';
    }
  }

  /** Every group sensor.available_products builds is keyed by a shortname of the table. */
  lemma GroupsAreShortnames(a: Availability, ids: seq<string>)
    requires Summarises(Instance, a, ids)
    ensures forall st :: st in a.groups ==> st in PatternKeys()
  {
    forall st | st in a.groups
      ensures st in PatternKeys()
    {
      var first := InputsOf(Instance, ids, st)[0];
      InstanceShortname(first);
    }
  }

  /** The extra keys are only ever the three reserved names. */
  lemma ExtrasKeys(a: Availability, p: Pass, k: string)
    requires k in Extras(a, p)
    ensures k == "not_implemented" || k == "date_restricted" || k == "ordering_restricted"
  {
  }

  /**
   * The shape of the returned dict for a sensor: it stays, with its inputs
   * and the list its group holds at the end, exactly when it is not
   * ordering restricted.
   */
  lemma OfferedSensor(a: Availability, p: Pass, ctx: Ctx, shared: bool, st: string)
    requires st in a.groups && st in PatternKeys()
    ensures st in OfferOf(a, p, ctx, shared) <==> st !in ctx.restr.allOrdering
    ensures st !in ctx.restr.allOrdering ==>
              OfferOf(a, p, ctx, shared)[st]
              == Offered(Group(Current(p, OwnerOf(shared, st, a.groups[st]), a.groups[st]), a.groups[st].inputs))
  {
    ReservedKeys();
    if st in Extras(a, p) {
      ExtrasKeys(a, p, st);
    }
  }

  /**
   * The shape of the returned dict beyond the sensors: 'not_implemented',
   * 'date_restricted' and 'ordering_restricted' are present exactly when
   * their lists are not empty, and then hold them.
   */
  lemma OfferExtras(a: Availability, p: Pass, ctx: Ctx, shared: bool)
    requires forall st :: st in a.groups ==> st in PatternKeys()
    ensures "not_implemented" in OfferOf(a, p, ctx, shared) <==> a.notImplemented != []
    ensures "date_restricted" in OfferOf(a, p, ctx, shared) <==> p.dateR != map[]
    ensures "ordering_restricted" in OfferOf(a, p, ctx, shared) <==> p.ordR != map[]
    ensures a.notImplemented != [] ==> OfferOf(a, p, ctx, shared)["not_implemented"] == Listed(a.notImplemented)
    ensures p.dateR != map[] ==> OfferOf(a, p, ctx, shared)["date_restricted"] == ByProduct(p.dateR)
    ensures p.ordR != map[] ==> OfferOf(a, p, ctx, shared)["ordering_restricted"] == ByProduct(p.ordR)
  {
    ReservedKeys();
    var kept := Kept(a, p, ctx, shared);
    assert "not_implemented" !in kept && "date_restricted" !in kept && "ordering_restricted" !in kept;
  }

  /**
   * The ordering-restricted sensors visited so far are listed with all
   * their inputs under upd['ordering_restricted'], and nothing else is.
   */
  lemma {:induction false} OrderingRestrictedListed(groups: map<string, Group>, order: seq<string>, n: nat, ctx: Ctx,
                                                    shared: bool, st: string)
    requires n <= |order| && Distinct(order)
    ensures st in Fold(groups, order, n, ctx, shared).ordR <==>
              st in order[..n] && st in groups && st in ctx.restr.allOrdering && groups[st].inputs != []
    ensures st in Fold(groups, order, n, ctx, shared).ordR ==> Fold(groups, order, n, ctx, shared).ordR[st] == groups[st].inputs
  {
    if n > 0 {
      OrderingRestrictedListed(groups, order, n - 1, ctx, shared, st);
      assert order[..n] == order[..n - 1] + [order[n - 1]];
      if order[n - 1] in groups {
        FoldStep(groups, order, n, ctx, shared);
        if order[n - 1] == st {
          assert st !in order[..n - 1];
        }
      }
    }
  }

  /**
   * available_products with a list per sensor: a sensor that is not
   * ordering restricted is offered with its inputs and the products its
   * own restrictions leave.
   */
  lemma OfferedUnshared(a: Availability, order: seq<string>, ctx: Ctx, st: string)
    requires Distinct(order) && forall s :: s in order <==> s in a.groups
    requires st in a.groups && st in PatternKeys() && st !in ctx.restr.allOrdering
    ensures st in OfferOf(a, Fold(a.groups, order, |order|, ctx, false), ctx, false)
    ensures OfferOf(a, Fold(a.groups, order, |order|, ctx, false), ctx, false)[st]
            == Offered(Group(OwnOuts(st, a.groups[st], ctx), a.groups[st].inputs))
  {
    var final := Fold(a.groups, order, |order|, ctx, false);
    OfferedSensor(a, final, ctx, false, st);
    UnsharedList(a.groups, order, |order|, ctx, st);
    assert order[..|order|] == order;
  }

  /**
   * As the source shares one list between the groups of a product class:
   * when two sensors of one class are visited, a product the first one
   * withholds from a non-staff user is withheld for the second one too,
   * whatever the second one's own restrictions.
   */
  lemma SharedListsLeak(groups: map<string, Group>, s0: string, s1: string, ctx: Ctx, x: string)
    requires s0 != s1 && s0 in groups && s1 in groups
    requires s0 !in ctx.restr.allOrdering && s1 !in ctx.restr.allOrdering
    requires OwnerOf(true, s0, groups[s0]) == OwnerOf(true, s1, groups[s1])
    requires !ctx.staff && Distinct(groups[s0].products)
    requires x in RoleFor(ctx.restr, Stype(s0))
    ensures x !in Current(Fold(groups, [s0, s1], 2, ctx, true), OwnerOf(true, s1, groups[s1]), groups[s1])
  {
    var g0 := groups[s0];
    var g1 := groups[s1];
    var owner := OwnerOf(true, s0, g0);
    var empty := Pass(map[], map[], map[]);
    var first := Visit(empty, s0, g0, ctx, true);
    assert Fold(groups, [s0, s1], 1, ctx, true) == first by {
      assert Fold(groups, [s0, s1], 0, ctx, true) == empty;
    }
    assert first.lists[owner] == OwnOuts(s0, g0, ctx);
    OwnOutsMembers(s0, g0, ctx);
    var outs := RoleFiltered(first.lists[owner], ctx, Stype(s1));
    var last := RemoveEach(outs, Removals(outs, ByDateFor(ctx.restr, Stype(s1)), g1.inputs, ctx));
    var final := Visit(first, s1, g1, ctx, true);
    assert Fold(groups, [s0, s1], 2, ctx, true) == final;
    assert final.lists[owner] == last;
    if x in last {
      RemoveEachSubset(outs, Removals(outs, ByDateFor(ctx.restr, Stype(s1)), g1.inputs, ctx), x);
      RemoveEachSubset(first.lists[owner], RoleFor(ctx.restr, Stype(s1)), x);
    }
  }

  // --------------------------------------------------------- cancel_order

  /** The scene statuses cancel_order cancels; processing scenes are left to finish. */
  predicate Killable(st: SceneStatus)
  {
    st in {Submitted, Oncache, Onorder, Queued, Retry, Error, Unavailable, Complete}
  }

  /** The scenes after cancel_order(pk): the order's killable scenes are cancelled. */
  function CancelledScenes(m: map<nat, Scene>, pk: nat): (r: map<nat, Scene>)
    ensures r.Keys == m.Keys
  {
    map id | id in m :: if m[id].orderId == pk && Killable(m[id].status) then CancelOpts(m[id]) else m[id]
  }

  /**
   * What cancelling does to each scene: a killable scene of the order is
   * cancelled; every other scene, of this order or another, is unchanged.
   */
  lemma CancelledScenesAt(m: map<nat, Scene>, pk: nat, id: nat)
    requires id in m
    ensures m[id].orderId == pk && Killable(m[id].status) ==> CancelledScenes(m, pk)[id].status == Cancelled
    ensures CancelledScenes(m, pk)[id].name == m[id].name && CancelledScenes(m, pk)[id].orderId == m[id].orderId
    ensures m[id].orderId != pk || !Killable(m[id].status) ==> CancelledScenes(m, pk)[id] == m[id]
  {
  }

  /** Cancelling twice is cancelling once. */
  lemma CancelIdempotent(m: map<nat, Scene>, pk: nat)
    ensures CancelledScenes(CancelledScenes(m, pk), pk) == CancelledScenes(m, pk)
  {
    var once := CancelledScenes(m, pk);
    forall id | id in once
      ensures CancelledScenes(once, pk)[id] == once[id]
    {
      if once[id].orderId == pk && Killable(once[id].status) {
        assert once[id] == m[id];
      }
    }
  }

  /**
   * cancel_order: an id that is no order raises 'Order not found';
   * otherwise the killable scenes are cancelled and the order is marked
   * cancelled, even when none of its scenes could be.
   */
  method CancelOrder(db: Db, pk: nat) returns (r: Result<Order>)
    modifies db
    ensures r.Err? <==> pk !in old(db.orders)
    ensures r.Err? ==> r.error == Raised(OrderingProviderException, "Order not found")
                       && db.orders == old(db.orders) && db.scenes == old(db.scenes)
    ensures r.Ok? ==> db.scenes == CancelledScenes(old(db.scenes), pk)
                      && db.orders == old(db.orders)[pk := old(db.orders)[pk].(status := OrderCancelled)]
                      && r.value == db.orders[pk]
    ensures db.users == old(db.users) && db.cache == old(db.cache) && db.onDisk == old(db.onDisk)
  {
    if pk !in db.orders {
      return Err(Raised(OrderingProviderException, "Order not found"));
    }
    db.scenes := CancelledScenes(db.scenes, pk);
    db.orders := db.orders[pk := db.orders[pk].(status := OrderCancelled)];
    r := Ok(db.orders[pk]);
  }

  // ---------------------------------------------------- fetch_user_orders

  /** The users User.where(usearch) finds, for the first of username, email and id that is given. */
  function UsersBy(users: map<nat, User>, username: string, email: string, userId: nat): (r: set<nat>)
    ensures forall u :: u in r ==> u in users
    ensures username != [] ==> forall u :: u in r <==> u in users && users[u].username == username
    ensures username == [] && email != [] ==> forall u :: u in r <==> u in users && users[u].email == email
  {
    if username != [] then set u | u in users && users[u].username == username
    else if email != [] then set u | u in users && users[u].email == email
    else set u | u in users && u == userId
  }

  /**
   * fetch_user_orders: the orders of the one user the first given key
   * finds, narrowed by the filters; `matches` stands for the database
   * comparing an order's column with a filter value. A user_id filter is
   * overwritten by the user's own id.
   */
  function FetchUserOrders(db: Db, username: string, email: string, userId: nat, filters: Json,
                           matches: (Order, string, Json) -> bool): (r: Result<set<nat>>)
    reads db
    ensures Truthy(filters) && !filters.JObj? ==> r == Err(Raised(OrderingProviderException, "filters must be dict"))
    ensures (!Truthy(filters) || filters.JObj?) && username == [] && email == [] && userId == 0 ==>
              r == Err(Raised(UnboundLocalError, "local variable 'usearch' referenced before assignment"))
    ensures r.Ok? && |UsersBy(db.users, username, email, userId)| != 1 ==> r.value == {}
    ensures r.Ok? ==> forall pk :: pk in r.value ==>
              pk in db.orders && db.orders[pk].userId in UsersBy(db.users, username, email, userId)
    ensures r.Ok? && |UsersBy(db.users, username, email, userId)| == 1 && !Truthy(filters) ==>
              forall pk :: pk in r.value <==> pk in db.orders && db.orders[pk].userId in UsersBy(db.users, username, email, userId)
  {
    if Truthy(filters) && !filters.JObj? then Err(Raised(OrderingProviderException, "filters must be dict"))
    else if username == [] && email == [] && userId == 0 then
      Err(Raised(UnboundLocalError, "local variable 'usearch' referenced before assignment"))
    else
      var found := UsersBy(db.users, username, email, userId);
      if |found| != 1 then Ok({})
      else
        var params := if Truthy(filters) then filters.fields - {"user_id"} else map[];
        Ok(set pk | pk in db.orders && db.orders[pk].userId in found
                    && forall f :: f in params ==> matches(db.orders[pk], f, params[f]))
  }

  /**
   * Whatever the filters say, the orders returned are those of the user
   * found, and filtering only narrows the unfiltered answer.
   */
  lemma FetchOnlyOwnOrders(db: Db, username: string, email: string, userId: nat, filters: Json,
                           matches: (Order, string, Json) -> bool)
    requires FetchUserOrders(db, username, email, userId, filters, matches).Ok?
    ensures FetchUserOrders(db, username, email, userId, JNull, matches).Ok?
    ensures FetchUserOrders(db, username, email, userId, filters, matches).value
            <= FetchUserOrders(db, username, email, userId, JNull, matches).value
  {
  }

  // ---------------------------------------------------------- item_status

  /** The item argument: the default "ALL" object, or any other string. */
  datatype ItemId = AllItems | Named(name: string)

  /** The scene search item_status builds: status and name, each when given. */
  datatype Search = Search(status: Option<Json>, name: Option<Json>)

  function SearchOf(filters: map<string, Json>, itemid: ItemId): (r: Search)
    ensures r.status.Some? <==> "status" in filters
    ensures "name" in filters ==> r.name == Some(filters["name"])
    ensures "name" !in filters ==> (r.name.Some? <==> itemid.Named?)
  {
    Search(if "status" in filters then Some(filters["status"]) else None,
           if "name" in filters then Some(filters["name"])
           else if itemid.Named? then Some(JStr(itemid.name)) else None)
  }

  predicate SceneMatches(s: Scene, q: Search)
  {
    (q.status.None? || q.status.value == JStr(StatusName(s.status)))
    && (q.name.None? || q.name.value == JStr(s.name))
  }

  /**
   * item_status: for each order selected (by its public id, or all the
   * user's orders when no id is given), the ids of its scenes that match
   * the search. Filters that are neither None nor a dict raise TypeError;
   * no order id and no such user raise AttributeError.
   */
  function ItemStatus(db: Db, orderid: string, itemid: ItemId, username: string, filters: Json)
    : (r: Result<map<string, set<nat>>>)
    reads db
    ensures !filters.JObj? && !filters.JNull? ==> r == Err(Raised(TypeError, "supplied filters invalid"))
    ensures ((filters.JObj? || filters.JNull?) && orderid == []
             && forall u :: u in db.users ==> db.users[u].username != username) ==> r == Err(NoOrder)
    ensures r.Ok? && orderid != [] ==> r.value.Keys <= {orderid}
    ensures r.Ok? ==> forall oid, id :: oid in r.value && id in r.value[oid] ==>
              id in db.scenes && db.scenes[id].orderId in db.orders && db.orders[db.scenes[id].orderId].orderid == oid
              && SceneMatches(db.scenes[id], SearchOf(if filters.JObj? then filters.fields else map[], itemid))
  {
    if !filters.JObj? && !filters.JNull? then Err(Raised(TypeError, "supplied filters invalid"))
    else
      var fs := if filters.JObj? then filters.fields else map[];
      var named := set u | u in db.users && db.users[u].username == username;
      if orderid == [] && named == {} then Err(NoOrder)
      else
        var selected := if orderid != [] then set pk | pk in db.orders && db.orders[pk].orderid == orderid
                        else set pk | pk in db.orders && db.orders[pk].userId in named;
        Ok(ScenesByOrder(db, selected, SearchOf(fs, itemid)))
  }

  /** response[order.orderid] = order.scenes(search), for each selected order. */
  function ScenesByOrder(db: Db, selected: set<nat>, q: Search): (r: map<string, set<nat>>)
    reads db
    requires selected <= db.orders.Keys
    ensures forall pk :: pk in selected ==> db.orders[pk].orderid in r
    ensures forall oid :: oid in r ==> exists pk :: pk in selected && db.orders[pk].orderid == oid
    ensures forall oid, id :: oid in r && id in r[oid] ==>
              id in db.scenes && db.scenes[id].orderId in selected
              && db.orders[db.scenes[id].orderId].orderid == oid && SceneMatches(db.scenes[id], q)
    ensures forall oid, id :: (oid in r && id in db.scenes && db.scenes[id].orderId in selected
              && db.orders[db.scenes[id].orderId].orderid == oid && SceneMatches(db.scenes[id], q)) ==> id in r[oid]
  {
    var oids := set pk | pk in selected :: db.orders[pk].orderid;
    map oid | oid in oids ::
      set id | id in db.scenes && db.scenes[id].orderId in selected
               && db.orders[db.scenes[id].orderId].orderid == oid && SceneMatches(db.scenes[id], q)
  }

  /**
   * Every selected order has a key, and the key lists every scene of the
   * order that matches: with no filters and the item "ALL", all of them.
   */
  lemma ItemStatusComplete(db: Db, orderid: string, username: string, id: nat)
    requires orderid != [] && id in db.scenes && db.scenes[id].orderId in db.orders
    requires db.orders[db.scenes[id].orderId].orderid == orderid
    ensures ItemStatus(db, orderid, AllItems, username, JNull).Ok?
    ensures orderid in ItemStatus(db, orderid, AllItems, username, JNull).value
    ensures id in ItemStatus(db, orderid, AllItems, username, JNull).value[orderid]
  {
    var pk := db.scenes[id].orderId;
    var selected := set pk | pk in db.orders && db.orders[pk].orderid == orderid;
    assert pk in selected;
  }
}
