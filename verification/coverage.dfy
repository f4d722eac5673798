/**
 * The coverage view (`coverage_get`): for a buyer tier, a make and a zip
 * code, the dealers that cover that zip code, closest first, at most `limit`
 * of them, shaped into the response dictionary.
 *
 * The database is a value holding the rows of the six tables the query
 * reads. The query is a specification over those rows: every combination of
 * one row per table, kept when it meets the eight conditions of the
 * `filter(...)`, projected to the twelve labelled columns, sorted stably by
 * distance and cut to `limit` rows.
 */
module Coverage {
  import opened Wrappers
  import opened Document

  // ---------------------------------------------------------------------------
  // The rows the query reads (the dataclasses the ORM maps onto the tables)

  datatype BuyerRow = BuyerRow(slug: string, name: string)
  datatype BuyerTierRow = BuyerTierRow(buyerSlug: string, slug: string, name: string)
  datatype MakeRow = MakeRow(slug: string, name: string)
  /** The dealer's descriptive columns are nullable, so they hold a `Value` (a string or `Null`). */
  datatype DealerRow = DealerRow(
    buyerSlug: string, code: string,
    name: Value, address: Value, city: Value, state: Value, zipcode: Value, phone: Value)
  /** `buyer_dealer_coverage`; `distance` is a nullable integer column. */
  datatype CoverageRow = CoverageRow(buyerSlug: string, dealerCode: string, zipcode: string, distance: Option<int>)
  datatype TierMakeRow = TierMakeRow(buyerSlug: string, tierSlug: string, makeSlug: string)

  datatype Database = Database(
    buyers: seq<BuyerRow>, tiers: seq<BuyerTierRow>, makes: seq<MakeRow>,
    dealers: seq<DealerRow>, coverage: seq<CoverageRow>, tierMakes: seq<TierMakeRow>)

  /**
   * The request: the validated query-string fields (`limit` is absent when
   * the caller gave none) and the raw parameters, in the order given.
   */
  datatype Request = Request(buyerTier: string, make: string, zipcode: string, limit: Option<int>, params: seq<Entry>)

  /** One row from each table the query names. */
  datatype Combo = Combo(
    buyer: BuyerRow, tier: BuyerTierRow, make: MakeRow, dealer: DealerRow, coverage: CoverageRow, tierMake: TierMakeRow)

  /** One result row: the twelve labelled columns of the `query(...)`. */
  datatype Match = Match(
    buyer: string, buyerTier: string, make: string,
    dealerCode: string, dealerName: Value, dealerAddress: Value, dealerCity: Value,
    dealerState: Value, dealerZipcode: Value, dealerPhone: Value,
    distance: Option<int>, zipcode: string)

  /** The database rejects a negative `LIMIT`. */
  datatype QueryError = NegativeLimit

  // ---------------------------------------------------------------------------
  // The query

  /**
   * The `filter(...)`: five join conditions and three filters. The coverage
   * row is tied to the dealer by code only, and the tier-make row's
   * `buyer_slug` is tied to nothing.
   */
  predicate Joins(c: Combo, r: Request)
    ensures Joins(c, r) ==>
      && c.tier.buyerSlug == c.dealer.buyerSlug
      && c.make.slug == r.make && c.tier.slug == r.buyerTier
  {
    && c.tier.slug == c.tierMake.tierSlug
    && c.tier.buyerSlug == c.buyer.slug
    && c.dealer.buyerSlug == c.buyer.slug
    && c.tierMake.makeSlug == c.make.slug
    && c.coverage.dealerCode == c.dealer.code
    && c.tierMake.makeSlug == r.make
    && c.tierMake.tierSlug == r.buyerTier
    && c.coverage.zipcode == r.zipcode
  }

  /** The labelled columns of a combination; `make` is the make's name. */
  function MatchOf(c: Combo): Match {
    Match(c.buyer.name, c.tier.name, c.make.name,
          c.dealer.code, c.dealer.name, c.dealer.address, c.dealer.city,
          c.dealer.state, c.dealer.zipcode, c.dealer.phone,
          c.coverage.distance, c.coverage.zipcode)
  }

  /** Every pair of an element of `xs` and an element of `ys`. */
  function Pairs<A, B>(xs: seq<A>, ys: seq<B>): seq<(A, B)> {
    if xs == [] then []
    else seq(|ys|, j requires 0 <= j < |ys| => (xs[0], ys[j])) + Pairs(xs[1..], ys)
  }

  /**
   * Every combination of one row per table. The order is the one of nested
   * loops over the tables in the order the query names them; the database
   * may enumerate them in another order, which only matters among rows at
   * the same distance.
   */
  function Product(db: Database): seq<Combo> {
    var p := Pairs(Pairs(Pairs(Pairs(Pairs(db.buyers, db.tiers), db.makes), db.dealers), db.coverage), db.tierMakes);
    seq(|p|, i requires 0 <= i < |p| => ComboOf(p[i]))
  }

  function ComboOf(t: (((((BuyerRow, BuyerTierRow), MakeRow), DealerRow), CoverageRow), TierMakeRow)): Combo {
    var (((((b, tier), m), d), cov), tm) := t;
    Combo(b, tier, m, d, cov, tm)
  }

  /** The combinations that meet the conditions, as result rows, in enumeration order. */
  function Matches(combos: seq<Combo>, r: Request): seq<Match> {
    if combos == [] then []
    else
      var last := combos[|combos| - 1];
      Matches(combos[..|combos| - 1], r) + if Joins(last, r) then [MatchOf(last)] else []
  }

  function Candidates(db: Database, r: Request): seq<Match> {
    Matches(Product(db), r)
  }

  /** `request.validated.get('limit', 3)`. */
  function Limit(r: Request): (n: int)
    ensures r.limit.None? ==> n == 3
    ensures r.limit.Some? ==> n == r.limit.value
  {
    r.limit.GetOr(3)
  }

  /** `LIMIT n`: the first `n` rows, or all of them when there are fewer. */
  function Take(ms: seq<Match>, n: nat): (t: seq<Match>)
    ensures |t| <= n && |t| <= |ms|
  {
    if n < |ms| then ms[..n] else ms
  }

  /** The rows `query.all()` returns: the candidates sorted by distance, then cut to the limit. */
  function Query(db: Database, r: Request): (res: Result<seq<Match>, QueryError>)
    ensures res.Success? <==> Limit(r) >= 0
    ensures res.Success? ==> |res.value| <= Limit(r) && |res.value| <= |Candidates(db, r)|
  {
    if Limit(r) < 0 then Failure(NegativeLimit)
    else Success(Take(SortByDistance(Candidates(db, r)), Limit(r)))
  }

  // ---------------------------------------------------------------------------
  // Ordering by distance

  /** `ORDER BY distance` ascending; a `NULL` distance sorts after every number, as in PostgreSQL. */
  predicate DistanceLe(a: Option<int>, b: Option<int>)
    ensures a.Some? && b.Some? ==> (DistanceLe(a, b) <==> a.value <= b.value)
    ensures b.None? ==> DistanceLe(a, b)
    ensures a.None? && b.Some? ==> !DistanceLe(a, b)
  {
    b.None? || (a.Some? && a.value <= b.value)
  }

  predicate SortedByDistance(ms: seq<Match>) {
    forall i, j :: 0 <= i < j < |ms| ==> DistanceLe(ms[i].distance, ms[j].distance)
  }

  /** Puts `m` after every row no farther than it, so rows at equal distance keep their order. */
  function Insert(s: seq<Match>, m: Match): (r: seq<Match>)
    ensures |r| == |s| + 1
  {
    if s == [] then [m]
    else if DistanceLe(s[|s| - 1].distance, m.distance) then s + [m]
    else Insert(s[..|s| - 1], m) + [s[|s| - 1]]
  }

  /** A stable sort by distance. */
  function SortByDistance(ms: seq<Match>): (r: seq<Match>)
    ensures |r| == |ms|
  {
    if ms == [] then [] else Insert(SortByDistance(ms[..|ms| - 1]), ms[|ms| - 1])
  }

  /** The rows at distance `d`, in order. */
  function AtDistance(ms: seq<Match>, d: Option<int>): seq<Match> {
    if ms == [] then []
    else AtDistance(ms[..|ms| - 1], d) + if ms[|ms| - 1].distance == d then [ms[|ms| - 1]] else []
  }

  // ---------------------------------------------------------------------------
  // Shaping the response

  /** A nullable integer as it appears in the response. */
  function DistanceValue(d: Option<int>): Value {
    if d.Some? then Int(d.value) else Null
  }

  /** The `coverage` dictionary of one row: ten of its columns, under their labels. */
  function CoverageEntry(m: Match): (v: Value)
    ensures v.Map? && DistinctKeys(v.entries)
    ensures Keys(v.entries) == ["dealer_code", "dealer_name", "dealer_address", "dealer_city", "dealer_state",
                                "dealer_zipcode", "dealer_phone", "distance", "zipcode", "make"]
  {
    Map([Entry("dealer_code", Str(m.dealerCode)),
         Entry("dealer_name", m.dealerName),
         Entry("dealer_address", m.dealerAddress),
         Entry("dealer_city", m.dealerCity),
         Entry("dealer_state", m.dealerState),
         Entry("dealer_zipcode", m.dealerZipcode),
         Entry("dealer_phone", m.dealerPhone),
         Entry("distance", DistanceValue(m.distance)),
         Entry("zipcode", Str(m.zipcode)),
         Entry("make", Str(m.make))])
  }

  /** `data`: only `has_coverage` when there is no row; otherwise the buyer and tier of the first row and one entry per row. */
  function Data(rows: seq<Match>): (v: Value)
    ensures v.Map? && DistinctKeys(v.entries)
    ensures Keys(v.entries) == if rows == [] then ["has_coverage"] else ["has_coverage", "buyer", "buyer_tier", "coverage"]
  {
    if rows == [] then Map([Entry("has_coverage", Bool(false))])
    else
      Map([Entry("has_coverage", Bool(true)),
           Entry("buyer", Str(rows[0].buyer)),
           Entry("buyer_tier", Str(rows[0].buyerTier)),
           Entry("coverage", List(seq(|rows|, i requires 0 <= i < |rows| => CoverageEntry(rows[i]))))])
  }

  /** `result`: the status, the data and the request's parameters as a dictionary. */
  function Response(rows: seq<Match>, params: seq<Entry>): (v: Value)
    ensures v.Map? && Keys(v.entries) == ["status", "data", "metadata"]
  {
    Map([Entry("status", Str("ok")),
         Entry("data", Data(rows)),
         Entry("metadata", Map([Entry("params", Map(Dict(params)))]))])
  }

  /**
   * The shaping after `query.all()`: `data` is filled key by key and
   * `data['coverage']` grows by one entry per row, in row order.
   */
  method ShapeResult(rows: seq<Match>, params: seq<Entry>) returns (result: Value)
    ensures result == Response(rows, params)
  {
    var data: seq<Entry> := [];
    if |rows| > 0 {
      data := data + [Entry("has_coverage", Bool(true))];
      var first := rows[0];
      data := data + [Entry("buyer", Str(first.buyer))];
      data := data + [Entry("buyer_tier", Str(first.buyerTier))];
      var coverage: seq<Value> := [];
      var i := 0;
      while i < |rows|
        invariant i <= |rows| && |coverage| == i
        invariant forall k :: 0 <= k < i ==> coverage[k] == CoverageEntry(rows[k])
      {
        var row := rows[i];
        var entry := Map([Entry("dealer_code", Str(row.dealerCode)),
                          Entry("dealer_name", row.dealerName),
                          Entry("dealer_address", row.dealerAddress),
                          Entry("dealer_city", row.dealerCity),
                          Entry("dealer_state", row.dealerState),
                          Entry("dealer_zipcode", row.dealerZipcode),
                          Entry("dealer_phone", row.dealerPhone),
                          Entry("distance", DistanceValue(row.distance)),
                          Entry("zipcode", Str(row.zipcode)),
                          Entry("make", Str(row.make))]);
        coverage := coverage + [entry];
        i := i + 1;
      }
      assert coverage == seq(|rows|, k requires 0 <= k < |rows| => CoverageEntry(rows[k]));
      data := data + [Entry("coverage", List(coverage))];
      assert Map(data) == Data(rows);
    } else {
      data := data + [Entry("has_coverage", Bool(false))];
      assert Map(data) == Data(rows);
    }
    result := Map([Entry("status", Str("ok")),
                   Entry("data", Map(data)),
                   Entry("metadata", Map([Entry("params", Map(Dict(params)))]))]);
  }

  /** `coverage_get(request)`: the query, then the shaping; a database error is raised instead. */
  method CoverageGet(db: Database, request: Request) returns (r: Result<Value, QueryError>)
    ensures Query(db, request).Failure? ==> r == Failure(NegativeLimit)
    ensures Query(db, request).Success? ==> r == Success(Response(Query(db, request).value, request.params))
  {
    var rows := Query(db, request);
    if rows.Failure? {
      return Failure(rows.error);
    }
    var result := ShapeResult(rows.value, request.params);
    return Success(result);
  }

  // ---------------------------------------------------------------------------
  // The combinations

  lemma {:induction false} PairsMembers<A, B>(xs: seq<A>, ys: seq<B>, a: A, b: B)
    ensures (a, b) in Pairs(xs, ys) <==> a in xs && b in ys
    decreases |xs|
  {
    if xs != [] {
      var row := seq(|ys|, j requires 0 <= j < |ys| => (xs[0], ys[j]));
      PairsMembers(xs[1..], ys, a, b);
      assert Pairs(xs, ys) == row + Pairs(xs[1..], ys);
      assert (a, b) in row <==> a == xs[0] && b in ys by {
        if a == xs[0] && b in ys {
          var j :| 0 <= j < |ys| && ys[j] == b;
          assert row[j] == (a, b);
        }
      }
      assert xs == [xs[0]] + xs[1..];
    }
  }

  /** The combinations are exactly the choices of one row from each table. */
  lemma ProductMembers(db: Database, c: Combo)
    ensures c in Product(db) <==> InTables(db, c)
  {
    var p1 := Pairs(db.buyers, db.tiers);
    var p2 := Pairs(p1, db.makes);
    var p3 := Pairs(p2, db.dealers);
    var p4 := Pairs(p3, db.coverage);
    var p := Pairs(p4, db.tierMakes);
    var t1 := (c.buyer, c.tier);
    var t2 := (t1, c.make);
    var t3 := (t2, c.dealer);
    var t4 := (t3, c.coverage);
    var t := (t4, c.tierMake);
    PairsMembers(db.buyers, db.tiers, c.buyer, c.tier);
    PairsMembers(p1, db.makes, t1, c.make);
    PairsMembers(p2, db.dealers, t2, c.dealer);
    PairsMembers(p3, db.coverage, t3, c.coverage);
    PairsMembers(p4, db.tierMakes, t4, c.tierMake);
    assert ComboOf(t) == c;
    if c in Product(db) {
      var i :| 0 <= i < |p| && ComboOf(p[i]) == c;
      var (((((b, tier), mk), d), cov), tm) := p[i];
      assert p[i] == t;
    }
    if t in p {
      var i :| 0 <= i < |p| && p[i] == t;
      assert Product(db)[i] == c;
    }
  }

  /** The combination takes each of its rows from the right table. */
  predicate InTables(db: Database, c: Combo) {
    && c.buyer in db.buyers && c.tier in db.tiers && c.make in db.makes
    && c.dealer in db.dealers && c.coverage in db.coverage && c.tierMake in db.tierMakes
  }

  /** A result row comes from a combination that meets the conditions, and every such combination gives one. */
  lemma {:induction false} MatchesMembers(combos: seq<Combo>, r: Request, m: Match)
    ensures m in Matches(combos, r) <==> exists c :: c in combos && Joins(c, r) && m == MatchOf(c)
    decreases |combos|
  {
    if combos != [] {
      var init, last := combos[..|combos| - 1], combos[|combos| - 1];
      MatchesMembers(init, r, m);
      assert combos == init + [last];
      if exists c :: c in combos && Joins(c, r) && m == MatchOf(c) {
        var c :| c in combos && Joins(c, r) && m == MatchOf(c);
        if c != last {
          assert c in init;
        }
      }
    }
  }

  /** The candidates are the result rows of the combinations of table rows that meet the conditions. */
  lemma CandidatesMembers(db: Database, r: Request, m: Match)
    ensures m in Candidates(db, r) <==> exists c :: InTables(db, c) && Joins(c, r) && m == MatchOf(c)
  {
    MatchesMembers(Product(db), r, m);
    if exists c :: InTables(db, c) && Joins(c, r) && m == MatchOf(c) {
      var c :| InTables(db, c) && Joins(c, r) && m == MatchOf(c);
      ProductMembers(db, c);
    }
    if exists c :: c in Product(db) && Joins(c, r) && m == MatchOf(c) {
      var c :| c in Product(db) && Joins(c, r) && m == MatchOf(c);
      ProductMembers(db, c);
    }
  }

  // ---------------------------------------------------------------------------
  // The sort

  /** Every row of `s` is no farther than `d`. */
  predicate AllWithin(s: seq<Match>, d: Option<int>) {
    forall k :: 0 <= k < |s| ==> DistanceLe(s[k].distance, d)
  }

  lemma {:induction false} InsertWithin(s: seq<Match>, m: Match, d: Option<int>)
    requires AllWithin(s, d) && DistanceLe(m.distance, d)
    ensures AllWithin(Insert(s, m), d)
    decreases |s|
  {
    if s != [] && !DistanceLe(s[|s| - 1].distance, m.distance) {
      InsertWithin(s[..|s| - 1], m, d);
    }
  }

  /** Inserting into a sorted list keeps it sorted. */
  lemma {:induction false} InsertSorted(s: seq<Match>, m: Match)
    requires SortedByDistance(s)
    ensures SortedByDistance(Insert(s, m))
    decreases |s|
  {
    if s != [] {
      var init, last := s[..|s| - 1], s[|s| - 1];
      if !DistanceLe(last.distance, m.distance) {
        InsertSorted(init, m);
        InsertWithin(init, m, last.distance);
      }
    }
  }

  lemma {:induction false} InsertPermutation(s: seq<Match>, m: Match)
    ensures multiset(Insert(s, m)) == multiset(s) + multiset{m}
    decreases |s|
  {
    if s != [] && !DistanceLe(s[|s| - 1].distance, m.distance) {
      InsertPermutation(s[..|s| - 1], m);
      assert s == s[..|s| - 1] + [s[|s| - 1]];
    }
  }

  /** The sort orders by distance and loses or adds no row. */
  lemma {:induction false} SortSorted(ms: seq<Match>)
    ensures SortedByDistance(SortByDistance(ms))
    ensures multiset(SortByDistance(ms)) == multiset(ms)
    decreases |ms|
  {
    if ms != [] {
      var init := ms[..|ms| - 1];
      SortSorted(init);
      InsertSorted(SortByDistance(init), ms[|ms| - 1]);
      InsertPermutation(SortByDistance(init), ms[|ms| - 1]);
      assert ms == init + [ms[|ms| - 1]];
    }
  }

  lemma {:induction false} AtDistanceAppend(a: seq<Match>, b: seq<Match>, d: Option<int>)
    ensures AtDistance(a + b, d) == AtDistance(a, d) + AtDistance(b, d)
    decreases |b|
  {
    if b == [] {
      assert a + b == a;
    } else {
      AtDistanceAppend(a, b[..|b| - 1], d);
      assert (a + b)[..|a + b| - 1] == a + b[..|b| - 1];
    }
  }

  lemma AtDistanceSingle(m: Match, d: Option<int>)
    ensures AtDistance([m], d) == if m.distance == d then [m] else []
  {
    assert [m][..0] == [];
  }

  /** Inserting a row adds it after the rows already at its distance. */
  lemma {:induction false} InsertAtDistance(s: seq<Match>, m: Match, d: Option<int>)
    ensures AtDistance(Insert(s, m), d) == AtDistance(s, d) + if m.distance == d then [m] else []
    decreases |s|
  {
    AtDistanceSingle(m, d);
    if s == [] {
    } else if DistanceLe(s[|s| - 1].distance, m.distance) {
      AtDistanceAppend(s, [m], d);
    } else {
      var init, last := s[..|s| - 1], s[|s| - 1];
      InsertAtDistance(init, m, d);
      AtDistanceAppend(Insert(init, m), [last], d);
      AtDistanceSingle(last, d);
      assert last.distance != m.distance;
    }
  }

  /** The sort is stable: the rows at any one distance keep their relative order. */
  lemma {:induction false} SortStable(ms: seq<Match>, d: Option<int>)
    ensures AtDistance(SortByDistance(ms), d) == AtDistance(ms, d)
    decreases |ms|
  {
    if ms != [] {
      SortStable(ms[..|ms| - 1], d);
      InsertAtDistance(SortByDistance(ms[..|ms| - 1]), ms[|ms| - 1], d);
    }
  }

  // ---------------------------------------------------------------------------
  // What the query returns

  /**
   * The database accepts any limit but a negative one; then at most `limit`
   * rows come back, fewer only when fewer rows match, and at most 3 when
   * the caller gave no limit.
   */
  lemma QueryLimit(db: Database, r: Request)
    ensures Query(db, r).Success? <==> Limit(r) >= 0
    ensures Query(db, r).Success? ==>
      |Query(db, r).value| == if Limit(r) < |Candidates(db, r)| then Limit(r) else |Candidates(db, r)|
    ensures r.limit.None? ==> Query(db, r).Success? && |Query(db, r).value| <= 3
  {
  }

  /** The rows come back closest first, with `NULL` distances last. */
  lemma QuerySorted(db: Database, r: Request)
    requires Query(db, r).Success?
    ensures SortedByDistance(Query(db, r).value)
  {
    SortSorted(Candidates(db, r));
  }

  /** Every row returned comes from table rows that meet all eight conditions. */
  lemma QuerySound(db: Database, r: Request, m: Match)
    requires Query(db, r).Success? && m in Query(db, r).value
    ensures exists c :: InTables(db, c) && Joins(c, r) && m == MatchOf(c)
  {
    var sorted := SortByDistance(Candidates(db, r));
    SortSorted(Candidates(db, r));
    assert m in sorted;
    assert m in multiset(Candidates(db, r));
    CandidatesMembers(db, r, m);
  }

  /**
   * No matching dealer is left out unless `limit` rows were returned, all
   * of them at least as close.
   */
  lemma QueryClosest(db: Database, r: Request, c: Combo)
    requires Query(db, r).Success? && InTables(db, c) && Joins(c, r)
    ensures var rows := Query(db, r).value;
      || MatchOf(c) in rows
      || (|rows| == Limit(r) && forall k :: 0 <= k < |rows| ==> DistanceLe(rows[k].distance, c.coverage.distance))
  {
    var m := MatchOf(c);
    var sorted := SortByDistance(Candidates(db, r));
    CandidatesMembers(db, r, m);
    SortSorted(Candidates(db, r));
    assert m in multiset(sorted);
    var p :| 0 <= p < |sorted| && sorted[p] == m;
    if p < Limit(r) {
      assert Query(db, r).value[p] == m;
    }
  }

  /** Rows at equal distance come back in the order the combinations are enumerated. */
  lemma QueryStable(db: Database, r: Request, d: Option<int>)
    requires Query(db, r).Success?
    ensures AtDistance(Query(db, r).value, d) <= AtDistance(Candidates(db, r), d)
  {
    var sorted := SortByDistance(Candidates(db, r));
    var rows := Query(db, r).value;
    SortStable(Candidates(db, r), d);
    assert sorted == rows + sorted[|rows|..];
    AtDistanceAppend(rows, sorted[|rows|..], d);
  }

  // ---------------------------------------------------------------------------
  // What the response holds

  /** The response always carries status `ok` and the data, and nothing else but the metadata. */
  lemma ResponseStatus(rows: seq<Match>, params: seq<Entry>)
    ensures |Response(rows, params).entries| == 3
    ensures Get(Response(rows, params).entries, "status") == Some(Str("ok"))
    ensures Get(Response(rows, params).entries, "data") == Some(Data(rows))
  {
    var e := Response(rows, params).entries;
    assert Get(e, "status") == Some(Str("ok")) by { GetAt(e, 0, "status"); }
    assert Get(e, "data") == Some(Data(rows)) by { GetAt(e, 1, "data"); }
  }

  /** The metadata holds the request's parameters as a dictionary: each with its last value, and no other. */
  lemma ResponseParams(rows: seq<Match>, params: seq<Entry>, k: string)
    ensures var meta := Get(Response(rows, params).entries, "metadata");
      && meta.Some? && meta.value.Map? && |meta.value.entries| == 1
      && Get(meta.value.entries, "params") == Some(Map(Dict(params)))
    ensures Get(Dict(params), k) == Get(params, k)
  {
    DictGet(params, k);
    var e := Response(rows, params).entries;
    var meta := Map([Entry("params", Map(Dict(params)))]);
    assert Get(e, "metadata") == Some(meta) by { GetAt(e, 2, "metadata"); }
    assert Get(meta.entries, "params") == Some(Map(Dict(params))) by { GetAt(meta.entries, 0, "params"); }
  }

  /** `data` has `has_coverage` set exactly when rows came back, and with no row it holds nothing else. */
  lemma DataFlag(rows: seq<Match>)
    ensures Get(Data(rows).entries, "has_coverage") == Some(Bool(rows != []))
    ensures rows == [] <==> |Data(rows).entries| == 1
  {
    var e := Data(rows).entries;
    assert Get(e, "has_coverage") == Some(Bool(rows != [])) by { GetAt(e, 0, "has_coverage"); }
  }

  /** With rows, `data` names the buyer and tier of the first row. */
  lemma DataBuyer(rows: seq<Match>)
    requires rows != []
    ensures Get(Data(rows).entries, "buyer") == Some(Str(rows[0].buyer))
    ensures Get(Data(rows).entries, "buyer_tier") == Some(Str(rows[0].buyerTier))
  {
    var e := Data(rows).entries;
    assert Get(e, "buyer") == Some(Str(rows[0].buyer)) by { GetAt(e, 1, "buyer"); }
    assert Get(e, "buyer_tier") == Some(Str(rows[0].buyerTier)) by { GetAt(e, 2, "buyer_tier"); }
  }

  /** With rows, `data` lists one coverage entry per row, in row order. */
  lemma DataCoverage(rows: seq<Match>)
    requires rows != []
    ensures var cov := Get(Data(rows).entries, "coverage");
      && cov.Some? && cov.value.List? && |cov.value.items| == |rows|
      && forall i :: 0 <= i < |rows| ==> cov.value.items[i] == CoverageEntry(rows[i])
  {
    var e := Data(rows).entries;
    assert Get(e, "coverage") == Some(e[3].value) by { GetAt(e, 3, "coverage"); }
  }

  /** A coverage entry holds the dealer's code and name, unchanged. */
  lemma CoverageEntryDealer(m: Match)
    ensures Get(CoverageEntry(m).entries, "dealer_code") == Some(Str(m.dealerCode))
    ensures Get(CoverageEntry(m).entries, "dealer_name") == Some(m.dealerName)
  {
    var e := CoverageEntry(m).entries;
    assert Get(e, "dealer_code") == Some(Str(m.dealerCode)) by { GetAt(e, 0, "dealer_code"); }
    assert Get(e, "dealer_name") == Some(m.dealerName) by { GetAt(e, 1, "dealer_name"); }
  }

  /** A coverage entry holds the dealer's address and city, unchanged. */
  lemma CoverageEntryAddress(m: Match)
    ensures Get(CoverageEntry(m).entries, "dealer_address") == Some(m.dealerAddress)
    ensures Get(CoverageEntry(m).entries, "dealer_city") == Some(m.dealerCity)
  {
    var e := CoverageEntry(m).entries;
    assert Get(e, "dealer_address") == Some(m.dealerAddress) by { GetAt(e, 2, "dealer_address"); }
    assert Get(e, "dealer_city") == Some(m.dealerCity) by { GetAt(e, 3, "dealer_city"); }
  }

  /** A coverage entry holds the dealer's state, zipcode and phone, unchanged. */
  lemma CoverageEntryContact(m: Match)
    ensures Get(CoverageEntry(m).entries, "dealer_state") == Some(m.dealerState)
    ensures Get(CoverageEntry(m).entries, "dealer_zipcode") == Some(m.dealerZipcode)
    ensures Get(CoverageEntry(m).entries, "dealer_phone") == Some(m.dealerPhone)
  {
    var e := CoverageEntry(m).entries;
    assert Get(e, "dealer_state") == Some(m.dealerState) by { GetAt(e, 4, "dealer_state"); }
    assert Get(e, "dealer_zipcode") == Some(m.dealerZipcode) by { GetAt(e, 5, "dealer_zipcode"); }
    assert Get(e, "dealer_phone") == Some(m.dealerPhone) by { GetAt(e, 6, "dealer_phone"); }
  }

  /** A coverage entry holds the distance (`null` when unknown), the covered zipcode and the make's name. */
  lemma CoverageEntryReach(m: Match)
    ensures Get(CoverageEntry(m).entries, "distance") == Some(DistanceValue(m.distance))
    ensures Get(CoverageEntry(m).entries, "zipcode") == Some(Str(m.zipcode))
    ensures Get(CoverageEntry(m).entries, "make") == Some(Str(m.make))
  {
    var e := CoverageEntry(m).entries;
    assert Get(e, "distance") == Some(DistanceValue(m.distance)) by { GetAt(e, 7, "distance"); }
    assert Get(e, "zipcode") == Some(Str(m.zipcode)) by { GetAt(e, 8, "zipcode"); }
    assert Get(e, "make") == Some(Str(m.make)) by { GetAt(e, 9, "make"); }
  }

  /**
   * The response reports coverage exactly when the limit is positive and
   * some choice of table rows meets all eight conditions.
   */
  lemma HasCoverageExactly(db: Database, r: Request)
    requires Limit(r) >= 0
    ensures Get(Data(Query(db, r).value).entries, "has_coverage") == Some(Bool(true))
      <==> Limit(r) > 0 && exists c :: InTables(db, c) && Joins(c, r)
  {
    var cands := Candidates(db, r);
    DataFlag(Query(db, r).value);
    if exists c :: InTables(db, c) && Joins(c, r) {
      var c :| InTables(db, c) && Joins(c, r);
      CandidatesMembers(db, r, MatchOf(c));
    }
    if cands != [] {
      CandidatesMembers(db, r, cands[0]);
    }
  }
}
