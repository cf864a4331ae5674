/** The product request handlers: listing with search, category filter and
    pagination; lookup, create, update and delete with an existence check;
    and per-category statistics. Query strings arrive already parsed:
    `page` and `limit` as an integer or nothing (missing or not a number),
    and the uuid of a new product as a parameter. */
module ProductsController {
  import opened Wrappers
  import opened Records
  import opened Lists
  import opened Http
  import opened Store

  datatype Query = Query(search: Option<string>, category: Option<string>,
                         page: Option<int>, limit: Option<int>)

  /** A query string parameter is truthy: present and not empty. */
  predicate Given(o: Option<string>)
  {
    o.Some? && o.value != ""
  }

  /** `p.name.toLowerCase().includes(q)` for an already lower-cased `q`. */
  predicate NameMatches(p: Record, q: string)
  {
    HasStringName(p) && Contains(Lower(p["name"].s), q)
  }

  /** `p.category === c`: exact and case-sensitive. */
  predicate InCategory(p: Record, c: string)
  {
    "category" in p && p["category"] == Str(c)
  }

  /** The search filter of `listProducts`. */
  function BySearch(s: seq<Record>, term: string): seq<Record>
  {
    Keep(s, (p: Record) => NameMatches(p, Lower(term)))
  }

  /** The category filter of `listProducts`. */
  function ByCategory(s: seq<Record>, c: string): seq<Record>
  {
    Keep(s, (p: Record) => InCategory(p, c))
  }

  /** Search first, then category; each only when its parameter is given. */
  function Filtered(all: seq<Record>, q: Query): seq<Record>
  {
    var afterSearch := if Given(q.search) then BySearch(all, q.search.value) else all;
    if Given(q.category) then ByCategory(afterSearch, q.category.value) else afterSearch
  }

  /** `Math.max(1, parseInt(page) || 1)`. */
  function EffectivePage(page: Option<int>): (r: int)
    ensures r >= 1
    ensures page == None || page == Some(0) ==> r == 1
    ensures page.Some? && page.value < 0 ==> r == 1
    ensures page.Some? && page.value >= 1 ==> r == page.value
  {
    var v := if page == None || page.value == 0 then 1 else page.value;
    if v < 1 then 1 else v
  }

  /** `Math.max(1, parseInt(limit) || 10)`: a zero limit falls back to the
      default of 10, a negative one is raised to 1. */
  function EffectiveLimit(limit: Option<int>): (r: int)
    ensures r >= 1
    ensures limit == None || limit == Some(0) ==> r == 10
    ensures limit.Some? && limit.value < 0 ==> r == 1
    ensures limit.Some? && limit.value >= 1 ==> r == limit.value
  {
    var v := if limit == None || limit.value == 0 then 10 else limit.value;
    if v < 1 then 1 else v
  }

  function Min(a: int, b: int): int { if a < b then a else b }
  function Max(a: int, b: int): int { if a < b then b else a }

  /** `(page - 1) * limit`: the index of the first item of a page. */
  function PageStart(page: int, limit: int): (start: nat)
    requires page >= 1 && limit >= 1
    ensures start == (page - 1) * limit
  {
    (page - 1) * limit
  }

  /** `items.slice(start, start + limit)` with `start = (page - 1) * limit`:
      the contiguous run of at most `limit` items from `start`, empty when
      `start` is past the end. */
  function PageSlice(items: seq<Record>, page: int, limit: int): (r: seq<Record>)
    requires page >= 1 && limit >= 1
    ensures |r| == Min(limit, Max(0, |items| - PageStart(page, limit)))
    ensures forall k :: 0 <= k < |r| ==> r[k] == items[PageStart(page, limit) + k]
  {
    var start := PageStart(page, limit);
    if start >= |items| then [] else items[start..Min(start + limit, |items|)]
  }

  /** `listProducts` over the snapshot `all` from `getAll`. The search filter
      reads every item's name, so one item without a string name makes it
      throw when a search is given; that error goes to the error handler. */
  function ListProducts(all: seq<Record>, q: Query): (r: Result<Response, Error>)
    ensures r.Err? <==> Given(q.search) && exists i :: 0 <= i < |all| && !HasStringName(all[i])
    ensures r.Err? ==> r.error.Unexpected?
    ensures r.Ok? ==> r.value.status == 200 && r.value.body.PageOf?
    ensures r.Ok? ==> r.value.body.total == |Filtered(all, q)|
    ensures r.Ok? ==> r.value.body.page == EffectivePage(q.page) && r.value.body.limit == EffectiveLimit(q.limit)
    ensures r.Ok? ==> r.value.body.data == PageSlice(Filtered(all, q), EffectivePage(q.page), EffectiveLimit(q.limit))
  {
    if Given(q.search) && exists i :: 0 <= i < |all| && !HasStringName(all[i]) then
      Err(Unexpected("TypeError: p.name.toLowerCase is not a function"))
    else
      var items := Filtered(all, q);
      var page := EffectivePage(q.page);
      var limit := EffectiveLimit(q.limit);
      Ok(Response(200, PageOf(|items|, page, limit, PageSlice(items, page, limit))))
  }

  /** `listProducts` as a handler: it lists the store's current contents,
      read through `getAll`. */
  method ListProductsIn(store: ProductStore, q: Query) returns (r: Result<Response, Error>)
    ensures r == ListProducts(store.products, q)
    ensures r.Ok? ==> r.value.body.total == |Filtered(store.products, q)|
  {
    var items := store.GetAll();
    r := ListProducts(items, q);
  }

  /** With a search term, exactly the items whose lower-cased name contains
      the lower-cased term are kept, in their original order. */
  lemma SearchSemantics(all: seq<Record>, term: string, x: Record, more: seq<Record>)
    ensures x in BySearch(all, term) <==> x in all && NameMatches(x, Lower(term))
    ensures BySearch(all + more, term) == BySearch(all, term) + BySearch(more, term)
  {
    KeepMembers(all, (p: Record) => NameMatches(p, Lower(term)), x);
    KeepConcat(all, more, (p: Record) => NameMatches(p, Lower(term)));
  }

  /** With a category, exactly the items whose category is that string are
      kept, in their original order. */
  lemma CategorySemantics(all: seq<Record>, c: string, x: Record, more: seq<Record>)
    ensures x in ByCategory(all, c) <==> x in all && InCategory(x, c)
    ensures ByCategory(all + more, c) == ByCategory(all, c) + ByCategory(more, c)
  {
    KeepMembers(all, (p: Record) => InCategory(p, c), x);
    KeepConcat(all, more, (p: Record) => InCategory(p, c));
  }

  /** The filtered set is the AND of the given filters, and the order in
      which the two filters run does not matter; with neither given it is
      the whole collection. */
  lemma FilteredSemantics(all: seq<Record>, q: Query, x: Record)
    ensures x in Filtered(all, q) <==>
      x in all
      && (Given(q.search) ==> NameMatches(x, Lower(q.search.value)))
      && (Given(q.category) ==> InCategory(x, q.category.value))
    ensures Given(q.search) && Given(q.category) ==>
      Filtered(all, q) == BySearch(ByCategory(all, q.category.value), q.search.value)
    ensures !Given(q.search) && !Given(q.category) ==> Filtered(all, q) == all
  {
    var afterSearch := if Given(q.search) then BySearch(all, q.search.value) else all;
    if Given(q.search) {
      SearchSemantics(all, q.search.value, x, []);
    }
    if Given(q.category) {
      CategorySemantics(afterSearch, q.category.value, x, []);
    }
    if Given(q.search) && Given(q.category) {
      KeepCommutes(all, (p: Record) => NameMatches(p, Lower(q.search.value)),
                        (p: Record) => InCategory(p, q.category.value));
    }
  }

  /** Searching is case-insensitive: "LAP" finds the laptop of the seed. */
  lemma SearchIgnoresCase()
    ensures Seed()[0] in BySearch(Seed(), "LAP")
  {
    var laptop := Seed()[0];
    assert Lower("LAP") == "lap";
    assert Lower(laptop["name"].s)[0..3] == "lap";
    assert OccursAt(Lower(laptop["name"].s), Lower("LAP"), 0);
    SearchSemantics(Seed(), "LAP", laptop, []);
  }

  /** Category matching is case-sensitive: "Electronics" finds nothing in
      the seed, while "electronics" finds its first two products. */
  lemma CategoryIsCaseSensitive()
    ensures ByCategory(Seed(), "Electronics") == []
    ensures ByCategory(Seed(), "electronics") == Seed()[..2]
  {
  }

  /** Past the last page the data is empty, and `total` still counts the
      whole filtered set. */
  lemma PastLastPage(all: seq<Record>, q: Query)
    requires ListProducts(all, q).Ok?
    requires PageStart(EffectivePage(q.page), EffectiveLimit(q.limit)) >= |Filtered(all, q)|
    ensures ListProducts(all, q).value.body.data == []
    ensures ListProducts(all, q).value.body.total == |Filtered(all, q)|
  {
  }

  /** The number of items whose category key is `k`. */
  function CategoryCount(s: seq<Record>, k: string): nat
  {
    CountIf(s, (p: Record) => CategoryKey(p) == k)
  }

  /** The sum of a tally's counts. */
  ghost function SumValues(m: map<string, nat>): nat
    decreases |m|
  {
    if m == map[] then 0
    else
      var k :| k in m;
      m[k] + SumValues(m - {k})
  }

  /** Any key can be taken out first. */
  lemma {:induction false} SumValuesRemove(m: map<string, nat>, k: string)
    requires k in m
    ensures SumValues(m) == m[k] + SumValues(m - {k})
    decreases |m|
  {
    var j :| j in m && SumValues(m) == m[j] + SumValues(m - {j});
    if j != k {
      assert |m - {j}| < |m| by { assert m.Keys - {j} < m.Keys; }
      SumValuesRemove(m - {j}, k);
      assert |m - {k}| < |m| by { assert m.Keys - {k} < m.Keys; }
      SumValuesRemove(m - {k}, j);
      assert m - {j} - {k} == m - {k} - {j};
    }
  }

  /** Adding one to a key (absent keys count as zero) adds one to the sum. */
  lemma SumValuesBump(m: map<string, nat>, k: string)
    ensures SumValues(Bump(m, k)) == SumValues(m) + 1
  {
    var m' := Bump(m, k);
    SumValuesRemove(m', k);
    if k in m {
      SumValuesRemove(m, k);
      assert m' - {k} == m - {k};
    } else {
      assert m' - {k} == m;
    }
  }

  /** Counting one more product adds one to its own key only. */
  lemma CategoryCountAppend(s: seq<Record>, x: Record, k: string)
    ensures CategoryCount(s + [x], k) == CategoryCount(s, k) + (if CategoryKey(x) == k then 1 else 0)
  {
    CountIfAppend(s, x, (p: Record) => CategoryKey(p) == k);
  }

  /** `counts` is the tally of the category keys of `seen`: it holds exactly
      the keys that occur, each with its number of occurrences, and its
      counts add up to the number of products seen. */
  ghost predicate IsTally(seen: seq<Record>, counts: map<string, nat>)
  {
    && (forall k :: CategoryCount(seen, k) == if k in counts then counts[k] else 0)
    && (forall k :: k in counts ==> counts[k] >= 1)
    && SumValues(counts) == |seen|
  }

  /** `acc[key] = (acc[key] || 0) + 1`. */
  function Bump(counts: map<string, nat>, key: string): map<string, nat>
  {
    counts[key := (if key in counts then counts[key] else 0) + 1]
  }

  /** One step of the tally: counting one more product bumps its key. */
  lemma TallyStep(seen: seq<Record>, x: Record, counts: map<string, nat>)
    requires IsTally(seen, counts)
    ensures IsTally(seen + [x], Bump(counts, CategoryKey(x)))
  {
    var key := CategoryKey(x);
    var next := Bump(counts, key);
    forall k ensures CategoryCount(seen + [x], k) == if k in next then next[k] else 0 {
      CategoryCountAppend(seen, x, k);
    }
    SumValuesBump(counts, key);
  }

  /** The `reduce` of `productStats`: one pass over the products, bumping
      the count of each product's category key. */
  method CountByCategory(items: seq<Record>) returns (counts: map<string, nat>)
    ensures IsTally(items, counts)
  {
    counts := map[];
    var i := 0;
    while i < |items|
      invariant 0 <= i <= |items|
      invariant IsTally(items[..i], counts)
    {
      assert items[..i + 1] == items[..i] + [items[i]];
      TallyStep(items[..i], items[i], counts);
      counts := Bump(counts, CategoryKey(items[i]));
      i := i + 1;
    }
    assert items[..i] == items;
  }

  /** `productStats`: `total` is the collection size and `counts` its tally
      of category keys. */
  method ProductStats(store: ProductStore) returns (r: Response)
    ensures r.status == 200 && r.body.Tally?
    ensures r.body.total == |store.products|
    ensures IsTally(store.products, r.body.counts)
  {
    var items := store.GetAll();
    var counts := CountByCategory(items);
    r := Response(200, Tally(|items|, counts));
  }

  /** On the seed: two electronics, one kitchen, nothing else. */
  lemma SeedCategoryCounts(k: string)
    ensures CategoryCount(Seed(), "electronics") == 2
    ensures CategoryCount(Seed(), "kitchen") == 1
    ensures k != "electronics" && k != "kitchen" ==> CategoryCount(Seed(), k) == 0
  {
    var s := Seed();
    assert s[1..][1..] == [s[2]];
    assert s[1..][1..][1..] == [];
  }

  /** A collection has exactly one tally. */
  lemma TallyUnique(items: seq<Record>, c1: map<string, nat>, c2: map<string, nat>)
    requires IsTally(items, c1) && IsTally(items, c2)
    ensures c1 == c2
  {
  }

  /** The counts of the seed's tally add up to its three products. */
  lemma SeedCountsSum()
    ensures SumValues(map["electronics" := 2, "kitchen" := 1]) == 3
  {
    var m: map<string, nat> := map["electronics" := 2, "kitchen" := 1];
    SumValuesRemove(m, "electronics");
    var rest := m - {"electronics"};
    assert rest == map["kitchen" := 1];
    SumValuesRemove(rest, "kitchen");
    assert rest - {"kitchen"} == map[];
  }

  /** The statistics of the seed: `{ electronics: 2, kitchen: 1 }`. With
      `TallyUnique`, this is the only tally `productStats` can answer. */
  lemma SeedTally()
    ensures IsTally(Seed(), map["electronics" := 2, "kitchen" := 1])
  {
    var m: map<string, nat> := map["electronics" := 2, "kitchen" := 1];
    forall k ensures CategoryCount(Seed(), k) == if k in m then m[k] else 0 {
      SeedCategoryCounts(k);
    }
    SeedCountsSum();
    assert |Seed()| == 3;
  }

  /** `getProductById`: the record, or NotFound. */
  method GetProductById(store: ProductStore, id: string) returns (r: Result<Response, Error>)
    ensures Find(store.products, id) == None ==> r == Err(ProductNotFound)
    ensures Find(store.products, id).Some? ==>
      r == Ok(Response(200, OneRecord(Find(store.products, id).value)))
  {
    var product := store.GetById(id);
    if product == None {
      return Err(ProductNotFound);
    }
    return Ok(Response(200, OneRecord(product.value)));
  }

  /** `Object.assign({ id: uuidv4() }, req.body)`: the body's fields, plus
      the generated id unless the body brings its own, which then wins. */
  function NewProduct(freshId: string, body: Record): (p: Record)
    ensures p.Keys == body.Keys + {"id"}
    ensures forall k :: k in body ==> p[k] == body[k]
    ensures "id" !in body ==> p["id"] == Str(freshId)
  {
    Assign(map["id" := Str(freshId)], body)
  }

  /** `createProduct`: appends the new record and answers 201 with it. */
  method CreateProduct(store: ProductStore, freshId: string, body: Record) returns (r: Response)
    modifies store
    ensures store.products == old(store.products) + [NewProduct(freshId, body)]
    ensures r == Response(201, OneRecord(NewProduct(freshId, body)))
  {
    var p := NewProduct(freshId, body);
    store.Create(p);
    r := Response(201, OneRecord(p));
  }

  /** `updateProduct`: NotFound with the store untouched, or the existing
      record overlaid with the body stored in place of every record with
      the id. */
  method UpdateProduct(store: ProductStore, id: string, body: Record) returns (r: Result<Response, Error>)
    modifies store
    ensures old(Find(store.products, id)) == None ==>
      r == Err(ProductNotFound) && store.products == old(store.products)
    ensures old(Find(store.products, id)).Some? ==>
      var merged := Assign(old(Find(store.products, id)).value, body);
      r == Ok(Response(200, OneRecord(merged)))
      && store.products == Replaced(old(store.products), id, merged)
  {
    var existing := store.GetById(id);
    if existing == None {
      return Err(ProductNotFound);
    }
    var updated := Assign(existing.value, body);
    store.Update(id, updated);
    return Ok(Response(200, OneRecord(updated)));
  }

  /** `deleteProduct`: NotFound with the store untouched, or every record
      with the id removed and an empty 204. */
  method DeleteProduct(store: ProductStore, id: string) returns (r: Result<Response, Error>)
    modifies store
    ensures old(Find(store.products, id)) == None ==>
      r == Err(ProductNotFound) && store.products == old(store.products)
    ensures old(Find(store.products, id)).Some? ==>
      r == Ok(Response(204, NoBody)) && store.products == Without(old(store.products), id)
  {
    var existing := store.GetById(id);
    if existing == None {
      return Err(ProductNotFound);
    }
    store.Remove(id);
    return Ok(Response(204, NoBody));
  }

  /** Create then get: a body without an id gets the fresh id, and a lookup
      of that id (new to the store) returns the record just created. */
  lemma CreateThenGet(s: seq<Record>, freshId: string, body: Record)
    requires "id" !in body && Find(s, freshId) == None
    ensures Find(s + [NewProduct(freshId, body)], freshId) == Some(NewProduct(freshId, body))
  {
    FindAfterCreate(s, NewProduct(freshId, body), freshId);
  }

  /** A body that brings the id of an existing product overrides the fresh
      id, and the store then holds a duplicate: lookups keep returning the
      older record and the id occurs once more. */
  lemma CreateWithTakenId(s: seq<Record>, freshId: string, body: Record, id: string)
    requires "id" in body && body["id"] == Str(id) && Find(s, id).Some?
    ensures HasId(NewProduct(freshId, body), id)
    ensures Find(s + [NewProduct(freshId, body)], id) == Find(s, id)
    ensures Occurrences(s + [NewProduct(freshId, body)], id) == Occurrences(s, id) + 1
  {
    CreateDuplicate(s, NewProduct(freshId, body), id);
  }

  /** Update then get: every body field wins, every other field keeps its
      old value, and a lookup of the path id returns the merged record
      unless the body changed the id, in which case it finds nothing. */
  lemma UpdateThenGet(s: seq<Record>, id: string, body: Record)
    requires Find(s, id).Some?
    ensures var merged := Assign(Find(s, id).value, body);
      && (forall k :: k in body ==> merged[k] == body[k])
      && (forall k :: k in Find(s, id).value && k !in body ==> merged[k] == Find(s, id).value[k])
      && ("id" !in body || body["id"] == Str(id) ==> Find(Replaced(s, id, merged), id) == Some(merged))
      && ("id" in body && body["id"] != Str(id) ==> Find(Replaced(s, id, merged), id) == None)
  {
    FindAfterUpdate(s, id, Assign(Find(s, id).value, body));
  }
}
