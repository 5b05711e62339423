/**
  The product filter endpoint (`pages/api/products.js`): it reads an optional
  "min-max" price range, rewrites the caller's selection into
  `properties.<name>` filters in place, collects the requested category, its
  children and its grandchildren, and selects the catalog products that match
  all three. The document store is replaced by values: the store's answer to
  the children lookup is the `fetched` sequence and the product collection is
  the `catalog` sequence.
 */
module ProductsApi {
  import opened Wrappers
  import opened Strings

  type Id = string

  /** Upper bound used when the request names none. */
  const MAX_SENTINEL: int := 99999999999999999999
  /** The selection key that carries the price range. */
  const RANGE_KEY: string := "Range"
  /** The prefix that turns a property name into a document path. */
  const PROPERTIES_PREFIX: string := "properties."

  /** A thrown JavaScript `TypeError`, or a store failure to cast a price bound. */
  datatype Error = TypeError | CastError

  // ---------------------------------------------------------------------------
  // Price range

  /** A price bound: a piece of the range text, or the default that replaces
      a missing or empty piece. */
  datatype Bound = Given(text: string) | Fallback(value: int)

  /** `range?.split('-')[index] || fallback`. */
  function RangePart(range: Option<string>, index: nat, fallback: int): (b: Bound)
    ensures b.Given? ==> b.text != [] && '-' !in b.text
    ensures b.Given? ==> range.Some? && index < |Split(range.value, '-')| && b.text == Split(range.value, '-')[index]
    ensures b.Fallback? ==> b.value == fallback
    ensures b.Fallback? ==> range.None? || index >= |Split(range.value, '-')| || Split(range.value, '-')[index] == []
  {
    match range
    case None => Fallback(fallback)
    case Some(s) =>
      var parts := Split(s, '-');
      if index < |parts| && parts[index] != [] then Given(parts[index]) else Fallback(fallback)
  }

  function MinBound(range: Option<string>): Bound {
    RangePart(range, 0, 0)
  }

  function MaxBound(range: Option<string>): Bound {
    RangePart(range, 1, MAX_SENTINEL)
  }

  /** The number the store compares prices with. */
  function BoundValue(b: Bound): (r: Result<int, Error>)
    ensures b.Fallback? ==> r == Ok(b.value)
    ensures b.Given? ==> (r.Ok? <==> IsNumeral(b.text))
  {
    match b
    case Fallback(v) => Ok(v)
    case Given(t) =>
      match ParseDecimal(t)
      case Some(n) => Ok(n)
      case None => Err(CastError)
  }

  /** A range "a-b" gives `a` and `b` as bounds; an empty side gives its default. */
  lemma RangeOfTwoParts(a: string, b: string)
    requires '-' !in a && '-' !in b
    ensures MinBound(Some(a + "-" + b)) == if a == [] then Fallback(0) else Given(a)
    ensures MaxBound(Some(a + "-" + b)) == if b == [] then Fallback(MAX_SENTINEL) else Given(b)
  {
    SplitAtSeparator(a, '-', b);
    SplitWithoutSeparator(b, '-');
    assert Split(a + "-" + b, '-') == [a, b];
  }

  /** A range without a dash has no upper bound; without a range there are no bounds. */
  lemma RangeOfOnePart(a: string)
    requires '-' !in a
    ensures MinBound(Some(a)) == if a == [] then Fallback(0) else Given(a)
    ensures MaxBound(Some(a)) == Fallback(MAX_SENTINEL)
    ensures MinBound(None) == Fallback(0) && MaxBound(None) == Fallback(MAX_SENTINEL)
  {
    SplitWithoutSeparator(a, '-');
  }

  /** A range printed as "m-n" from two whole numbers yields the bounds m and n. */
  lemma PrintedRangeBounds(m: nat, n: nat)
    ensures BoundValue(MinBound(Some(DecimalString(m) + "-" + DecimalString(n)))) == Ok(m)
    ensures BoundValue(MaxBound(Some(DecimalString(m) + "-" + DecimalString(n)))) == Ok(n)
  {
    DecimalRoundTrip(m);
    DecimalRoundTrip(n);
    var a, b := DecimalString(m), DecimalString(n);
    assert '-' !in a by {
      forall i | 0 <= i < |a| ensures a[i] != '-' { assert IsDigit(a[i]); }
    }
    assert '-' !in b by {
      forall i | 0 <= i < |b| ensures b[i] != '-' { assert IsDigit(b[i]); }
    }
    RangeOfTwoParts(a, b);
  }

  // ---------------------------------------------------------------------------
  // Rewriting the selection into property filters

  /** A selection entry: the string the caller sent, or the array the rewrite puts there. */
  datatype Value = Scalar(text: string) | List(items: seq<string>)

  /** The request's selection as the handler first sees it: every value a string. */
  function InitialQuery(body: map<string, string>): (q: map<string, Value>)
    ensures q.Keys == body.Keys
  {
    map k | k in body :: Scalar(body[k])
  }

  /** One pass of the rewrite loop on `key`: a non-range key adds
      `properties.<key>` holding its comma-split value, and the key itself is
      deleted. Splitting a missing value or an array throws. */
  function RewriteKey(q: map<string, Value>, key: string): (r: Result<map<string, Value>, Error>)
    ensures r.Ok? ==> key !in r.value
    ensures r.Err? ==> r.error == TypeError
  {
    if key == RANGE_KEY then Ok(q - {key})
    else if key in q && q[key].Scalar? then
      Ok(q[PROPERTIES_PREFIX + key := List(Split(q[key].text, ','))] - {key})
    else Err(TypeError)
  }

  /** The rewrite loop over the keys in the order they were enumerated. */
  function RewriteKeys(q: map<string, Value>, keys: seq<string>): (r: Result<map<string, Value>, Error>)
    ensures r.Err? ==> r.error == TypeError
    decreases |keys|
  {
    if keys == [] then Ok(q)
    else
      match RewriteKeys(q, keys[..|keys| - 1])
      case Err(e) => Err(e)
      case Ok(q') => RewriteKey(q', keys[|keys| - 1])
  }

  /** The filters the rewrite is meant to produce: `properties.k` holds the
      comma-split value of every key `k` other than the range. */
  function PropertyFilters(body: map<string, string>): map<string, Value> {
    PrefixInjective();
    map k | k in body && k != RANGE_KEY :: PROPERTIES_PREFIX + k := List(Split(body[k], ','))
  }

  /** No key occurs twice in `keys`, stated one key at a time from the end. */
  predicate Distinct(keys: seq<string>)
    decreases |keys|
  {
    |keys| == 0 || (keys[|keys| - 1] !in keys[..|keys| - 1] && Distinct(keys[..|keys| - 1]))
  }

  /** `keys` lists each member of `s` exactly once, as `Object.keys` does. */
  predicate Enumerates(keys: seq<string>, s: set<string>) {
    && Distinct(keys)
    && (forall k | k in s :: k in keys)
    && (forall i | 0 <= i < |keys| :: keys[i] in s)
  }

  /** No selection key is itself a property path. */
  predicate NoPropertyPathKey(body: map<string, string>) {
    forall k | k in body :: !StartsWith(k, PROPERTIES_PREFIX)
  }

  /** A map of the selection while it is being rewritten. */
  class QueryDocument {
    var fields: map<string, Value>

    constructor (body: map<string, string>)
      ensures fields == InitialQuery(body)
    {
      fields := InitialQuery(body);
    }

    /** The `Object.keys(query).forEach(...)` loop, applied in place. On a
        thrown error the remaining keys are left unprocessed. */
    method RewriteAll(keys: seq<string>) returns (outcome: Result<(), Error>)
      modifies this
      ensures outcome.Ok? <==> RewriteKeys(old(fields), keys).Ok?
      ensures outcome.Ok? ==> fields == RewriteKeys(old(fields), keys).value
      ensures outcome.Err? ==> RewriteKeys(old(fields), keys) == Err(outcome.error)
    {
      var i := 0;
      while i < |keys|
        invariant 0 <= i <= |keys|
        invariant RewriteKeys(old(fields), keys[..i]) == Ok(fields)
      {
        var key := keys[i];
        assert keys[..i + 1][..i] == keys[..i];
        if key != RANGE_KEY {
          if key in fields && fields[key].Scalar? {
            fields := fields[PROPERTIES_PREFIX + key := List(Split(fields[key].text, ','))];
          } else {
            RewriteErrorPersists(old(fields), keys, i + 1);
            return Err(TypeError);
          }
        }
        fields := fields - {key};
        i := i + 1;
      }
      assert keys[..i] == keys;
      return Ok(());
    }
  }

  /** Once a pass throws, the whole loop has thrown. */
  lemma {:induction false} RewriteErrorPersists(q: map<string, Value>, keys: seq<string>, n: nat)
    requires n <= |keys|
    requires RewriteKeys(q, keys[..n]).Err?
    ensures RewriteKeys(q, keys).Err?
    decreases |keys| - n
  {
    if n < |keys| {
      assert keys[..n + 1][..n] == keys[..n];
      RewriteErrorPersists(q, keys, n + 1);
    } else {
      assert keys[..n] == keys;
    }
  }

  lemma PrefixedKeyHasPrefix(k: string)
    ensures StartsWith(PROPERTIES_PREFIX + k, PROPERTIES_PREFIX)
    ensures (PROPERTIES_PREFIX + k)[|PROPERTIES_PREFIX|..] == k
  {
    assert (PROPERTIES_PREFIX + k)[..|PROPERTIES_PREFIX|] == PROPERTIES_PREFIX;
  }

  /** Distinct property names give distinct property paths. */
  lemma PrefixInjective()
    ensures forall a, b :: PROPERTIES_PREFIX + a == PROPERTIES_PREFIX + b ==> a == b
  {
    forall a, b | PROPERTIES_PREFIX + a == PROPERTIES_PREFIX + b ensures a == b {
      PrefixedKeyHasPrefix(a);
      PrefixedKeyHasPrefix(b);
    }
  }

  predicate IsPropertyPath(x: string) {
    StartsWith(x, PROPERTIES_PREFIX)
  }

  function PropertyName(x: string): string
    requires IsPropertyPath(x)
  {
    x[|PROPERTIES_PREFIX|..]
  }

  lemma PropertyPathOfName(x: string)
    requires IsPropertyPath(x)
    ensures x == PROPERTIES_PREFIX + PropertyName(x)
  {
  }

  /** `x` is the property path of a key the loop has already rewritten. */
  predicate RewrittenPath(body: map<string, string>, done: seq<string>, x: string) {
    IsPropertyPath(x) && PropertyName(x) in body && PropertyName(x) in done && PropertyName(x) != RANGE_KEY
  }

  /** One pass of the loop seen at one key `x`: the pass removes `key` and
      adds the property path of `key`, and leaves every other entry alone. */
  lemma RewriteKeyAt(q: map<string, Value>, key: string, x: string)
    requires key == RANGE_KEY || (key in q && q[key].Scalar?)
    ensures RewriteKey(q, key).Ok?
    ensures x in RewriteKey(q, key).value <==>
      x != key && (x in q || (key != RANGE_KEY && x == PROPERTIES_PREFIX + key))
    ensures key != RANGE_KEY && x == PROPERTIES_PREFIX + key ==>
      RewriteKey(q, key).value[x] == List(Split(q[key].text, ','))
    ensures x in q && x != key && (key == RANGE_KEY || x != PROPERTIES_PREFIX + key) ==>
      RewriteKey(q, key).value[x] == q[x]
  {
  }

  /** After the loop has passed over the keys `done`, `x` holds its original
      string if it is a key not yet reached, the split value of its property if
      it is the path of a key already reached, and is absent otherwise. */
  lemma {:induction false} RewriteDoneAt(body: map<string, string>, done: seq<string>, x: string)
    requires NoPropertyPathKey(body) && Distinct(done)
    requires forall i | 0 <= i < |done| :: done[i] in body
    ensures RewriteKeys(InitialQuery(body), done).Ok?
    ensures var q := RewriteKeys(InitialQuery(body), done).value;
      && (x in q <==> (x in body && x !in done) || RewrittenPath(body, done, x))
      && (x in body && x !in done ==> q[x] == Scalar(body[x]))
      && (RewrittenPath(body, done, x) ==> q[x] == List(Split(body[PropertyName(x)], ',')))
    decreases |done|
  {
    if |done| > 0 {
      var key := done[|done| - 1];
      var init := done[..|done| - 1];
      assert done == init + [key];
      RewriteDoneAt(body, init, x);
      RewriteDoneAt(body, init, key);
      var q := RewriteKeys(InitialQuery(body), init).value;
      RewriteKeyAt(q, key, x);
      PrefixedKeyHasPrefix(key);
      if IsPropertyPath(x) {
        PropertyPathOfName(x);
      }
    }
  }

  /** Membership in the intended filters: exactly the paths of the non-range keys. */
  lemma PropertyFiltersAt(body: map<string, string>, x: string)
    ensures x in PropertyFilters(body) <==>
      IsPropertyPath(x) && PropertyName(x) in body && PropertyName(x) != RANGE_KEY
    ensures x in PropertyFilters(body) ==>
      PropertyFilters(body)[x] == List(Split(body[PropertyName(x)], ','))
  {
    if IsPropertyPath(x) {
      PropertyPathOfName(x);
    }
    forall k | k in body && k != RANGE_KEY && x == PROPERTIES_PREFIX + k
      ensures IsPropertyPath(x) && PropertyName(x) == k
    {
      PrefixedKeyHasPrefix(k);
    }
  }

  /** The rewrite loop and the intended filters agree at every key. */
  lemma RewriteAllAt(body: map<string, string>, keys: seq<string>, x: string)
    requires Enumerates(keys, body.Keys) && NoPropertyPathKey(body)
    ensures RewriteKeys(InitialQuery(body), keys).Ok?
    ensures x in RewriteKeys(InitialQuery(body), keys).value <==> x in PropertyFilters(body)
    ensures x in PropertyFilters(body) ==> RewriteKeys(InitialQuery(body), keys).value[x] == PropertyFilters(body)[x]
  {
    RewriteDoneAt(body, keys, x);
    PropertyFiltersAt(body, x);
  }

  /** When no selection key is already a property path, the rewrite loop
      leaves exactly the property filters, whatever order the keys come in. */
  lemma RewriteBuildsPropertyFilters(body: map<string, string>, keys: seq<string>)
    requires Enumerates(keys, body.Keys) && NoPropertyPathKey(body)
    ensures RewriteKeys(InitialQuery(body), keys) == Ok(PropertyFilters(body))
  {
    RewriteAllAt(body, keys, "");
    var q := RewriteKeys(InitialQuery(body), keys).value;
    var p := PropertyFilters(body);
    forall x ensures (x in q <==> x in p) && (x in p ==> q[x] == p[x]) {
      RewriteAllAt(body, keys, x);
    }
    assert q == p;
  }

  /** What the rewrite leaves, key by key: no original key and no range
      filter survive, and each other key `k` becomes `properties.k` holding
      the comma-split value. */
  lemma PropertyFiltersShape(body: map<string, string>)
    requires NoPropertyPathKey(body)
    ensures forall k | k in body :: k !in PropertyFilters(body)
    ensures PROPERTIES_PREFIX + RANGE_KEY !in PropertyFilters(body)
    ensures forall k | k in body && k != RANGE_KEY ::
      PROPERTIES_PREFIX + k in PropertyFilters(body) &&
      PropertyFilters(body)[PROPERTIES_PREFIX + k] == List(Split(body[k], ','))
  {
    forall k | k in body ensures k !in PropertyFilters(body) {
      PropertyFiltersAt(body, k);
    }
    PropertyFiltersAt(body, PROPERTIES_PREFIX + RANGE_KEY);
    PrefixedKeyHasPrefix(RANGE_KEY);
    forall k | k in body && k != RANGE_KEY
      ensures PROPERTIES_PREFIX + k in PropertyFilters(body) &&
        PropertyFilters(body)[PROPERTIES_PREFIX + k] == List(Split(body[k], ','))
    {
      PropertyFiltersAt(body, PROPERTIES_PREFIX + k);
      PrefixedKeyHasPrefix(k);
    }
  }

  /** A selection key that already is a property path makes the loop depend
      on key order: rewriting "a" first overwrites "properties.a" with an
      array, whose `split` then throws; the other order succeeds and leaves
      both paths. */
  lemma PropertyPathKeyCollision()
    ensures var body := map["a" := "x", "properties.a" := "y"];
      && RewriteKeys(InitialQuery(body), ["a", "properties.a"]) == Err(TypeError)
      && RewriteKeys(InitialQuery(body), ["properties.a", "a"]) ==
           Ok(map["properties.properties.a" := List(["y"]), "properties.a" := List(["x"])])
  {
    var body := map["a" := "x", "properties.a" := "y"];
    var q := InitialQuery(body);
    SplitWithoutSeparator("x", ',');
    SplitWithoutSeparator("y", ',');
    assert ["a", "properties.a"][..1] == ["a"];
    assert ["properties.a", "a"][..1] == ["properties.a"];
    assert "a" != "properties.a";
    assert "properties.a" != "properties.properties.a";
    assert PROPERTIES_PREFIX + "a" == "properties.a";
    assert PROPERTIES_PREFIX + "properties.a" == "properties.properties.a";
    assert q["a"] == Scalar("x") && q["properties.a"] == Scalar("y");
    var first := RewriteKeys(q, ["a"]);
    assert first == RewriteKey(q, "a");
    assert first.value["properties.a"] == List(["x"]);
    var second := RewriteKeys(q, ["properties.a"]);
    assert second == RewriteKey(q, "properties.a");
    assert second.value == map["a" := Scalar("x"), "properties.properties.a" := List(["y"])];
    assert RewriteKeys(q, ["properties.a", "a"]) == RewriteKey(second.value, "a");
    assert RewriteKey(second.value, "a").value ==
      map["properties.properties.a" := List(["y"]), "properties.a" := List(["x"])];
  }

  // ---------------------------------------------------------------------------
  // Collecting the category ids

  /** A category record: its id and its child ids, which may be absent. */
  datatype Category = Category(id: Id, childrens: Option<seq<Id>>)

  /** The ids the loop pushes for one fetched child: none when it has no
      `childrens` field. */
  function ChildIds(c: Category): seq<Id> {
    match c.childrens
    case Some(ids) => ids
    case None => []
  }

  /** The children of the fetched children, concatenated in fetch order. */
  function GrandchildIds(fetched: seq<Category>): seq<Id>
    decreases |fetched|
  {
    if fetched == [] then []
    else GrandchildIds(fetched[..|fetched| - 1]) + ChildIds(fetched[|fetched| - 1])
  }

  /** The number of grandchild ids the fetched children carry. */
  function ChildCount(fetched: seq<Category>): nat
    decreases |fetched|
  {
    if fetched == [] then 0
    else ChildCount(fetched[..|fetched| - 1]) + |ChildIds(fetched[|fetched| - 1])|
  }

  /** The `categories` array: the requested id, its children, then the
      children of each fetched child. Spreading an absent child list throws. */
  function CategoryIds(category: Category, fetched: seq<Category>): Result<seq<Id>, Error> {
    match category.childrens
    case None => Err(TypeError)
    case Some(children) => Ok([category.id] + children + GrandchildIds(fetched))
  }

  /** Lines 23-33: the array literal, then one `push` per grandchild id. */
  method CollectCategories(category: Category, fetched: seq<Category>) returns (r: Result<seq<Id>, Error>)
    ensures r == CategoryIds(category, fetched)
  {
    if category.childrens.None? {
      return Err(TypeError);
    }
    var categories := [category.id] + category.childrens.value;
    var i := 0;
    while i < |fetched|
      invariant 0 <= i <= |fetched|
      invariant categories == [category.id] + category.childrens.value + GrandchildIds(fetched[..i])
    {
      var cat := fetched[i];
      var pushed := [];
      if cat.childrens.Some? {
        var ids := cat.childrens.value;
        var j := 0;
        while j < |ids|
          invariant 0 <= j <= |ids|
          invariant pushed == ids[..j]
          invariant categories == [category.id] + category.childrens.value + GrandchildIds(fetched[..i]) + pushed
        {
          categories := categories + [ids[j]];
          pushed := pushed + [ids[j]];
          j := j + 1;
        }
        assert ids[..j] == ids;
      }
      assert fetched[..i + 1][..i] == fetched[..i];
      i := i + 1;
    }
    assert fetched[..i] == fetched;
    return Ok(categories);
  }

  lemma {:induction false} GrandchildCount(fetched: seq<Category>)
    ensures |GrandchildIds(fetched)| == ChildCount(fetched)
    decreases |fetched|
  {
    if fetched != [] {
      GrandchildCount(fetched[..|fetched| - 1]);
    }
  }

  /** Nothing is deduplicated: one id per requested category, per child and
      per child of a fetched child. */
  lemma CategoryIdsLength(category: Category, fetched: seq<Category>)
    requires category.childrens.Some?
    ensures CategoryIds(category, fetched).Ok?
    ensures |CategoryIds(category, fetched).value| == 1 + |category.childrens.value| + ChildCount(fetched)
    ensures CategoryIds(category, fetched).value[0] == category.id
    ensures CategoryIds(category, fetched).value[1..1 + |category.childrens.value|] == category.childrens.value
  {
    GrandchildCount(fetched);
    var ids := CategoryIds(category, fetched).value;
    assert ids[1..1 + |category.childrens.value|] == category.childrens.value;
  }

  lemma {:induction false} GrandchildMember(fetched: seq<Category>, x: Id)
    ensures x in GrandchildIds(fetched) <==> exists i :: 0 <= i < |fetched| && x in ChildIds(fetched[i])
    decreases |fetched|
  {
    if fetched != [] {
      var init := fetched[..|fetched| - 1];
      GrandchildMember(init, x);
      if exists i :: 0 <= i < |fetched| && x in ChildIds(fetched[i]) {
        var i :| 0 <= i < |fetched| && x in ChildIds(fetched[i]);
        if i < |init| {
          assert init[i] == fetched[i];
        }
      }
      if exists i :: 0 <= i < |init| && x in ChildIds(init[i]) {
        var i :| 0 <= i < |init| && x in ChildIds(init[i]);
        assert fetched[i] == init[i];
      }
    }
  }

  /** `fetched` is the store's answer to looking up `children`: records of
      the store whose ids are among `children`, one for each child the store
      holds, in any order. */
  predicate FetchedChildren(store: map<Id, Category>, children: seq<Id>, fetched: seq<Category>) {
    && (forall i | 0 <= i < |fetched| ::
          fetched[i].id in children && fetched[i].id in store && store[fetched[i].id] == fetched[i])
    && (forall c | c in children && c in store :: store[c] in fetched)
  }

  /** The collection goes exactly two levels down: an id is collected iff it
      is the requested category, one of its children, or a child of a child;
      deeper descendants are not reached. */
  lemma CategoryIdsTwoLevels(store: map<Id, Category>, category: Category, fetched: seq<Category>, x: Id)
    requires category.childrens.Some?
    requires FetchedChildren(store, category.childrens.value, fetched)
    ensures CategoryIds(category, fetched).Ok?
    ensures x in CategoryIds(category, fetched).value <==>
      || x == category.id
      || x in category.childrens.value
      || exists c :: c in category.childrens.value && c in store && x in ChildIds(store[c])
  {
    GrandchildMember(fetched, x);
    var children := category.childrens.value;
    if exists c :: c in children && c in store && x in ChildIds(store[c]) {
      var c :| c in children && c in store && x in ChildIds(store[c]);
      var i :| 0 <= i < |fetched| && fetched[i] == store[c];
      assert x in ChildIds(fetched[i]);
    }
    if exists i :: 0 <= i < |fetched| && x in ChildIds(fetched[i]) {
      var i :| 0 <= i < |fetched| && x in ChildIds(fetched[i]);
      var c := fetched[i].id;
      assert c in children && c in store && x in ChildIds(store[c]);
    }
  }

  // ---------------------------------------------------------------------------
  // The product query

  /** A catalog product: its category, base price, optional sale price and
      sparse property map. */
  datatype Product = Product(category: Id, price: int, salePrice: Option<int>, properties: map<string, string>)

  /** `{field: {$gte: bound}}`: a missing field never matches. */
  predicate AtLeast(field: Option<int>, bound: int) {
    field.Some? && field.value >= bound
  }

  /** `{field: {$lte: bound}}`: a missing field never matches. */
  predicate AtMost(field: Option<int>, bound: int) {
    field.Some? && field.value <= bound
  }

  /** The `$and` of two `$or`s: each bound is met by the sale price or by
      the base price, independently of the other bound. */
  predicate PriceTest(p: Product, min: int, max: int) {
    && (AtLeast(p.salePrice, min) || p.price >= min)
    && (AtMost(p.salePrice, max) || p.price <= max)
  }

  /** The price a shopper pays: the sale price when there is one. */
  function EffectivePrice(p: Product): int {
    if p.salePrice.Some? then p.salePrice.value else p.price
  }

  /** The product's value at a document path: a `properties.<name>` path
      reads the named property, if the product has it. */
  function PathValue(p: Product, path: string): (v: Option<string>)
    ensures v.Some? <==> IsPropertyPath(path) && PropertyName(path) in p.properties
  {
    if IsPropertyPath(path) && PropertyName(path) in p.properties
    then Some(p.properties[PropertyName(path)])
    else None
  }

  /** The path `properties.k` reads property `k`; any other path reads nothing. */
  lemma PathValueOfProperty(p: Product, k: string, path: string)
    ensures PathValue(p, PROPERTIES_PREFIX + k) == if k in p.properties then Some(p.properties[k]) else None
    ensures !IsPropertyPath(path) ==> PathValue(p, path) == None
  {
    PrefixedKeyHasPrefix(k);
  }

  /** One spread query condition: a string matches by equality and an array
      by membership. */
  predicate ConditionHolds(p: Product, path: string, v: Value) {
    match PathValue(p, path)
    case None => false
    case Some(actual) =>
      match v
      case Scalar(t) => actual == t
      case List(items) => actual in items
  }

  /** The filter passed to `Product.find` at lines 34-42. */
  predicate Matches(p: Product, categories: seq<Id>, filters: map<string, Value>, min: int, max: int) {
    && p.category in categories
    && (forall path | path in filters :: ConditionHolds(p, path, filters[path]))
    && PriceTest(p, min, max)
  }

  /** The products of `catalog` the filter selects, in catalog order. */
  function Selected(catalog: seq<Product>, categories: seq<Id>, filters: map<string, Value>, min: int, max: int): (r: seq<Product>)
    ensures |r| <= |catalog|
    ensures forall p :: p in r <==> p in catalog && Matches(p, categories, filters, min, max)
    decreases |catalog|
  {
    if catalog == [] then []
    else
      var rest := Selected(catalog[..|catalog| - 1], categories, filters, min, max);
      var last := catalog[|catalog| - 1];
      assert catalog == catalog[..|catalog| - 1] + [last];
      if Matches(last, categories, filters, min, max) then rest + [last] else rest
  }

  /** Without a sale price a product passes iff its price lies in [min, max]. */
  lemma PriceTestWithoutSale(p: Product, min: int, max: int)
    requires p.salePrice.None?
    ensures PriceTest(p, min, max) <==> min <= p.price <= max
  {
  }

  /** A sale price within [min, max] passes, whatever the base price. */
  lemma PriceTestOnSale(p: Product, min: int, max: int)
    requires p.salePrice.Some? && min <= p.salePrice.value <= max
    ensures PriceTest(p, min, max)
  {
  }

  /** Every product whose effective price lies in [min, max] passes; the
      converse fails: a sale price of 40 and a price of 200 pass [60, 100]. */
  lemma PriceTestAdmitsEffectivePrice(p: Product, min: int, max: int)
    ensures min <= EffectivePrice(p) <= max ==> PriceTest(p, min, max)
    ensures var q := Product(p.category, 200, Some(40), p.properties);
      PriceTest(q, 60, 100) && !(60 <= EffectivePrice(q) <= 100)
  {
  }

  // ---------------------------------------------------------------------------
  // The handler

  /** `query["Range"]`, read before the rewrite deletes it. */
  function RangeOf(body: map<string, string>): Option<string> {
    if RANGE_KEY in body then Some(body[RANGE_KEY]) else None
  }

  /** The endpoint's answer: the selected products, or the error it throws
      first (the rewrite, the child-list spread, then the store's cast of the
      price bounds). */
  function Response(body: map<string, string>, keys: seq<string>, category: Category,
                    fetched: seq<Category>, catalog: seq<Product>): Result<seq<Product>, Error>
  {
    var range := RangeOf(body);
    match RewriteKeys(InitialQuery(body), keys)
    case Err(e) => Err(e)
    case Ok(filters) =>
      match CategoryIds(category, fetched)
      case Err(e) => Err(e)
      case Ok(categories) =>
        match BoundValue(MinBound(range))
        case Err(e) => Err(e)
        case Ok(min) =>
          match BoundValue(MaxBound(range))
          case Err(e) => Err(e)
          case Ok(max) => Ok(Selected(catalog, categories, filters, min, max))
  }

  /** `handler`: `body` is `req.body.query`, `keys` its `Object.keys` order,
      `fetched` the store's children lookup and `catalog` the product collection. */
  method Handle(body: map<string, string>, keys: seq<string>, category: Category,
                fetched: seq<Category>, catalog: seq<Product>) returns (response: Result<seq<Product>, Error>)
    ensures response == Response(body, keys, category, fetched, catalog)
  {
    var range := RangeOf(body);
    var min := MinBound(range);
    var max := MaxBound(range);
    var query := new QueryDocument(body);
    var rewritten := query.RewriteAll(keys);
    if rewritten.Err? {
      return Err(rewritten.error);
    }
    var categories := CollectCategories(category, fetched);
    if categories.Err? {
      return Err(categories.error);
    }
    var low := BoundValue(min);
    if low.Err? {
      return Err(low.error);
    }
    var high := BoundValue(max);
    if high.Err? {
      return Err(high.error);
    }
    return Ok(Selected(catalog, categories.value, query.fields, low.value, high.value));
  }

  /** The endpoint's contract for a well-formed request: a product is
      returned iff it is in the catalog, in one of the collected categories,
      carries every selected property with one of the comma-separated values
      asked for, and passes the price test. */
  lemma ResponseSelectsMatchingProducts(body: map<string, string>, keys: seq<string>, category: Category,
                                        fetched: seq<Category>, catalog: seq<Product>, p: Product)
    requires Enumerates(keys, body.Keys) && NoPropertyPathKey(body)
    requires category.childrens.Some?
    requires BoundValue(MinBound(RangeOf(body))).Ok? && BoundValue(MaxBound(RangeOf(body))).Ok?
    ensures Response(body, keys, category, fetched, catalog).Ok?
    ensures p in Response(body, keys, category, fetched, catalog).value <==>
      && p in catalog
      && p.category in CategoryIds(category, fetched).value
      && (forall k | k in body && k != RANGE_KEY :: k in p.properties && p.properties[k] in Split(body[k], ','))
      && PriceTest(p, BoundValue(MinBound(RangeOf(body))).value, BoundValue(MaxBound(RangeOf(body))).value)
  {
    RewriteBuildsPropertyFilters(body, keys);
    var filters := PropertyFilters(body);
    var conditions := forall path | path in filters :: ConditionHolds(p, path, filters[path]);
    var selection := forall k | k in body && k != RANGE_KEY :: k in p.properties && p.properties[k] in Split(body[k], ',');
    if conditions {
      forall k | k in body && k != RANGE_KEY
        ensures k in p.properties && p.properties[k] in Split(body[k], ',')
      {
        PropertyFiltersShape(body);
        PrefixedKeyHasPrefix(k);
        assert ConditionHolds(p, PROPERTIES_PREFIX + k, filters[PROPERTIES_PREFIX + k]);
      }
    }
    if selection {
      forall path | path in filters ensures ConditionHolds(p, path, filters[path]) {
        PropertyFiltersAt(body, path);
      }
    }
  }
}
