/**
 * Synchronisation of the home page's filters with the address bar: `updateURL`
 * writes the non-default criteria as query parameters, and the page loader reads
 * `category`, `price`, `brand` and `search` back. Parameters are an ordered list of
 * key/value pairs; percent-encoding is not modelled.
 */
module UrlSync {
  import opened Wrappers
  import opened Text
  import opened Catalog
  import opened Filtering

  datatype Param = Param(key: string, value: string)

  /** URLSearchParams.get: the value of the first pair with this key, if any. */
  function Get(params: seq<Param>, key: string): Option<string>
    decreases |params|
  {
    if params == [] then None
    else if params[0].key == key then Some(params[0].value)
    else Get(params[1..], key)
  }

  /**
   * `get` answers with the first pair carrying the key: every earlier pair has
   * another key; it answers nothing exactly when no pair carries the key.
   */
  lemma {:induction false} GetFindsFirst(params: seq<Param>, key: string)
    ensures Get(params, key).None? <==> forall i :: 0 <= i < |params| ==> params[i].key != key
    ensures Get(params, key).Some? ==>
      exists i :: (0 <= i < |params| && params[i] == Param(key, Get(params, key).value) &&
        (forall j :: 0 <= j < i ==> params[j].key != key))
    decreases |params|
  {
    if params != [] && params[0].key != key {
      GetFindsFirst(params[1..], key);
      assert forall i :: 0 <= i < |params[1..]| ==> params[1..][i] == params[i + 1];
    }
    if params != [] && params[0].key != key && Get(params, key).Some? {
      var i :| 0 <= i < |params[1..]| && params[1..][i] == Param(key, Get(params, key).value) &&
        (forall j :: 0 <= j < i ==> params[1..][j].key != key);
      assert params[i + 1] == Param(key, Get(params, key).value);
      assert forall j :: 0 <= j < i + 1 ==> params[j].key != key by {
        forall j | 0 <= j < i + 1 ensures params[j].key != key {
          if j > 0 { assert params[j] == params[1..][j - 1]; }
        }
      }
    }
  }

  /** Looking a key up in a concatenation looks in the first part, then in the second. */
  lemma {:induction false} GetConcat(a: seq<Param>, b: seq<Param>, key: string)
    ensures Get(a + b, key) == if Get(a, key).Some? then Get(a, key) else Get(b, key)
    decreases |a|
  {
    if a == [] {
      assert a + b == b;
    } else {
      assert (a + b)[0] == a[0];
      assert (a + b)[1..] == a[1..] + b;
      GetConcat(a[1..], b, key);
    }
  }

  /** Looking a key up in four consecutive parts finds it in the first part that has it. */
  lemma GetConcat4(a: seq<Param>, b: seq<Param>, d: seq<Param>, e: seq<Param>, key: string)
    ensures Get(a + b + d + e, key) ==
      if Get(a, key).Some? then Get(a, key)
      else if Get(b, key).Some? then Get(b, key)
      else if Get(d, key).Some? then Get(d, key)
      else Get(e, key)
  {
    GetConcat(a + b + d, e, key);
    GetConcat(a + b, d, key);
    GetConcat(a, b, key);
  }

  /** The pairs without any pair for `key`. */
  function DropKey(params: seq<Param>, key: string): (r: seq<Param>)
    ensures forall k :: k != key ==> Get(r, k) == Get(params, k)
    ensures Get(r, key).None?
    decreases |params|
  {
    if params == [] then []
    else if params[0].key == key then DropKey(params[1..], key)
    else [params[0]] + DropKey(params[1..], key)
  }

  function ReplaceFirst(params: seq<Param>, key: string, value: string): (r: seq<Param>)
    requires Get(params, key).Some?
    ensures Get(r, key) == Some(value)
    ensures forall k :: k != key ==> Get(r, k) == Get(params, k)
    decreases |params|
  {
    if params[0].key == key then [Param(key, value)] + DropKey(params[1..], key)
    else [params[0]] + ReplaceFirst(params[1..], key, value)
  }

  /**
   * URLSearchParams.set: the first pair with the key gets the new value and the
   * others are dropped; a key not present yet is appended at the end.
   */
  function SetParam(params: seq<Param>, key: string, value: string): (r: seq<Param>)
    ensures Get(r, key) == Some(value)
    ensures forall k :: k != key ==> Get(r, k) == Get(params, k)
    ensures Get(params, key).None? ==> r == params + [Param(key, value)]
  {
    if Get(params, key).None? then
      var single := [Param(key, value)];
      assert single[1..] == [];
      GetConcat(params, single, key);
      assert forall k :: k != key ==> Get(params + single, k) == Get(params, k) by {
        forall k | k != key ensures Get(params + single, k) == Get(params, k) {
          GetConcat(params, single, k);
        }
      }
      params + single
    else
      ReplaceFirst(params, key, value)
  }

  /** The position of each parameter in the order `updateURL` sets them. */
  function KeyRank(key: string): nat
  {
    if key == "category" then 0
    else if key == "price" then 1
    else if key == "brand" then 2
    else if key == "search" then 3
    else 4
  }

  function Entry(present: bool, key: string, value: string): seq<Param>
  {
    if present then [Param(key, value)] else []
  }

  /** An entry holds no other key. */
  lemma EntryLacksOther(present: bool, key: string, value: string, other: string)
    requires key != other
    ensures Get(Entry(present, key, value), other).None?
  {
  }

  function First(selected: seq<string>): string
  {
    if |selected| > 0 then selected[0] else ""
  }

  /** The `price` value: the two bounds joined by a dash, as the template literal renders them. */
  function PriceText(r: PriceRange): string
  {
    IntText(r.lo) + "-" + IntText(r.hi)
  }

  /** The query parameters `updateURL` sets for the given criteria, in order. */
  function QueryOf(c: Criteria): seq<Param>
  {
    Entry(|c.categories| > 0, "category", First(c.categories))
    + Entry(c.priceRange.lo != 0 || c.priceRange.hi != 2000, "price", PriceText(c.priceRange))
    + Entry(|c.brands| > 0, "brand", First(c.brands))
    + Entry(c.searchQuery != "", "search", c.searchQuery)
  }

  /** The address `updateURL` pushes: `/` alone when there is no parameter. */
  datatype Href = Root | WithQuery(params: seq<Param>)

  function HrefOf(query: seq<Param>): (h: Href)
    ensures h.Root? <==> query == []
    ensures h.WithQuery? ==> h.params == query
  {
    if query == [] then Root else WithQuery(query)
  }

  predicate RanksIncrease(q: seq<Param>)
  {
    forall i, j :: 0 <= i < j < |q| ==> KeyRank(q[i].key) < KeyRank(q[j].key)
  }

  predicate RanksWithin(q: seq<Param>, lo: nat, hi: nat)
  {
    forall i :: 0 <= i < |q| ==> lo <= KeyRank(q[i].key) < hi
  }

  lemma RanksConcat(a: seq<Param>, b: seq<Param>, lo: nat, mid: nat, hi: nat)
    requires lo <= mid <= hi
    requires RanksIncrease(a) && RanksIncrease(b)
    requires RanksWithin(a, lo, mid) && RanksWithin(b, mid, hi)
    ensures RanksIncrease(a + b) && RanksWithin(a + b, lo, hi)
  {
    var q := a + b;
    forall i, j | 0 <= i < j < |q| ensures KeyRank(q[i].key) < KeyRank(q[j].key) {
      if j < |a| {
        assert q[i] == a[i] && q[j] == a[j];
      } else if i >= |a| {
        assert q[i] == b[i - |a|] && q[j] == b[j - |a|];
      } else {
        assert q[i] == a[i] && q[j] == b[j - |a|];
      }
    }
    forall i | 0 <= i < |q| ensures lo <= KeyRank(q[i].key) < hi {
      if i < |a| {
        assert q[i] == a[i];
        assert lo <= KeyRank(a[i].key) < mid;
      } else {
        assert q[i] == b[i - |a|];
        assert mid <= KeyRank(b[i - |a|].key) < hi;
      }
    }
  }

  /**
   * `updateURL` emits its parameters in the order category, price, brand, search,
   * each at most once and no other key.
   */
  lemma QueryKeysInOrder(c: Criteria)
    ensures RanksIncrease(QueryOf(c)) && RanksWithin(QueryOf(c), 0, 4)
  {
    var a := Entry(|c.categories| > 0, "category", First(c.categories));
    var b := Entry(c.priceRange.lo != 0 || c.priceRange.hi != 2000, "price", PriceText(c.priceRange));
    var d := Entry(|c.brands| > 0, "brand", First(c.brands));
    var e := Entry(c.searchQuery != "", "search", c.searchQuery);
    assert RanksWithin(a, 0, 1) && RanksWithin(b, 1, 2) && RanksWithin(d, 2, 3) && RanksWithin(e, 3, 4);
    RanksConcat(a, b, 0, 1, 2);
    RanksConcat(a + b, d, 0, 2, 3);
    RanksConcat(a + b + d, e, 0, 3, 4);
  }

  /**
   * Each parameter is present exactly when its criterion differs from the
   * default, and only the first selected category and brand are written.
   */
  lemma QueryValues(c: Criteria)
    ensures Get(QueryOf(c), "category") == if |c.categories| > 0 then Some(c.categories[0]) else None
    ensures Get(QueryOf(c), "price") ==
      if c.priceRange != DefaultPriceRange then Some(PriceText(c.priceRange)) else None
    ensures Get(QueryOf(c), "brand") == if |c.brands| > 0 then Some(c.brands[0]) else None
    ensures Get(QueryOf(c), "search") == if c.searchQuery != "" then Some(c.searchQuery) else None
  {
    var a := Entry(|c.categories| > 0, "category", First(c.categories));
    var b := Entry(c.priceRange.lo != 0 || c.priceRange.hi != 2000, "price", PriceText(c.priceRange));
    var d := Entry(|c.brands| > 0, "brand", First(c.brands));
    var e := Entry(c.searchQuery != "", "search", c.searchQuery);
    assert QueryOf(c) == a + b + d + e;
    GetConcat4(a, b, d, e, "category");
    GetConcat4(a, b, d, e, "price");
    GetConcat4(a, b, d, e, "brand");
    GetConcat4(a, b, d, e, "search");
  }

  /** The address is `/` exactly when every criterion has its default value. */
  lemma RootIffDefaults(c: Criteria)
    ensures HrefOf(QueryOf(c)) == Root <==> c == DefaultCriteria
  {
    QueryValues(c);
    if HrefOf(QueryOf(c)) == Root {
      assert QueryOf(c) == [];
      assert c.categories == [] && c.brands == [] && c.searchQuery == "";
      assert c.priceRange == DefaultPriceRange;
    }
  }

  /** JavaScript's Number on one part of the `price` value, which never holds a dash. */
  function ToNumber(s: string): (r: Option<int>)
    ensures r.Some? ==> r.value >= 0
  {
    if s == "" then Some(0)
    else if AllDigits(s) then Some(DigitsValue(s))
    else None
  }

  /**
   * `price.split('-').map(Number)` destructured into `[min, max]`: accepted only
   * when both are numbers (a missing second part is `undefined`, hence NaN).
   */
  function ParsePrice(v: string): (r: Option<PriceRange>)
    ensures r.Some? ==> r.value.lo >= 0 && r.value.hi >= 0
  {
    var parts := Split(v, '-');
    var min := ToNumber(parts[0]);
    var max := if |parts| >= 2 then ToNumber(parts[1]) else None;
    if min.Some? && max.Some? then Some(PriceRange(min.value, max.value)) else None
  }

  /** JavaScript truthiness of a `searchParams.get` result: present and non-empty. */
  predicate IsSet(param: Option<string>)
  {
    param.Some? && param.value != ""
  }

  /** The criteria after the loader has read the parameters on top of `c`. */
  function ApplyParams(c: Criteria, params: seq<Param>): Criteria
  {
    var category := Get(params, "category");
    var c1 := if IsSet(category) then c.(categories := [category.value]) else c;
    var price := Get(params, "price");
    var parsed := if IsSet(price) then ParsePrice(price.value) else None;
    var c2 := if parsed.Some? then c1.(priceRange := parsed.value) else c1;
    var brand := Get(params, "brand");
    var c3 := if IsSet(brand) then c2.(brands := [brand.value]) else c2;
    var search := Get(params, "search");
    if IsSet(search) then c3.(searchQuery := search.value) else c3
  }

  /** Non-negative bounds written by `updateURL` are read back unchanged. */
  lemma PriceTextReadsBack(r: PriceRange)
    requires r.lo >= 0 && r.hi >= 0
    ensures ParsePrice(PriceText(r)) == Some(r)
  {
    var lo, hi := NatText(r.lo), NatText(r.hi);
    NatTextReadsBack(r.lo);
    NatTextReadsBack(r.hi);
    assert '-' !in lo && '-' !in hi by {
      assert !IsDigit('-');
    }
    assert PriceText(r) == lo + ['-'] + hi;
    SplitAtFirst(lo, hi, '-');
    SplitWithoutSeparator(hi, '-');
    assert Split(PriceText(r), '-') == [lo, hi];
  }

  /** A `price` value without a dash has no second bound and is ignored. */
  lemma PriceWithoutDashIgnored(v: string)
    requires '-' !in v
    ensures ParsePrice(v) == None
  {
    SplitWithoutSeparator(v, '-');
  }

  /** A leading dash makes an empty first part, which Number reads as 0: `-500` gives `[0, 500]`. */
  lemma LeadingDashReadsAsZero(n: nat)
    ensures ParsePrice("-" + NatText(n)) == Some(PriceRange(0, n))
  {
    var t := NatText(n);
    NatTextReadsBack(n);
    assert '-' !in t by {
      assert !IsDigit('-');
    }
    assert "-" + t == [] + ['-'] + t;
    SplitAtFirst([], t, '-');
    SplitWithoutSeparator(t, '-');
  }

  /** A `price` value that does not parse leaves the price range as it was. */
  lemma MalformedPriceKeepsRange(c: Criteria, params: seq<Param>)
    requires Get(params, "price").Some? && ParsePrice(Get(params, "price").value).None?
    ensures ApplyParams(c, params).priceRange == c.priceRange
  {
  }

  /** The states the address can carry without loss. */
  predicate Restorable(c: Criteria)
  {
    && |c.categories| <= 1 && c.categories != [""]
    && |c.brands| <= 1 && c.brands != [""]
    && c.priceRange.lo >= 0 && c.priceRange.hi >= 0
  }

  /** What a fresh page can read from any address. */
  lemma ReadFromDefaultsIsRestorable(params: seq<Param>)
    ensures Restorable(ApplyParams(DefaultCriteria, params))
  {
  }

  /**
   * Writing the criteria to the address and reading them on a fresh page gives
   * them back exactly when at most one (non-empty) category and brand are
   * selected and both bounds are non-negative.
   */
  lemma RoundTrip(c: Criteria)
    ensures ApplyParams(DefaultCriteria, QueryOf(c)) == c <==> Restorable(c)
  {
    QueryValues(c);
    ReadFromDefaultsIsRestorable(QueryOf(c));
    if Restorable(c) {
      if c.priceRange != DefaultPriceRange {
        PriceTextReadsBack(c.priceRange);
      }
    }
  }

  /** The selection the address keeps: only its first value, unless that one is empty. */
  function FirstOnly(selected: seq<string>): seq<string>
  {
    if |selected| > 0 && selected[0] != "" then [selected[0]] else selected
  }

  /**
   * When the loader runs again on the address `updateURL` just wrote, every
   * selected category and brand after the first is dropped and nothing else
   * changes.
   */
  lemma ReloadKeepsFirstSelection(c: Criteria)
    requires c.priceRange.lo >= 0 && c.priceRange.hi >= 0
    ensures ApplyParams(c, QueryOf(c)) ==
      c.(categories := FirstOnly(c.categories), brands := FirstOnly(c.brands))
  {
    QueryValues(c);
    if c.priceRange != DefaultPriceRange {
      PriceTextReadsBack(c.priceRange);
    }
  }
}
