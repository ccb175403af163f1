/**
 * The product card: the star row drawn for a rating, and the add-to-cart button
 * with its confirmation toast.
 */
module ProductCard {
  import opened Wrappers
  import opened Catalog
  import opened CartStore

  /** One icon of the star row: filled, half-filled or grey. */
  datatype Star = Full | Half | Empty

  /** `Math.ceil` on a real. */
  function Ceil(r: real): (n: int)
    ensures (n - 1) as real < r <= n as real
  {
    -((-r).Floor)
  }

  /** `rating % 1 === 0`: the rating has no fractional part. */
  predicate IsWhole(r: real)
  {
    r == r.Floor as real
  }

  /** `n` copies of `s`; none when `n` is zero or negative, as a `for` loop bounded by `n` draws none. */
  function Repeat(s: Star, n: int): (r: seq<Star>)
    ensures |r| == if n <= 0 then 0 else n
    ensures forall k :: 0 <= k < |r| ==> r[k] == s
    decreases if n <= 0 then 0 else n
  {
    if n <= 0 then [] else Repeat(s, n - 1) + [s]
  }

  /** The row `renderStars` draws: `floor(rating)` full stars, a half star when the rating is fractional, then `5 - ceil(rating)` grey ones. */
  function StarRow(rating: real): seq<Star>
  {
    Repeat(Full, rating.Floor) + (if IsWhole(rating) then [] else [Half]) + Repeat(Empty, 5 - Ceil(rating))
  }

  /** `renderStars`, with its two loops and the half star between them. */
  method RenderStars(rating: real) returns (stars: seq<Star>)
    ensures stars == StarRow(rating)
  {
    stars := [];
    var fullStars := rating.Floor;
    var hasHalfStar := !IsWhole(rating);
    var i := 0;
    while i < fullStars
      invariant 0 <= i <= if fullStars < 0 then 0 else fullStars
      invariant stars == Repeat(Full, i)
    {
      stars := stars + [Full];
      i := i + 1;
    }
    assert stars == Repeat(Full, fullStars);
    if hasHalfStar {
      stars := stars + [Half];
    }
    ghost var prefix := stars;
    assert prefix == Repeat(Full, fullStars) + (if IsWhole(rating) then [] else [Half]);
    var emptyStars := 5 - Ceil(rating);
    i := 0;
    while i < emptyStars
      invariant 0 <= i <= if emptyStars < 0 then 0 else emptyStars
      invariant stars == prefix + Repeat(Empty, i)
    {
      stars := stars + [Empty];
      i := i + 1;
    }
    assert stars == prefix + Repeat(Empty, emptyStars);
  }

  /** The ceiling is the floor, plus one exactly when the rating is fractional. */
  lemma CeilFloor(r: real)
    ensures Ceil(r) == r.Floor + if IsWhole(r) then 0 else 1
  {
    var f := r.Floor;
    if IsWhole(r) {
      assert -r == (-f) as real;
      assert (-r).Floor == -f;
    } else {
      assert (-f - 1) as real < -r < (-f) as real;
      assert (-r).Floor == -f - 1;
    }
  }

  /** The position of a kind of star in the row. */
  function Rank(s: Star): nat
  {
    match s
    case Full => 0
    case Half => 1
    case Empty => 2
  }

  /** The row draws the stars in rank order: every full star before the half star, the half star before every grey one. */
  lemma StarsInRankOrder(rating: real)
    ensures var row := StarRow(rating);
      forall i, j :: 0 <= i < j < |row| ==> Rank(row[i]) <= Rank(row[j])
  {
    var a := Repeat(Full, rating.Floor);
    var b := if IsWhole(rating) then [] else [Half];
    var c := Repeat(Empty, 5 - Ceil(rating));
    var row := StarRow(rating);
    assert row == a + b + c;
    forall i, j | 0 <= i < j < |row|
      ensures Rank(row[i]) <= Rank(row[j])
    {
      if i < |a| {
        assert row[i] == Full;
      } else {
        assert j >= |a| + |b|;
        assert row[j] == c[j - |a| - |b|] == Empty;
      }
    }
  }

  /** How many stars of each kind the row holds. */
  function Count(row: seq<Star>, s: Star): nat
  {
    multiset(row)[s]
  }

  lemma CountConcat(x: seq<Star>, y: seq<Star>, s: Star)
    ensures Count(x + y, s) == Count(x, s) + Count(y, s)
  {
    assert multiset(x + y) == multiset(x) + multiset(y);
  }

  lemma RepeatCount(s: Star, n: int, t: Star)
    ensures Count(Repeat(s, n), t) == if s == t && n > 0 then n else 0
    decreases if n <= 0 then 0 else n
  {
    if n > 0 {
      RepeatCount(s, n - 1, t);
      assert multiset(Repeat(s, n)) == multiset(Repeat(s, n - 1)) + multiset{s};
    }
  }

  /**
   * A non-negative rating gets `floor(rating)` full stars, one half star exactly
   * when it is fractional, and `5 - ceil(rating)` grey stars when that is positive.
   */
  lemma StarCounts(rating: real)
    requires rating >= 0.0
    ensures Count(StarRow(rating), Full) == rating.Floor
    ensures Count(StarRow(rating), Half) == if IsWhole(rating) then 0 else 1
    ensures Count(StarRow(rating), Empty) == if Ceil(rating) < 5 then 5 - Ceil(rating) else 0
  {
    var a := Repeat(Full, rating.Floor);
    var b: seq<Star> := if IsWhole(rating) then [] else [Half];
    var c := Repeat(Empty, 5 - Ceil(rating));
    assert StarRow(rating) == a + b + c;
    CountConcat(a + b, c, Full);
    CountConcat(a + b, c, Half);
    CountConcat(a + b, c, Empty);
    CountConcat(a, b, Full);
    CountConcat(a, b, Half);
    CountConcat(a, b, Empty);
    RepeatCount(Full, rating.Floor, Full);
    RepeatCount(Full, rating.Floor, Half);
    RepeatCount(Full, rating.Floor, Empty);
    RepeatCount(Empty, 5 - Ceil(rating), Full);
    RepeatCount(Empty, 5 - Ceil(rating), Half);
    RepeatCount(Empty, 5 - Ceil(rating), Empty);
  }

  /** A rating between 0 and 5 always draws exactly five stars. */
  lemma FiveStarsInRange(rating: real)
    requires 0.0 <= rating <= 5.0
    ensures |StarRow(rating)| == 5
  {
    CeilFloor(rating);
  }

  /** The card: the product it shows and whether the "added to cart" toast is up. */
  class ProductCardView {
    const product: Product
    var showAlert: bool

    constructor (product: Product)
      ensures this.product == product && !showAlert
    {
      this.product := product;
      showAlert := false;
    }

    /** `handleAddToCart`: one unit of the product goes into the cart and the toast shows. */
    method HandleAddToCart(cart: Cart)
      modifies this, cart
      ensures showAlert
      ensures cart.lines == AddLine(old(cart.lines), product, 1)
      ensures QuantityOf(cart.lines, product.id) == Some(QuantityOf(old(cart.lines), product.id).GetOr(0) + 1)
      ensures old(cart.Valid()) ==> cart.Valid()
    {
      cart.AddToCart(product, 1);
      showAlert := true;
    }

    /** The toast's timer firing. */
    method HideAlert()
      modifies this
      ensures !showAlert
    {
      showAlert := false;
    }
  }
}
