/**
 * The shared cart the cart page and the product cards act on. Its own source
 * (the cart context) is not part of this model: the three operations follow the
 * behaviour the cart page and the product cards rely on, with lines kept in a sequence keyed by product id.
 */
module CartStore {
  import opened Wrappers
  import opened Seqs
  import opened Catalog

  /** One cart line: the product as it was added and how many of it. */
  datatype Line = Line(product: Product, quantity: int)

  /** At most one line per product id. */
  predicate UniqueIds(lines: seq<Line>)
  {
    forall i, j :: 0 <= i < j < |lines| ==> lines[i].product.id != lines[j].product.id
  }

  /** Every line holds at least one unit. */
  predicate Positive(lines: seq<Line>)
  {
    forall l :: l in lines ==> l.quantity >= 1
  }

  predicate WellFormed(lines: seq<Line>)
  {
    UniqueIds(lines) && Positive(lines)
  }

  /** The quantity on the line for `id`, if there is one. */
  function QuantityOf(lines: seq<Line>, id: int): Option<int>
    decreases |lines|
  {
    if lines == [] then None
    else if lines[0].product.id == id then Some(lines[0].quantity)
    else QuantityOf(lines[1..], id)
  }

  /** An id has no quantity exactly when no line carries it. */
  lemma {:induction false} QuantityOfAbsent(lines: seq<Line>, id: int)
    ensures QuantityOf(lines, id).None? <==> forall i :: 0 <= i < |lines| ==> lines[i].product.id != id
    decreases |lines|
  {
    if lines != [] {
      QuantityOfAbsent(lines[1..], id);
      assert forall i :: 1 <= i < |lines| ==> lines[i] == lines[1..][i - 1];
    }
  }

  /** `removeFromCart`: the lines without the line for `id`, in the same order. */
  function RemoveLine(lines: seq<Line>, id: int): (r: seq<Line>)
    ensures forall l :: l in r <==> l in lines && l.product.id != id
    ensures IsSubsequence(r, lines)
    ensures UniqueIds(lines) ==> UniqueIds(r)
    decreases |lines|
  {
    if lines == [] then []
    else
      var rest := RemoveLine(lines[1..], id);
      if lines[0].product.id == id then
        assert rest == [] || IsSubsequence(rest, lines[1..]);
        rest
      else
        var r := [lines[0]] + rest;
        assert r[0] == lines[0] && r[1..] == rest;
        assert UniqueIds(lines) ==> UniqueIds(r) by {
          if UniqueIds(lines) {
            forall i, j | 0 <= i < j < |r| ensures r[i].product.id != r[j].product.id {
              assert r[j] in rest;
              if i == 0 {
                var k :| 0 <= k < |lines[1..]| && lines[1..][k] == r[j];
                assert lines[k + 1] == r[j];
              }
            }
          }
        }
        r
  }

  /** `updateQuantity`: the line for `id` gets quantity `q`; no other line changes. */
  function SetQuantity(lines: seq<Line>, id: int, q: int): (r: seq<Line>)
    ensures |r| == |lines|
    ensures forall i :: 0 <= i < |r| ==>
      r[i].product == lines[i].product &&
      r[i].quantity == (if lines[i].product.id == id then q else lines[i].quantity)
    decreases |lines|
  {
    if lines == [] then []
    else
      var l := lines[0];
      [if l.product.id == id then Line(l.product, q) else l] + SetQuantity(lines[1..], id, q)
  }

  /** `addToCart`: a new line with `q` units, or `q` more units on the existing line. */
  function AddLine(lines: seq<Line>, product: Product, q: int): seq<Line>
  {
    var current := QuantityOf(lines, product.id);
    if current.Some? then SetQuantity(lines, product.id, current.value + q) else lines + [Line(product, q)]
  }

  /** With unique ids, the quantity of a line's id is that line's quantity. */
  lemma {:induction false} QuantityAtLine(lines: seq<Line>, i: nat)
    requires UniqueIds(lines) && i < |lines|
    ensures QuantityOf(lines, lines[i].product.id) == Some(lines[i].quantity)
    decreases |lines|
  {
    if i > 0 {
      assert lines[1..][i - 1] == lines[i];
      QuantityAtLine(lines[1..], i - 1);
    }
  }

  /** With unique ids, removal drops exactly one line when the id is present and none otherwise. */
  lemma {:induction false} RemoveLineLength(lines: seq<Line>, id: int)
    requires UniqueIds(lines)
    ensures |RemoveLine(lines, id)| == if QuantityOf(lines, id).Some? then |lines| - 1 else |lines|
    decreases |lines|
  {
    if lines != [] {
      RemoveLineLength(lines[1..], id);
      if lines[0].product.id == id {
        QuantityOfAbsent(lines[1..], id);
        assert forall k :: 0 <= k < |lines[1..]| ==> lines[1..][k] == lines[k + 1];
      }
    }
  }

  /** In a cart of positive lines every quantity found is positive. */
  lemma {:induction false} QuantityOfPositive(lines: seq<Line>, id: int)
    requires Positive(lines)
    ensures QuantityOf(lines, id).Some? ==> QuantityOf(lines, id).value >= 1
    decreases |lines|
  {
    if lines != [] && lines[0].product.id != id {
      assert forall l :: l in lines[1..] ==> l in lines;
      QuantityOfPositive(lines[1..], id);
    }
  }

  /** After removal there is no line for the id and every other id keeps its quantity. */
  lemma {:induction false} RemoveLineQuantities(lines: seq<Line>, id: int)
    ensures QuantityOf(RemoveLine(lines, id), id) == None
    ensures forall other :: other != id ==> QuantityOf(RemoveLine(lines, id), other) == QuantityOf(lines, other)
    decreases |lines|
  {
    if lines != [] {
      RemoveLineQuantities(lines[1..], id);
      var rest := RemoveLine(lines[1..], id);
      if lines[0].product.id != id {
        var r := [lines[0]] + rest;
        assert RemoveLine(lines, id) == r;
        assert r[0] == lines[0] && r[1..] == rest;
      }
    }
  }

  /** Setting a quantity touches only the line for `id`, and keeps the ids unique. */
  lemma {:induction false} SetQuantityQuantities(lines: seq<Line>, id: int, q: int)
    ensures QuantityOf(SetQuantity(lines, id, q), id) == if QuantityOf(lines, id).Some? then Some(q) else None
    ensures forall other :: other != id ==> QuantityOf(SetQuantity(lines, id, q), other) == QuantityOf(lines, other)
    ensures UniqueIds(lines) ==> UniqueIds(SetQuantity(lines, id, q))
    ensures Positive(lines) && q >= 1 ==> Positive(SetQuantity(lines, id, q))
    decreases |lines|
  {
    var r := SetQuantity(lines, id, q);
    if lines != [] {
      SetQuantityQuantities(lines[1..], id, q);
      assert r[1..] == SetQuantity(lines[1..], id, q);
    }
    if Positive(lines) && q >= 1 {
      forall l | l in r ensures l.quantity >= 1 {
        var i :| 0 <= i < |r| && r[i] == l;
        assert lines[i] in lines;
      }
    }
  }

  /** Appending a line for a new id gives that id its quantity and changes no other. */
  lemma AppendLineQuantities(lines: seq<Line>, product: Product, q: int)
    requires QuantityOf(lines, product.id) == None
    ensures QuantityOf(lines + [Line(product, q)], product.id) == Some(q)
    ensures forall other :: other != product.id ==>
      QuantityOf(lines + [Line(product, q)], other) == QuantityOf(lines, other)
    ensures WellFormed(lines) && q >= 1 ==> WellFormed(lines + [Line(product, q)])
  {
    var r := lines + [Line(product, q)];
    QuantityOfConcat(lines, [Line(product, q)], product.id);
    QuantityOfAbsent(lines, product.id);
    forall other | other != product.id ensures QuantityOf(r, other) == QuantityOf(lines, other) {
      QuantityOfConcat(lines, [Line(product, q)], other);
    }
    if WellFormed(lines) && q >= 1 {
      forall i, j | 0 <= i < j < |r| ensures r[i].product.id != r[j].product.id {
        if j == |lines| {
          assert r[i] == lines[i];
        } else {
          assert r[i] == lines[i] && r[j] == lines[j];
        }
      }
    }
  }

  /** Adding puts exactly `q` more units of the product in the cart and changes no other line. */
  lemma AddLineQuantities(lines: seq<Line>, product: Product, q: int)
    ensures QuantityOf(AddLine(lines, product, q), product.id) == Some(QuantityOf(lines, product.id).GetOr(0) + q)
    ensures forall other :: other != product.id ==>
      QuantityOf(AddLine(lines, product, q), other) == QuantityOf(lines, other)
    ensures WellFormed(lines) && q >= 1 ==> WellFormed(AddLine(lines, product, q))
  {
    var id := product.id;
    var current := QuantityOf(lines, id);
    if current.Some? {
      assert AddLine(lines, product, q) == SetQuantity(lines, id, current.value + q);
      SetQuantityQuantities(lines, id, current.value + q);
      if WellFormed(lines) {
        QuantityOfPositive(lines, id);
      }
    } else {
      assert AddLine(lines, product, q) == lines + [Line(product, q)];
      AppendLineQuantities(lines, product, q);
    }
  }

  lemma {:induction false} QuantityOfConcat(a: seq<Line>, b: seq<Line>, id: int)
    ensures QuantityOf(a + b, id) == if QuantityOf(a, id).Some? then QuantityOf(a, id) else QuantityOf(b, id)
    decreases |a|
  {
    if a == [] {
      assert a + b == b;
    } else {
      assert (a + b)[0] == a[0];
      assert (a + b)[1..] == a[1..] + b;
      QuantityOfConcat(a[1..], b, id);
    }
  }

  function Sum(qs: seq<int>): int
    decreases |qs|
  {
    if qs == [] then 0 else qs[0] + Sum(qs[1..])
  }

  /** The cart after adding the same product once for each quantity in `qs`, in order. */
  function AddAll(lines: seq<Line>, product: Product, qs: seq<int>): seq<Line>
    decreases |qs|
  {
    if qs == [] then lines else AddAll(AddLine(lines, product, qs[0]), product, qs[1..])
  }

  /** Repeated adds of one product accumulate: its quantity grows by the sum of the amounts added. */
  lemma {:induction false} RepeatedAddsAccumulate(lines: seq<Line>, product: Product, qs: seq<int>)
    requires qs != []
    ensures QuantityOf(AddAll(lines, product, qs), product.id) == Some(QuantityOf(lines, product.id).GetOr(0) + Sum(qs))
    decreases |qs|
  {
    var next := AddLine(lines, product, qs[0]);
    AddLineQuantities(lines, product, qs[0]);
    assert AddAll(lines, product, qs) == AddAll(next, product, qs[1..]);
    if |qs| > 1 {
      RepeatedAddsAccumulate(next, product, qs[1..]);
    } else {
      assert qs[1..] == [];
    }
  }

  /** The shared cart object. */
  class Cart {
    var lines: seq<Line>

    /** Lines have distinct ids and at least one unit each. */
    ghost predicate Valid()
      reads this
    {
      WellFormed(lines)
    }

    constructor ()
      ensures lines == [] && Valid()
    {
      lines := [];
    }

    method AddToCart(product: Product, quantity: int)
      modifies this
      ensures lines == AddLine(old(lines), product, quantity)
      ensures QuantityOf(lines, product.id) == Some(QuantityOf(old(lines), product.id).GetOr(0) + quantity)
      ensures old(Valid()) && quantity >= 1 ==> Valid()
    {
      AddLineQuantities(lines, product, quantity);
      lines := AddLine(lines, product, quantity);
    }

    /** Does not check `quantity`: routing a non-positive quantity to removal is the caller's job. */
    method UpdateQuantity(id: int, quantity: int)
      modifies this
      ensures lines == SetQuantity(old(lines), id, quantity)
      ensures old(Valid()) && quantity >= 1 ==> Valid()
    {
      SetQuantityQuantities(lines, id, quantity);
      lines := SetQuantity(lines, id, quantity);
    }

    method RemoveFromCart(id: int)
      modifies this
      ensures lines == RemoveLine(old(lines), id)
      ensures QuantityOf(lines, id) == None
      ensures old(Valid()) ==> Valid()
    {
      RemoveLineQuantities(lines, id);
      lines := RemoveLine(lines, id);
    }
  }
}
