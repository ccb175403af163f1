/**
 * The cart page: the quantity routing of `handleQuantityChange`, the minus, plus
 * and trash buttons of each line, and the empty-cart view.
 */
module CartPage {
  import opened Wrappers
  import opened Catalog
  import opened CartStore

  /**
   * The lines after `handleQuantityChange(productId, newQuantity)`: a quantity of
   * zero or less goes to removal, any other to `updateQuantity`.
   */
  function QuantityChanged(lines: seq<Line>, productId: int, newQuantity: int): seq<Line>
  {
    if newQuantity <= 0 then RemoveLine(lines, productId) else SetQuantity(lines, productId, newQuantity)
  }

  /**
   * A non-positive request removes the line; a positive one sets the line to
   * exactly that quantity and removes nothing; other ids are untouched, and a
   * well-formed cart stays well-formed whatever the request.
   */
  lemma QuantityChangeRouting(lines: seq<Line>, productId: int, newQuantity: int)
    ensures var r := QuantityChanged(lines, productId, newQuantity);
      newQuantity <= 0 ==> QuantityOf(r, productId) == None
    ensures var r := QuantityChanged(lines, productId, newQuantity);
      newQuantity > 0 ==> (|r| == |lines| &&
        QuantityOf(r, productId) == if QuantityOf(lines, productId).Some? then Some(newQuantity) else None)
    ensures var r := QuantityChanged(lines, productId, newQuantity);
      forall other :: other != productId ==> QuantityOf(r, other) == QuantityOf(lines, other)
    ensures WellFormed(lines) ==> WellFormed(QuantityChanged(lines, productId, newQuantity))
  {
    if newQuantity <= 0 {
      RemoveLineQuantities(lines, productId);
    } else {
      SetQuantityQuantities(lines, productId, newQuantity);
    }
  }

  /** The minus button of line `i` removes a single unit, or the line when it held one. */
  lemma MinusButton(lines: seq<Line>, i: nat)
    requires WellFormed(lines) && i < |lines|
    ensures var l := lines[i];
      var r := QuantityChanged(lines, l.product.id, l.quantity - 1);
      && WellFormed(r)
      && (l.quantity == 1 ==> QuantityOf(r, l.product.id) == None && |r| == |lines| - 1)
      && (l.quantity > 1 ==> QuantityOf(r, l.product.id) == Some(l.quantity - 1) && |r| == |lines|)
  {
    var l := lines[i];
    assert l in lines;
    QuantityAtLine(lines, i);
    QuantityChangeRouting(lines, l.product.id, l.quantity - 1);
    if l.quantity == 1 {
      RemoveLineLength(lines, l.product.id);
    }
  }

  /** The plus button of line `i` adds one unit to that line. */
  lemma PlusButton(lines: seq<Line>, i: nat)
    requires WellFormed(lines) && i < |lines|
    ensures var l := lines[i];
      var r := QuantityChanged(lines, l.product.id, l.quantity + 1);
      WellFormed(r) && |r| == |lines| && QuantityOf(r, l.product.id) == Some(l.quantity + 1)
  {
    var l := lines[i];
    assert l in lines;
    assert QuantityChanged(lines, l.product.id, l.quantity + 1) == SetQuantity(lines, l.product.id, l.quantity + 1);
    QuantityAtLine(lines, i);
    SetQuantityQuantities(lines, l.product.id, l.quantity + 1);
  }

  /** The trash button of line `i` removes the line, whatever its quantity. */
  lemma TrashButton(lines: seq<Line>, i: nat)
    requires WellFormed(lines) && i < |lines|
    ensures var r := RemoveLine(lines, lines[i].product.id);
      WellFormed(r) && QuantityOf(r, lines[i].product.id) == None && |r| == |lines| - 1
  {
    QuantityAtLine(lines, i);
    RemoveLineQuantities(lines, lines[i].product.id);
    RemoveLineLength(lines, lines[i].product.id);
  }

  /** `handleQuantityChange` acting on the shared cart. */
  method HandleQuantityChange(cart: Cart, productId: int, newQuantity: int)
    modifies cart
    ensures cart.lines == QuantityChanged(old(cart.lines), productId, newQuantity)
    ensures old(cart.Valid()) ==> cart.Valid()
  {
    QuantityChangeRouting(cart.lines, productId, newQuantity);
    if newQuantity <= 0 {
      cart.RemoveFromCart(productId);
    } else {
      cart.UpdateQuantity(productId, newQuantity);
    }
  }

  /** The minus button: `handleQuantityChange(item.id, item.quantity - 1)`. */
  method DecreaseLine(cart: Cart, i: nat)
    requires i < |cart.lines|
    modifies cart
    ensures var l := old(cart.lines[i]);
      cart.lines == QuantityChanged(old(cart.lines), l.product.id, l.quantity - 1)
    ensures old(cart.Valid()) ==> cart.Valid()
  {
    var item := cart.lines[i];
    HandleQuantityChange(cart, item.product.id, item.quantity - 1);
  }

  /** The plus button: `handleQuantityChange(item.id, item.quantity + 1)`. */
  method IncreaseLine(cart: Cart, i: nat)
    requires i < |cart.lines|
    modifies cart
    ensures var l := old(cart.lines[i]);
      cart.lines == QuantityChanged(old(cart.lines), l.product.id, l.quantity + 1)
    ensures old(cart.Valid()) ==> cart.Valid()
  {
    var item := cart.lines[i];
    HandleQuantityChange(cart, item.product.id, item.quantity + 1);
  }

  /** The trash button: `removeFromCart(item.id)`. */
  method TrashLine(cart: Cart, i: nat)
    requires i < |cart.lines|
    modifies cart
    ensures cart.lines == RemoveLine(old(cart.lines), old(cart.lines[i]).product.id)
    ensures old(cart.Valid()) ==> cart.Valid()
  {
    cart.RemoveFromCart(cart.lines[i].product.id);
  }

  /** What the page shows: the empty-cart message, or the list of lines. */
  datatype CartView = EmptyCartView | LinesView(lines: seq<Line>)

  method Render(cart: Cart) returns (view: CartView)
    ensures view.EmptyCartView? <==> |cart.lines| == 0
    ensures view.LinesView? ==> view.lines == cart.lines
  {
    if |cart.lines| == 0 {
      view := EmptyCartView;
    } else {
      view := LinesView(cart.lines);
    }
  }
}
