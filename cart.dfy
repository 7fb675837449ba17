/**
 * The browser-side cart of the shop front end (public/js/app.js).
 *
 * The cart is a list of line items persisted as JSON under the local-storage
 * key 'cart'. Adding a product either bumps the quantity of the line with the
 * same product id or appends a new line; a badge shows the number of units;
 * the cart link shows the money total; the order button posts the cart and
 * clears it once the server acknowledges the order. Prices are integer cents.
 */
module Cart {
  import opened Wrappers

  /** A product as the product grid hands it to "Add To Cart". */
  datatype Product = Product(id: int, name: string, price: int, imageUrl: string)

  /** One persisted cart line; `quantity` is None when the stored object has no quantity property. */
  datatype Line = Line(id: int, name: string, price: int, imageUrl: string, quantity: Option<int>)

  /**
   * What JSON.parse makes of the text stored under the 'cart' key. The text
   * itself is not modelled, only which of the parser's outcomes it leads to.
   */
  datatype StoredText =
    | EmptyText                    // the empty string, which `|| '[]'` replaces by an empty array
    | ArrayText(lines: seq<Line>)  // JSON text of an array of line objects
    | OtherJsonText                // well-formed JSON of something other than an array (a number, an object, null)
    | MalformedText                // text on which JSON.parse throws

  /** A JavaScript value as the unguarded reader returns it. */
  datatype JsValue = ArrayValue(lines: seq<Line>) | NonArrayValue

  // ---------------------------------------------------------------------------
  // Reading and writing the stored cart
  // ---------------------------------------------------------------------------

  /**
   * The reader exactly as written: a missing or empty value reads as '[]', a
   * parse error is caught and gives [], and anything JSON.parse accepts is
   * returned as it is, array or not.
   */
  function GetCartAsWritten(stored: Option<StoredText>): (v: JsValue)
    ensures v.NonArrayValue? <==> stored == Some(OtherJsonText)
    ensures v.ArrayValue? && v.lines != [] ==> stored == Some(ArrayText(v.lines))
  {
    match stored
    case None => ArrayValue([])
    case Some(EmptyText) => ArrayValue([])
    case Some(ArrayText(lines)) => ArrayValue(lines)
    case Some(OtherJsonText) => NonArrayValue
    case Some(MalformedText) => ArrayValue([])
  }

  /**
   * Stored text that parses to something other than an array gets through the
   * reader: what comes back is not a cart, and the `.find`, `.reduce` and
   * `.length` the callers apply to it next do not behave as on a list.
   */
  lemma GetCartAsWrittenPassesNonArrays()
    ensures !GetCartAsWritten(Some(OtherJsonText)).ArrayValue?
  {
  }

  /**
   * The reader as used by the rest of this model: it never fails, and it
   * yields the stored lines when an array is stored and [] in every other
   * case (absent, empty, malformed, or not an array).
   */
  function GetCart(stored: Option<StoredText>): (cart: seq<Line>)
    ensures stored.Some? && stored.value.ArrayText? ==> cart == stored.value.lines
    ensures cart != [] ==> stored == Some(ArrayText(cart))
  {
    match stored
    case Some(ArrayText(lines)) => lines
    case _ => []
  }

  /** Wherever the written reader does return an array, the corrected one returns the same lines. */
  lemma GetCartAgreesWithAsWritten(stored: Option<StoredText>)
    requires stored != Some(OtherJsonText)
    ensures GetCartAsWritten(stored) == ArrayValue(GetCart(stored))
  {
  }

  /** What saveCart writes: the JSON text of the cart, which reads back as the same cart. */
  function Serialize(cart: seq<Line>): (t: StoredText)
    ensures GetCart(Some(t)) == cart
  {
    ArrayText(cart)
  }

  // ---------------------------------------------------------------------------
  // Counting: the badge count and the cart total
  // ---------------------------------------------------------------------------

  /** `item.quantity || 1`: a missing or zero quantity counts as one unit. */
  function Units(line: Line): (u: int)
    ensures u != 0
    ensures line.quantity == None || line.quantity == Some(0) ==> u == 1
    ensures line.quantity.Some? && line.quantity.value != 0 ==> u == line.quantity.value
  {
    match line.quantity
    case None => 1
    case Some(q) => if q == 0 then 1 else q
  }

  /** `(item.quantity || 1) * Number(item.price || 0)`: the money a line contributes. */
  function Subtotal(line: Line): int
  {
    Units(line) * line.price
  }

  /** A left fold of `weight` over the cart, in the order `reduce` and the total loop visit it. */
  function LineSum(cart: seq<Line>, weight: Line -> int): int
    decreases |cart|
  {
    if cart == [] then 0 else LineSum(cart[..|cart| - 1], weight) + weight(cart[|cart| - 1])
  }

  /** Every line counts at least one unit: no stored quantity is negative. */
  predicate PositiveUnits(cart: seq<Line>)
  {
    forall i :: 0 <= i < |cart| ==> Units(cart[i]) > 0
  }

  /** Every line carries the price of the first one. */
  predicate SamePrice(cart: seq<Line>)
  {
    forall i :: 0 <= i < |cart| ==> cart[i].price == cart[0].price
  }

  /**
   * The badge count of updateCartCount: 0 for an empty cart, and with no
   * negative quantity at least one unit per line.
   */
  function Count(cart: seq<Line>): (n: int)
    ensures cart == [] ==> n == 0
    ensures PositiveUnits(cart) ==> n >= |cart|
  {
    LineSumAtLeastLength(cart, Units);
    LineSum(cart, Units)
  }

  /**
   * The total shown by the cart link: 0 for an empty cart, and for lines that
   * all carry one price, the badge count times that price.
   */
  function Total(cart: seq<Line>): (t: int)
    ensures cart == [] ==> t == 0
    ensures cart != [] && SamePrice(cart) ==> t == Count(cart) * cart[0].price
  {
    if cart == [] then 0
    else
      LineSumScale(cart, Units, Subtotal, cart[0].price);
      LineSum(cart, Subtotal)
  }

  lemma LineSumAppend(cart: seq<Line>, line: Line, weight: Line -> int)
    ensures LineSum(cart + [line], weight) == LineSum(cart, weight) + weight(line)
  {
    assert (cart + [line])[..|cart|] == cart;
  }

  /** Replacing one line changes the fold by exactly the difference of the two weights. */
  lemma {:induction false} LineSumUpdate(cart: seq<Line>, k: nat, line: Line, weight: Line -> int)
    requires k < |cart|
    ensures LineSum(cart[k := line], weight) == LineSum(cart, weight) - weight(cart[k]) + weight(line)
    decreases |cart|
  {
    var n := |cart| - 1;
    if k == n {
      assert cart[k := line][..n] == cart[..n];
    } else {
      assert cart[k := line][..n] == cart[..n][k := line];
      LineSumUpdate(cart[..n], k, line, weight);
    }
  }

  /** A fold of weights that are all positive is at least the number of lines. */
  lemma {:induction false} LineSumAtLeastLength(cart: seq<Line>, weight: Line -> int)
    ensures (forall i :: 0 <= i < |cart| ==> weight(cart[i]) > 0) ==> LineSum(cart, weight) >= |cart|
    decreases |cart|
  {
    if cart != [] {
      var n := |cart| - 1;
      assert forall i :: 0 <= i < n ==> cart[..n][i] == cart[i];
      LineSumAtLeastLength(cart[..n], weight);
    }
  }

  /** Scaling every weight by `c` scales the fold by `c`. */
  lemma {:induction false} LineSumScale(cart: seq<Line>, weight: Line -> int, scaled: Line -> int, c: int)
    ensures (forall i :: 0 <= i < |cart| ==> scaled(cart[i]) == weight(cart[i]) * c) ==>
      LineSum(cart, scaled) == LineSum(cart, weight) * c
    decreases |cart|
  {
    if cart != [] && forall i :: 0 <= i < |cart| ==> scaled(cart[i]) == weight(cart[i]) * c {
      var n := |cart| - 1;
      assert forall i :: 0 <= i < n ==> cart[..n][i] == cart[i];
      LineSumScale(cart[..n], weight, scaled, c);
      calc {
        LineSum(cart, scaled);
        LineSum(cart[..n], weight) * c + weight(cart[n]) * c;
        (LineSum(cart[..n], weight) + weight(cart[n])) * c;
      }
    }
  }

  // ---------------------------------------------------------------------------
  // Adding a product
  // ---------------------------------------------------------------------------

  /** The line `cart.push` appends for a product not yet in the cart. */
  function NewLine(p: Product): Line
  {
    Line(p.id, p.name, p.price, p.imageUrl, Some(1))
  }

  /** `existing.quantity = (existing.quantity || 1) + 1`. */
  function Bumped(line: Line): Line
  {
    line.(quantity := Some(Units(line) + 1))
  }

  /** Some line of the cart has product id `id`. */
  predicate HasId(cart: seq<Line>, id: int)
  {
    exists i :: 0 <= i < |cart| && cart[i].id == id
  }

  /**
   * The cart after addToCart, defined line by line: bump the first line with
   * the product's id, else append. The product is then in the cart, and the
   * cart has grown by one line exactly when it was not there before.
   */
  function AddLine(cart: seq<Line>, p: Product): (r: seq<Line>)
    ensures HasId(r, p.id)
    ensures |r| == if HasId(cart, p.id) then |cart| else |cart| + 1
    decreases |cart|
  {
    if cart == [] then
      assert [NewLine(p)][0].id == p.id;
      [NewLine(p)]
    else if cart[0].id == p.id then
      assert ([Bumped(cart[0])] + cart[1..])[0].id == p.id;
      [Bumped(cart[0])] + cart[1..]
    else
      var rest := AddLine(cart[1..], p);
      assert HasId(cart, p.id) <==> HasId(cart[1..], p.id) by {
        if HasId(cart, p.id) {
          var i :| 0 <= i < |cart| && cart[i].id == p.id;
          assert cart[1..][i - 1].id == p.id;
        }
        if HasId(cart[1..], p.id) {
          var i :| 0 <= i < |cart[1..]| && cart[1..][i].id == p.id;
          assert cart[i + 1].id == p.id;
        }
      }
      var j :| 0 <= j < |rest| && rest[j].id == p.id;
      assert ([cart[0]] + rest)[j + 1].id == p.id;
      [cart[0]] + rest
  }

  /** `k` is the index of the line `cart.find` returns for `id`. */
  predicate FirstWithId(cart: seq<Line>, id: int, k: int)
  {
    0 <= k < |cart| && cart[k].id == id && forall i :: 0 <= i < k ==> cart[i].id != id
  }

  /** No two lines share a product id. */
  predicate DistinctIds(cart: seq<Line>)
  {
    forall i, j :: 0 <= i < j < |cart| ==> cart[i].id != cart[j].id
  }

  function Ids(cart: seq<Line>): set<int>
  {
    set i | 0 <= i < |cart| :: cart[i].id
  }

  /**
   * Adding a product that is already in the cart keeps the length, bumps the
   * first matching line to its old `quantity || 1` plus one, and leaves every
   * other line where and as it was.
   */
  lemma {:induction false} AddExisting(cart: seq<Line>, p: Product, k: int)
    requires FirstWithId(cart, p.id, k)
    ensures AddLine(cart, p) == cart[k := Bumped(cart[k])]
    ensures |AddLine(cart, p)| == |cart|
    ensures AddLine(cart, p)[k] == cart[k].(quantity := Some(Units(cart[k]) + 1))
    ensures forall i :: 0 <= i < |cart| && i != k ==> AddLine(cart, p)[i] == cart[i]
    decreases |cart|
  {
    if k > 0 {
      assert FirstWithId(cart[1..], p.id, k - 1);
      AddExisting(cart[1..], p, k - 1);
      assert [cart[0]] + cart[1..][k - 1 := Bumped(cart[k])] == cart[k := Bumped(cart[k])];
    }
  }

  /** Adding a product that is not in the cart appends exactly its new line and changes nothing before it. */
  lemma {:induction false} AddAbsent(cart: seq<Line>, p: Product)
    requires !HasId(cart, p.id)
    ensures AddLine(cart, p) == cart + [NewLine(p)]
    decreases |cart|
  {
    if cart != [] {
      assert cart[0].id != p.id;
      AddAbsent(cart[1..], p);
      assert [cart[0]] + (cart[1..] + [NewLine(p)]) == cart + [NewLine(p)];
    }
  }

  /** When the product's id occurs in the cart, some line is the first one with it. */
  lemma {:induction false} FirstOccurrence(cart: seq<Line>, id: int) returns (k: int)
    requires HasId(cart, id)
    ensures FirstWithId(cart, id, k)
    decreases |cart|
  {
    if cart[0].id == id {
      k := 0;
    } else {
      var j :| 0 <= j < |cart| && cart[j].id == id;
      assert cart[1..][j - 1].id == id;
      var k' := FirstOccurrence(cart[1..], id);
      k := k' + 1;
    }
  }

  /** Adding keeps product ids pairwise distinct, and the ids are the old ones plus the product's. */
  lemma AddKeepsIdsDistinct(cart: seq<Line>, p: Product)
    requires DistinctIds(cart)
    ensures DistinctIds(AddLine(cart, p))
    ensures Ids(AddLine(cart, p)) == Ids(cart) + {p.id}
  {
    var r := AddLine(cart, p);
    if HasId(cart, p.id) {
      var k :| 0 <= k < |cart| && cart[k].id == p.id;
      assert FirstWithId(cart, p.id, k);
      AddExisting(cart, p, k);
      assert forall i :: 0 <= i < |r| ==> r[i].id == cart[i].id;
      assert p.id in Ids(cart);
    } else {
      AddAbsent(cart, p);
      assert r[|cart|].id == p.id;
      assert forall i :: 0 <= i < |cart| ==> r[i] == cart[i];
    }
  }

  /** With no negative quantity, adding any product raises the badge count by exactly one, and keeps quantities positive. */
  lemma CountAfterAdd(cart: seq<Line>, p: Product)
    requires PositiveUnits(cart)
    ensures Count(AddLine(cart, p)) == Count(cart) + 1
    ensures PositiveUnits(AddLine(cart, p))
  {
    if HasId(cart, p.id) {
      var k := FirstOccurrence(cart, p.id);
      AddExisting(cart, p, k);
      LineSumUpdate(cart, k, Bumped(cart[k]), Units);
    } else {
      AddAbsent(cart, p);
      LineSumAppend(cart, NewLine(p), Units);
    }
  }

  /**
   * With no negative quantity, adding a product raises the total by the price
   * already stored on its line when it is in the cart, and by the product's
   * own price when it is not.
   */
  lemma TotalAfterAdd(cart: seq<Line>, p: Product)
    requires PositiveUnits(cart)
    ensures HasId(cart, p.id) ==>
      exists k :: FirstWithId(cart, p.id, k) && Total(AddLine(cart, p)) == Total(cart) + cart[k].price
    ensures !HasId(cart, p.id) ==> Total(AddLine(cart, p)) == Total(cart) + p.price
  {
    var r := AddLine(cart, p);
    assert Total(r) == LineSum(r, Subtotal);
    assert Total(cart) == LineSum(cart, Subtotal);
    if HasId(cart, p.id) {
      var k := FirstOccurrence(cart, p.id);
      AddExisting(cart, p, k);
      LineSumUpdate(cart, k, Bumped(cart[k]), Subtotal);
      SubtotalBumped(cart[k]);
    } else {
      AddAbsent(cart, p);
      LineSumAppend(cart, NewLine(p), Subtotal);
    }
  }

  /** Bumping a line with a positive unit count adds its price once to its subtotal. */
  lemma SubtotalBumped(line: Line)
    requires Units(line) > 0
    ensures Subtotal(Bumped(line)) == Subtotal(line) + line.price
  {
    var u := Units(line);
    assert Units(Bumped(line)) == u + 1;
    assert (u + 1) * line.price == u * line.price + line.price;
  }

  /** `cart.find(c => c.id === id)`, as the index of the line found, or -1 when none is. */
  method FindLine(cart: seq<Line>, id: int) returns (k: int)
    ensures -1 <= k < |cart|
    ensures k == -1 <==> !HasId(cart, id)
    ensures k != -1 ==> FirstWithId(cart, id, k)
  {
    k := 0;
    while k < |cart|
      invariant 0 <= k <= |cart|
      invariant forall i :: 0 <= i < k ==> cart[i].id != id
    {
      if cart[k].id == id {
        return;
      }
      k := k + 1;
    }
    k := -1;
  }

  /** The cart-link handler's loop: `total += (item.quantity || 1) * Number(item.price || 0)`. */
  method CartTotal(cart: seq<Line>) returns (total: int)
    ensures total == Total(cart)
  {
    total := 0;
    var i := 0;
    while i < |cart|
      invariant 0 <= i <= |cart|
      invariant total == Total(cart[..i])
    {
      assert cart[..i + 1][..i] == cart[..i];
      assert Total(cart[..i]) == LineSum(cart[..i], Subtotal);
      total := total + Units(cart[i]) * cart[i].price;
      i := i + 1;
    }
    assert cart[..i] == cart;
  }

  // ---------------------------------------------------------------------------
  // The order payload
  // ---------------------------------------------------------------------------

  datatype PayloadItem = PayloadItem(id: int, quantity: int)

  /** The shipping fields of the address form, as read from the form. */
  datatype Address = Address(
    firstname: string, lastname: string, address: string, address2: string,
    city: string, state: string, zip: string)

  datatype Payload = Payload(items: seq<PayloadItem>, address: Address)

  /** `cart.map(c => ({ id: c.id, quantity: c.quantity || 1 }))`: one item per line, in cart order. */
  function OrderItems(cart: seq<Line>): (items: seq<PayloadItem>)
    ensures |items| == |cart|
    ensures forall i :: 0 <= i < |cart| ==> items[i].id == cart[i].id && items[i].quantity == Units(cart[i])
    decreases |cart|
  {
    if cart == [] then []
    else OrderItems(cart[..|cart| - 1]) + [PayloadItem(cart[|cart| - 1].id, Units(cart[|cart| - 1]))]
  }

  /** The number of units an order payload asks for. */
  function PayloadUnits(items: seq<PayloadItem>): int
    decreases |items|
  {
    if items == [] then 0 else PayloadUnits(items[..|items| - 1]) + items[|items| - 1].quantity
  }

  /** The payload asks for exactly as many units as the badge shows. */
  lemma {:induction false} PayloadUnitsMatchCount(cart: seq<Line>)
    ensures PayloadUnits(OrderItems(cart)) == Count(cart)
    decreases |cart|
  {
    if cart != [] {
      var n := |cart| - 1;
      var items := OrderItems(cart);
      assert items[..n] == OrderItems(cart[..n]);
      PayloadUnitsMatchCount(cart[..n]);
    }
  }

  /** The payload's product ids are the cart's, so a cart with distinct ids sends distinct ids. */
  lemma PayloadIdsDistinct(cart: seq<Line>)
    requires DistinctIds(cart)
    ensures forall i, j :: 0 <= i < j < |cart| ==> OrderItems(cart)[i].id != OrderItems(cart)[j].id
  {
  }

  // ---------------------------------------------------------------------------
  // The page's cart store: local storage plus the badge
  // ---------------------------------------------------------------------------

  /** What the cart link shows. */
  datatype CartNotice = CartIsEmpty | CartSummary(total: int)

  /** The server's answer to the order request as the client sees it. */
  datatype OrderReply =
    | Acknowledged(orderId: int, total: int)   // res.ok
    | Refused(message: Option<string>)         // !res.ok, with the body's message if any
    | NoReadableReply                          // the fetch or res.json() rejected

  /** The alert the order button ends with. */
  datatype OrderNotice =
    | OrderCartEmpty
    | MissingAddressForm
    | OrderFailed(message: string)
    | OrderPlaced(orderId: int, total: int)

  /** `r.data.message || 'Order failed'`. */
  function FailureText(message: Option<string>): (t: string)
    ensures t != ""
    ensures message == None || message == Some("") ==> t == "Order failed"
    ensures message.Some? && message.value != "" ==> t == message.value
  {
    match message
    case Some(m) => if m == "" then "Order failed" else m
    case None => "Order failed"
  }

  /** The page state the script works on: the 'cart' storage key and the text of the badge. */
  class CartStore {
    var stored: Option<StoredText>
    var badge: int

    /** The badge shows the count of the stored cart. */
    ghost predicate InSync()
      reads this
    {
      badge == Count(GetCart(stored))
    }

    /** Page load: whatever is stored, and DOMContentLoaded's first updateCartCount. */
    constructor (initial: Option<StoredText>)
      ensures stored == initial
      ensures InSync()
    {
      stored := initial;
      badge := Count(GetCart(initial));
    }

    method UpdateCartCount()
      modifies this`badge
      ensures badge == Count(GetCart(stored))
    {
      var cart := GetCart(stored);
      badge := Count(cart);
    }

    method SaveCart(cart: seq<Line>)
      modifies this
      ensures stored == Some(Serialize(cart))
      ensures GetCart(stored) == cart
      ensures badge == Count(cart)
    {
      stored := Some(Serialize(cart));
      UpdateCartCount();
    }

    method AddToCart(p: Product)
      modifies this
      ensures GetCart(stored) == AddLine(old(GetCart(stored)), p)
      ensures InSync()
    {
      var cart := GetCart(stored);
      var k := FindLine(cart, p.id);
      if k != -1 {
        AddExisting(cart, p, k);
        cart := cart[k := Bumped(cart[k])];
      } else {
        AddAbsent(cart, p);
        cart := cart + [NewLine(p)];
      }
      SaveCart(cart);
    }

    /** The cart-link click handler: an empty-cart notice, or the total. */
    method ShowCart() returns (notice: CartNotice)
      ensures GetCart(stored) == [] ==> notice == CartIsEmpty
      ensures GetCart(stored) != [] ==> notice == CartSummary(Total(GetCart(stored)))
    {
      var cart := GetCart(stored);
      if |cart| == 0 {
        return CartIsEmpty;
      }
      var total := CartTotal(cart);
      notice := CartSummary(total);
    }

    /**
     * The order button. `form` is the address form (None when the page has
     * none) and `reply` the server's answer to the request, if one is sent.
     * The cart is removed only when a request was sent and acknowledged.
     */
    method PlaceOrder(form: Option<Address>, reply: OrderReply) returns (sent: Option<Payload>, notice: OrderNotice)
      modifies this
      ensures var cart := old(GetCart(stored));
        sent == if cart == [] || form.None? then None else Some(Payload(OrderItems(cart), form.value))
      ensures old(GetCart(stored)) == [] ==> notice == OrderCartEmpty
      ensures old(GetCart(stored)) != [] && form.None? ==> notice == MissingAddressForm
      ensures sent.Some? && reply.Acknowledged? ==>
        stored == None && badge == 0 && notice == OrderPlaced(reply.orderId, reply.total)
      ensures sent.Some? && reply.Refused? ==>
        stored == old(stored) && badge == old(badge) && notice == OrderFailed(FailureText(reply.message))
      ensures sent.Some? && reply.NoReadableReply? ==>
        stored == old(stored) && badge == old(badge) && notice == OrderFailed("Order failed")
      ensures sent.None? ==> stored == old(stored) && badge == old(badge)
    {
      var cart := GetCart(stored);
      if |cart| == 0 {
        return None, OrderCartEmpty;
      }
      if form.None? {
        return None, MissingAddressForm;
      }
      sent := Some(Payload(OrderItems(cart), form.value));
      match reply
      case Refused(message) =>
        notice := OrderFailed(FailureText(message));
      case NoReadableReply =>
        notice := OrderFailed("Order failed");
      case Acknowledged(orderId, total) =>
        stored := None;
        UpdateCartCount();
        notice := OrderPlaced(orderId, total);
    }
  }
}
