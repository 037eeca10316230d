/**
 * The cart page: a list of line items that the quantity buttons and the remove button rewrite,
 * the exact integer total, and the order text handed to WhatsApp at checkout.
 */
module Cart {
  import opened Text
  import opened Money

  /** One line of the cart; `price` is a whole number of ouguiya (MRU). */
  datatype CartItem = CartItem(id: string, name: string, price: int, quantity: int, image: string)

  /** The contact fields shown to a visitor who is not signed in. */
  datatype GuestInfo = GuestInfo(email: string, phone: string)

  /** `encodeURIComponent`, left uninterpreted. */
  type UriEncoder = string -> string

  const Greeting := "طلب جديد من متجر بنات:"
  const TotalLabel := "الإجمالي: "
  const WhatsappEndpoint := "https://wa.me/22249055137?text="

  /** Every stored quantity is at least one. */
  predicate QuantitiesPositive(items: seq<CartItem>) {
    forall k :: 0 <= k < |items| ==> items[k].quantity >= 1
  }

  /** The `map` in `updateQuantity`: items with the id get the new quantity. */
  function WithQuantity(items: seq<CartItem>, id: string, q: int): (r: seq<CartItem>)
    ensures |r| == |items|
  {
    if items == [] then []
    else [if items[0].id == id then items[0].(quantity := q) else items[0]] + WithQuantity(items[1..], id, q)
  }

  /** `WithQuantity` keeps length and order, and touches only the quantity of the items carrying the id. */
  lemma {:induction false} WithQuantitySpec(items: seq<CartItem>, id: string, q: int)
    ensures |WithQuantity(items, id, q)| == |items|
    ensures forall k :: 0 <= k < |items| ==>
      WithQuantity(items, id, q)[k] == if items[k].id == id then items[k].(quantity := q) else items[k]
  {
    if items != [] {
      WithQuantitySpec(items[1..], id, q);
    }
  }

  /** The `filter` in `removeItem`: the items whose id differs. */
  function Removed(items: seq<CartItem>, id: string): (r: seq<CartItem>)
    ensures |r| <= |items|
    ensures forall k :: 0 <= k < |r| ==> r[k].id != id
  {
    if items == [] then []
    else if items[0].id == id then Removed(items[1..], id)
    else [items[0]] + Removed(items[1..], id)
  }

  /** `a` is `b` with some entries dropped and the rest kept in order. */
  predicate IsSubsequence(a: seq<CartItem>, b: seq<CartItem>)
    decreases |b|
  {
    if a == [] then true
    else if b == [] then false
    else if a[0] == b[0] then IsSubsequence(a[1..], b[1..])
    else IsSubsequence(a, b[1..])
  }

  /**
   * `Removed` keeps, in order, exactly the items whose id differs; nothing with the id survives;
   * without the id the cart is untouched.
   */
  lemma {:induction false} RemovedSpec(items: seq<CartItem>, id: string)
    ensures IsSubsequence(Removed(items, id), items)
    ensures forall x :: x in Removed(items, id) <==> x in items && x.id != id
    ensures (forall k :: 0 <= k < |items| ==> items[k].id != id) ==> Removed(items, id) == items
    ensures |Removed(items, id)| == |items| - CountId(items, id)
  {
    if items != [] {
      RemovedSpec(items[1..], id);
      assert items == [items[0]] + items[1..];
      if items[0].id != id {
        assert Removed(items, id)[1..] == Removed(items[1..], id);
      } else {
        SubsequenceDropHead(Removed(items[1..], id), items);
      }
    }
  }

  /** A subsequence of a list's tail is a subsequence of the list. */
  lemma {:induction false} SubsequenceDropHead(a: seq<CartItem>, b: seq<CartItem>)
    requires b != [] && IsSubsequence(a, b[1..])
    ensures IsSubsequence(a, b)
    decreases |a| + |b|
  {
    if a != [] && a[0] == b[0] {
      // `a[1..]` is a subsequence of `b[1..]` because `a` is.
      SubsequenceTail(a, b[1..]);
    }
  }

  /** Dropping the head of a non-empty subsequence leaves a subsequence. */
  lemma {:induction false} SubsequenceTail(a: seq<CartItem>, b: seq<CartItem>)
    requires a != [] && IsSubsequence(a, b)
    ensures IsSubsequence(a[1..], b)
    decreases |a| + |b|
  {
    if a[0] != b[0] {
      SubsequenceTail(a, b[1..]);
      SubsequenceDropHead(a[1..], b);
    } else if a[1..] != [] {
      SubsequenceDropHead(a[1..], b);
    }
  }

  /** Both rewrites keep every quantity at least one, given a positive new quantity. */
  lemma RewritesKeepQuantitiesPositive(items: seq<CartItem>, id: string, q: int)
    requires QuantitiesPositive(items)
    ensures QuantitiesPositive(Removed(items, id))
    ensures q >= 1 ==> QuantitiesPositive(WithQuantity(items, id, q))
  {
    RemovedSpec(items, id);
    WithQuantitySpec(items, id, q);
    var r := Removed(items, id);
    forall k | 0 <= k < |r| ensures r[k].quantity >= 1 {
      assert r[k] in items;
    }
  }

  /** The reference total: the sum of `price * quantity` over the items. */
  function LineSum(items: seq<CartItem>): int {
    if items == [] then 0 else items[0].price * items[0].quantity + LineSum(items[1..])
  }

  /** `reduce((total, item) => total + item.price * item.quantity, acc)`, folding from the left. */
  function Reduce(acc: int, items: seq<CartItem>): (r: int)
    ensures r == acc + LineSum(items)
    decreases |items|
  {
    if items == [] then acc else Reduce(acc + items[0].price * items[0].quantity, items[1..])
  }

  /** The total of two carts side by side is the sum of their totals. */
  lemma {:induction false} LineSumAppend(a: seq<CartItem>, b: seq<CartItem>)
    ensures LineSum(a + b) == LineSum(a) + LineSum(b)
  {
    if a == [] {
      assert a + b == b;
    } else {
      assert (a + b)[1..] == a[1..] + b;
      LineSumAppend(a[1..], b);
    }
  }

  /** With non-negative prices and positive quantities the total is non-negative. */
  lemma {:induction false} LineSumNonNegative(items: seq<CartItem>)
    requires QuantitiesPositive(items)
    requires forall k :: 0 <= k < |items| ==> items[k].price >= 0
    ensures LineSum(items) >= 0
  {
    if items != [] {
      LineSumNonNegative(items[1..]);
    }
  }

  /** How many items carry the id. */
  function CountId(items: seq<CartItem>, id: string): nat {
    if items == [] then 0 else (if items[0].id == id then 1 else 0) + CountId(items[1..], id)
  }

  /** Raising the quantity of the one item with the id by one raises the total by its price. */
  lemma {:induction false} PlusRaisesTotal(items: seq<CartItem>, k: nat)
    requires k < |items| && CountId(items, items[k].id) == 1
    ensures LineSum(WithQuantity(items, items[k].id, items[k].quantity + 1)) == LineSum(items) + items[k].price
  {
    var id := items[k].id;
    if k == 0 {
      NoIdUntouched(items[1..], id, items[k].quantity + 1);
    } else {
      assert items[1..][k - 1] == items[k];
      CountIdPositive(items[1..], k - 1);
      PlusRaisesTotal(items[1..], k - 1);
    }
  }

  /** An item's own id is counted at least once. */
  lemma {:induction false} CountIdPositive(items: seq<CartItem>, k: nat)
    requires k < |items|
    ensures CountId(items, items[k].id) >= 1
  {
    if k > 0 {
      assert items[1..][k - 1] == items[k];
      CountIdPositive(items[1..], k - 1);
    }
  }

  /** Without the id, the quantity rewrite changes nothing. */
  lemma {:induction false} NoIdUntouched(items: seq<CartItem>, id: string, q: int)
    requires CountId(items, id) == 0
    ensures WithQuantity(items, id, q) == items
  {
    if items != [] {
      NoIdUntouched(items[1..], id, q);
    }
  }

  /** Removing an id lowers the total by exactly the lines that carried it. */
  lemma {:induction false} RemovedTotal(items: seq<CartItem>, id: string)
    ensures LineSum(Removed(items, id)) == LineSum(items) - IdSum(items, id)
  {
    if items != [] {
      RemovedTotal(items[1..], id);
    }
  }

  /** The part of the total owed to the lines carrying the id. */
  function IdSum(items: seq<CartItem>, id: string): int {
    if items == [] then 0
    else (if items[0].id == id then items[0].price * items[0].quantity else 0) + IdSum(items[1..], id)
  }

  /**
   * One order line: `name (quantityx) - formatPrice(price * quantity)`. It opens with the item's
   * name and closes with the formatted line total.
   */
  function ItemLine(render: NumberRenderer, item: CartItem): (line: string)
    ensures item.name <= line
    ensures var amount := FormatPrice(render, Ouguiya, item.price * item.quantity);
      |amount| <= |line| && line[|line| - |amount|..] == amount
  {
    var amount := FormatPrice(render, Ouguiya, item.price * item.quantity);
    var front := item.name + " (" + IntToString(item.quantity) + "x) - ";
    assert (front + amount)[..|item.name|] == item.name;
    assert (front + amount)[|front|..] == amount;
    front + amount
  }

  /** The `map` of the cart to its order lines. */
  function ItemLines(render: NumberRenderer, items: seq<CartItem>): (lines: seq<string>)
    ensures |lines| == |items|
    ensures forall k :: 0 <= k < |items| ==> lines[k] == ItemLine(render, items[k])
  {
    if items == [] then [] else [ItemLine(render, items[0])] + ItemLines(render, items[1..])
  }

  /**
   * The message of `handleCheckout`: the greeting and a blank line, the order lines joined by line
   * breaks, a blank line and the total line. It opens with the greeting and closes with the total
   * label and the reference sum, formatted.
   */
  function CheckoutMessage(render: NumberRenderer, items: seq<CartItem>): (message: string)
    ensures Greeting + "\n\n" <= message
    ensures var total := TotalLabel + FormatPrice(render, Ouguiya, LineSum(items));
      |total| <= |message| && message[|message| - |total|..] == total
  {
    var total := TotalLabel + FormatPrice(render, Ouguiya, Reduce(0, items));
    var front := Greeting + "\n\n" + Join(ItemLines(render, items), "\n") + "\n\n";
    assert (front + total)[..|Greeting + "\n\n"|] == Greeting + "\n\n";
    assert (front + total)[|front|..] == total;
    front + total
  }

  /** No name and no rendered amount contains a line break. */
  ghost predicate SingleLine(render: NumberRenderer, items: seq<CartItem>) {
    && (forall k :: 0 <= k < |items| ==> '\n' !in items[k].name)
    && (forall p :: '\n' !in render(p))
  }

  /** With single-line names and amounts, each order line is a single line. */
  lemma ItemLineSingle(render: NumberRenderer, item: CartItem)
    requires '\n' !in item.name && forall p :: '\n' !in render(p)
    ensures '\n' !in ItemLine(render, item)
  {
    IntToStringHasNoNewline(item.quantity);
  }

  /**
   * Read line by line, the message of a non-empty cart is the greeting, a blank line, one line per
   * item in cart order, a blank line and the total line.
   */
  lemma MessageLines(render: NumberRenderer, items: seq<CartItem>)
    requires |items| > 0 && SingleLine(render, items)
    ensures Split(CheckoutMessage(render, items), "\n") == MessageParts(render, items)
  {
    MessageIsJoin(render, items);
    PartsSingleLine(render, items);
    SplitJoin(MessageParts(render, items), '\n');
  }

  /** The lines the message is made of, the total written as the reference sum. */
  function MessageParts(render: NumberRenderer, items: seq<CartItem>): seq<string> {
    [Greeting, ""] + ItemLines(render, items) + ["", TotalLabel + FormatPrice(render, Ouguiya, LineSum(items))]
  }

  /** The message is its parts joined by line breaks. */
  lemma MessageIsJoin(render: NumberRenderer, items: seq<CartItem>)
    requires |items| > 0
    ensures CheckoutMessage(render, items) == Join(MessageParts(render, items), "\n")
  {
    var price := FormatPrice(render, Ouguiya, Reduce(0, items));
    FramedJoin(Greeting, ItemLines(render, items), TotalLabel + price);
  }

  /** A head, a blank line, the joined lines, a blank line and a tail is one join of all of them. */
  lemma FramedJoin(head: string, lines: seq<string>, tail: string)
    requires |lines| > 0
    ensures head + "\n\n" + Join(lines, "\n") + "\n\n" + tail == Join([head, ""] + lines + ["", tail], "\n")
  {
    var nl := "\n";
    var a, c := [head, ""], ["", tail];
    var m := Join(lines, nl);
    JoinAppend(a, lines, nl);
    JoinAppend(a + lines, c, nl);
    assert Join(a, nl) == head + nl by { assert a[1..] == [""]; }
    assert Join(c, nl) == nl + tail by { assert c[1..] == [tail]; }
    assert Join(a + lines + c, nl) == ((head + nl) + nl + m) + nl + (nl + tail);
    assert "\n\n" == nl + nl;
    SixPieces(head, nl, m, tail);
  }

  /** The regrouping `FramedJoin` needs: the double breaks split into single ones, concatenation reassociated. */
  lemma SixPieces(h: string, nl: string, m: string, t: string)
    ensures h + (nl + nl) + m + (nl + nl) + t == ((h + nl) + nl + m) + nl + (nl + t)
  {
  }

  /** The greeting, the total label and the currency suffix are one line each. */
  lemma ConstantsSingleLine()
    ensures '\n' !in Greeting && '\n' !in TotalLabel && '\n' !in Ouguiya
  {
  }

  /** Framing single lines with blank lines keeps every part single-line. */
  lemma FramedSingleLine(head: string, lines: seq<string>, tail: string)
    requires '\n' !in head && '\n' !in tail
    requires forall k :: 0 <= k < |lines| ==> '\n' !in lines[k]
    ensures forall k :: 0 <= k < |[head, ""] + lines + ["", tail]| ==> '\n' !in ([head, ""] + lines + ["", tail])[k]
  {
    var all := [head, ""] + lines + ["", tail];
    forall k | 0 <= k < |all| ensures '\n' !in all[k] {
      if 2 <= k < 2 + |lines| {
        assert all[k] == lines[k - 2];
      }
    }
  }

  /** No part of the message holds a line break. */
  lemma PartsSingleLine(render: NumberRenderer, items: seq<CartItem>)
    requires SingleLine(render, items)
    ensures forall k :: 0 <= k < |MessageParts(render, items)| ==> '\n' !in MessageParts(render, items)[k]
  {
    ConstantsSingleLine();
    assert '\n' !in render(LineSum(items));
    var lines := ItemLines(render, items);
    forall k | 0 <= k < |lines| ensures '\n' !in lines[k] {
      ItemLineSingle(render, items[k]);
    }
    FramedSingleLine(Greeting, lines, TotalLabel + FormatPrice(render, Ouguiya, LineSum(items)));
  }

  /** The cart page's state: the line items and the guest contact fields. */
  class CartPage {
    var cartItems: seq<CartItem>
    var guestInfo: GuestInfo

    ghost predicate Valid()
      reads this
    {
      QuantitiesPositive(cartItems)
    }

    /** The page starts with its one sample item and empty contact fields. */
    constructor ()
      ensures Valid()
      ensures cartItems == [CartItem("1", "ملحف تقليدي أنيق", 25000, 1,
        "https://i.postimg.cc/DzDqjCwx/alalalia-white-100-002-039-alt3-sq-gy-2000x2000.jpg")]
      ensures guestInfo == GuestInfo("", "")
    {
      cartItems := [CartItem("1", "ملحف تقليدي أنيق", 25000, 1,
        "https://i.postimg.cc/DzDqjCwx/alalalia-white-100-002-039-alt3-sq-gy-2000x2000.jpg")];
      guestInfo := GuestInfo("", "");
    }

    /** `removeItem(id)`. */
    method RemoveItem(id: string)
      requires Valid()
      modifies this
      ensures Valid()
      ensures cartItems == Removed(old(cartItems), id)
      ensures guestInfo == old(guestInfo)
    {
      RewritesKeepQuantitiesPositive(cartItems, id, 1);
      cartItems := Removed(cartItems, id);
    }

    /** `updateQuantity(id, q)`: a quantity of zero or less removes the item. */
    method UpdateQuantity(id: string, q: int)
      requires Valid()
      modifies this
      ensures Valid()
      ensures q <= 0 ==> cartItems == Removed(old(cartItems), id)
      ensures q > 0 ==> cartItems == WithQuantity(old(cartItems), id, q)
      ensures guestInfo == old(guestInfo)
    {
      if q <= 0 {
        RemoveItem(id);
        return;
      }
      RewritesKeepQuantitiesPositive(cartItems, id, q);
      cartItems := WithQuantity(cartItems, id, q);
    }

    /** The minus button of the item at position `k`. */
    method PressMinus(k: nat)
      requires Valid() && k < |cartItems|
      modifies this
      ensures Valid()
      ensures old(cartItems[k].quantity) == 1 ==> cartItems == Removed(old(cartItems), old(cartItems[k].id))
      ensures old(cartItems[k].quantity) > 1 ==>
        cartItems == WithQuantity(old(cartItems), old(cartItems[k].id), old(cartItems[k].quantity) - 1)
      ensures guestInfo == old(guestInfo)
    {
      UpdateQuantity(cartItems[k].id, cartItems[k].quantity - 1);
    }

    /** The plus button of the item at position `k`. */
    method PressPlus(k: nat)
      requires Valid() && k < |cartItems|
      modifies this
      ensures Valid()
      ensures cartItems == WithQuantity(old(cartItems), old(cartItems[k].id), old(cartItems[k].quantity) + 1)
      ensures guestInfo == old(guestInfo)
    {
      UpdateQuantity(cartItems[k].id, cartItems[k].quantity + 1);
    }

    /** The e-mail field's `onChange`. */
    method SetGuestEmail(email: string)
      modifies this
      ensures guestInfo == old(guestInfo).(email := email) && cartItems == old(cartItems)
    {
      guestInfo := guestInfo.(email := email);
    }

    /** The phone field's `onChange`. */
    method SetGuestPhone(phone: string)
      modifies this
      ensures guestInfo == old(guestInfo).(phone := phone) && cartItems == old(cartItems)
    {
      guestInfo := guestInfo.(phone := phone);
    }

    /** `getTotalPrice()`: the exact sum of `price * quantity`. */
    function GetTotalPrice(): (total: int)
      reads this
      ensures total == LineSum(cartItems)
    {
      Reduce(0, cartItems)
    }

    /** The page shows the empty-cart view, which has no checkout button, exactly when there are no items. */
    predicate ShowsEmptyView()
      reads this
      ensures ShowsEmptyView() ==> GetTotalPrice() == 0
    {
      |cartItems| == 0
    }

    /**
     * `handleCheckout`: the address opened in a new tab. It depends on the items alone (the guest
     * contact fields are not part of the message) and changes no state.
     */
    method HandleCheckout(render: NumberRenderer, encode: UriEncoder) returns (whatsappUrl: string)
      ensures whatsappUrl == WhatsappEndpoint + encode(CheckoutMessage(render, cartItems))
    {
      var total := GetTotalPrice();
      var itemsText := Join(ItemLines(render, cartItems), "\n");
      var message := Greeting + "\n\n" + itemsText + "\n\n" + TotalLabel + FormatPrice(render, Ouguiya, total);
      assert total == Reduce(0, cartItems);
      assert message == (Greeting + "\n\n" + itemsText + "\n\n") + (TotalLabel + FormatPrice(render, Ouguiya, total));
      whatsappUrl := WhatsappEndpoint + encode(message);
    }
  }
}
