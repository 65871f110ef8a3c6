/**
 * The cart mutation rules that CartService applies to a freshly fetched cart
 * (src/app/services/cart.service.ts) and that the cart page mirrors on its
 * local list (src/app/home/cart.component.ts), stated as functions on the
 * sequence of lines, together with the properties the storefront relies on.
 */
module CartRules {
  import opened Wrappers
  import opened Models

  /** The message of the only domain error of the add operation. */
  const NotEnoughInStock: string := "Not enough in stock"

  /** No line is kept at quantity zero or below. */
  predicate NoEmptyLines(items: seq<CartItem>)
  {
    forall j :: 0 <= j < |items| ==> items[j].quantity >= 1
  }

  /** Some line carries the product id. */
  predicate InCart(items: seq<CartItem>, id: int)
  {
    exists j :: 0 <= j < |items| && items[j].id == id
  }

  /** The line `cart.items.find(i => i.id === id)` picks: the first with that id. */
  function FirstMatch(items: seq<CartItem>, id: int): (r: Option<nat>)
    ensures r.Some? ==> r.value < |items| && items[r.value].id == id
    ensures r.Some? ==> forall j :: 0 <= j < r.value ==> items[j].id != id
    ensures r.None? <==> !InCart(items, id)
  {
    Find(items, (i: CartItem) => i.id == id)
  }

  /** The first matching line is determined by "has the id, and no earlier line has it". */
  lemma FirstMatchAt(items: seq<CartItem>, id: int, i: nat)
    requires i < |items| && items[i].id == id
    requires forall k :: 0 <= k < i ==> items[k].id != id
    ensures FirstMatch(items, id) == Some(i)
  {
    assert InCart(items, id);
  }

  /** `item?.quantity || 0`: the first matching line's quantity, or 0 when no line has the id. */
  function CurrentQuantity(items: seq<CartItem>, id: int): (q: int)
    ensures !InCart(items, id) ==> q == 0
    ensures forall j :: 0 <= j < |items| && items[j].id == id && (forall k :: 0 <= k < j ==> items[k].id != id)
                        ==> q == items[j].quantity
  {
    match FirstMatch(items, id)
    case None => 0
    case Some(i) => items[i].quantity
  }

  /** The line with one more unit. */
  function Bumped(item: CartItem): CartItem
  {
    item.(quantity := item.quantity + 1)
  }

  /**
   * The lines after adding one unit of a product that has `stock` units available,
   * or None where the source fails with NotEnoughInStock and writes nothing back.
   */
  function AddOne(items: seq<CartItem>, productId: int, title: string, price: int, image: string, stock: int)
    : (r: Option<seq<CartItem>>)
    ensures r.None? <==> CurrentQuantity(items, productId) + 1 > stock
    ensures r.Some? ==> CurrentQuantity(r.value, productId) == CurrentQuantity(items, productId) + 1
    ensures r.Some? ==> CurrentQuantity(r.value, productId) <= stock
    ensures r.Some? && InCart(items, productId) ==>
              var i := FirstMatch(items, productId).value;
              |r.value| == |items| && r.value[i] == Bumped(items[i]) &&
              forall j :: 0 <= j < |items| && j != i ==> r.value[j] == items[j]
    ensures r.Some? && !InCart(items, productId) ==>
              |r.value| == |items| + 1 && r.value[..|items|] == items &&
              r.value[|items|] == CartItem(productId, title, price, image, 1)
    ensures r.Some? && NoEmptyLines(items) ==> NoEmptyLines(r.value)
  {
    if CurrentQuantity(items, productId) + 1 > stock then None
    else
      match FirstMatch(items, productId)
      case Some(i) =>
        var next := items[i := Bumped(items[i])];
        FirstMatchAt(next, productId, i);
        Some(next)
      case None =>
        var next := items + [CartItem(productId, title, price, image, 1)];
        assert next[..|items|] == items;
        FirstMatchAt(next, productId, |items|);
        Some(next)
  }

  /** `items.filter(i => i.id !== id)`. */
  function WithoutId(items: seq<CartItem>, id: int): (r: seq<CartItem>)
    ensures forall j :: 0 <= j < |r| ==> r[j].id != id
    ensures forall x :: x in r ==> x in items
    ensures forall x :: x in items && x.id != id ==> x in r
    ensures !InCart(items, id) ==> r == items
    ensures |r| < |items| <==> InCart(items, id)
    decreases |items|
  {
    if |items| == 0 then []
    else
      var rest := WithoutId(items[1..], id);
      assert InCart(items, id) <==> items[0].id == id || InCart(items[1..], id) by {
        if InCart(items[1..], id) {
          var j :| 0 <= j < |items[1..]| && items[1..][j].id == id;
          assert items[j + 1].id == id;
        }
        if InCart(items, id) && items[0].id != id {
          var j :| 0 <= j < |items| && items[j].id == id;
          assert items[1..][j - 1].id == id;
        }
      }
      assert items == [items[0]] + items[1..];
      if items[0].id == id then rest else [items[0]] + rest
  }

  /** Filtering distributes over concatenation: the kept lines keep their relative order. */
  lemma {:induction false} WithoutIdAppend(a: seq<CartItem>, b: seq<CartItem>, id: int)
    ensures WithoutId(a + b, id) == WithoutId(a, id) + WithoutId(b, id)
    decreases |a|
  {
    if |a| == 0 {
      assert a + b == b;
    } else {
      assert (a + b)[1..] == a[1..] + b;
      WithoutIdAppend(a[1..], b, id);
    }
  }

  /** A single line survives the filter exactly when its id differs. */
  lemma WithoutIdSingle(x: CartItem, id: int)
    ensures WithoutId([x], id) == if x.id == id then [] else [x]
  {
    assert [x][1..] == [];
  }

  /** Changing a line that the filter drops anyway does not change the filtered lines. */
  lemma WithoutIdReplaceDropped(items: seq<CartItem>, i: nat, y: CartItem, id: int)
    requires i < |items| && items[i].id == id && y.id == id
    ensures WithoutId(items[i := y], id) == WithoutId(items, id)
  {
    var pre, post := items[..i], items[i + 1..];
    assert items == pre + [items[i]] + post;
    assert items[i := y] == pre + [y] + post;
    WithoutIdAppend(pre + [items[i]], post, id);
    WithoutIdAppend(pre, [items[i]], id);
    WithoutIdAppend(pre + [y], post, id);
    WithoutIdAppend(pre, [y], id);
    WithoutIdSingle(items[i], id);
    WithoutIdSingle(y, id);
  }

  /** One unit of a product removed: the first matching line loses a unit and, at zero or below, every line with that id goes. */
  function RemoveOne(items: seq<CartItem>, productId: int): (r: seq<CartItem>)
    ensures !InCart(items, productId) ==> r == items
    ensures InCart(items, productId) && CurrentQuantity(items, productId) > 1 ==>
              var i := FirstMatch(items, productId).value;
              |r| == |items| && r[i].quantity == items[i].quantity - 1 &&
              r[i] == items[i].(quantity := items[i].quantity - 1) &&
              forall j :: 0 <= j < |items| && j != i ==> r[j] == items[j]
    ensures InCart(items, productId) && CurrentQuantity(items, productId) <= 1 ==>
              r == WithoutId(items, productId) && !InCart(r, productId)
    ensures NoEmptyLines(items) ==> NoEmptyLines(r)
    ensures |r| <= |items|
  {
    match FirstMatch(items, productId)
    case None => items
    case Some(i) =>
      if items[i].quantity - 1 <= 0 then WithoutId(items, productId)
      else items[i := items[i].(quantity := items[i].quantity - 1)]
  }

  /** Removing one unit undoes a successful add on a cart with no empty lines. */
  lemma RemoveUndoesAdd(items: seq<CartItem>, productId: int, title: string, price: int, image: string, stock: int)
    requires NoEmptyLines(items)
    requires CurrentQuantity(items, productId) < stock
    ensures RemoveOne(AddOne(items, productId, title, price, image, stock).value, productId) == items
  {
    var next := AddOne(items, productId, title, price, image, stock).value;
    if InCart(items, productId) {
      var i := FirstMatch(items, productId).value;
      FirstMatchAt(next, productId, i);
      var back := RemoveOne(next, productId);
      assert |back| == |items|;
      assert forall j :: 0 <= j < |items| ==> back[j] == items[j];
    } else {
      var line := CartItem(productId, title, price, image, 1);
      assert next == items + [line];
      FirstMatchAt(next, productId, |items|);
      WithoutIdAppend(items, [line], productId);
      WithoutIdSingle(line, productId);
      assert WithoutId(next, productId) == items;
    }
  }

  /** At most one line per product id: the shape the add rule builds, since it bumps an existing line rather than appending another. */
  predicate UniqueIds(items: seq<CartItem>)
  {
    forall i, j :: 0 <= i < j < |items| ==> items[i].id != items[j].id
  }

  /** A successful add keeps one line per product id. */
  lemma AddOneKeepsUniqueIds(items: seq<CartItem>, productId: int, title: string, price: int, image: string, stock: int)
    requires UniqueIds(items)
    ensures var r := AddOne(items, productId, title, price, image, stock);
            r.Some? ==> UniqueIds(r.value)
  {
    var r := AddOne(items, productId, title, price, image, stock);
    if r.Some? && !InCart(items, productId) {
      var next := r.value;
      forall i, j | 0 <= i < j < |next|
        ensures next[i].id != next[j].id
      {
        if j == |items| {
          assert next[i] == items[i];
        } else {
          assert next[i] == next[..|items|][i] && next[j] == next[..|items|][j];
        }
      }
    }
  }

  /** Filtering keeps one line per product id. */
  lemma {:induction false} WithoutIdKeepsUniqueIds(items: seq<CartItem>, id: int)
    requires UniqueIds(items)
    ensures UniqueIds(WithoutId(items, id))
    decreases |items|
  {
    if |items| > 0 {
      var tail := items[1..];
      assert UniqueIds(tail) by {
        forall i, j | 0 <= i < j < |tail|
          ensures tail[i].id != tail[j].id
        {
          assert tail[i] == items[i + 1] && tail[j] == items[j + 1];
        }
      }
      WithoutIdKeepsUniqueIds(tail, id);
      var rest := WithoutId(tail, id);
      if items[0].id != id {
        assert WithoutId(items, id) == [items[0]] + rest;
        forall j | 0 <= j < |rest|
          ensures rest[j].id != items[0].id
        {
          assert rest[j] in tail;
          var k :| 0 <= k < |tail| && tail[k] == rest[j];
          assert items[k + 1] == rest[j];
        }
      }
    }
  }

  /** A remove keeps one line per product id. */
  lemma RemoveOneKeepsUniqueIds(items: seq<CartItem>, productId: int)
    requires UniqueIds(items)
    ensures UniqueIds(RemoveOne(items, productId))
  {
    if InCart(items, productId) && CurrentQuantity(items, productId) <= 1 {
      WithoutIdKeepsUniqueIds(items, productId);
    }
  }

  /** With one line per product id, removing the last unit of a product shortens the cart by exactly that line. */
  lemma RemoveLastUnitDropsOneLine(items: seq<CartItem>, productId: int)
    requires UniqueIds(items)
    requires InCart(items, productId) && CurrentQuantity(items, productId) <= 1
    ensures |RemoveOne(items, productId)| == |items| - 1
  {
    var i := FirstMatch(items, productId).value;
    var pre, post := items[..i], items[i + 1..];
    assert items == pre + [items[i]] + post;
    assert !InCart(pre, productId);
    assert !InCart(post, productId);
    WithoutIdAppend(pre + [items[i]], post, productId);
    WithoutIdAppend(pre, [items[i]], productId);
    WithoutIdSingle(items[i], productId);
  }

  /** `getTotalPrice`: the sum of price times quantity over the lines, in cents. */
  function TotalPrice(items: seq<CartItem>): (t: int)
    ensures (forall i :: 0 <= i < |items| ==> items[i].price >= 0 && items[i].quantity >= 0) ==> t >= 0
    decreases |items|
  {
    if |items| == 0 then 0 else items[0].price * items[0].quantity + TotalPrice(items[1..])
  }

  lemma {:induction false} TotalPriceAppend(a: seq<CartItem>, b: seq<CartItem>)
    ensures TotalPrice(a + b) == TotalPrice(a) + TotalPrice(b)
    decreases |a|
  {
    if |a| == 0 {
      assert a + b == b;
    } else {
      assert (a + b)[1..] == a[1..] + b;
      TotalPriceAppend(a[1..], b);
    }
  }

  lemma TotalPriceSingle(x: CartItem)
    ensures TotalPrice([x]) == x.price * x.quantity
  {
    assert [x][1..] == [];
  }

  /** Replacing one line changes the total by the difference of that line's subtotals. */
  lemma TotalPriceReplace(items: seq<CartItem>, i: nat, y: CartItem)
    requires i < |items|
    ensures TotalPrice(items[i := y]) == TotalPrice(items) - items[i].price * items[i].quantity + y.price * y.quantity
  {
    var pre, post := items[..i], items[i + 1..];
    assert items == pre + [items[i]] + post;
    assert items[i := y] == pre + [y] + post;
    TotalPriceAppend(pre + [items[i]], post);
    TotalPriceAppend(pre, [items[i]]);
    TotalPriceAppend(pre + [y], post);
    TotalPriceAppend(pre, [y]);
    TotalPriceSingle(items[i]);
    TotalPriceSingle(y);
  }

  /** A successful add raises the total by one unit's price: the stored snapshot price for an existing line, the given price for a new one. */
  lemma AddRaisesTotal(items: seq<CartItem>, productId: int, title: string, price: int, image: string, stock: int)
    requires CurrentQuantity(items, productId) < stock
    ensures var next := AddOne(items, productId, title, price, image, stock).value;
            TotalPrice(next) == TotalPrice(items) + (if InCart(items, productId) then items[FirstMatch(items, productId).value].price else price)
  {
    var next := AddOne(items, productId, title, price, image, stock).value;
    if InCart(items, productId) {
      var i := FirstMatch(items, productId).value;
      BumpRaisesTotal(items, next, i);
    } else {
      var line := CartItem(productId, title, price, image, 1);
      assert next == next[..|items|] + [next[|items|]];
      TotalPriceAppend(items, [line]);
      TotalPriceSingle(line);
    }
  }

  lemma BumpRaisesTotal(items: seq<CartItem>, next: seq<CartItem>, i: nat)
    requires i < |items| == |next|
    requires next[i] == Bumped(items[i])
    requires forall j :: 0 <= j < |items| && j != i ==> next[j] == items[j]
    ensures TotalPrice(next) == TotalPrice(items) + items[i].price
  {
    assert next == items[i := Bumped(items[i])];
    TotalPriceReplace(items, i, Bumped(items[i]));
    SubtotalStep(items[i].price, items[i].quantity);
  }

  /** One unit more or less on a line moves its subtotal by exactly its price. */
  lemma SubtotalStep(p: int, q: int)
    ensures p * (q + 1) == p * q + p
    ensures p * (q - 1) == p * q - p
  {
  }

  /** Removing a unit from a line of quantity above one lowers the total by that line's price. */
  lemma RemoveLowersTotal(items: seq<CartItem>, productId: int)
    requires InCart(items, productId) && CurrentQuantity(items, productId) > 1
    ensures TotalPrice(RemoveOne(items, productId)) == TotalPrice(items) - items[FirstMatch(items, productId).value].price
  {
    var i := FirstMatch(items, productId).value;
    var y := items[i].(quantity := items[i].quantity - 1);
    assert RemoveOne(items, productId) == items[i := y];
    TotalPriceReplace(items, i, y);
    SubtotalStep(items[i].price, items[i].quantity);
  }

  /** The worked examples: remove(7) twice from a line of two, and add(3) twice against a stock of one. */
  lemma SpecimenCarts()
    ensures var seven := CartItem(7, "t", 100, "i", 2);
            RemoveOne([seven], 7) == [seven.(quantity := 1)] &&
            RemoveOne([seven.(quantity := 1)], 7) == []
    ensures var once := AddOne([], 3, "t", 100, "i", 1);
            once == Some([CartItem(3, "t", 100, "i", 1)]) &&
            AddOne(once.value, 3, "t", 100, "i", 1).None?
  {
    var seven := CartItem(7, "t", 100, "i", 2);
    assert FirstMatch([seven], 7) == Some(0);
    assert FirstMatch([seven.(quantity := 1)], 7) == Some(0);
    WithoutIdSingle(seven.(quantity := 1), 7);
    var line := CartItem(3, "t", 100, "i", 1);
    assert [] + [line] == [line];
    assert FirstMatch([line], 3) == Some(0);
  }
}
