/** The carts router: lookup by owner, create / update / delete over the
    carts collection, and adding an item to a user's cart, which either
    raises the quantity of a line item with the same id or appends the new
    item, and adds `price * quantity` to the cart's `total_amount`. */
module Carts {
  import opened Json
  import opened Store

  /** GET /carts/:userId: the first cart whose `userId` is the number `userId`, or NotFound. */
  function CartOfUser(carts: seq<Record>, userId: int): (r: Response<Record>)
    ensures r.Ok? || r.NotFound?
    ensures r.NotFound? <==> forall j :: 0 <= j < |carts| ==> !HasKey(carts[j], "userId", userId)
    ensures r.Ok? ==> "userId" in r.value && r.value["userId"] == Num(userId)
    ensures r.Ok? ==> exists i :: && 0 <= i < |carts|
                                  && carts[i] == r.value
                                  && forall j :: 0 <= j < i ==> !HasKey(carts[j], "userId", userId)
  {
    match Find(carts, c => HasKey(c, "userId", userId))
    case None => NotFound
    case Some(c) => Ok(c)
  }

  // ---------------------------------------------------------------------
  // Line items

  /** `item.id === newItem.id` for an item of the cart. */
  predicate SameId(item: Value, newItem: Record) {
    item.Obj? && StrictEquals(Get(item.fields, "id"), Get(newItem, "id"))
  }

  /** The cart has the shape addItem reads: an `items` array of objects. */
  predicate HasItemList(cart: Record) {
    && "items" in cart
    && cart["items"].Arr?
    && forall j :: 0 <= j < |cart["items"].elems| ==> cart["items"].elems[j].Obj?
  }

  function Items(cart: Record): seq<Value>
    requires HasItemList(cart)
  {
    cart["items"].elems
  }

  /** `items.findIndex(item => item.id === newItem.id)`. */
  function ItemIndex(items: seq<Value>, newItem: Record): (k: int)
    ensures -1 <= k < |items|
    ensures k >= 0 ==> SameId(items[k], newItem)
    ensures k >= 0 ==> forall j :: 0 <= j < k ==> !SameId(items[j], newItem)
    ensures k < 0 <==> forall j :: 0 <= j < |items| ==> !SameId(items[j], newItem)
  {
    FindIndex(items, v => SameId(v, newItem))
  }

  /** Every operand addItem computes with is one JavaScript turns into a
      number (or NaN) rather than concatenates: the cart's total, the new
      item's price and quantity, and the quantity of the line item it bumps,
      if any. */
  predicate CanAdd(cart: Record, newItem: Record) {
    && HasItemList(cart)
    && Numeric(Get(cart, "total_amount")).Some?
    && Numeric(Get(newItem, "price")).Some?
    && Numeric(Get(newItem, "quantity")).Some?
    && var k := ItemIndex(Items(cart), newItem);
       k >= 0 ==> Numeric(Get(Items(cart)[k].fields, "quantity")).Some?
  }

  /** The number JavaScript reads from `r.k` for arithmetic. */
  function NumberOf(r: Record, k: string): Number
    requires Numeric(Get(r, k)).Some?
  {
    Numeric(Get(r, k)).value
  }

  /** `newItem.price * newItem.quantity` when both are numbers. */
  function Amount(newItem: Record): int
    requires NumField(newItem, "price").Some? && NumField(newItem, "quantity").Some?
  {
    newItem["price"].n * newItem["quantity"].n
  }

  /** The line item `item` after `item.quantity += newItem.quantity`. */
  function Bumped(item: Value, newItem: Record): Value
    requires item.Obj?
    requires Numeric(Get(item.fields, "quantity")).Some? && Numeric(Get(newItem, "quantity")).Some?
  {
    Obj(item.fields["quantity" := Stored(Add(NumberOf(item.fields, "quantity"), NumberOf(newItem, "quantity")))])
  }

  /** The cart after POST /carts/:userId/addItem, or Malformed when an
      operand is a string, an array or an object. An item with the new
      item's id has its quantity raised by the new quantity and keeps its
      other fields (its price included); otherwise the new item is appended.
      Either way `price * quantity` is added to the total, and no other
      field of the cart changes. Null and booleans count as 0 and 1, and a
      missing operand makes the result NaN, which is stored as null. */
  function AddItemTo(cart: Record, newItem: Record): (r: Response<Record>)
    ensures r.Ok? || r.Malformed?
    ensures r.Ok? <==> CanAdd(cart, newItem)
    ensures r.Ok? ==> r.value.Keys == cart.Keys + {"total_amount"} && HasItemList(r.value)
    ensures r.Ok? ==> forall f :: f in cart && f != "items" && f != "total_amount" ==> r.value[f] == cart[f]
    ensures r.Ok? ==>
      r.value["total_amount"] ==
        Stored(Add(NumberOf(cart, "total_amount"), Mul(NumberOf(newItem, "price"), NumberOf(newItem, "quantity"))))
    ensures r.Ok? && NumField(cart, "total_amount").Some? && NumField(newItem, "price").Some? && NumField(newItem, "quantity").Some? ==>
      NumField(r.value, "total_amount") == Some(cart["total_amount"].n + Amount(newItem))
    ensures r.Ok? && ItemIndex(Items(cart), newItem) >= 0 ==>
      var items, items', k := Items(cart), Items(r.value), ItemIndex(Items(cart), newItem);
      && |items'| == |items|
      && (forall j :: 0 <= j < |items| && j != k ==> items'[j] == items[j])
      && items'[k].fields.Keys == items[k].fields.Keys + {"quantity"}
      && (forall f :: f in items[k].fields && f != "quantity" ==> items'[k].fields[f] == items[k].fields[f])
      && items'[k].fields["quantity"] ==
           Stored(Add(NumberOf(items[k].fields, "quantity"), NumberOf(newItem, "quantity")))
    ensures r.Ok? && ItemIndex(Items(cart), newItem) < 0 ==>
      Items(r.value) == Items(cart) + [Obj(newItem)]
  {
    if !CanAdd(cart, newItem) then Malformed
    else
      var items := Items(cart);
      var k := ItemIndex(items, newItem);
      var items' :=
        if k >= 0 then items[k := Bumped(items[k], newItem)]
        else items + [Obj(newItem)];
      var total := Add(NumberOf(cart, "total_amount"), Mul(NumberOf(newItem, "price"), NumberOf(newItem, "quantity")));
      Ok(cart["items" := Arr(items')]["total_amount" := Stored(total)])
  }

  /** A cart created without a total: the first addItem adds to undefined
      and stores null; the second reads that null as 0, so the total then
      counts only the second item's amount. */
  lemma MissingTotalIsRestartedFromZero()
    ensures var cart := map["userId" := Num(1), "items" := Arr([])];
            var newItem := map["id" := Num(3), "price" := Num(5), "quantity" := Num(2)];
            && AddItemTo(cart, newItem).Ok?
            && AddItemTo(cart, newItem).value["total_amount"] == Null
            && AddItemTo(AddItemTo(cart, newItem).value, newItem).Ok?
            && AddItemTo(AddItemTo(cart, newItem).value, newItem).value["total_amount"] == Num(10)
  {
    var cart := map["userId" := Num(1), "items" := Arr([])];
    var newItem := map["id" := Num(3), "price" := Num(5), "quantity" := Num(2)];
    assert ItemIndex([], newItem) == -1;
    var first := AddItemTo(cart, newItem).value;
    assert Items(first) == [Obj(newItem)];
    assert ItemIndex(Items(first), newItem) == 0 by {
      assert SameId(Items(first)[0], newItem);
    }
  }

  // ---------------------------------------------------------------------
  // The total-amount invariant

  /** A line item with a numeric price and quantity. */
  predicate PricedItem(v: Value) {
    v.Obj? && NumField(v.fields, "price").Some? && NumField(v.fields, "quantity").Some?
  }

  predicate AllPriced(items: seq<Value>) {
    forall j :: 0 <= j < |items| ==> PricedItem(items[j])
  }

  function LineAmount(v: Value): int
    requires PricedItem(v)
  {
    v.fields["price"].n * v.fields["quantity"].n
  }

  /** The sum of `price * quantity` over the line items. */
  function ItemsAmount(items: seq<Value>): int
    requires AllPriced(items)
  {
    if |items| == 0 then 0
    else ItemsAmount(items[..|items| - 1]) + LineAmount(items[|items| - 1])
  }

  /** `total_amount` equals the sum of `price * quantity` over `items`. */
  predicate TotalIsConsistent(cart: Record) {
    && HasItemList(cart)
    && AllPriced(Items(cart))
    && NumField(cart, "total_amount") == Some(ItemsAmount(Items(cart)))
  }

  /** Replacing one line item changes the sum by the difference of the two
      line amounts. */
  lemma {:induction false} ItemsAmountAfterReplace(items: seq<Value>, k: int, v: Value)
    requires AllPriced(items) && 0 <= k < |items| && PricedItem(v)
    ensures AllPriced(items[k := v])
    ensures ItemsAmount(items[k := v]) == ItemsAmount(items) - LineAmount(items[k]) + LineAmount(v)
    decreases |items|
  {
    var n := |items|;
    var items' := items[k := v];
    assert items'[n - 1] == if k == n - 1 then v else items[n - 1];
    if k == n - 1 {
      assert items'[..n - 1] == items[..n - 1];
    } else {
      assert items'[..n - 1] == items[..n - 1][k := v];
      ItemsAmountAfterReplace(items[..n - 1], k, v);
    }
  }

  /** Appending a line item adds its amount to the sum. */
  lemma ItemsAmountAfterAppend(items: seq<Value>, v: Value)
    requires AllPriced(items) && PricedItem(v)
    ensures AllPriced(items + [v])
    ensures ItemsAmount(items + [v]) == ItemsAmount(items) + LineAmount(v)
  {
    assert (items + [v])[..|items|] == items;
  }

  /** Raising the quantity of a line item priced as the new item adds the
      new item's amount to the line's amount. */
  lemma BumpedLineAmount(item: Value, newItem: Record)
    requires PricedItem(item)
    requires NumField(newItem, "price").Some? && NumField(newItem, "quantity").Some?
    requires NumField(item.fields, "price") == NumField(newItem, "price")
    ensures PricedItem(Bumped(item, newItem))
    ensures LineAmount(Bumped(item, newItem)) == LineAmount(item) + Amount(newItem)
  {
    var p, q, d := newItem["price"].n, item.fields["quantity"].n, newItem["quantity"].n;
    assert p * (q + d) == p * q + p * d;
  }

  /** addItem keeps the total consistent with the items, provided a line
      item with the new item's id is priced as the new item is (the bumped
      item keeps its own price while the total uses the new one). It then
      always succeeds. */
  lemma AddItemKeepsTotalConsistent(cart: Record, newItem: Record)
    requires TotalIsConsistent(cart)
    requires NumField(newItem, "price").Some? && NumField(newItem, "quantity").Some?
    requires ItemIndex(Items(cart), newItem) >= 0 ==>
      NumField(Items(cart)[ItemIndex(Items(cart), newItem)].fields, "price") == NumField(newItem, "price")
    ensures AddItemTo(cart, newItem).Ok?
    ensures TotalIsConsistent(AddItemTo(cart, newItem).value)
  {
    var items := Items(cart);
    var k := ItemIndex(items, newItem);
    var total := cart["total_amount"].n;
    var r := AddItemTo(cart, newItem).value;
    assert NumField(r, "total_amount") == Some(total + Amount(newItem));
    if k >= 0 {
      var v := Bumped(items[k], newItem);
      assert r == cart["items" := Arr(items[k := v])]["total_amount" := Num(total + Amount(newItem))];
      BumpedLineAmount(items[k], newItem);
      ItemsAmountAfterReplace(items, k, v);
    } else {
      assert r == cart["items" := Arr(items + [Obj(newItem)])]["total_amount" := Num(total + Amount(newItem))];
      ItemsAmountAfterAppend(items, Obj(newItem));
    }
  }

  /** A line item or new item whose id is a product id of `catalog` and
      whose price is that product's price. */
  predicate PricedFrom(v: Value, catalog: map<int, int>) {
    && v.Obj?
    && NumField(v.fields, "id").Some?
    && v.fields["id"].n in catalog
    && NumField(v.fields, "price") == Some(catalog[v.fields["id"].n])
  }

  /** One addItem per new item, in order; Malformed as soon as one is. */
  function AddAllTo(cart: Record, newItems: seq<Record>): (r: Response<Record>)
    decreases |newItems|
  {
    if |newItems| == 0 then Ok(cart)
    else match AddItemTo(cart, newItems[0])
      case Ok(cart') => AddAllTo(cart', newItems[1..])
      case _ => Malformed
  }

  /** addItem keeps every line item priced from the catalogue when the new
      item is: a bumped item keeps its id and price, an appended one is the
      new item. */
  lemma AddItemKeepsCatalogPrices(cart: Record, newItem: Record, catalog: map<int, int>)
    requires CanAdd(cart, newItem)
    requires forall j :: 0 <= j < |Items(cart)| ==> PricedFrom(Items(cart)[j], catalog)
    requires PricedFrom(Obj(newItem), catalog)
    ensures forall j :: 0 <= j < |Items(AddItemTo(cart, newItem).value)| ==>
      PricedFrom(Items(AddItemTo(cart, newItem).value)[j], catalog)
  {
    var items := Items(cart);
    var items' := Items(AddItemTo(cart, newItem).value);
    var k := ItemIndex(items, newItem);
    forall j | 0 <= j < |items'| ensures PricedFrom(items'[j], catalog) {
      if k >= 0 {
        assert PricedFrom(items[j], catalog);
        if j == k {
          assert items'[j].fields["id"] == items[j].fields["id"];
          assert items'[j].fields["price"] == items[j].fields["price"];
        }
      } else if j == |items| {
        assert items'[j] == Obj(newItem);
      } else {
        assert items'[j] == items[j];
      }
    }
  }

  /** When every line item and every new item takes its price from one
      catalogue, any sequence of addItem calls on a consistent cart succeeds
      and leaves `total_amount` equal to the sum of `price * quantity`. */
  lemma {:induction false} AddAllKeepsTotalConsistent(cart: Record, newItems: seq<Record>, catalog: map<int, int>)
    requires TotalIsConsistent(cart)
    requires forall j :: 0 <= j < |Items(cart)| ==> PricedFrom(Items(cart)[j], catalog)
    requires forall j :: 0 <= j < |newItems| ==>
      PricedFrom(Obj(newItems[j]), catalog) && NumField(newItems[j], "quantity").Some?
    ensures AddAllTo(cart, newItems).Ok?
    ensures TotalIsConsistent(AddAllTo(cart, newItems).value)
    decreases |newItems|
  {
    if |newItems| > 0 {
      var newItem := newItems[0];
      var items := Items(cart);
      assert PricedFrom(Obj(newItem), catalog);
      forall j | 0 <= j < |items| && SameId(items[j], newItem)
        ensures NumField(items[j].fields, "price") == NumField(newItem, "price")
      {
        assert PricedFrom(items[j], catalog);
      }
      AddItemKeepsTotalConsistent(cart, newItem);
      AddItemKeepsCatalogPrices(cart, newItem, catalog);
      var cart' := AddItemTo(cart, newItem).value;
      assert AddAllTo(cart, newItems) == AddAllTo(cart', newItems[1..]);
      assert forall j :: 0 <= j < |newItems[1..]| ==> newItems[1..][j] == newItems[j + 1];
      AddAllKeepsTotalConsistent(cart', newItems[1..], catalog);
    }
  }

  /** Without the price condition the invariant breaks: bumping a line item
      priced 5 with a new item priced 7 adds 7 to the total while the line
      item still counts at 5. */
  lemma RepricedItemBreaksTotal()
    ensures var item := map["id" := Num(1), "price" := Num(5), "quantity" := Num(1)];
            var cart := map["items" := Arr([Obj(item)]), "total_amount" := Num(5)];
            var newItem := map["id" := Num(1), "price" := Num(7), "quantity" := Num(1)];
            && TotalIsConsistent(cart)
            && AddItemTo(cart, newItem).Ok?
            && !TotalIsConsistent(AddItemTo(cart, newItem).value)
  {
    var item := map["id" := Num(1), "price" := Num(5), "quantity" := Num(1)];
    var cart := map["items" := Arr([Obj(item)]), "total_amount" := Num(5)];
    var newItem := map["id" := Num(1), "price" := Num(7), "quantity" := Num(1)];
    assert ItemIndex([Obj(item)], newItem) == 0;
    var r := AddItemTo(cart, newItem).value;
    assert Items(r)[0].fields["quantity"] == Num(2);
    assert ItemsAmount(Items(r)) == ItemsAmount(Items(r)[..0]) + LineAmount(Items(r)[0]) == 10;
    assert r["total_amount"] == Num(12);
  }

  // ---------------------------------------------------------------------
  // The store

  /** The contents of the carts file, and the handlers that change it. */
  class CartStore {
    var carts: seq<Record>

    constructor (initial: seq<Record>)
      ensures carts == initial
    {
      carts := initial;
    }

    /** POST /carts: append `{ id: last id + 1 (or 1), ...body }` and return it. */
    method Create(body: Record) returns (created: Record)
      modifies this
      ensures created == NewRecord(old(carts), body)
      ensures carts == old(carts) + [created]
    {
      created := NewRecord(carts, body);
      carts := carts + [created];
    }

    /** PUT /carts/:id: replace the first cart with that id by
        `{ id, ...body }`; fields the body lacks are dropped. */
    method Update(id: int, body: Record) returns (r: Response<Record>)
      modifies this
      ensures r.Ok? || r.NotFound?
      ensures var i := IndexWith(old(carts), "id", id);
        if i < 0 then r == NotFound && carts == old(carts)
        else r == Ok(WithId(Num(id), body)) && carts == old(carts)[i := r.value]
    {
      var index := IndexWith(carts, "id", id);
      if index != -1 {
        var updated := WithId(Num(id), body);
        carts := carts[index := updated];
        r := Ok(updated);
      } else {
        r := NotFound;
      }
    }

    /** DELETE /carts/:id: splice out the first cart with that id. */
    method Delete(id: int) returns (r: Response<()>)
      modifies this
      ensures r == Ok(()) || r == NotFound
      ensures var i := IndexWith(old(carts), "id", id);
        if i < 0 then r == NotFound && carts == old(carts)
        else r == Ok(()) && carts == RemoveAt(old(carts), i)
    {
      var index := IndexWith(carts, "id", id);
      if index != -1 {
        carts := RemoveAt(carts, index);
        r := Ok(());
      } else {
        r := NotFound;
      }
    }

    /** POST /carts/:userId/addItem: update, in place, the first cart whose
        `userId` matches; every other cart, and the order of all of them,
        stays as it was. */
    method AddItem(userId: int, newItem: Record) returns (r: Response<Record>)
      modifies this
      ensures r.Ok? || r.NotFound? || r.Malformed?
      ensures var i := IndexWith(old(carts), "userId", userId);
        if i < 0 then r == NotFound && carts == old(carts)
        else && r == AddItemTo(old(carts)[i], newItem)
             && carts == if r.Ok? then old(carts)[i := r.value] else old(carts)
    {
      var cartIndex := IndexWith(carts, "userId", userId);
      if cartIndex == -1 {
        return NotFound;
      }
      var cart := carts[cartIndex];
      if !CanAdd(cart, newItem) {
        return Malformed;
      }
      var items := cart["items"].elems;
      var existingItemIndex := ItemIndex(items, newItem);
      if existingItemIndex != -1 {
        var item := items[existingItemIndex].fields;
        items := items[existingItemIndex := Obj(item["quantity" := Stored(Add(NumberOf(item, "quantity"), NumberOf(newItem, "quantity")))])];
      } else {
        items := items + [Obj(newItem)];
      }
      cart := cart["items" := Arr(items)];
      cart := cart["total_amount" := Stored(Add(NumberOf(cart, "total_amount"), Mul(NumberOf(newItem, "price"), NumberOf(newItem, "quantity"))))];
      carts := carts[cartIndex := cart];
      r := Ok(cart);
    }
  }
}
