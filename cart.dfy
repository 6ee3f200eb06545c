/** The shopping cart of the storefront script: an ordered list of line items,
    changed in place by the add-to-cart handler and the quantity and remove
    controls, replaced by an empty list on clear, mirrored to a storage snapshot after every change, and read by the cart
    display and the checkout summary. */
module CartStore {

  datatype Option<T> = None | Some(value: T)

  /** One line of the cart. Prices are exact rationals (the script parses them
      as floating-point numbers); quantities are integers. */
  datatype Item = Item(id: string, name: string, price: real, quantity: int)

  /** What the script charges for one line: unit price times quantity. */
  function LineTotal(item: Item): (r: real)
    ensures item.quantity == 1 ==> r == item.price
    ensures item.price >= 0.0 && item.quantity >= 0 ==> r >= 0.0
  {
    item.price * item.quantity as real
  }

  /* ---------------------------------------------------------------------- */
  /* Reference sums                                                          */
  /* ---------------------------------------------------------------------- */

  /** Sum of the quantities over the cart, taken from the last item back. */
  function ItemCount(s: seq<Item>): int {
    if s == [] then 0 else ItemCount(s[..|s| - 1]) + s[|s| - 1].quantity
  }

  /** Sum of price times quantity over the cart, taken from the last item back. */
  function Total(s: seq<Item>): real {
    if s == [] then 0.0 else Total(s[..|s| - 1]) + LineTotal(s[|s| - 1])
  }

  lemma {:induction false} ItemCountConcat(a: seq<Item>, b: seq<Item>)
    ensures ItemCount(a + b) == ItemCount(a) + ItemCount(b)
  {
    if b != [] {
      assert (a + b)[..|a + b| - 1] == a + b[..|b| - 1];
      ItemCountConcat(a, b[..|b| - 1]);
    } else {
      assert a + b == a;
    }
  }

  lemma {:induction false} TotalConcat(a: seq<Item>, b: seq<Item>)
    ensures Total(a + b) == Total(a) + Total(b)
  {
    if b != [] {
      assert (a + b)[..|a + b| - 1] == a + b[..|b| - 1];
      TotalConcat(a, b[..|b| - 1]);
    } else {
      assert a + b == a;
    }
  }

  /** The sums over a cart split around one of its items. */
  lemma SumsAround(a: seq<Item>, x: Item, b: seq<Item>)
    ensures ItemCount(a + [x] + b) == ItemCount(a) + x.quantity + ItemCount(b)
    ensures Total(a + [x] + b) == Total(a) + LineTotal(x) + Total(b)
  {
    ItemCountConcat(a + [x], b);
    ItemCountConcat(a, [x]);
    TotalConcat(a + [x], b);
    TotalConcat(a, [x]);
    assert [x][..0] == [];
  }

  /** Replacing the item at one position changes the sums by exactly the
      difference between the old and the new item. */
  lemma SumsAfterUpdate(s: seq<Item>, i: nat, x: Item)
    requires i < |s|
    ensures ItemCount(s[i := x]) == ItemCount(s) - s[i].quantity + x.quantity
    ensures Total(s[i := x]) == Total(s) - LineTotal(s[i]) + LineTotal(x)
  {
    assert s == s[..i] + [s[i]] + s[i + 1..];
    assert s[i := x] == s[..i] + [x] + s[i + 1..];
    SumsAround(s[..i], s[i], s[i + 1..]);
    SumsAround(s[..i], x, s[i + 1..]);
  }

  /** One more unit of a line adds its unit price to the line total. */
  lemma LineTotalStep(a: Item, b: Item)
    requires b == a.(quantity := a.quantity + 1)
    ensures LineTotal(b) == LineTotal(a) + a.price
  {
  }

  /* ---------------------------------------------------------------------- */
  /* The item count as the script computes it: a left-to-right reduce        */
  /* ---------------------------------------------------------------------- */

  /** `reduce((sum, item) => sum + item.quantity, acc)`: folding the
      quantities in from the left adds their sum to the accumulator. */
  function ReduceQuantities(acc: int, s: seq<Item>): (r: int)
    decreases s
    ensures r == acc + ItemCount(s)
  {
    if s == [] then acc
    else
      assert s == [s[0]] + s[1..];
      ItemCountConcat([s[0]], s[1..]);
      assert [s[0]][..0] == [];
      ReduceQuantities(acc + s[0].quantity, s[1..])
  }

  /** The figure the cart link shows: the reduce started at 0 is the sum of
      the quantities. */
  function TotalItems(s: seq<Item>): (n: int)
    ensures n == ItemCount(s)
  {
    ReduceQuantities(0, s)
  }

  /* ---------------------------------------------------------------------- */
  /* The cart invariant                                                      */
  /* ---------------------------------------------------------------------- */

  ghost predicate UniqueIds(s: seq<Item>) {
    forall i, j :: 0 <= i < j < |s| ==> s[i].id != s[j].id
  }

  ghost predicate PositiveQuantities(s: seq<Item>) {
    forall i :: 0 <= i < |s| ==> s[i].quantity >= 1
  }

  /** At most one line item per id, and every quantity at least 1. */
  ghost predicate ValidCart(s: seq<Item>) {
    UniqueIds(s) && PositiveQuantities(s)
  }

  /** In a valid cart every line counts at least once, so the count is at
      least the number of lines and is 0 exactly when the cart is empty. */
  lemma {:induction false} ItemCountBounds(s: seq<Item>)
    requires PositiveQuantities(s)
    ensures ItemCount(s) >= |s|
    ensures ItemCount(s) == 0 <==> s == []
  {
    if s != [] {
      assert PositiveQuantities(s[..|s| - 1]);
      ItemCountBounds(s[..|s| - 1]);
    }
  }

  /* ---------------------------------------------------------------------- */
  /* The operations, on values                                               */
  /* ---------------------------------------------------------------------- */

  /** `cart.find(item => item.id === id)`, as the position of the first
      match. */
  function Find(s: seq<Item>, id: string): (r: Option<nat>)
    ensures r.Some? ==> r.value < |s| && s[r.value].id == id
    ensures r.Some? ==> forall j :: 0 <= j < r.value ==> s[j].id != id
    ensures r.None? <==> forall j :: 0 <= j < |s| ==> s[j].id != id
  {
    if s == [] then None
    else if s[0].id == id then Some(0)
    else match Find(s[1..], id)
      case None => None
      case Some(k) => Some(k + 1)
  }

  /** In a cart with unique ids the first match is the only one. */
  lemma FindUnique(s: seq<Item>, id: string, j: nat)
    requires UniqueIds(s) && j < |s| && s[j].id == id
    ensures Find(s, id) == Some(j)
  {
  }

  /** The add-to-cart handler: bump the quantity of the item with this id, or
      append a new item with quantity 1. An existing item keeps its own name
      and price. */
  function Added(s: seq<Item>, id: string, name: string, price: real): (r: seq<Item>)
    ensures Find(s, id).Some? ==>
      var k := Find(s, id).value;
      |r| == |s| && r[k] == s[k].(quantity := s[k].quantity + 1) &&
      forall j :: 0 <= j < |s| && j != k ==> r[j] == s[j]
    ensures Find(s, id).None? ==>
      |r| == |s| + 1 && r[..|s|] == s && r[|s|] == Item(id, name, price, 1)
  {
    match Find(s, id)
    case Some(k) => s[k := s[k].(quantity := s[k].quantity + 1)]
    case None => s + [Item(id, name, price, 1)]
  }

  /** `cart[index].quantity++`. */
  function Increased(s: seq<Item>, index: nat): (r: seq<Item>)
    requires index < |s|
    ensures |r| == |s| && r[index] == s[index].(quantity := s[index].quantity + 1)
    ensures forall j :: 0 <= j < |s| && j != index ==> r[j] == s[j]
  {
    s[index := s[index].(quantity := s[index].quantity + 1)]
  }

  /** `cart.splice(index, 1)` for a non-negative index: the item at that
      position is removed, or nothing happens past the end. */
  function Spliced(s: seq<Item>, index: nat): (r: seq<Item>)
    ensures index < |s| ==> |r| == |s| - 1
    ensures index < |s| ==> forall j :: 0 <= j < index ==> r[j] == s[j]
    ensures index < |s| ==> forall j :: index <= j < |r| ==> r[j] == s[j + 1]
    ensures index >= |s| ==> r == s
  {
    if index < |s| then s[..index] + s[index + 1..] else s
  }

  /** The decrease control: drop the quantity by one while it is above 1,
      otherwise remove the item. */
  function Decreased(s: seq<Item>, index: nat): (r: seq<Item>)
    requires index < |s|
    ensures s[index].quantity > 1 ==>
      |r| == |s| && r[index] == s[index].(quantity := s[index].quantity - 1) &&
      forall j :: 0 <= j < |s| && j != index ==> r[j] == s[j]
    ensures s[index].quantity <= 1 ==> r == Spliced(s, index)
  {
    if s[index].quantity > 1 then s[index := s[index].(quantity := s[index].quantity - 1)]
    else Spliced(s, index)
  }

  /* ---------------------------------------------------------------------- */
  /* What the operations do to the invariant and to the sums                 */
  /* ---------------------------------------------------------------------- */

  lemma AddedPreservesValid(s: seq<Item>, id: string, name: string, price: real)
    requires ValidCart(s)
    ensures ValidCart(Added(s, id, name, price))
  {
    var r := Added(s, id, name, price);
    if Find(s, id).None? {
      forall i, j | 0 <= i < j < |r| ensures r[i].id != r[j].id {
        if j == |s| {
          assert r[i] == s[i];
        } else {
          assert r[i] == s[i] && r[j] == s[j];
        }
      }
    } else {
      var k := Find(s, id).value;
      forall i, j | 0 <= i < j < |r| ensures r[i].id != r[j].id {
        assert r[i].id == s[i].id && r[j].id == s[j].id;
      }
    }
  }

  /** Adding moves the count up by one and the total up by the unit price of the
      line that grew: the stored price for an existing id, the given one for a
      new id. */
  lemma AddedSums(s: seq<Item>, id: string, name: string, price: real)
    ensures ItemCount(Added(s, id, name, price)) == ItemCount(s) + 1
    ensures Find(s, id).Some? ==>
      Total(Added(s, id, name, price)) == Total(s) + s[Find(s, id).value].price
    ensures Find(s, id).None? ==>
      Total(Added(s, id, name, price)) == Total(s) + price
  {
    match Find(s, id)
    case Some(k) =>
      var x := s[k].(quantity := s[k].quantity + 1);
      assert Added(s, id, name, price) == s[k := x];
      SumsAfterUpdate(s, k, x);
      LineTotalStep(s[k], x);
    case None =>
      var x := Item(id, name, price, 1);
      ItemCountConcat(s, [x]);
      TotalConcat(s, [x]);
      assert [x][..0] == [];
  }

  /** Adding the same new id twice leaves one line with quantity 2 at the end. */
  lemma AddedTwice(s: seq<Item>, id: string, name: string, price: real)
    requires Find(s, id).None?
    ensures Added(Added(s, id, name, price), id, name, price) == s + [Item(id, name, price, 2)]
  {
    var once := Added(s, id, name, price);
    assert once == s + [Item(id, name, price, 1)];
    assert Find(once, id) == Some(|s|);
  }

  lemma IncreasedPreservesValid(s: seq<Item>, index: nat)
    requires index < |s| && ValidCart(s)
    ensures ValidCart(Increased(s, index))
  {
    var r := Increased(s, index);
    assert forall j :: 0 <= j < |s| ==> r[j].id == s[j].id;
  }

  lemma IncreasedSums(s: seq<Item>, index: nat)
    requires index < |s|
    ensures ItemCount(Increased(s, index)) == ItemCount(s) + 1
    ensures Total(Increased(s, index)) == Total(s) + s[index].price
  {
    var x := s[index].(quantity := s[index].quantity + 1);
    assert Increased(s, index) == s[index := x];
    SumsAfterUpdate(s, index, x);
    LineTotalStep(s[index], x);
  }

  lemma SplicedPreservesValid(s: seq<Item>, index: nat)
    requires ValidCart(s)
    ensures ValidCart(Spliced(s, index))
  {
    var r := Spliced(s, index);
    if index < |s| {
      forall i, j | 0 <= i < j < |r| ensures r[i].id != r[j].id {
        var i' := if i < index then i else i + 1;
        var j' := if j < index then j else j + 1;
        assert r[i] == s[i'] && r[j] == s[j'];
      }
      forall i | 0 <= i < |r| ensures r[i].quantity >= 1 {
        assert r[i] == s[if i < index then i else i + 1];
      }
    }
  }

  lemma SplitAt(s: seq<Item>, index: nat)
    requires index < |s|
    ensures s == s[..index] + [s[index]] + s[index + 1..]
    ensures Spliced(s, index) == s[..index] + s[index + 1..]
  {
  }

  /** Removing a line takes exactly its quantity off the count and its line
      total off the total. */
  lemma SplicedSums(s: seq<Item>, index: nat)
    requires index < |s|
    ensures ItemCount(Spliced(s, index)) == ItemCount(s) - s[index].quantity
    ensures Total(Spliced(s, index)) == Total(s) - LineTotal(s[index])
  {
    var a, b := s[..index], s[index + 1..];
    SplitAt(s, index);
    SumsAround(a, s[index], b);
    ItemCountConcat(a, b);
    TotalConcat(a, b);
  }

  lemma DecreasedPreservesValid(s: seq<Item>, index: nat)
    requires index < |s| && ValidCart(s)
    ensures ValidCart(Decreased(s, index))
  {
    if s[index].quantity > 1 {
      var r := Decreased(s, index);
      assert forall j :: 0 <= j < |s| ==> r[j].id == s[j].id;
    } else {
      SplicedPreservesValid(s, index);
    }
  }

  /** While the quantity is at least 1 (always so in a valid cart) the
      decrease control takes one unit off the count and one unit price off
      the total, whether the line shrinks or goes. */
  lemma DecreasedSums(s: seq<Item>, index: nat)
    requires index < |s| && s[index].quantity >= 1
    ensures ItemCount(Decreased(s, index)) == ItemCount(s) - 1
    ensures Total(Decreased(s, index)) == Total(s) - s[index].price
  {
    if s[index].quantity > 1 {
      var x := s[index].(quantity := s[index].quantity - 1);
      assert Decreased(s, index) == s[index := x];
      SumsAfterUpdate(s, index, x);
      LineTotalStep(x, s[index]);
    } else {
      assert Decreased(s, index) == Spliced(s, index);
      SplicedSums(s, index);
      assert LineTotal(s[index]) == s[index].price * 1.0;
    }
  }

  /* ---------------------------------------------------------------------- */
  /* The cart as the page holds it                                           */
  /* ---------------------------------------------------------------------- */

  /** A row control in the rendered cart, told apart by its class name. */
  datatype Control = QtyIncrease | QtyDecrease | RemoveItem | OtherTarget

  /** One line of the checkout summary: name, quantity and line total. */
  datatype SummaryLine = SummaryLine(name: string, quantity: int, lineTotal: real)

  /** What checkout shows: the empty-cart notice, or the summary lines and
      the grand total. */
  datatype Receipt = EmptyCartNotice | Summary(lines: seq<SummaryLine>, total: real)

  class Cart {
    /** The in-memory cart. */
    var items: seq<Item>
    /** The storage entry for the cart: absent, or the last snapshot saved. */
    var stored: Option<seq<Item>>

    ghost predicate Valid()
      reads this
    {
      ValidCart(items)
    }

    /** Page load: the stored snapshot, or an empty cart when there is none. */
    constructor (storage: Option<seq<Item>>)
      ensures stored == storage
      ensures items == (if storage.Some? then storage.value else [])
      ensures storage.None? ==> Valid()
    {
      stored := storage;
      items := if storage.Some? then storage.value else [];
    }

    /** Overwrite the stored snapshot with the current cart. */
    method Save()
      modifies this
      ensures items == old(items) && stored == Some(items)
    {
      stored := Some(items);
    }

    /** The add-to-cart handler. */
    method AddToCart(id: string, name: string, price: real)
      modifies this
      ensures items == Added(old(items), id, name, price) && stored == Some(items)
      ensures old(Valid()) ==> Valid()
      ensures ItemCount(items) == ItemCount(old(items)) + 1
      ensures var k := Find(old(items), id);
        Total(items) == Total(old(items)) + if k.Some? then old(items)[k.value].price else price
    {
      ghost var before := items;
      var existing := Find(items, id);
      if existing.Some? {
        var k := existing.value;
        items := items[k := items[k].(quantity := items[k].quantity + 1)];
      } else {
        items := items + [Item(id, name, price, 1)];
      }
      if ValidCart(before) {
        AddedPreservesValid(before, id, name, price);
      }
      AddedSums(before, id, name, price);
      Save();
    }

    /** The `qty-increase` branch. */
    method Increase(index: nat)
      requires index < |items|
      modifies this
      ensures items == Increased(old(items), index) && stored == old(stored)
      ensures old(Valid()) ==> Valid()
      ensures ItemCount(items) == ItemCount(old(items)) + 1
      ensures Total(items) == Total(old(items)) + old(items)[index].price
    {
      IncreasedSums(items, index);
      items := items[index := items[index].(quantity := items[index].quantity + 1)];
      if ValidCart(old(items)) {
        IncreasedPreservesValid(old(items), index);
      }
    }

    /** The `qty-decrease` branch. */
    method Decrease(index: nat)
      requires index < |items|
      modifies this
      ensures items == Decreased(old(items), index) && stored == old(stored)
      ensures old(Valid()) ==> Valid()
      ensures old(items)[index].quantity >= 1 ==>
        ItemCount(items) == ItemCount(old(items)) - 1 &&
        Total(items) == Total(old(items)) - old(items)[index].price
    {
      if items[index].quantity >= 1 {
        DecreasedSums(items, index);
      }
      if items[index].quantity > 1 {
        items := items[index := items[index].(quantity := items[index].quantity - 1)];
      } else {
        items := Spliced(items, index);
      }
      if ValidCart(old(items)) {
        DecreasedPreservesValid(old(items), index);
      }
    }

    /** The `remove-item` branch. */
    method Remove(index: nat)
      modifies this
      ensures items == Spliced(old(items), index) && stored == old(stored)
      ensures old(Valid()) ==> Valid()
      ensures index < |old(items)| ==>
        ItemCount(items) == ItemCount(old(items)) - old(items)[index].quantity &&
        Total(items) == Total(old(items)) - LineTotal(old(items)[index])
    {
      if index < |items| {
        SplicedSums(items, index);
      }
      items := Spliced(items, index);
      if ValidCart(old(items)) {
        SplicedPreservesValid(old(items), index);
      }
    }

    /** The delegated click handler of the rendered cart: `index` is the parsed
        row index, None when it did not parse. An unparsed index changes and
        saves nothing; otherwise the control's branch runs and the cart is
        saved. */
    method OnRowClick(index: Option<nat>, control: Control)
      requires index.Some? && (control.QtyIncrease? || control.QtyDecrease?) ==>
        index.value < |items|
      modifies this
      ensures index.None? ==> items == old(items) && stored == old(stored)
      ensures index.Some? ==> stored == Some(items)
      ensures index.Some? ==> items == match control
        case QtyIncrease => Increased(old(items), index.value)
        case QtyDecrease => Decreased(old(items), index.value)
        case RemoveItem => Spliced(old(items), index.value)
        case OtherTarget => old(items)
      ensures old(Valid()) ==> Valid()
    {
      if index.None? {
        return;
      }
      var i := index.value;
      match control {
        case QtyIncrease => Increase(i);
        case QtyDecrease => Decrease(i);
        case RemoveItem => Remove(i);
        case OtherTarget =>
      }
      Save();
    }

    /** The clear-cart handler. */
    method ClearCart()
      modifies this
      ensures items == [] && stored == Some([])
      ensures Valid() && ItemCount(items) == 0 && Total(items) == 0.0
    {
      items := [];
      Save();
    }

    /** The figures of the cart display: the item count from the reduce, and
        the money total from the accumulator loop over the rows. */
    method DisplayTotals() returns (totalItems: int, totalPrice: real)
      ensures totalItems == ItemCount(items)
      ensures totalPrice == Total(items)
    {
      totalItems := TotalItems(items);
      totalPrice := 0.0;
      if |items| == 0 {
        return;
      }
      var index := 0;
      while index < |items|
        invariant 0 <= index <= |items|
        invariant totalPrice == Total(items[..index])
      {
        var item := items[index];
        assert items[..index + 1][..index] == items[..index];
        totalPrice := totalPrice + item.price * item.quantity as real;
        index := index + 1;
      }
      assert items[..index] == items;
    }

    /** The checkout handler: the empty-cart notice, or one summary line per
        item and the grand total from a second accumulator loop. The cart is
        left as it was. */
    method Checkout() returns (r: Receipt)
      ensures r.EmptyCartNotice? <==> items == []
      ensures r.Summary? ==> |r.lines| == |items| && r.total == Total(items)
      ensures r.Summary? ==> forall k :: 0 <= k < |items| ==>
        r.lines[k] == SummaryLine(items[k].name, items[k].quantity, LineTotal(items[k]))
    {
      if |items| == 0 {
        return EmptyCartNotice;
      }
      var lines: seq<SummaryLine> := [];
      var total := 0.0;
      var k := 0;
      while k < |items|
        invariant 0 <= k <= |items|
        invariant |lines| == k
        invariant forall j :: 0 <= j < k ==>
          lines[j] == SummaryLine(items[j].name, items[j].quantity, LineTotal(items[j]))
        invariant total == Total(items[..k])
      {
        var item := items[k];
        assert items[..k + 1][..k] == items[..k];
        lines := lines + [SummaryLine(item.name, item.quantity, item.price * item.quantity as real)];
        total := total + item.price * item.quantity as real;
        k := k + 1;
      }
      assert items[..k] == items;
      r := Summary(lines, total);
    }
  }

  /** A client of the cart: add the same product twice, then decrease it
      twice, reading the display figures along the way. */
  method WidgetScenario() {
    var cart := new Cart(None);
    cart.AddToCart("A", "Widget", 10.0);
    cart.AddToCart("A", "Widget", 10.0);
    assert cart.items == [Item("A", "Widget", 10.0, 2)];
    var count, total := cart.DisplayTotals();
    assert count == 2 && total == 20.0;
    cart.OnRowClick(Some(0), QtyDecrease);
    assert cart.items == [Item("A", "Widget", 10.0, 1)];
    count, total := cart.DisplayTotals();
    assert count == 1 && total == 10.0;
    cart.OnRowClick(Some(0), QtyDecrease);
    assert cart.items == [] && cart.stored == Some([]);
    var receipt := cart.Checkout();
    assert receipt == EmptyCartNotice;
  }
}
