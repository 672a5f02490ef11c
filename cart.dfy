/**
 * The shopping cart of the product-detail screen, as values: the stored
 * line type, the merge key, the `findIndex` search, the merge-or-append
 * step of adding a selection, the running total and the badge count.
 * The screen that performs these steps in place is in DetailsScreen.
 */
module Cart {
  import opened Nullable

  /** What makes two lines the same cart line: product id, colour and size (`null` when the product has no size). */
  datatype Key = Key(id: string, color: string, size: Option<string>)

  /** One cart line (CartItem). Prices are whole VND amounts. */
  datatype Line = Line(id: string, title: string, price: int, image: string,
                       quantity: int, color: string, size: Option<string>)
  {
    function MergeKey(): Key {
      Key(id, color, size)
    }
  }

  /** The stored cart: its lines and the running total kept beside them. */
  datatype CartData = CartData(items: seq<Line>, total: int)

  /** The cart used when nothing is stored yet. */
  const Empty := CartData([], 0)

  /** The cart an add starts from: the stored one, or the empty cart when the slot is absent. */
  function Stored(slot: Option<CartData>): CartData {
    if slot.Some? then slot.value else Empty
  }

  /**
   * `items.findIndex(item => same id, colour and size)`: the first line
   * with key `k`, or -1 when there is none.
   */
  function FindIndex(items: seq<Line>, k: Key): (i: int)
    ensures -1 <= i < |items|
    ensures i == -1 <==> forall j :: 0 <= j < |items| ==> items[j].MergeKey() != k
    ensures i >= 0 ==> items[i].MergeKey() == k
    ensures i >= 0 ==> forall j :: 0 <= j < i ==> items[j].MergeKey() != k
  {
    if |items| == 0 then -1
    else if items[0].MergeKey() == k then 0
    else
      var i := FindIndex(items[1..], k);
      if i == -1 then -1 else i + 1
  }

  /**
   * The lines after adding `line`: the first line with the same key has its
   * quantity raised by `line.quantity`; otherwise `line` goes at the end.
   */
  function Merge(items: seq<Line>, line: Line): seq<Line> {
    var i := FindIndex(items, line.MergeKey());
    if i >= 0 then items[i := items[i].(quantity := items[i].quantity + line.quantity)]
    else items + [line]
  }

  /** The cart after adding `line`: merged lines, and the total raised by the new line's price times its quantity. */
  function Add(c: CartData, line: Line): CartData {
    CartData(Merge(c.items, line), c.total + line.price * line.quantity)
  }

  /** The badge count: `items.reduce((total, item) => total + item.quantity, 0)`. */
  function Count(items: seq<Line>): int {
    if |items| == 0 then 0 else Count(items[..|items| - 1]) + items[|items| - 1].quantity
  }

  /** What the lines are worth: the sum of price times quantity. */
  function Worth(items: seq<Line>): int {
    if |items| == 0 then 0
    else Worth(items[..|items| - 1]) + items[|items| - 1].price * items[|items| - 1].quantity
  }

  /** Every key occurs on at most one line. */
  predicate UniqueKeys(items: seq<Line>) {
    forall i, j :: 0 <= i < j < |items| ==> items[i].MergeKey() != items[j].MergeKey()
  }

  /** The keys of the lines. */
  function Keys(items: seq<Line>): set<Key> {
    set i | 0 <= i < |items| :: items[i].MergeKey()
  }

  /** The stored total agrees with the lines. */
  predicate Consistent(c: CartData) {
    c.total == Worth(c.items)
  }

  // ---------------------------------------------------------------- merging

  /** A matching line grows by exactly the added quantity; its other fields, the other lines and their order stay. */
  lemma MergeExisting(items: seq<Line>, line: Line)
    requires FindIndex(items, line.MergeKey()) >= 0
    ensures var i := FindIndex(items, line.MergeKey());
            var r := Merge(items, line);
            && |r| == |items|
            && r[i].quantity == items[i].quantity + line.quantity
            && r[i].id == items[i].id && r[i].title == items[i].title && r[i].price == items[i].price
            && r[i].image == items[i].image && r[i].color == items[i].color && r[i].size == items[i].size
            && forall j :: 0 <= j < |items| && j != i ==> r[j] == items[j]
  {
  }

  /** Without a matching line the new line is appended and the old lines are an untouched prefix. */
  lemma MergeNew(items: seq<Line>, line: Line)
    requires FindIndex(items, line.MergeKey()) == -1
    ensures var r := Merge(items, line);
            && |r| == |items| + 1
            && r[..|items|] == items
            && r[|items|] == line
  {
  }

  /** Adding never removes a key and adds exactly the new line's key. */
  lemma MergeKeys(items: seq<Line>, line: Line)
    ensures Keys(Merge(items, line)) == Keys(items) + {line.MergeKey()}
  {
    var r := Merge(items, line);
    var i := FindIndex(items, line.MergeKey());
    forall k | k in Keys(items) + {line.MergeKey()} ensures k in Keys(r) {
      if k == line.MergeKey() {
        var at := if i >= 0 then i else |items|;
        assert r[at].MergeKey() == k;
      } else {
        var j :| 0 <= j < |items| && items[j].MergeKey() == k;
        assert r[j].MergeKey() == k;
      }
    }
    forall k | k in Keys(r) ensures k in Keys(items) + {line.MergeKey()} {
      var j :| 0 <= j < |r| && r[j].MergeKey() == k;
      if j < |items| {
        assert items[j].MergeKey() == k;
      }
    }
  }

  /** Key uniqueness: adding keeps keys unique. */
  lemma MergeKeepsKeysUnique(items: seq<Line>, line: Line)
    requires UniqueKeys(items)
    ensures UniqueKeys(Merge(items, line))
  {
  }

  // ------------------------------------------------------ count and worth

  lemma {:induction false} CountUpdate(items: seq<Line>, i: nat, l: Line)
    requires i < |items|
    ensures Count(items[i := l]) == Count(items) - items[i].quantity + l.quantity
  {
    var n := |items| - 1;
    var u := items[i := l];
    assert u[..n] == if i == n then items[..n] else items[..n][i := l];
    if i < n {
      CountUpdate(items[..n], i, l);
    }
  }

  lemma {:induction false} WorthUpdate(items: seq<Line>, i: nat, l: Line)
    requires i < |items|
    ensures Worth(items[i := l]) == Worth(items) - items[i].price * items[i].quantity + l.price * l.quantity
  {
    var n := |items| - 1;
    var u := items[i := l];
    assert u[..n] == if i == n then items[..n] else items[..n][i := l];
    if i < n {
      WorthUpdate(items[..n], i, l);
    }
  }

  /** The badge count after an add is the old count plus the added quantity. */
  lemma MergeCount(items: seq<Line>, line: Line)
    ensures Count(Merge(items, line)) == Count(items) + line.quantity
  {
    var i := FindIndex(items, line.MergeKey());
    if i >= 0 {
      var grown := items[i].(quantity := items[i].quantity + line.quantity);
      assert Merge(items, line) == items[i := grown];
      CountUpdate(items, i, grown);
    } else {
      var r := items + [line];
      assert Merge(items, line) == r;
      assert r[..|r| - 1] == items;
    }
  }

  /** The lines gain the worth of the added quantity at the price of the line that holds it. */
  lemma MergeWorth(items: seq<Line>, line: Line)
    ensures var i := FindIndex(items, line.MergeKey());
            Worth(Merge(items, line))
              == Worth(items) + (if i >= 0 then items[i].price else line.price) * line.quantity
  {
    var i := FindIndex(items, line.MergeKey());
    if i >= 0 {
      var held := items[i];
      var grown := held.(quantity := held.quantity + line.quantity);
      assert Merge(items, line) == items[i := grown];
      WorthUpdate(items, i, grown);
      Distribute(held.price, held.quantity, line.quantity);
    } else {
      var r := items + [line];
      assert Merge(items, line) == r;
      assert r[..|r| - 1] == items;
    }
  }

  lemma Distribute(p: int, a: int, b: int)
    ensures p * (a + b) == p * a + p * b
  {
  }

  /**
   * Total consistency under an add: a consistent cart stays consistent exactly
   * when the added line is new or carries the price already stored on its
   * matching line. Otherwise the total drifts, because the stored line keeps
   * its first price while the total is raised at the new one.
   */
  lemma AddConsistentIff(c: CartData, line: Line)
    requires Consistent(c)
    requires line.quantity >= 1
    ensures var i := FindIndex(c.items, line.MergeKey());
            Consistent(Add(c, line)) <==> (i == -1 || c.items[i].price == line.price)
  {
    var i := FindIndex(c.items, line.MergeKey());
    var held := if i >= 0 then c.items[i].price else line.price;
    MergeWorth(c.items, line);
    assert Worth(Add(c, line).items) == c.total + held * line.quantity;
    assert Add(c, line).total == c.total + line.price * line.quantity;
    ScaleCancels(held, line.price, line.quantity);
  }

  lemma ScaleCancels(a: int, b: int, q: int)
    requires q >= 1
    ensures a * q == b * q <==> a == b
  {
    if a != b {
      assert a * q - b * q == (a - b) * q;
    }
  }

  // ------------------------------------------------------------- scenarios

  /** Adding the same product and variant twice gives one line of quantity three, priced and titled as first added. */
  lemma RepeatedAddMerges()
    ensures var first := Line("P1", "Monitor", 1000000, "p1.png", 1, "Đen", None);
            var second := Line("P1", "Monitor v2", 1000000, "p1b.png", 2, "Đen", None);
            var c := Add(Add(Empty, first), second);
            && c.items == [first.(quantity := 3)]
            && c.total == 3000000
  {
  }

  /** Two lines whose keys differ (another product, colour or size) stay two lines, in the order added. */
  lemma DistinctVariantsStaySeparate(a: Line, b: Line)
    requires a.MergeKey() != b.MergeKey()
    ensures Add(Add(Empty, a), b).items == [a, b]
  {
  }

  /** A repeat add at a new price leaves the total off from the lines' worth. */
  lemma RepricedAddDrifts()
    ensures var first := Line("P1", "Monitor", 1000, "p1.png", 1, "Đen", None);
            var c := Add(Add(Empty, first), first.(price := 1500));
            && c.items == [first.(quantity := 2)]
            && c.total == 2500
            && Worth(c.items) == 2000
  {
  }
}
