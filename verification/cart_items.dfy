/** The cart store: the ordered list of line items that the shop page adds to
    and the cart page edits, the item count shown on the cart badge, and the
    filtered item total the pricing engine starts from.

    The cart as loaded from browser storage is taken as it is: nothing forces
    ids to be unique or quantities positive, so every operation is total, and
    the invariants the pages keep (`WellFormed`) are proved separately. */
module CartItems {
  import opened Seqs

  /** One line of the cart, as stored: `{id, name, unitPrice, qty, image}`.
      The price is in cents. */
  datatype LineItem = LineItem(id: string, name: string, unitPrice: int, qty: int, image: string)

  type Cart = seq<LineItem>

  /** The ids present in a cart. */
  function Ids(c: Cart): set<string> {
    set i | 0 <= i < |c| :: c[i].id
  }

  predicate UniqueIds(c: Cart) {
    forall i, j :: 0 <= i < j < |c| ==> c[i].id != c[j].id
  }

  predicate AllPositive(c: Cart) {
    forall i :: 0 <= i < |c| ==> c[i].qty >= 1
  }

  /** What the pages maintain: one line per product, every quantity at least one. */
  predicate WellFormed(c: Cart) {
    UniqueIds(c) && AllPositive(c)
  }

  /** Position of the first line with the given id (`findIndex`, and the
      line that `find` returns). */
  function Find(c: Cart, id: string): (r: Option<nat>)
    ensures r.Some? ==> r.value < |c| && c[r.value].id == id
    ensures r.Some? ==> forall j :: 0 <= j < r.value ==> c[j].id != id
    ensures r.None? <==> id !in Ids(c)
  {
    var r := FirstIndex((it: LineItem) => it.id == id, c);
    assert r.None? ==> forall j :: 0 <= j < |c| ==> c[j].id != id;
    r
  }

  /** In a cart with unique ids, the line carrying an id is the one `Find`
      reports. */
  lemma FindUnique(c: Cart, id: string, i: nat)
    requires UniqueIds(c)
    requires i < |c| && c[i].id == id
    ensures Find(c, id) == Some(i)
  {
    assert id in Ids(c);
  }

  /** `removeItem`: the cart without any line carrying the given id, in the
      original order; an id that is not in the cart changes nothing. */
  function Remove(c: Cart, id: string): (r: Cart)
    ensures |r| <= |c|
    ensures forall x :: x in r <==> x in c && x.id != id
    ensures id !in Ids(r)
    ensures id !in Ids(c) ==> r == c
  {
    var keep := (it: LineItem) => it.id != id;
    assert id !in Ids(c) ==> Filter(keep, c) == c by {
      if id !in Ids(c) {
        assert forall i :: 0 <= i < |c| ==> c[i].id in Ids(c);
        FilterKeepsAll(keep, c);
      }
    }
    Filter(keep, c)
  }

  /** In a cart with unique ids, removing the id of line `i` cuts out exactly
      that line. */
  lemma RemoveUnique(c: Cart, id: string, i: nat)
    requires UniqueIds(c)
    requires i < |c| && c[i].id == id
    ensures Remove(c, id) == c[..i] + c[i+1..]
  {
    FilterDropsOne((it: LineItem) => it.id != id, c, i);
  }

  /** Filtering keeps ids unique. */
  lemma {:induction false} FilterKeepsUnique(p: LineItem -> bool, c: Cart)
    requires UniqueIds(c)
    ensures UniqueIds(Filter(p, c))
    decreases |c|
  {
    if |c| > 0 {
      var tail := c[1..];
      assert UniqueIds(tail);
      FilterKeepsUnique(p, tail);
      var ft := Filter(p, tail);
      if p(c[0]) {
        forall j | 0 <= j < |ft|
          ensures ft[j].id != c[0].id
        {
          assert ft[j] in tail;
        }
      }
    }
  }

  // ---------------------------------------------------------------- actions

  /** `addToCart` on the shop page: one more of a product already in the cart,
      or a new line with quantity one at the end. */
  function AddToCart(c: Cart, id: string, name: string, unitPrice: int, image: string): (r: Cart)
    ensures Find(c, id).Some? ==>
      var i := Find(c, id).value;
      && |r| == |c|
      && r[i] == c[i].(qty := c[i].qty + 1)
      && forall j :: 0 <= j < |c| && j != i ==> r[j] == c[j]
    ensures Find(c, id).None? ==>
      && |r| == |c| + 1
      && r[..|c|] == c
      && r[|c|] == LineItem(id, name, unitPrice, 1, image)
    ensures Ids(r) == Ids(c) + {id}
  {
    match Find(c, id)
    case Some(i) =>
      var r := c[i := c[i].(qty := c[i].qty + 1)];
      assert Ids(r) == Ids(c) by {
        forall x | x in Ids(c) ensures x in Ids(r) {
          var k :| 0 <= k < |c| && c[k].id == x;
          assert r[k].id == x;
        }
      }
      r
    case None =>
      var r := c + [LineItem(id, name, unitPrice, 1, image)];
      assert Ids(r) == Ids(c) + {id} by {
        assert r[|c|].id == id;
        forall x | x in Ids(c) ensures x in Ids(r) {
          var k :| 0 <= k < |c| && c[k].id == x;
          assert r[k].id == x;
        }
      }
      r
  }

  /** `incrementQty`: one more of the first line with the id; an unknown id
      leaves the cart as it is. */
  function Increment(c: Cart, id: string): (r: Cart)
    ensures Find(c, id).None? ==> r == c
    ensures Find(c, id).Some? ==>
      var i := Find(c, id).value;
      && |r| == |c|
      && r[i] == c[i].(qty := c[i].qty + 1)
      && forall j :: 0 <= j < |c| && j != i ==> r[j] == c[j]
  {
    match Find(c, id)
    case None => c
    case Some(i) => c[i := c[i].(qty := c[i].qty + 1)]
  }

  /** `decrementQty`: one fewer of the first line with the id; when that
      leaves no more than zero, every line with the id is dropped. An unknown
      id leaves the cart as it is. */
  function Decrement(c: Cart, id: string): (r: Cart)
    ensures Find(c, id).None? ==> r == c
    ensures Find(c, id).Some? && c[Find(c, id).value].qty > 1 ==>
      var i := Find(c, id).value;
      && |r| == |c|
      && r[i] == c[i].(qty := c[i].qty - 1)
      && forall j :: 0 <= j < |c| && j != i ==> r[j] == c[j]
    ensures Find(c, id).Some? && c[Find(c, id).value].qty <= 1 ==>
      && id !in Ids(r)
      && forall x :: x in r <==> x in c && x.id != id
  {
    match Find(c, id)
    case None => c
    case Some(i) =>
      var lowered := c[i := c[i].(qty := c[i].qty - 1)];
      if lowered[i].qty <= 0 then
        assert forall x :: x in lowered && x.id != id <==> x in c && x.id != id by {
          forall x | x in c && x.id != id ensures x in lowered {
            var k :| 0 <= k < |c| && c[k] == x;
            assert lowered[k] == x;
          }
        }
        Remove(lowered, id)
      else lowered
  }

  /** In a cart with unique ids, a decrement that reaches zero drops exactly
      that line and keeps the others in order. */
  lemma DecrementToZeroUnique(c: Cart, id: string, i: nat)
    requires UniqueIds(c)
    requires i < |c| && c[i].id == id && c[i].qty <= 1
    ensures Decrement(c, id) == c[..i] + c[i+1..]
  {
    FindUnique(c, id, i);
    var lowered := c[i := c[i].(qty := c[i].qty - 1)];
    assert UniqueIds(lowered);
    RemoveUnique(lowered, id, i);
    assert lowered[..i] == c[..i] && lowered[i+1..] == c[i+1..];
  }

  /** Removing the same id twice is removing it once. */
  lemma RemoveIdempotent(c: Cart, id: string)
    ensures Remove(Remove(c, id), id) == Remove(c, id)
  {
  }

  /** Removal works part by part: the kept lines of each part stay in their
      order, duplicates included. */
  lemma RemoveConcat(a: Cart, b: Cart, id: string)
    ensures Remove(a + b, id) == Remove(a, id) + Remove(b, id)
  {
    FilterConcat((it: LineItem) => it.id != id, a, b);
  }

  /** Removal on a single line: dropped when it carries the id, kept
      otherwise. With `RemoveConcat` this fixes `Remove` on every cart. */
  lemma RemoveOne(it: LineItem, id: string)
    ensures Remove([it], id) == (if it.id == id then [] else [it])
  {
  }

  /** Replacing one line that carries the id by another that carries it
      does not change what removing the id leaves. */
  lemma RemoveSwapLine(pre: Cart, x: LineItem, y: LineItem, post: Cart, id: string)
    requires x.id == id && y.id == id
    ensures Remove(pre + [x] + post, id) == Remove(pre + [y] + post, id)
  {
    RemoveConcat(pre + [x], post, id);
    RemoveConcat(pre + [y], post, id);
    RemoveConcat(pre, [x], id);
    RemoveConcat(pre, [y], id);
    RemoveOne(x, id);
    RemoveOne(y, id);
  }

  /** A decrement that reaches zero is a removal of the id, on any cart:
      every line with the id goes and the other lines keep their order and
      multiplicity. */
  lemma DecrementToZero(c: Cart, id: string)
    requires Find(c, id).Some? && c[Find(c, id).value].qty <= 1
    ensures Decrement(c, id) == Remove(c, id)
  {
    var i := Find(c, id).value;
    var lowered := c[i := c[i].(qty := c[i].qty - 1)];
    assert Decrement(c, id) == Remove(lowered, id);
    assert c == c[..i] + [c[i]] + c[i+1..];
    assert lowered == c[..i] + [lowered[i]] + c[i+1..];
    RemoveSwapLine(c[..i], c[i], lowered[i], c[i+1..], id);
  }

  // ------------------------------------------------------------- invariants

  lemma AddToCartWellFormed(c: Cart, id: string, name: string, unitPrice: int, image: string)
    requires WellFormed(c)
    ensures WellFormed(AddToCart(c, id, name, unitPrice, image))
    ensures var r := AddToCart(c, id, name, unitPrice, image);
      var k := Find(r, id);
      k.Some? && r[k.value].qty >= 1
  {
    var r := AddToCart(c, id, name, unitPrice, image);
    if Find(c, id).None? {
      forall i, j | 0 <= i < j < |r| ensures r[i].id != r[j].id {
        if j == |c| {
          assert r[i] == c[i];
          assert c[i].id in Ids(c);
        } else {
          assert r[i] == c[i] && r[j] == c[j];
        }
      }
    }
  }

  lemma IncrementWellFormed(c: Cart, id: string)
    requires WellFormed(c)
    ensures WellFormed(Increment(c, id))
  {
  }

  lemma DecrementWellFormed(c: Cart, id: string)
    requires WellFormed(c)
    ensures WellFormed(Decrement(c, id))
  {
    match Find(c, id)
    case None =>
    case Some(i) =>
      if c[i].qty <= 1 {
        DecrementToZeroUnique(c, id, i);
        CutWellFormed(c, i);
      }
  }

  /** Cutting one line out of a well-formed cart leaves it well-formed. */
  lemma CutWellFormed(c: Cart, i: nat)
    requires WellFormed(c) && i < |c|
    ensures WellFormed(c[..i] + c[i+1..])
  {
    var r := c[..i] + c[i+1..];
    assert forall a :: 0 <= a < |r| ==> r[a] == c[if a < i then a else a + 1];
  }

  lemma RemoveWellFormed(c: Cart, id: string)
    requires WellFormed(c)
    ensures WellFormed(Remove(c, id))
  {
    FilterKeepsUnique((it: LineItem) => it.id != id, c);
    var r := Remove(c, id);
    forall i | 0 <= i < |r| ensures r[i].qty >= 1 {
      assert r[i] in c;
    }
  }

  // ------------------------------------------------------------ item count

  /** What one line adds to the badge count: its quantity, or one when the
      quantity is zero (`item.qty || 1` in the JavaScript). */
  function CountOf(it: LineItem): int {
    if it.qty == 0 then 1 else it.qty
  }

  /** The item count of `updateCartCount`, summed from the front. */
  function ItemCount(c: Cart): (n: int)
    ensures |c| == 0 ==> n == 0
    ensures AllPositive(c) ==> n >= |c|
    decreases |c|
  {
    if |c| == 0 then 0 else CountOf(c[0]) + ItemCount(c[1..])
  }

  lemma {:induction false} ItemCountAppend(c: Cart, it: LineItem)
    ensures ItemCount(c + [it]) == ItemCount(c) + CountOf(it)
    decreases |c|
  {
    if |c| == 0 {
      assert c + [it] == [it];
    } else {
      assert (c + [it])[1..] == c[1..] + [it];
      ItemCountAppend(c[1..], it);
    }
  }

  lemma {:induction false} ItemCountUpdate(c: Cart, i: nat, it: LineItem)
    requires i < |c|
    ensures ItemCount(c[i := it]) == ItemCount(c) - CountOf(c[i]) + CountOf(it)
    decreases i
  {
    if i > 0 {
      assert c[i := it][1..] == c[1..][i - 1 := it];
      ItemCountUpdate(c[1..], i - 1, it);
    } else {
      assert c[i := it][1..] == c[1..];
    }
  }

  /** On a cart whose quantities are all positive, one `addToCart` raises the
      item count by exactly one. */
  lemma AddToCartCount(c: Cart, id: string, name: string, unitPrice: int, image: string)
    requires AllPositive(c)
    ensures ItemCount(AddToCart(c, id, name, unitPrice, image)) == ItemCount(c) + 1
  {
    var r := AddToCart(c, id, name, unitPrice, image);
    match Find(c, id)
    case Some(i) =>
      var bumped := c[i].(qty := c[i].qty + 1);
      assert r == c[i := bumped];
      ItemCountUpdate(c, i, bumped);
      assert CountOf(c[i]) == c[i].qty && CountOf(bumped) == c[i].qty + 1;
    case None =>
      var added := LineItem(id, name, unitPrice, 1, image);
      assert r == c + [added];
      ItemCountAppend(c, added);
  }

  // ------------------------------------------------------------ item total

  /** The lines that `render` shows and prices: positive price and positive
      quantity. */
  predicate Priceable(it: LineItem) {
    it.unitPrice > 0 && it.qty > 0
  }

  function ValidItems(c: Cart): (r: Cart)
    ensures forall x :: x in r <==> x in c && Priceable(x)
  {
    Filter(Priceable, c)
  }

  function LineTotal(it: LineItem): int {
    it.unitPrice * it.qty
  }

  /** Sum of the line totals; for lines that are all priceable it is at least
      one cent per line. */
  function SumLineTotals(c: Cart): (s: int)
    ensures (forall i :: 0 <= i < |c| ==> Priceable(c[i])) ==> s >= |c|
    decreases |c|
  {
    if |c| == 0 then 0
    else
      var first := c[0];
      assert Priceable(first) ==> LineTotal(first) >= 1 by {
        if Priceable(first) {
          assert first.unitPrice * first.qty >= first.unitPrice * 1;
        }
      }
      LineTotal(first) + SumLineTotals(c[1..])
  }

  /** The item total of `render`: the sum over the priceable lines only. It
      is positive exactly when some line is priceable. */
  function ItemTotal(c: Cart): (t: int)
    ensures t >= 0
    ensures t > 0 <==> |ValidItems(c)| > 0
  {
    var valid := ValidItems(c);
    assert forall i :: 0 <= i < |valid| ==> Priceable(valid[i]) by {
      forall i | 0 <= i < |valid| ensures Priceable(valid[i]) {
        assert valid[i] in valid;
      }
    }
    SumLineTotals(valid)
  }

  /** The item total counts each priceable line once and ignores the rest:
      it is the sum over the whole cart of the line totals of priceable lines. */
  function PriceableSum(c: Cart): int
    decreases |c|
  {
    if |c| == 0 then 0
    else (if Priceable(c[0]) then LineTotal(c[0]) else 0) + PriceableSum(c[1..])
  }

  lemma {:induction false} ItemTotalIsPriceableSum(c: Cart)
    ensures ItemTotal(c) == PriceableSum(c)
    decreases |c|
  {
    if |c| > 0 {
      ItemTotalIsPriceableSum(c[1..]);
      if Priceable(c[0]) {
        assert ValidItems(c) == [c[0]] + ValidItems(c[1..]);
        assert ([c[0]] + ValidItems(c[1..]))[1..] == ValidItems(c[1..]);
      }
    }
  }

  /** On a cart whose quantities and prices are all positive, the filter
      drops nothing. */
  lemma ValidItemsKeepsGoodCart(c: Cart)
    requires AllPositive(c)
    requires forall i :: 0 <= i < |c| ==> c[i].unitPrice > 0
    ensures ValidItems(c) == c
  {
    FilterKeepsAll(Priceable, c);
  }
}
