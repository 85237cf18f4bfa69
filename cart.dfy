/**
 * The cart store (src/context/CartContext.tsx): a list of cart lines held by the
 * provider and replaced by every mutator, with the derived item count and total.
 */
module CartStore {
  import opened Types
  import opened Seqs

  /** `cart.reduce((total, item) => total + item.quantity, 0)` */
  function Count(lines: seq<CartLine>): int {
    if lines == [] then 0 else Count(lines[..|lines| - 1]) + lines[|lines| - 1].quantity
  }

  function LineTotal(line: CartLine): real {
    line.price * (line.quantity as real)
  }

  /** `cart.reduce((total, item) => total + (item.price * item.quantity), 0)` */
  function Total(lines: seq<CartLine>): real {
    if lines == [] then 0.0 else Total(lines[..|lines| - 1]) + LineTotal(lines[|lines| - 1])
  }

  /** At most one line per product. */
  ghost predicate ProductsUnique(lines: seq<CartLine>) {
    forall i, j :: 0 <= i < j < |lines| ==> lines[i].productId != lines[j].productId
  }

  /** At most one line per line id. */
  ghost predicate IdsUnique(lines: seq<CartLine>) {
    forall i, j :: 0 <= i < j < |lines| ==> lines[i].id != lines[j].id
  }

  ghost predicate QuantitiesPositive(lines: seq<CartLine>) {
    forall i :: 0 <= i < |lines| ==> lines[i].quantity >= 1
  }

  /** `findIndex(item => item.productId === productId)`, with `None` for -1. */
  function FindProduct(lines: seq<CartLine>, productId: string): (r: Option<nat>)
    ensures r.Some? ==> r.value < |lines| && lines[r.value].productId == productId
    ensures r.Some? ==> forall k :: 0 <= k < r.value ==> lines[k].productId != productId
    ensures r.None? ==> forall k :: 0 <= k < |lines| ==> lines[k].productId != productId
  {
    if lines == [] then None
    else if lines[0].productId == productId then Some(0)
    else match FindProduct(lines[1..], productId)
      case None => None
      case Some(k) => Some(k + 1)
  }

  /** `product.images[0]`, undefined for a product without images. */
  function FirstImage(images: seq<string>): Option<string> {
    if images == [] then None else Some(images[0])
  }

  /** The new line `addToCart` builds: a snapshot of the product at add time. */
  function Snapshot(product: Product, quantity: int, id: string): CartLine {
    CartLine(id, product.id, product.name, product.price, FirstImage(product.images), quantity)
  }

  /** The cart after `addToCart(product, quantity)`, `id` standing for `${product.id}-${Date.now()}`. */
  function Added(lines: seq<CartLine>, product: Product, quantity: int, id: string): seq<CartLine> {
    match FindProduct(lines, product.id)
    case Some(k) => lines[k := lines[k].(quantity := lines[k].quantity + quantity)]
    case None => lines + [Snapshot(product, quantity, id)]
  }

  function IdIsNot(id: string): CartLine -> bool {
    (line: CartLine) => line.id != id
  }

  /** The cart after `removeFromCart(id)`. */
  function Removed(lines: seq<CartLine>, id: string): seq<CartLine> {
    Filter(lines, IdIsNot(id))
  }

  /** The cart after `updateQuantity(id, quantity)`: ignored below 1. */
  function Updated(lines: seq<CartLine>, id: string, quantity: int): seq<CartLine> {
    if quantity < 1 then lines
    else
      seq(|lines|, i requires 0 <= i < |lines| =>
        if lines[i].id == id then lines[i].(quantity := quantity) else lines[i])
  }

  function Max(a: int, b: int): int {
    if a < b then b else a
  }

  // ---------------------------------------------------------------- the store

  class Cart {
    var lines: seq<CartLine>

    /** An empty cart (nothing saved under the `cart` key). */
    constructor ()
      ensures lines == []
    {
      lines := [];
    }

    /** `addToCart(product, quantity = 1)` */
    method AddToCart(product: Product, freshId: string, quantity: int := 1)
      modifies this
      ensures lines == Added(old(lines), product, quantity, freshId)
      ensures old(ProductsUnique(lines)) ==> ProductsUnique(lines)
      ensures old(QuantitiesPositive(lines)) && quantity >= 1 ==> QuantitiesPositive(lines)
      ensures old(IdsUnique(lines)) && (forall j :: 0 <= j < |old(lines)| ==> old(lines)[j].id != freshId) ==> IdsUnique(lines)
      ensures Count(lines) == old(Count(lines)) + quantity
      ensures Total(lines) == old(Total(lines)) + AddedAmount(old(lines), product, quantity)
    {
      AddPreserves(lines, product, quantity, freshId);
      CountAfterAdd(lines, product, quantity, freshId);
      ghost var before := lines;
      var i := 0;
      while i < |lines| && lines[i].productId != product.id
        invariant 0 <= i <= |lines|
        invariant forall k :: 0 <= k < i ==> lines[k].productId != product.id
      {
        i := i + 1;
      }
      var next: seq<CartLine>;
      if i < |lines| {
        assert FindProduct(lines, product.id) == Some(i);
        next := lines[i := lines[i].(quantity := lines[i].quantity + quantity)];
      } else {
        next := lines + [Snapshot(product, quantity, freshId)];
      }
      assert next == Added(lines, product, quantity, freshId);
      lines := next;
      TotalAfterAdd(before, product, quantity, freshId);
    }

    /** `removeFromCart(id)` */
    method RemoveFromCart(id: string)
      modifies this
      ensures lines == Removed(old(lines), id)
      ensures old(ProductsUnique(lines)) ==> ProductsUnique(lines)
      ensures old(QuantitiesPositive(lines)) ==> QuantitiesPositive(lines)
    {
      RemovePreserves(lines, id);
      lines := Removed(lines, id);
    }

    /** `updateQuantity(id, quantity)` */
    method UpdateQuantity(id: string, quantity: int)
      modifies this
      ensures lines == Updated(old(lines), id, quantity)
      ensures quantity < 1 ==> lines == old(lines)
      ensures old(ProductsUnique(lines)) ==> ProductsUnique(lines)
      ensures old(QuantitiesPositive(lines)) ==> QuantitiesPositive(lines)
    {
      UpdatePreserves(lines, id, quantity);
      if quantity < 1 {
        return;
      }
      lines := Updated(lines, id, quantity);
    }

    /** The "+" button of the cart page and drawer: `updateQuantity(item.id, item.quantity + 1)`. */
    method Increment(item: CartLine)
      modifies this
      ensures lines == Updated(old(lines), item.id, item.quantity + 1)
      ensures old(ProductsUnique(lines)) ==> ProductsUnique(lines)
      ensures old(QuantitiesPositive(lines)) ==> QuantitiesPositive(lines)
    {
      UpdateQuantity(item.id, item.quantity + 1);
    }

    /** The "-" button: `updateQuantity(item.id, Math.max(1, item.quantity - 1))`. */
    method Decrement(item: CartLine)
      modifies this
      ensures lines == Updated(old(lines), item.id, Max(1, item.quantity - 1))
      ensures old(QuantitiesPositive(lines)) ==> QuantitiesPositive(lines)
    {
      UpdateQuantity(item.id, Max(1, item.quantity - 1));
    }

    /** `clearCart()` */
    method ClearCart()
      modifies this
      ensures lines == []
      ensures Count(lines) == 0 && Total(lines) == 0.0
    {
      lines := [];
    }
  }

  // ---------------------------------------------------------------- sums

  lemma {:induction false} CountAppend(a: seq<CartLine>, b: seq<CartLine>)
    ensures Count(a + b) == Count(a) + Count(b)
    ensures Total(a + b) == Total(a) + Total(b)
  {
    if b != [] {
      var init := b[..|b| - 1];
      assert (a + b)[..|a + b| - 1] == a + init;
      CountAppend(a, init);
    } else {
      assert a + b == a;
    }
  }

  lemma {:induction false} CountUpdateAt(lines: seq<CartLine>, k: nat, line: CartLine)
    requires k < |lines|
    ensures Count(lines[k := line]) == Count(lines) - lines[k].quantity + line.quantity
  {
    var n := |lines|;
    var u := lines[k := line];
    if k < n - 1 {
      assert u[..n - 1] == lines[..n - 1][k := line];
      CountUpdateAt(lines[..n - 1], k, line);
    } else {
      assert u[..n - 1] == lines[..n - 1];
    }
  }

  lemma {:induction false} TotalUpdateAt(lines: seq<CartLine>, k: nat, line: CartLine)
    requires k < |lines|
    ensures Total(lines[k := line]) == Total(lines) - LineTotal(lines[k]) + LineTotal(line)
  {
    var n := |lines|;
    var u := lines[k := line];
    if k < n - 1 {
      assert u[..n - 1] == lines[..n - 1][k := line];
      TotalUpdateAt(lines[..n - 1], k, line);
    } else {
      assert u[..n - 1] == lines[..n - 1];
    }
  }

  /** Every line contributes its quantity to the count: with positive quantities the count is at least the number of lines. */
  lemma {:induction false} CountAtLeastLines(lines: seq<CartLine>)
    requires QuantitiesPositive(lines)
    ensures Count(lines) >= |lines|
  {
    if lines != [] {
      CountAtLeastLines(lines[..|lines| - 1]);
    }
  }

  // ---------------------------------------------------------------- addToCart

  /** Adding a product that has a line raises that line's quantity; no line is added and no other line changes. */
  lemma AddMerges(lines: seq<CartLine>, product: Product, quantity: int, id: string, k: nat)
    requires ProductsUnique(lines)
    requires k < |lines| && lines[k].productId == product.id
    ensures |Added(lines, product, quantity, id)| == |lines|
    ensures Added(lines, product, quantity, id)[k] == lines[k].(quantity := lines[k].quantity + quantity)
    ensures forall j :: 0 <= j < |lines| && j != k ==> Added(lines, product, quantity, id)[j] == lines[j]
  {
    var r := FindProduct(lines, product.id);
    assert r.Some?;
    assert r.value == k;
  }

  /** Adding a product without a line appends one snapshot line at the end. */
  lemma AddAppends(lines: seq<CartLine>, product: Product, quantity: int, id: string)
    requires forall j :: 0 <= j < |lines| ==> lines[j].productId != product.id
    ensures Added(lines, product, quantity, id)
         == lines + [CartLine(id, product.id, product.name, product.price, FirstImage(product.images), quantity)]
  {
  }

  /** `addToCart` keeps one line per product, positive quantities for a positive quantity, and unique ids for a fresh id. */
  lemma AddPreserves(lines: seq<CartLine>, product: Product, quantity: int, id: string)
    ensures ProductsUnique(lines) ==> ProductsUnique(Added(lines, product, quantity, id))
    ensures QuantitiesPositive(lines) && quantity >= 1 ==> QuantitiesPositive(Added(lines, product, quantity, id))
    ensures IdsUnique(lines) && (forall j :: 0 <= j < |lines| ==> lines[j].id != id)
            ==> IdsUnique(Added(lines, product, quantity, id))
  {
    var r := Added(lines, product, quantity, id);
    match FindProduct(lines, product.id)
    case Some(k) =>
      assert forall j :: 0 <= j < |r| ==> r[j].productId == lines[j].productId && r[j].id == lines[j].id;
    case None =>
      assert forall j :: 0 <= j < |lines| ==> r[j] == lines[j];
  }

  /** The count rises by the added quantity. */
  lemma CountAfterAdd(lines: seq<CartLine>, product: Product, quantity: int, id: string)
    ensures Count(Added(lines, product, quantity, id)) == Count(lines) + quantity
  {
    match FindProduct(lines, product.id)
    case Some(k) =>
      CountUpdateAt(lines, k, lines[k].(quantity := lines[k].quantity + quantity));
    case None =>
      CountAppend(lines, [Snapshot(product, quantity, id)]);
      assert Count([Snapshot(product, quantity, id)]) == quantity by {
        assert [Snapshot(product, quantity, id)][..0] == [];
      }
  }

  /** The price a merged line is charged at: its own snapshot price, not the product's current price. */
  function UnitPrice(lines: seq<CartLine>, product: Product): real {
    match FindProduct(lines, product.id)
    case Some(k) => lines[k].price
    case None => product.price
  }

  lemma LineTotalAdd(line: CartLine, quantity: int)
    ensures LineTotal(line.(quantity := line.quantity + quantity)) == LineTotal(line) + line.price * (quantity as real)
  {
    var a, b := line.quantity as real, quantity as real;
    assert (line.quantity + quantity) as real == a + b;
    assert line.price * (a + b) == line.price * a + line.price * b;
  }

  /** What `addToCart(product, quantity)` adds to the total: the quantity at the unit price. */
  function AddedAmount(lines: seq<CartLine>, product: Product, quantity: int): real {
    UnitPrice(lines, product) * (quantity as real)
  }

  /** The total rises by the added quantity at the line's unit price. */
  lemma TotalAfterAdd(lines: seq<CartLine>, product: Product, quantity: int, id: string)
    ensures Total(Added(lines, product, quantity, id)) == Total(lines) + AddedAmount(lines, product, quantity)
  {
    var r := FindProduct(lines, product.id);
    if r.Some? {
      var k := r.value;
      var merged := lines[k].(quantity := lines[k].quantity + quantity);
      assert Added(lines, product, quantity, id) == lines[k := merged];
      assert UnitPrice(lines, product) == lines[k].price;
      LineTotalAdd(lines[k], quantity);
      TotalUpdateAt(lines, k, merged);
    } else {
      var line := Snapshot(product, quantity, id);
      assert Added(lines, product, quantity, id) == lines + [line];
      assert UnitPrice(lines, product) == line.price;
      CountAppend(lines, [line]);
      assert Total([line]) == LineTotal(line) by {
        assert [line][..0] == [];
      }
    }
  }

  function Sum(qs: seq<int>): int {
    if qs == [] then 0 else qs[0] + Sum(qs[1..])
  }

  /** A sequence of `addToCart(product, qs[i])` calls, the i-th with line id `ids[i]`. */
  function AddAll(lines: seq<CartLine>, product: Product, qs: seq<int>, ids: seq<string>): seq<CartLine>
    requires |ids| == |qs|
    decreases |qs|
  {
    if qs == [] then lines else AddAll(Added(lines, product, qs[0], ids[0]), product, qs[1..], ids[1..])
  }

  lemma {:induction false} AddAllToLast(lines: seq<CartLine>, last: CartLine, product: Product, qs: seq<int>, ids: seq<string>)
    requires |ids| == |qs|
    requires forall j :: 0 <= j < |lines| ==> lines[j].productId != product.id
    requires last.productId == product.id
    ensures AddAll(lines + [last], product, qs, ids) == lines + [last.(quantity := last.quantity + Sum(qs))]
    decreases |qs|
  {
    if qs != [] {
      var next := last.(quantity := last.quantity + qs[0]);
      assert FindProduct(lines + [last], product.id) == Some(|lines|) by {
        var r := FindProduct(lines + [last], product.id);
        assert (lines + [last])[|lines|].productId == product.id;
        assert forall j :: 0 <= j < |lines| ==> (lines + [last])[j].productId != product.id;
      }
      assert Added(lines + [last], product, qs[0], ids[0]) == lines + [next];
      AddAllToLast(lines, next, product, qs[1..], ids[1..]);
    }
  }

  /**
   * Merge invariant: however many times one product is added, it has a single
   * line, appended once, whose quantity is the sum of the added quantities.
   */
  lemma RepeatedAddsMerge(lines: seq<CartLine>, product: Product, qs: seq<int>, ids: seq<string>)
    requires |ids| == |qs| && |qs| > 0
    requires forall j :: 0 <= j < |lines| ==> lines[j].productId != product.id
    ensures |AddAll(lines, product, qs, ids)| == |lines| + 1
    ensures AddAll(lines, product, qs, ids)[..|lines|] == lines
    ensures AddAll(lines, product, qs, ids)[|lines|].productId == product.id
    ensures AddAll(lines, product, qs, ids)[|lines|].quantity == Sum(qs)
  {
    var first := Snapshot(product, qs[0], ids[0]);
    assert Added(lines, product, qs[0], ids[0]) == lines + [first];
    AddAllToLast(lines, first, product, qs[1..], ids[1..]);
    var r := AddAll(lines, product, qs, ids);
    assert r == lines + [first.(quantity := qs[0] + Sum(qs[1..]))];
    assert r[..|lines|] == lines;
  }

  // ---------------------------------------------------------------- removeFromCart

  /** Removal keeps exactly the lines with another id, in their order. */
  lemma RemoveKeepsOthers(lines: seq<CartLine>, id: string)
    ensures forall l :: l in Removed(lines, id) <==> l in lines && l.id != id
    ensures forall a, b :: Removed(a + b, id) == Removed(a, id) + Removed(b, id)
    ensures (forall j :: 0 <= j < |lines| ==> lines[j].id != id) ==> Removed(lines, id) == lines
  {
    FilterMembers(lines, IdIsNot(id));
    forall a, b ensures Removed(a + b, id) == Removed(a, id) + Removed(b, id) {
      FilterAppend(a, b, IdIsNot(id));
    }
    if forall j :: 0 <= j < |lines| ==> lines[j].id != id {
      FilterAll(lines, IdIsNot(id));
    }
  }

  /** Elements of the filtered tail come from the tail. */
  lemma RemovedTail(lines: seq<CartLine>, id: string)
    requires lines != []
    ensures Removed(lines, id) == (if lines[0].id != id then [lines[0]] else []) + Removed(lines[1..], id)
    ensures forall l :: l in Removed(lines[1..], id) ==> l in lines[1..]
  {
    FilterMembers(lines[1..], IdIsNot(id));
  }

  lemma {:induction false} RemovePreservesProducts(lines: seq<CartLine>, id: string)
    requires ProductsUnique(lines)
    ensures ProductsUnique(Removed(lines, id))
  {
    if lines != [] {
      var r, rest := Removed(lines, id), Removed(lines[1..], id);
      RemovedTail(lines, id);
      RemovePreservesProducts(lines[1..], id);
      assert forall l :: l in rest ==> l.productId != lines[0].productId by {
        forall l | l in rest ensures l.productId != lines[0].productId {
          var j :| 0 <= j < |lines[1..]| && lines[1..][j] == l;
          assert lines[j + 1] == l;
        }
      }
      if lines[0].id != id {
        forall i, j | 0 <= i < j < |r| ensures r[i].productId != r[j].productId {
          assert r[j] == rest[j - 1];
          if i == 0 {
            assert r[j] in rest;
          } else {
            assert r[i] == rest[i - 1];
          }
        }
      }
    }
  }

  lemma {:induction false} RemovePreservesIds(lines: seq<CartLine>, id: string)
    requires IdsUnique(lines)
    ensures IdsUnique(Removed(lines, id))
  {
    if lines != [] {
      var r, rest := Removed(lines, id), Removed(lines[1..], id);
      RemovedTail(lines, id);
      RemovePreservesIds(lines[1..], id);
      assert forall l :: l in rest ==> l.id != lines[0].id by {
        forall l | l in rest ensures l.id != lines[0].id {
          var j :| 0 <= j < |lines[1..]| && lines[1..][j] == l;
          assert lines[j + 1] == l;
        }
      }
      if lines[0].id != id {
        forall i, j | 0 <= i < j < |r| ensures r[i].id != r[j].id {
          assert r[j] == rest[j - 1];
          if i == 0 {
            assert r[j] in rest;
          } else {
            assert r[i] == rest[i - 1];
          }
        }
      }
    }
  }

  /** `removeFromCart` keeps one line per product, positive quantities and unique ids. */
  lemma RemovePreserves(lines: seq<CartLine>, id: string)
    ensures ProductsUnique(lines) ==> ProductsUnique(Removed(lines, id))
    ensures QuantitiesPositive(lines) ==> QuantitiesPositive(Removed(lines, id))
    ensures IdsUnique(lines) ==> IdsUnique(Removed(lines, id))
  {
    var r := Removed(lines, id);
    if ProductsUnique(lines) { RemovePreservesProducts(lines, id); }
    if IdsUnique(lines) { RemovePreservesIds(lines, id); }
    if QuantitiesPositive(lines) {
      FilterMembers(lines, IdIsNot(id));
      forall i | 0 <= i < |r| ensures r[i].quantity >= 1 {
        assert r[i] in r;
      }
    }
  }

  /** With unique line ids, removing a line takes exactly its quantity off the count and its amount off the total. */
  lemma CountAfterRemove(lines: seq<CartLine>, id: string, k: nat)
    requires IdsUnique(lines)
    requires k < |lines| && lines[k].id == id
    ensures Count(Removed(lines, id)) == Count(lines) - lines[k].quantity
    ensures Total(Removed(lines, id)) == Total(lines) - LineTotal(lines[k])
  {
    var p := IdIsNot(id);
    var line := lines[k];
    var pre, post := lines[..k], lines[k + 1..];
    assert lines == (pre + [line]) + post;
    assert forall i :: 0 <= i < |pre| ==> p(pre[i]) by {
      forall i | 0 <= i < |pre| ensures p(pre[i]) {
        assert pre[i] == lines[i];
      }
    }
    assert forall i :: 0 <= i < |post| ==> p(post[i]) by {
      forall i | 0 <= i < |post| ensures p(post[i]) {
        assert post[i] == lines[k + 1 + i];
      }
    }
    RemovedSplit(pre, line, post, id);
    CountSplit(pre, line, post);
  }

  lemma CountSplit(pre: seq<CartLine>, line: CartLine, post: seq<CartLine>)
    ensures Count((pre + [line]) + post) == Count(pre + post) + line.quantity
    ensures Total((pre + [line]) + post) == Total(pre + post) + LineTotal(line)
  {
    CountAppend(pre + [line], post);
    CountAppend(pre, [line]);
    CountAppend(pre, post);
    assert [line][..0] == [];
  }

  lemma RemovedSplit(pre: seq<CartLine>, line: CartLine, post: seq<CartLine>, id: string)
    requires line.id == id
    requires forall i :: 0 <= i < |pre| ==> IdIsNot(id)(pre[i])
    requires forall i :: 0 <= i < |post| ==> IdIsNot(id)(post[i])
    ensures Removed((pre + [line]) + post, id) == pre + post
  {
    var p := IdIsNot(id);
    FilterAll(pre, p);
    FilterAll(post, p);
    FilterAppend(pre + [line], post, p);
    FilterAppend(pre, [line], p);
    FilterCons(line, [], p);
    assert [line] + [] == [line];
  }

  // ---------------------------------------------------------------- updateQuantity

  /** With a quantity of at least 1, only the quantity of the lines with that id changes. */
  lemma UpdateChangesOnlyQuantity(lines: seq<CartLine>, id: string, quantity: int)
    requires quantity >= 1
    ensures |Updated(lines, id, quantity)| == |lines|
    ensures forall i :: 0 <= i < |lines| && lines[i].id == id ==> Updated(lines, id, quantity)[i].quantity == quantity
    ensures forall i :: 0 <= i < |lines| ==> Updated(lines, id, quantity)[i].(quantity := lines[i].quantity) == lines[i]
    ensures forall i :: 0 <= i < |lines| && lines[i].id != id ==> Updated(lines, id, quantity)[i] == lines[i]
  {
  }

  lemma UpdatePreserves(lines: seq<CartLine>, id: string, quantity: int)
    ensures ProductsUnique(lines) ==> ProductsUnique(Updated(lines, id, quantity))
    ensures QuantitiesPositive(lines) ==> QuantitiesPositive(Updated(lines, id, quantity))
    ensures IdsUnique(lines) ==> IdsUnique(Updated(lines, id, quantity))
  {
  }

  /** With unique line ids, setting a line's quantity to q moves the count by q minus its old quantity. */
  lemma CountAfterUpdate(lines: seq<CartLine>, id: string, quantity: int, k: nat)
    requires IdsUnique(lines)
    requires k < |lines| && lines[k].id == id && quantity >= 1
    ensures Count(Updated(lines, id, quantity)) == Count(lines) - lines[k].quantity + quantity
  {
    var line := lines[k].(quantity := quantity);
    assert Updated(lines, id, quantity) == lines[k := line];
    CountUpdateAt(lines, k, line);
  }

  /** The "-" button on a line of quantity 1 leaves the cart as it is. */
  lemma DecrementAtOneIsNoOp(lines: seq<CartLine>, k: nat)
    requires IdsUnique(lines)
    requires k < |lines| && lines[k].quantity == 1
    ensures Updated(lines, lines[k].id, Max(1, lines[k].quantity - 1)) == lines
  {
    var r := Updated(lines, lines[k].id, 1);
    assert forall i :: 0 <= i < |lines| ==> r[i] == lines[i] by {
      forall i | 0 <= i < |lines| ensures r[i] == lines[i] {
        if lines[i].id == lines[k].id {
          assert i == k;
        }
      }
    }
  }

  // ---------------------------------------------------------------- a worked scenario

  /**
   * Empty cart; add P (price 10) twice: count 2, total 20. Add P once more: one
   * line, quantity 3, total 30. Remove the line: empty, total 0.
   */
  lemma Scenario(p: Product, id1: string, id2: string)
    requires p.price == 10.0
    ensures var c1 := Added([], p, 2, id1);
            Count(c1) == 2 && Total(c1) == 20.0
            && var c2 := Added(c1, p, 1, id2);
            |c2| == 1 && c2[0].quantity == 3 && Total(c2) == 30.0
            && Removed(c2, id1) == [] && Total(Removed(c2, id1)) == 0.0
  {
    var c1 := Added([], p, 2, id1);
    assert c1 == [Snapshot(p, 2, id1)];
    assert c1[..0] == [];
    var c2 := Added(c1, p, 1, id2);
    assert c2 == [Snapshot(p, 3, id1)];
    assert c2[..0] == [];
    FilterCons(c2[0], [], IdIsNot(id1));
    assert c2 == [c2[0]] + [];
  }
}
