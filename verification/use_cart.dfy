/**
 The cart store of the storefront (hooks/use-cart.ts): an ordered list of line
 items keyed by the pair (pizza id, size), mirrored under the persisted key
 "pizza-cart" after every change. Prices are integer cents.
 */
module Cart {
  import opened Wrappers

  /** The three sizes a pizza can be ordered in. */
  datatype Size = Small | Medium | Large

  /** One line of the cart. `price` is the unit price, surcharge included. */
  datatype Item = Item(id: int, name: string, price: int, image: string, quantity: int, size: Size)

  /** The price of one line: unit price times quantity. */
  function LineTotal(p: Item): int
  {
    p.price * p.quantity
  }

  /** Does entry `p` carry the key (id, size)? */
  predicate Matches(p: Item, id: int, size: Size)
  {
    p.id == id && p.size == size
  }

  predicate HasKey(s: seq<Item>, id: int, size: Size)
  {
    exists i :: 0 <= i < |s| && Matches(s[i], id, size)
  }

  /** Do two entries carry the same key? */
  predicate SameKey(p: Item, q: Item)
  {
    p.id == q.id && p.size == q.size
  }

  /** No two entries share a key. */
  predicate KeysUnique(s: seq<Item>)
  {
    forall i, j {:trigger SameKey(s[i], s[j])} :: 0 <= i < j < |s| ==> !SameKey(s[i], s[j])
  }

  /** Every entry holds at least one pizza. */
  predicate QuantitiesPositive(s: seq<Item>)
  {
    forall i :: 0 <= i < |s| ==> s[i].quantity >= 1
  }

  /** `p` with `delta` more pizzas; every other field is kept. */
  function Bump(p: Item, delta: int): (r: Item)
  {
    p.(quantity := p.quantity + delta)
  }

  /** The position of the first entry with key (id, size), if any. */
  function Find(s: seq<Item>, id: int, size: Size): (r: Option<nat>)
    ensures r.Some? ==> r.value < |s| && Matches(s[r.value], id, size)
    ensures r.Some? ==> forall j :: 0 <= j < r.value ==> !Matches(s[j], id, size)
    ensures r.None? <==> !HasKey(s, id, size)
  {
    if s == [] then None
    else if Matches(s[0], id, size) then Some(0)
    else match Find(s[1..], id, size)
      case None => None
      case Some(k) => Some(k + 1)
  }

  /** In a cart with unique keys, the entry `Find` reports is the only one
      carrying the key. */
  lemma OnlyFoundEntryMatches(s: seq<Item>, id: int, size: Size)
    ensures KeysUnique(s) && Find(s, id, size).Some? ==>
      forall i :: 0 <= i < |s| && i != Find(s, id, size).value ==> !Matches(s[i], id, size)
  {
    if KeysUnique(s) && Find(s, id, size).Some? {
      var k := Find(s, id, size).value;
      forall i | 0 <= i < |s| && i != k ensures !Matches(s[i], id, size) {
        if i < k {
          assert !SameKey(s[i], s[k]);
        } else {
          assert !SameKey(s[k], s[i]);
        }
      }
    }
  }

  /** Every entry with the key of `item` gets `item.quantity` more; the
      others are kept as they are. */
  function MergeQuantity(prev: seq<Item>, item: Item): (r: seq<Item>)
  {
    seq(|prev|, i requires 0 <= i < |prev| =>
      if Matches(prev[i], item.id, item.size) then Bump(prev[i], item.quantity) else prev[i])
  }

  /** addToCart's list transform: merge into the entry with the same key, or
      append a new entry at the end. */
  function AddItem(prev: seq<Item>, item: Item): (r: seq<Item>)
    ensures HasKey(r, item.id, item.size)
    ensures match Find(prev, item.id, item.size)
      case None => r == prev + [item]
      case Some(k) => KeysUnique(prev) ==> r == prev[k := Bump(prev[k], item.quantity)]
    ensures KeysUnique(prev) ==> KeysUnique(r)
    ensures QuantitiesPositive(prev) && item.quantity >= 1 ==> QuantitiesPositive(r)
  {
    OnlyFoundEntryMatches(prev, item.id, item.size);
    match Find(prev, item.id, item.size)
    case Some(k) =>
      var r := MergeQuantity(prev, item);
      assert Matches(r[k], item.id, item.size);
      r
    case None =>
      var r := prev + [item];
      assert Matches(r[|prev|], item.id, item.size);
      r
  }

  /** removeFromCart's list transform: drop every entry with key (id, size),
      keeping the others in order. */
  function RemoveKey(prev: seq<Item>, id: int, size: Size): (r: seq<Item>)
    ensures |r| <= |prev|
    ensures forall p :: p in r <==> p in prev && !Matches(p, id, size)
    ensures !HasKey(prev, id, size) ==> r == prev
  {
    if prev == [] then []
    else if Matches(prev[0], id, size) then RemoveKey(prev[1..], id, size)
    else [prev[0]] + RemoveKey(prev[1..], id, size)
  }

  /** updateQuantity's list transform for a positive quantity: every entry with
      key (id, size) gets exactly `quantity`; the others are kept. */
  function SetQuantity(prev: seq<Item>, id: int, size: Size, quantity: int): (r: seq<Item>)
    ensures |r| == |prev|
    ensures match Find(prev, id, size)
      case None => r == prev
      case Some(k) => KeysUnique(prev) ==> r == prev[k := prev[k].(quantity := quantity)]
    ensures KeysUnique(prev) ==> KeysUnique(r)
    ensures QuantitiesPositive(prev) && quantity >= 1 ==> QuantitiesPositive(r)
  {
    OnlyFoundEntryMatches(prev, id, size);
    seq(|prev|, i requires 0 <= i < |prev| =>
      if Matches(prev[i], id, size) then prev[i].(quantity := quantity) else prev[i])
  }

  /** The cart total: `price * quantity` summed over the entries, folded from
      the left as `reduce` does. */
  function Subtotal(items: seq<Item>): (total: int)
    ensures items == [] ==> total == 0
  {
    if items == [] then 0
    else Subtotal(items[..|items| - 1]) + LineTotal(items[|items| - 1])
  }

  // ---------------------------------------------------------------------
  // What removeFromCart does to the order and to the invariants

  /** With unique keys, removing the key of the first entry drops just that
      entry. */
  lemma RemoveFirstEntry(prev: seq<Item>, id: int, size: Size)
    requires KeysUnique(prev) && prev != [] && Matches(prev[0], id, size)
    ensures RemoveKey(prev, id, size) == prev[1..]
  {
    var tail := prev[1..];
    assert !HasKey(tail, id, size) by {
      forall i | 0 <= i < |tail| ensures !Matches(tail[i], id, size) {
        assert tail[i] == prev[i + 1];
        assert !SameKey(prev[0], prev[i + 1]);
      }
    }
  }

  /** A cart's tail keeps unique keys, and a key found after the first entry
      is found one position earlier in the tail. */
  lemma FindInTail(prev: seq<Item>, id: int, size: Size)
    requires KeysUnique(prev) && prev != [] && !Matches(prev[0], id, size)
    ensures KeysUnique(prev[1..])
    ensures Find(prev, id, size) == match Find(prev[1..], id, size)
      case None => None
      case Some(k) => Some(k + 1)
    ensures RemoveKey(prev, id, size) == [prev[0]] + RemoveKey(prev[1..], id, size)
  {
    var tail := prev[1..];
    forall i, j | 0 <= i < j < |tail| ensures !SameKey(tail[i], tail[j]) {
      assert tail[i] == prev[i + 1] && tail[j] == prev[j + 1];
      assert !SameKey(prev[i + 1], prev[j + 1]);
    }
  }

  /** In a cart with unique keys, removing a present key deletes exactly the
      entry at its position; the entries before and after keep their order. */
  lemma {:induction false} RemoveDeletesEntry(prev: seq<Item>, id: int, size: Size)
    requires KeysUnique(prev) && Find(prev, id, size).Some?
    ensures var k := Find(prev, id, size).value;
            RemoveKey(prev, id, size) == prev[..k] + prev[k + 1..]
  {
    var k := Find(prev, id, size).value;
    if k == 0 {
      RemoveFirstEntry(prev, id, size);
    } else {
      var tail := prev[1..];
      FindInTail(prev, id, size);
      RemoveDeletesEntry(tail, id, size);
      DeleteInTail(prev, k);
    }
  }

  /** Deleting position `k` of a list is keeping its head and deleting
      position `k - 1` of its tail. */
  lemma DeleteInTail(s: seq<Item>, k: nat)
    requires 0 < k < |s|
    ensures [s[0]] + (s[1..][..k - 1] + s[1..][k..]) == s[..k] + s[k + 1..]
  {
    assert s[1..][..k - 1] == s[1..k];
    assert s[1..][k..] == s[k + 1..];
    assert s[..k] == [s[0]] + s[1..k];
  }

  /** Filtering distributes over concatenation: removal never reorders. */
  lemma {:induction false} RemoveKeyAppend(a: seq<Item>, b: seq<Item>, id: int, size: Size)
    ensures RemoveKey(a + b, id, size) == RemoveKey(a, id, size) + RemoveKey(b, id, size)
  {
    if a == [] {
      assert a + b == b;
    } else {
      var c := a + b;
      assert c[0] == a[0] && c[1..] == a[1..] + b;
      RemoveKeyAppend(a[1..], b, id, size);
      var tail := RemoveKey(a[1..], id, size) + RemoveKey(b, id, size);
      if Matches(a[0], id, size) {
        assert RemoveKey(c, id, size) == tail;
      } else {
        assert RemoveKey(c, id, size) == [a[0]] + tail;
        assert RemoveKey(a, id, size) == [a[0]] + RemoveKey(a[1..], id, size);
      }
    }
  }

  /** Deleting one entry keeps the remaining keys unique and the remaining
      quantities positive. */
  lemma DeletionKeepsInvariants(s: seq<Item>, k: nat)
    requires k < |s|
    ensures KeysUnique(s) ==> KeysUnique(s[..k] + s[k + 1..])
    ensures QuantitiesPositive(s) ==> QuantitiesPositive(s[..k] + s[k + 1..])
  {
    var r := s[..k] + s[k + 1..];
    forall i | 0 <= i < |r| ensures r[i] == s[if i < k then i else i + 1] {
    }
  }

  /** removeFromCart keeps keys unique and quantities positive. */
  lemma RemoveKeepsInvariants(prev: seq<Item>, id: int, size: Size)
    ensures KeysUnique(prev) ==> KeysUnique(RemoveKey(prev, id, size))
    ensures QuantitiesPositive(prev) ==> QuantitiesPositive(RemoveKey(prev, id, size))
  {
    match Find(prev, id, size)
    case None =>
    case Some(k) =>
      if KeysUnique(prev) {
        RemoveDeletesEntry(prev, id, size);
        DeletionKeepsInvariants(prev, k);
      }
      if QuantitiesPositive(prev) {
        var r := RemoveKey(prev, id, size);
        forall i | 0 <= i < |r| ensures r[i].quantity >= 1 {
          assert r[i] in prev;
        }
      }
  }

  // ---------------------------------------------------------------------
  // The total after each mutation

  lemma {:induction false} SubtotalAppend(a: seq<Item>, b: seq<Item>)
    ensures Subtotal(a + b) == Subtotal(a) + Subtotal(b)
  {
    if b == [] {
      assert a + b == a;
    } else {
      var n := |b| - 1;
      assert (a + b)[..|a + b| - 1] == a + b[..n];
      assert (a + b)[|a + b| - 1] == b[n];
      SubtotalAppend(a, b[..n]);
    }
  }

  lemma LineTotalWithQuantity(p: Item, quantity: int)
    ensures LineTotal(p.(quantity := quantity)) == LineTotal(p) + p.price * (quantity - p.quantity)
  {
  }

  lemma LineTotalBump(p: Item, delta: int)
    ensures LineTotal(Bump(p, delta)) == LineTotal(p) + p.price * delta
  {
  }

  /** Replacing one entry changes the total by the difference of the two
      line totals. */
  lemma SubtotalReplace(s: seq<Item>, k: nat, x: Item)
    requires k < |s|
    ensures Subtotal(s[k := x]) == Subtotal(s) - LineTotal(s[k]) + LineTotal(x)
  {
    var t := s[k := x];
    assert t[..k] == s[..k] && t[k + 1..] == s[k + 1..];
    SubtotalDelete(s, k);
    SubtotalDelete(t, k);
  }

  /** Adding a key already present raises the total by the price of that
      entry (not the added item's price) times the added quantity; a new key
      raises it by the new line's total. */
  lemma SubtotalAfterAdd(prev: seq<Item>, item: Item)
    requires KeysUnique(prev)
    ensures Subtotal(AddItem(prev, item)) == Subtotal(prev) + match Find(prev, item.id, item.size)
      case None => LineTotal(item)
      case Some(k) => prev[k].price * item.quantity
  {
    match Find(prev, item.id, item.size)
    case None =>
      SubtotalAppend(prev, [item]);
      assert [item][..0] == [];
    case Some(k) =>
      var x := Bump(prev[k], item.quantity);
      assert AddItem(prev, item) == prev[k := x];
      SubtotalReplace(prev, k, x);
      LineTotalBump(prev[k], item.quantity);
  }

  /** Removing a key lowers the total by exactly that entry's line total. */
  lemma SubtotalAfterRemove(prev: seq<Item>, id: int, size: Size)
    requires KeysUnique(prev)
    ensures Subtotal(RemoveKey(prev, id, size)) == Subtotal(prev) - match Find(prev, id, size)
      case None => 0
      case Some(k) => LineTotal(prev[k])
  {
    match Find(prev, id, size)
    case None =>
    case Some(k) =>
      RemoveDeletesEntry(prev, id, size);
      SubtotalDelete(prev, k);
  }

  /** Deleting one entry lowers the total by that entry's line total. */
  lemma SubtotalDelete(s: seq<Item>, k: nat)
    requires k < |s|
    ensures Subtotal(s[..k] + s[k + 1..]) == Subtotal(s) - LineTotal(s[k])
  {
    var before, x, rest, after := s[..k], s[k], s[k..], s[k + 1..];
    assert rest == [x] + after;
    assert s == before + rest;
    SubtotalAppend(before, rest);
    SubtotalAppend([x], after);
    SubtotalSingleton(x);
    SubtotalAppend(before, after);
  }

  /** Setting a quantity changes the total by the entry's price times the
      change in quantity. */
  lemma SubtotalAfterSetQuantity(prev: seq<Item>, id: int, size: Size, quantity: int)
    requires KeysUnique(prev)
    ensures Subtotal(SetQuantity(prev, id, size, quantity)) == Subtotal(prev) + match Find(prev, id, size)
      case None => 0
      case Some(k) => prev[k].price * (quantity - prev[k].quantity)
  {
    match Find(prev, id, size)
    case None =>
    case Some(k) =>
      var x := prev[k];
      var y := x.(quantity := quantity);
      var after := SetQuantity(prev, id, size, quantity);
      assert after == prev[k := y];
      SubtotalReplace(prev, k, y);
      var delta := x.price * (quantity - x.quantity);
      LineTotalWithQuantity(x, quantity);
      assert Subtotal(after) == Subtotal(prev) + delta;
  }

  /** With non-negative prices and positive quantities the total is never
      negative. */
  lemma {:induction false} SubtotalNonNegative(items: seq<Item>)
    requires QuantitiesPositive(items)
    requires forall i :: 0 <= i < |items| ==> items[i].price >= 0
    ensures Subtotal(items) >= 0
  {
    if items != [] {
      var n := |items| - 1;
      SubtotalNonNegative(items[..n]);
      assert LineTotal(items[n]) >= 0;
    }
  }

  // ---------------------------------------------------------------------
  // Repeated adds of one key

  /** The cart after a sequence of addToCart calls, in order. */
  function AddAll(prev: seq<Item>, items: seq<Item>): seq<Item>
  {
    if items == [] then prev
    else AddItem(AddAll(prev, items[..|items| - 1]), items[|items| - 1])
  }

  /** The sum of the quantities of `items`. */
  function TotalQuantity(items: seq<Item>): int
  {
    if items == [] then 0
    else TotalQuantity(items[..|items| - 1]) + items[|items| - 1].quantity
  }

  lemma {:induction false} FindAppended(prev: seq<Item>, x: Item, id: int, size: Size)
    requires !HasKey(prev, id, size) && Matches(x, id, size)
    ensures Find(prev + [x], id, size) == Some(|prev|)
  {
    if prev != [] {
      assert (prev + [x])[1..] == prev[1..] + [x];
      assert !Matches(prev[0], id, size);
      assert !HasKey(prev[1..], id, size) by {
        forall i | 0 <= i < |prev[1..]| ensures !Matches(prev[1..][i], id, size) {
          assert prev[1..][i] == prev[i + 1];
        }
      }
      FindAppended(prev[1..], x, id, size);
    }
  }

  /** Adding several items with one key to a cart that lacks the key yields
      exactly one new entry, at the end, carrying the first item's price,
      name and image and the sum of all the added quantities. */
  lemma {:induction false} RepeatedAddsMerge(prev: seq<Item>, items: seq<Item>, id: int, size: Size)
    requires KeysUnique(prev) && !HasKey(prev, id, size)
    requires |items| >= 1
    requires forall i :: 0 <= i < |items| ==> Matches(items[i], id, size)
    ensures AddAll(prev, items) == prev + [items[0].(quantity := TotalQuantity(items))]
  {
    var n := |items| - 1;
    if n == 0 {
      assert items[..0] == [];
      assert Find(prev, id, size).None?;
    } else {
      var init := items[..n];
      RepeatedAddsMerge(prev, init, id, size);
      var y := init[0].(quantity := TotalQuantity(init));
      var c := prev + [y];
      assert Find(prev, y.id, y.size).None?;
      assert AddItem(prev, y) == c;
      FindAppended(prev, y, id, size);
      assert c[|prev| := Bump(y, items[n].quantity)] == prev + [items[0].(quantity := TotalQuantity(items))];
    }
  }

  // ---------------------------------------------------------------------
  // Worked cases, prices in cents

  lemma AddToEmpty(x: Item)
    ensures AddItem([], x) == [x]
  {
    assert Find([], x.id, x.size) == None;
  }

  lemma AddSameKeyToSingleton(x: Item, quantity: int)
    ensures AddItem([x], x.(quantity := quantity)) == [Bump(x, quantity)]
  {
    assert Find([x], x.id, x.size) == Some(0);
    assert KeysUnique([x]);
  }

  lemma SubtotalSingleton(x: Item)
    ensures Subtotal([x]) == LineTotal(x)
  {
    assert [x][..0] == [];
  }

  /** Two adds of pizza 1, medium, at 14.99: one entry of quantity 3 and a
      total of 44.97. */
  lemma TwoAddsOfOneKey(name: string, image: string)
    ensures var first := Item(1, name, 1499, image, 1, Medium);
            var cart := AddItem(AddItem([], first), first.(quantity := 2));
            cart == [first.(quantity := 3)] && Subtotal(cart) == 4497
  {
    var first := Item(1, name, 1499, image, 1, Medium);
    AddToEmpty(first);
    AddSameKeyToSingleton(first, 2);
    assert Bump(first, 2) == first.(quantity := 3);
    SubtotalSingleton(first.(quantity := 3));
  }

  /** An add of pizza 2, large, followed by an update to quantity 0 leaves the
      cart empty. */
  lemma AddThenZeroQuantity(name: string, image: string)
    ensures RemoveKey(AddItem([], Item(2, name, 1899, image, 1, Large)), 2, Large) == []
  {
    assert AddItem([], Item(2, name, 1899, image, 1, Large)) == [Item(2, name, 1899, image, 1, Large)];
  }

  // ---------------------------------------------------------------------
  // The store

  /** What a fresh load makes of the persisted copy: the stored list, or the
      empty cart when nothing valid is stored. */
  function Restore(stored: Option<seq<Item>>): seq<Item>
  {
    if stored.Some? then stored.value else []
  }

  /** One instance of the cart hook: the in-memory cart, the loaded flag and
      the persisted copy under "pizza-cart". */
  class CartStore {
    var cart: seq<Item>
    var isLoaded: bool
    var stored: Option<seq<Item>>

    /** Reloading from the persisted copy reproduces the in-memory cart, except
        before the initial load, when the cart is still empty. */
    ghost predicate Valid()
      reads this
    {
      Restore(stored) == cart || (!isLoaded && cart == [])
    }

    /** Mounting: an empty cart, not yet loaded, over whatever `saved` is in
        storage. */
    constructor (saved: Option<seq<Item>>)
      ensures Valid()
      ensures cart == [] && !isLoaded && stored == saved
    {
      cart := [];
      isLoaded := false;
      stored := saved;
    }

    /** The initial load: a valid stored list replaces the cart; with nothing
        valid stored the cart is left as it is. */
    method Load()
      requires Valid()
      modifies this
      ensures Valid() && isLoaded
      ensures stored == old(stored)
      ensures cart == if stored.Some? then stored.value else old(cart)
      ensures cart == Restore(stored)
    {
      if stored.Some? {
        cart := stored.value;
      }
      isLoaded := true;
    }

    method AddToCart(item: Item)
      requires Valid()
      modifies this
      ensures Valid() && isLoaded == old(isLoaded)
      ensures cart == AddItem(old(cart), item)
      ensures stored == Some(cart)
    {
      cart := AddItem(cart, item);
      stored := Some(cart);
    }

    method RemoveFromCart(id: int, size: Size)
      requires Valid()
      modifies this
      ensures Valid() && isLoaded == old(isLoaded)
      ensures cart == RemoveKey(old(cart), id, size)
      ensures stored == Some(cart)
    {
      cart := RemoveKey(cart, id, size);
      stored := Some(cart);
    }

    /** A quantity of zero or less removes the entry; a positive one is set
        as the entry's new quantity. */
    method UpdateQuantity(id: int, size: Size, quantity: int)
      requires Valid()
      modifies this
      ensures Valid() && isLoaded == old(isLoaded)
      ensures quantity <= 0 ==> cart == RemoveKey(old(cart), id, size)
      ensures quantity > 0 ==> cart == SetQuantity(old(cart), id, size, quantity)
      ensures stored == Some(cart)
    {
      if quantity <= 0 {
        RemoveFromCart(id, size);
        return;
      }
      cart := SetQuantity(cart, id, size, quantity);
      stored := Some(cart);
    }

    /** Empties the cart and deletes the persisted copy. */
    method ClearCart()
      requires Valid()
      modifies this
      ensures Valid() && isLoaded == old(isLoaded)
      ensures cart == [] && stored == None
    {
      cart := [];
      stored := None;
    }

    /** The derived total, recomputed from the current cart. */
    function Total(): (total: int)
      reads this
      ensures cart == [] ==> total == 0
    {
      Subtotal(cart)
    }
  }
}
