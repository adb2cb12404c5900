/** The cart state manager (`CartProvider`): an in-memory list of cart lines,
    updated by the `setCart` updaters, each update followed by a write to the
    durable store. The updaters are the pure functions below; the provider class
    sequences them with the store writes. Each provider operation is treated as
    atomic: the asynchronous store write is applied right after the memory update. */
module CartContext {
  import opened Common
  import opened CartStore

  /** Some line has this id (`find` succeeds, `some` holds). */
  predicate HasId(c: seq<Item>, id: Id) {
    exists i | 0 <= i < |c| :: c[i].id == id
  }

  /** No two lines share an id. */
  predicate UniqueIds(c: seq<Item>) {
    forall i, j :: 0 <= i < j < |c| ==> c[i].id != c[j].id
  }

  /** Every line asks for at least one unit. */
  predicate AllPositive(c: seq<Item>) {
    forall i :: 0 <= i < |c| ==> c[i].quantity >= 1
  }

  // ---------------------------------------------------------------------------
  // The `setCart` updaters

  /** `prevCart.map(...)` in `addToCart`: each line with `id` gets one more unit. */
  function Incremented(c: seq<Item>, id: Id): (r: seq<Item>)
    ensures |r| == |c|
    ensures forall i :: 0 <= i < |c| ==> r[i].id == c[i].id
  {
    if c == [] then []
    else [if c[0].id == id then c[0].(quantity := c[0].quantity + 1) else c[0]] + Incremented(c[1..], id)
  }

  /** `addToCart`'s updater: increment the existing line, or append the item with quantity 1. */
  function AddLine(c: seq<Item>, item: Item): seq<Item> {
    if HasId(c, item.id) then Incremented(c, item.id) else c + [item.(quantity := 1)]
  }

  /** `updateQuantity`'s updater: every line with `id` gets `quantity`, unclamped. */
  function WithQuantity(c: seq<Item>, id: Id, quantity: int): (r: seq<Item>)
    ensures |r| == |c|
    ensures forall i :: 0 <= i < |c| ==> r[i].id == c[i].id
  {
    if c == [] then []
    else [if c[0].id == id then c[0].(quantity := quantity) else c[0]] + WithQuantity(c[1..], id, quantity)
  }

  /** `removeFromCart`'s updater: `filter` keeping the lines whose id differs. */
  function Without(c: seq<Item>, id: Id): (r: seq<Item>)
    ensures |r| <= |c|
    ensures !HasId(r, id)
  {
    if c == [] then []
    else if c[0].id == id then Without(c[1..], id)
    else [c[0]] + Without(c[1..], id)
  }

  // ---------------------------------------------------------------------------
  // What the updaters do, line by line

  lemma {:induction false} IncrementedAt(c: seq<Item>, id: Id, k: nat)
    requires k < |c|
    ensures Incremented(c, id)[k] == if c[k].id == id then c[k].(quantity := c[k].quantity + 1) else c[k]
  {
    if k > 0 {
      IncrementedAt(c[1..], id, k - 1);
    }
  }

  lemma {:induction false} WithQuantityAt(c: seq<Item>, id: Id, quantity: int, k: nat)
    requires k < |c|
    ensures WithQuantity(c, id, quantity)[k] == if c[k].id == id then c[k].(quantity := quantity) else c[k]
  {
    if k > 0 {
      WithQuantityAt(c[1..], id, quantity, k - 1);
    }
  }

  /** Adding an item whose id is on line `k` adds exactly one unit to that line;
      every other line, and the order, stay as they were. */
  lemma AddExisting(c: seq<Item>, item: Item, k: nat)
    requires UniqueIds(c) && k < |c| && c[k].id == item.id
    ensures AddLine(c, item) == c[k := c[k].(quantity := c[k].quantity + 1)]
  {
    var r := AddLine(c, item);
    assert HasId(c, item.id);
    forall i | 0 <= i < |c| ensures r[i] == c[k := c[k].(quantity := c[k].quantity + 1)][i] {
      IncrementedAt(c, item.id, i);
    }
  }

  /** Adding a fresh item appends it with quantity 1. */
  lemma AddFresh(c: seq<Item>, item: Item)
    requires !HasId(c, item.id)
    ensures AddLine(c, item) == c + [item.(quantity := 1)]
    ensures |AddLine(c, item)| == |c| + 1
  {
  }

  /** Two adds of the same fresh item leave a single line for it, with quantity 2. */
  lemma AddTwiceFresh(c: seq<Item>, item: Item)
    requires UniqueIds(c) && !HasId(c, item.id)
    ensures AddLine(AddLine(c, item), item) == c + [item.(quantity := 2)]
  {
    var once := c + [item.(quantity := 1)];
    assert UniqueIds(once);
    AddExisting(once, item, |c|);
  }

  /** Setting the quantity of the id on line `k` changes that line only. */
  lemma SetQuantityPresent(c: seq<Item>, id: Id, quantity: int, k: nat)
    requires UniqueIds(c) && k < |c| && c[k].id == id
    ensures WithQuantity(c, id, quantity) == c[k := c[k].(quantity := quantity)]
  {
    var r := WithQuantity(c, id, quantity);
    forall i | 0 <= i < |c| ensures r[i] == c[k := c[k].(quantity := quantity)][i] {
      WithQuantityAt(c, id, quantity, i);
    }
  }

  /** Setting the quantity of an id the cart does not hold changes nothing. */
  lemma SetQuantityAbsent(c: seq<Item>, id: Id, quantity: int)
    requires !HasId(c, id)
    ensures WithQuantity(c, id, quantity) == c
  {
    var r := WithQuantity(c, id, quantity);
    forall i | 0 <= i < |c| ensures r[i] == c[i] {
      WithQuantityAt(c, id, quantity, i);
    }
  }

  /** The lines kept by `removeFromCart` are exactly the lines with another id. */
  lemma {:induction false} WithoutMembers(c: seq<Item>, id: Id, x: Item)
    ensures x in Without(c, id) <==> x in c && x.id != id
  {
    if c != [] {
      WithoutMembers(c[1..], id, x);
      assert c == [c[0]] + c[1..];
    }
  }

  /** Removing the id on line `k` cuts out exactly that line and keeps the order
      of the rest. */
  lemma {:induction false} WithoutPresent(c: seq<Item>, id: Id, k: nat)
    requires UniqueIds(c) && k < |c| && c[k].id == id
    ensures Without(c, id) == c[..k] + c[k + 1..]
  {
    if k == 0 {
      WithoutAbsent(c[1..], id);
    } else {
      WithoutPresent(c[1..], id, k - 1);
      assert c[1..][..k - 1] == c[1..k];
      assert c[1..][k..] == c[k + 1..];
    }
  }

  /** Removing an id the cart does not hold changes nothing. */
  lemma {:induction false} WithoutAbsent(c: seq<Item>, id: Id)
    requires !HasId(c, id)
    ensures Without(c, id) == c
  {
    if c != [] {
      assert !HasId(c[1..], id) by {
        forall i | 0 <= i < |c| - 1 ensures c[1..][i].id != id {
          assert c[1..][i] == c[i + 1];
        }
      }
      WithoutAbsent(c[1..], id);
    }
  }

  /** `removeFromCart` is idempotent. */
  lemma WithoutIdempotent(c: seq<Item>, id: Id)
    ensures Without(Without(c, id), id) == Without(c, id)
  {
    WithoutAbsent(Without(c, id), id);
  }

  // ---------------------------------------------------------------------------
  // Invariants every updater preserves

  lemma AddLineKeepsUnique(c: seq<Item>, item: Item)
    requires UniqueIds(c)
    ensures UniqueIds(AddLine(c, item))
  {
  }

  lemma WithQuantityKeepsUnique(c: seq<Item>, id: Id, quantity: int)
    requires UniqueIds(c)
    ensures UniqueIds(WithQuantity(c, id, quantity))
  {
  }

  lemma {:induction false} WithoutKeepsUnique(c: seq<Item>, id: Id)
    requires UniqueIds(c)
    ensures UniqueIds(Without(c, id))
  {
    if c != [] {
      WithoutKeepsUnique(c[1..], id);
      if c[0].id != id {
        var r := Without(c[1..], id);
        forall j | 0 <= j < |r| ensures r[j].id != c[0].id {
          WithoutMembers(c[1..], id, r[j]);
          var m :| 0 <= m < |c| - 1 && c[1..][m] == r[j];
          assert c[m + 1] == r[j];
        }
      }
    }
  }

  lemma AddLineKeepsPositive(c: seq<Item>, item: Item)
    requires AllPositive(c)
    ensures AllPositive(AddLine(c, item))
  {
    if HasId(c, item.id) {
      forall i | 0 <= i < |c| ensures AddLine(c, item)[i].quantity >= 1 {
        IncrementedAt(c, item.id, i);
      }
    }
  }

  lemma WithQuantityKeepsPositive(c: seq<Item>, id: Id, quantity: int)
    requires AllPositive(c) && quantity >= 1
    ensures AllPositive(WithQuantity(c, id, quantity))
  {
    forall i | 0 <= i < |c| ensures WithQuantity(c, id, quantity)[i].quantity >= 1 {
      WithQuantityAt(c, id, quantity, i);
    }
  }

  lemma WithoutKeepsPositive(c: seq<Item>, id: Id)
    requires AllPositive(c)
    ensures AllPositive(Without(c, id))
  {
    var r := Without(c, id);
    forall j | 0 <= j < |r| ensures r[j].quantity >= 1 {
      WithoutMembers(c, id, r[j]);
    }
  }

  // ---------------------------------------------------------------------------
  // Memory against the durable store

  /** The in-memory cart and the store hold the same records, once each. */
  ghost predicate Mirrors(c: seq<Item>, records: map<Id, Item>) {
    UniqueIds(c) && Lists(c, records)
  }

  /** What `getAll` returns mirrors the store. */
  lemma LoadedMirrors(items: seq<Item>, records: map<Id, Item>)
    requires StrictlyAscending(items) && Lists(items, records)
    ensures Mirrors(items, records)
  {
  }

  /** Overwriting the quantity of line `k` and of its record keeps the mirror. */
  lemma MirrorUpdateAt(c: seq<Item>, records: map<Id, Item>, k: nat, quantity: int)
    requires Mirrors(c, records) && k < |c|
    ensures Mirrors(c[k := c[k].(quantity := quantity)],
                    records[c[k].id := records[c[k].id].(quantity := quantity)])
  {
    var id := c[k].id;
    var r := c[k := c[k].(quantity := quantity)];
    var m := records[id := records[id].(quantity := quantity)];
    assert forall i :: 0 <= i < |r| ==> r[i].id == c[i].id;
    forall i | 0 <= i < |r| ensures r[i].id in m && m[r[i].id] == r[i] {
      if i != k {
        assert r[i] == c[i] && c[i].id != id;
      }
    }
    forall key | key in m ensures exists i :: 0 <= i < |r| && r[i].id == key {
      var i :| 0 <= i < |c| && c[i].id == key;
      assert r[i].id == key;
    }
  }

  /** `updateQuantity` keeps memory and store in step. */
  lemma SetQuantityKeepsMirror(c: seq<Item>, records: map<Id, Item>, id: Id, quantity: int)
    requires Mirrors(c, records)
    ensures Mirrors(WithQuantity(c, id, quantity),
                    if id in records then records[id := records[id].(quantity := quantity)] else records)
  {
    if id in records {
      var k :| 0 <= k < |c| && c[k].id == id;
      SetQuantityPresent(c, id, quantity, k);
      MirrorUpdateAt(c, records, k, quantity);
    } else {
      assert !HasId(c, id);
      SetQuantityAbsent(c, id, quantity);
    }
  }

  /** `removeFromCart` keeps memory and store in step. */
  lemma WithoutKeepsMirror(c: seq<Item>, records: map<Id, Item>, id: Id)
    requires Mirrors(c, records)
    ensures Mirrors(Without(c, id), records - {id})
  {
    var r := Without(c, id);
    WithoutKeepsUnique(c, id);
    forall j | 0 <= j < |r| ensures r[j].id in records - {id} && (records - {id})[r[j].id] == r[j] {
      WithoutMembers(c, id, r[j]);
    }
    forall key | key in records - {id} ensures exists j :: 0 <= j < |r| && r[j].id == key {
      var i :| 0 <= i < |c| && c[i].id == key;
      WithoutMembers(c, id, c[i]);
      var j :| 0 <= j < |r| && r[j] == c[i];
    }
  }

  /** Adding a fresh item writes the same record to memory and store. */
  lemma AddFreshKeepsMirror(c: seq<Item>, records: map<Id, Item>, item: Item)
    requires Mirrors(c, records) && !HasId(c, item.id)
    ensures Mirrors(AddLine(c, item), records[item.id := item.(quantity := 1)])
  {
    var r := AddLine(c, item);
    var m := records[item.id := item.(quantity := 1)];
    forall key | key in m ensures exists i :: 0 <= i < |r| && r[i].id == key {
      if key == item.id {
        assert r[|c|].id == key;
      } else {
        var i :| 0 <= i < |c| && c[i].id == key;
        assert r[i].id == key;
      }
    }
  }

  /** Adding an item already on a line with a non-zero quantity leaves the store
      behind: memory has one more unit, the store is written with quantity 1. */
  lemma AddExistingBreaksMirror(c: seq<Item>, records: map<Id, Item>, item: Item, k: nat)
    requires Mirrors(c, records) && k < |c| && c[k].id == item.id && c[k].quantity != 0
    ensures !Mirrors(AddLine(c, item), records[item.id := item.(quantity := 1)])
    ensures AddLine(c, item)[k].quantity == c[k].quantity + 1
  {
    AddExisting(c, item, k);
  }

  // ---------------------------------------------------------------------------
  // The provider

  class CartProvider {
    /** The `cart` state. */
    var cart: seq<Item>
    /** The durable store every operation writes through to. */
    const store: DurableStore

    ghost predicate Valid()
      reads this, store
    {
      store.Valid() && UniqueIds(cart)
    }

    /** `useState([])`: the cart starts empty, before the load on mount. */
    constructor (store: DurableStore)
      requires store.Valid()
      ensures this.store == store && cart == [] && Valid()
    {
      this.store := store;
      cart := [];
    }

    /** The mount effect: the cart is replaced wholesale by the store's contents. */
    method Load()
      requires Valid()
      modifies this
      ensures Valid() && store.records == old(store.records)
      ensures Mirrors(cart, store.records)
      ensures StrictlyAscending(cart)
    {
      var stored := store.GetAll();
      LoadedMirrors(stored, store.records);
      cart := stored;
    }

    /** `addToCart`: memory as `AddLine`; the store always receives the item with
        quantity 1, whatever the line's quantity now is. */
    method AddToCart(item: Item)
      requires Valid()
      modifies this, store
      ensures Valid()
      ensures cart == AddLine(old(cart), item)
      ensures store.records == old(store.records)[item.id := item.(quantity := 1)]
      ensures AllPositive(old(cart)) ==> AllPositive(cart)
    {
      AddLineKeepsUnique(cart, item);
      if AllPositive(cart) {
        AddLineKeepsPositive(cart, item);
      }
      cart := AddLine(cart, item);
      store.Put(item.(quantity := 1));
    }

    /** `updateQuantity`: memory and store both get `quantity`, unclamped. */
    method UpdateQuantity(id: Id, quantity: int)
      requires Valid()
      modifies this, store
      ensures Valid()
      ensures cart == WithQuantity(old(cart), id, quantity)
      ensures id in old(store.records) ==>
        store.records == old(store.records)[id := old(store.records)[id].(quantity := quantity)]
      ensures id !in old(store.records) ==> store.records == old(store.records)
      ensures Mirrors(old(cart), old(store.records)) ==> Mirrors(cart, store.records)
      ensures AllPositive(old(cart)) && quantity >= 1 ==> AllPositive(cart)
    {
      WithQuantityKeepsUnique(cart, id, quantity);
      if Mirrors(cart, store.records) {
        SetQuantityKeepsMirror(cart, store.records, id, quantity);
      }
      if AllPositive(cart) && quantity >= 1 {
        WithQuantityKeepsPositive(cart, id, quantity);
      }
      cart := WithQuantity(cart, id, quantity);
      store.UpdateQuantity(id, quantity);
    }

    /** `removeFromCart`: the line leaves memory and the record leaves the store. */
    method RemoveFromCart(id: Id)
      requires Valid()
      modifies this, store
      ensures Valid()
      ensures cart == Without(old(cart), id)
      ensures store.records == old(store.records) - {id}
      ensures Mirrors(old(cart), old(store.records)) ==> Mirrors(cart, store.records)
      ensures AllPositive(old(cart)) ==> AllPositive(cart)
    {
      WithoutKeepsUnique(cart, id);
      if Mirrors(cart, store.records) {
        WithoutKeepsMirror(cart, store.records, id);
      }
      if AllPositive(cart) {
        WithoutKeepsPositive(cart, id);
      }
      cart := Without(cart, id);
      store.Remove(id);
    }

    /** `clearCart`: both memory and store end empty. */
    method ClearCart()
      requires Valid()
      modifies this, store
      ensures Valid()
      ensures cart == [] && store.records == map[]
      ensures Mirrors(cart, store.records)
    {
      cart := [];
      store.Clear();
    }
  }
}
