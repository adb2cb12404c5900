/** The durable cart store: the IndexedDB database "cartDB" with one object store
    "cart" whose key path is `id`. Each exported operation runs as one readwrite
    transaction; the asynchronous open and the transaction machinery are not
    modelled, only their effect on the keyed collection. */
module CartStore {
  import opened Common

  /** Instrument ids. The store orders its keys numerically. */
  type Id = int

  /** A ticker row as the API returns it and, once `quantity` is set, a cart line.
      `attributes` carries the passthrough fields (sellqty, ltp, dates, ...)
      that the cart never inspects. */
  datatype Item = Item(id: Id, ticker: string, sellPrice: int, quantity: int,
                       attributes: map<string, string>)

  /** Ids in strictly ascending order, as `getAll` returns records of a store
      keyed by a number. */
  predicate StrictlyAscending(items: seq<Item>) {
    forall i, j :: 0 <= i < j < |items| ==> items[i].id < items[j].id
  }

  /** Every record is filed under its own `id`: the meaning of `keyPath: "id"`. */
  ghost predicate KeyedById(records: map<Id, Item>) {
    forall k :: k in records ==> records[k].id == k
  }

  /** `items` lists exactly the records of `records`, once each. */
  ghost predicate Lists(items: seq<Item>, records: map<Id, Item>) {
    && (forall i :: 0 <= i < |items| ==> items[i].id in records && records[items[i].id] == items[i])
    && (forall k :: k in records ==> exists i :: 0 <= i < |items| && items[i].id == k)
  }

  /** A finite set of numbers with a member has a least element. */
  lemma {:induction false} HasLeast(s: set<int>)
    requires exists x :: x in s
    ensures exists m :: m in s && forall j :: j in s ==> m <= j
    decreases s
  {
    var x :| x in s;
    var rest := s - {x};
    if exists y :: y in rest {
      HasLeast(rest);
      var m :| m in rest && forall j :: j in rest ==> m <= j;
      var least := if x < m then x else m;
      forall j | j in s ensures least <= j {
        if j != x { assert j in rest; }
      }
      assert least in s;
    } else {
      forall j | j in s ensures x <= j {
        assert j !in rest;
      }
    }
  }

  /** Loop state of `getAll`: `items` lists, in ascending order, exactly the
      records whose keys are not `remaining`, and every listed key is below every
      remaining one. */
  ghost predicate ListedBelow(items: seq<Item>, records: map<Id, Item>, remaining: set<Id>) {
    && StrictlyAscending(items)
    && (forall i :: 0 <= i < |items| ==> items[i].id in records && records[items[i].id] == items[i])
    && (forall i, k :: 0 <= i < |items| && k in remaining ==> items[i].id < k)
    && (forall k :: k in records && k !in remaining ==> exists i :: 0 <= i < |items| && items[i].id == k)
  }

  /** Moving the least remaining key to the end of the listing keeps `ListedBelow`. */
  lemma ListedBelowStep(items: seq<Item>, records: map<Id, Item>, remaining: set<Id>, k: Id)
    requires KeyedById(records) && remaining <= records.Keys
    requires ListedBelow(items, records, remaining)
    requires k in remaining && forall j :: j in remaining ==> k <= j
    ensures ListedBelow(items + [records[k]], records, remaining - {k})
  {
    var items' := items + [records[k]];
    var remaining' := remaining - {k};
    forall k' | k' in records && k' !in remaining'
      ensures exists i :: 0 <= i < |items'| && items'[i].id == k'
    {
      if k' == k {
        assert items'[|items|].id == k';
      } else {
        var i :| 0 <= i < |items| && items[i].id == k';
        assert items'[i].id == k';
      }
    }
  }

  class DurableStore {
    /** The "cart" object store. */
    var records: map<Id, Item>

    ghost predicate Valid()
      reads this
    {
      KeyedById(records)
    }

    /** `openDB` creating an empty "cart" store on first use. */
    constructor ()
      ensures Valid() && records == map[]
    {
      records := map[];
    }

    /** `addItemToDB`: `put` inserts the item under its id or replaces the record
        already there; every other key is untouched. */
    method Put(item: Item)
      requires Valid()
      modifies this
      ensures Valid()
      ensures records == old(records)[item.id := item]
      ensures item.id in records && records[item.id] == item
      ensures forall k :: k != item.id ==> (k in records <==> k in old(records))
      ensures forall k :: k != item.id && k in records ==> records[k] == old(records)[k]
    {
      records := records[item.id := item];
    }

    /** `getCartFromDB`: every record of the store, once, in ascending key order. */
    method GetAll() returns (items: seq<Item>)
      requires Valid()
      ensures StrictlyAscending(items)
      ensures Lists(items, records)
    {
      var remaining := records.Keys;
      items := [];
      while exists k :: k in remaining
        invariant remaining <= records.Keys
        invariant ListedBelow(items, records, remaining)
        decreases remaining
      {
        HasLeast(remaining);
        var k :| k in remaining && forall j :: j in remaining ==> k <= j;
        ListedBelowStep(items, records, remaining, k);
        items := items + [records[k]];
        remaining := remaining - {k};
      }
    }

    /** `updateItemQuantityInDB`: when a record with `id` exists, it is read,
        its `quantity` overwritten and put back; otherwise nothing happens. */
    method UpdateQuantity(id: Id, quantity: int)
      requires Valid()
      modifies this
      ensures Valid()
      ensures id in old(records) ==> records == old(records)[id := old(records)[id].(quantity := quantity)]
      ensures id !in old(records) ==> records == old(records)
    {
      if id in records {
        var item := records[id];
        item := item.(quantity := quantity);
        Put(item);
      }
    }

    /** `removeItemFromDB`: deletes the key; deleting an absent key is a no-op. */
    method Remove(id: Id)
      requires Valid()
      modifies this
      ensures Valid()
      ensures records == old(records) - {id}
      ensures id !in old(records) ==> records == old(records)
    {
      records := records - {id};
    }

    /** `clearCartDB`: the store becomes empty. */
    method Clear()
      requires Valid()
      modifies this
      ensures Valid() && records == map[]
    {
      records := map[];
    }
  }
}
