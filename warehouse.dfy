/**
 * The warehouse as a value: an ordered list of `{ itemId, quantity }`
 * entries, with the three operations the game store performs on it
 * (`find`, push-or-increment, decrement-or-splice) and the unit count.
 */
module Warehouse {
  import opened Wrappers
  import opened Content

  datatype Entry = Entry(itemId: ItemId, quantity: int)

  /** The constant capacity `addToWarehouse` checks against: 30 units. */
  const Capacity := 30

  /** `getWarehouseUsed`: the units held, summed over all entries. */
  function Used(w: seq<Entry>): int {
    if w == [] then 0 else w[0].quantity + Used(w[1..])
  }

  /** Every entry of a well-formed warehouse holds at least one unit, so the units used are at least the entries. */
  lemma {:induction false} UsedAtLeastEntries(w: seq<Entry>)
    requires WellFormed(w)
    ensures Used(w) >= |w|
  {
    if w != [] {
      forall i, j | 0 <= i < j < |w[1..]| ensures w[1..][i].itemId != w[1..][j].itemId {
        assert w[1..][i] == w[i + 1] && w[1..][j] == w[j + 1];
      }
      UsedAtLeastEntries(w[1..]);
    }
  }

  /** The index `find` stops at: the first entry for `id`, or `|w|` when there is none. */
  function IndexOf(w: seq<Entry>, id: ItemId): (i: nat)
    ensures i <= |w|
    ensures i < |w| ==> w[i].itemId == id
    ensures forall j :: 0 <= j < i ==> w[j].itemId != id
  {
    if w == [] then 0
    else if w[0].itemId == id then 0
    else 1 + IndexOf(w[1..], id)
  }

  predicate Holds(w: seq<Entry>, id: ItemId) {
    IndexOf(w, id) < |w|
  }

  /** `getWarehouseItemCount`: the quantity of the entry `find` returns, or 0. */
  function CountOf(w: seq<Entry>, id: ItemId): (r: int)
    ensures !Holds(w, id) <==> forall j :: 0 <= j < |w| ==> w[j].itemId != id
    ensures !Holds(w, id) ==> r == 0
    ensures WellFormed(w) && Holds(w, id) ==> r >= 1
  {
    var i := IndexOf(w, id);
    if i < |w| then w[i].quantity else 0
  }

  /** The shape the store keeps: one entry per item, none of them empty. */
  ghost predicate WellFormed(w: seq<Entry>) {
    && (forall i :: 0 <= i < |w| ==> w[i].quantity >= 1)
    && (forall i, j :: 0 <= i < j < |w| ==> w[i].itemId != w[j].itemId)
  }

  /** How many of `q` units `addToWarehouse` accepts when `used` units are held. */
  function Accepted(used: int, q: int): (r: int)
    ensures r == 0 <==> q <= 0 || used >= Capacity
    ensures r != 0 ==> r == Min(q, Capacity - used)
  {
    var actual := Min(q, Capacity - used);
    if actual <= 0 then 0 else actual
  }

  /** Adding `n` units of `id`: increment its entry, or push a new one; nothing for `n <= 0`. */
  function Insert(w: seq<Entry>, id: ItemId, n: int): seq<Entry> {
    if n <= 0 then w
    else
      var i := IndexOf(w, id);
      if i < |w| then w[i := Entry(id, w[i].quantity + n)]
      else w + [Entry(id, n)]
  }

  /** Taking `q` units of a held `id`: decrement its entry and splice it out once it reaches 0. */
  function Take(w: seq<Entry>, id: ItemId, q: int): seq<Entry>
    requires Holds(w, id)
  {
    var i := IndexOf(w, id);
    var left := w[i].quantity - q;
    if left <= 0 then w[..i] + w[i + 1..] else w[i := Entry(id, left)]
  }

  lemma {:induction false} UsedAppend(w: seq<Entry>, e: Entry)
    ensures Used(w + [e]) == Used(w) + e.quantity
  {
    if w != [] {
      assert (w + [e])[1..] == w[1..] + [e];
      UsedAppend(w[1..], e);
    }
  }

  lemma {:induction false} UsedUpdate(w: seq<Entry>, i: nat, e: Entry)
    requires i < |w|
    ensures Used(w[i := e]) == Used(w) - w[i].quantity + e.quantity
  {
    if i > 0 {
      assert w[i := e][1..] == w[1..][i - 1 := e];
      UsedUpdate(w[1..], i - 1, e);
    }
  }

  lemma {:induction false} UsedRemove(w: seq<Entry>, i: nat)
    requires i < |w|
    ensures Used(w[..i] + w[i + 1..]) == Used(w) - w[i].quantity
  {
    if i == 0 {
      assert w[..i] + w[i + 1..] == w[1..];
    } else {
      var r := w[..i] + w[i + 1..];
      assert r[0] == w[0];
      assert r[1..] == w[1..][..i - 1] + w[1..][i..];
      UsedRemove(w[1..], i - 1);
    }
  }

  /** The quantity `find` sees is that of the single entry for the item, in a well-formed warehouse. */
  lemma CountOfAt(w: seq<Entry>, i: nat)
    requires WellFormed(w) && i < |w|
    ensures IndexOf(w, w[i].itemId) == i && CountOf(w, w[i].itemId) == w[i].quantity
  {
  }

  /** `find` stops at the first entry for the item. */
  lemma {:induction false} IndexOfIs(w: seq<Entry>, id: ItemId, k: nat)
    requires k <= |w| && (k < |w| ==> w[k].itemId == id)
    requires forall j :: 0 <= j < k ==> w[j].itemId != id
    ensures IndexOf(w, id) == k
  {
    if w != [] && k > 0 {
      assert w[0].itemId != id;
      IndexOfIs(w[1..], id, k - 1);
    }
  }

  /** Replacing an entry by one for the same item moves no `find`. */
  lemma CountOfReplace(w: seq<Entry>, i: nat, e: Entry, x: ItemId)
    requires i < |w| && e.itemId == w[i].itemId
    ensures IndexOf(w[i := e], x) == IndexOf(w, x)
    ensures CountOf(w[i := e], x) == if IndexOf(w, x) == i then e.quantity else CountOf(w, x)
  {
    var k := IndexOf(w, x);
    var r := w[i := e];
    assert forall j :: 0 <= j < |w| ==> r[j].itemId == w[j].itemId;
    IndexOfIs(r, x, k);
  }

  /** Pushing an entry for a new item moves no `find` of another one. */
  lemma CountOfPush(w: seq<Entry>, e: Entry, x: ItemId)
    requires !Holds(w, e.itemId)
    ensures CountOf(w + [e], x) == CountOf(w, x) + (if x == e.itemId then e.quantity else 0)
  {
    var k := IndexOf(w, x);
    if k < |w| {
      IndexOfIs(w + [e], x, k);
    } else if x == e.itemId {
      IndexOfIs(w + [e], x, |w|);
    } else {
      IndexOfIs(w + [e], x, |w| + 1);
    }
  }

  /** Splicing out the only entry of an item leaves every other count. */
  lemma CountOfSplice(w: seq<Entry>, i: nat, x: ItemId)
    requires i < |w|
    requires forall j :: 0 <= j < |w| && j != i ==> w[j].itemId != w[i].itemId
    ensures CountOf(w[..i] + w[i + 1..], x) == if x == w[i].itemId then 0 else CountOf(w, x)
  {
    if x == w[i].itemId {
      SplicedOut(w, i);
    } else {
      SplicedOther(w, i, x);
    }
  }

  lemma SplicedOut(w: seq<Entry>, i: nat)
    requires i < |w|
    requires forall j :: 0 <= j < |w| && j != i ==> w[j].itemId != w[i].itemId
    ensures !Holds(w[..i] + w[i + 1..], w[i].itemId)
  {
    var r := w[..i] + w[i + 1..];
    SpliceAt(w, i);
    forall j | 0 <= j < |r| ensures r[j].itemId != w[i].itemId {
      if j >= i { assert r[(j + 1) - 1] == w[j + 1]; }
    }
    IndexOfIs(r, w[i].itemId, |r|);
  }

  lemma SplicedOther(w: seq<Entry>, i: nat, x: ItemId)
    requires i < |w| && x != w[i].itemId
    ensures CountOf(w[..i] + w[i + 1..], x) == CountOf(w, x)
  {
    var r := w[..i] + w[i + 1..];
    var k := IndexOf(w, x);
    var k' := SplicedIndex(w, i, x);
    if k < |w| {
      assert r[k'] == w[k];
    }
  }

  /** Where `find` stops once another item's entry is spliced out. */
  lemma SplicedIndex(w: seq<Entry>, i: nat, x: ItemId) returns (k': nat)
    requires i < |w| && x != w[i].itemId
    ensures k' == IndexOf(w[..i] + w[i + 1..], x)
    ensures IndexOf(w, x) < |w| <==> k' < |w| - 1
    ensures IndexOf(w, x) < |w| ==> (w[..i] + w[i + 1..])[k'] == w[IndexOf(w, x)]
  {
    var r := w[..i] + w[i + 1..];
    SpliceAt(w, i);
    var k := IndexOf(w, x);
    if k < i {
      k' := k;
    } else if k < |w| {
      assert r[k - 1] == w[k];
      k' := k - 1;
    } else {
      k' := |r|;
    }
    IndexOfIs(r, x, k');
  }

  lemma SpliceAt(w: seq<Entry>, i: nat)
    requires i < |w|
    ensures |w[..i] + w[i + 1..]| == |w| - 1
    ensures forall j :: 0 <= j < i ==> (w[..i] + w[i + 1..])[j] == w[j]
    ensures forall j :: i < j < |w| ==> (w[..i] + w[i + 1..])[j - 1] == w[j]
  {
  }

  /** `addToWarehouse` on the value: exactly `n` more units of `id`, and the shape is kept. */
  lemma InsertSpec(w: seq<Entry>, id: ItemId, n: int)
    requires n > 0
    ensures Used(Insert(w, id, n)) == Used(w) + n
    ensures forall x :: CountOf(Insert(w, id, n), x) == CountOf(w, x) + (if x == id then n else 0)
    ensures WellFormed(w) ==> WellFormed(Insert(w, id, n))
  {
    var i := IndexOf(w, id);
    if i < |w| {
      InsertIntoEntry(w, id, i, n);
    } else {
      InsertNewEntry(w, id, n);
    }
  }

  /** Inserting a held item grows its entry in place. */
  lemma InsertIntoEntry(w: seq<Entry>, id: ItemId, i: nat, n: int)
    requires i == IndexOf(w, id) < |w| && n > 0
    ensures var r := w[i := Entry(id, w[i].quantity + n)];
      && Used(r) == Used(w) + n
      && (forall x :: CountOf(r, x) == CountOf(w, x) + (if x == id then n else 0))
      && (WellFormed(w) ==> WellFormed(r))
  {
    var e := Entry(id, w[i].quantity + n);
    UsedUpdate(w, i, e);
    forall x ensures CountOf(w[i := e], x) == CountOf(w, x) + (if x == id then n else 0) {
      CountOfReplace(w, i, e, x);
      if x != id {
        assert IndexOf(w, x) != i;
      }
    }
  }

  /** Inserting an item not held appends an entry for it. */
  lemma InsertNewEntry(w: seq<Entry>, id: ItemId, n: int)
    requires !Holds(w, id) && n > 0
    ensures var r := w + [Entry(id, n)];
      && Used(r) == Used(w) + n
      && (forall x :: CountOf(r, x) == CountOf(w, x) + (if x == id then n else 0))
      && (WellFormed(w) ==> WellFormed(r))
  {
    UsedAppend(w, Entry(id, n));
    forall x ensures CountOf(w + [Entry(id, n)], x) == CountOf(w, x) + (if x == id then n else 0) {
      CountOfPush(w, Entry(id, n), x);
    }
  }

  /** Two insertions of the same item are one insertion of their sum. */
  lemma InsertTwice(w: seq<Entry>, id: ItemId, a: int, b: int)
    requires a > 0 && b > 0
    ensures Insert(Insert(w, id, a), id, b) == Insert(w, id, a + b)
  {
    var i := IndexOf(w, id);
    var r := Insert(w, id, a);
    if i < |w| {
      IndexOfIs(r, id, i);
    } else {
      IndexOfIs(r, id, |w|);
    }
  }

  /** `removeFromWarehouse` on the value, when the item is held at least `q` times. */
  lemma TakeSpec(w: seq<Entry>, id: ItemId, q: int)
    requires WellFormed(w) && Holds(w, id) && CountOf(w, id) >= q
    ensures Used(Take(w, id, q)) == Used(w) - q
    ensures forall x :: CountOf(Take(w, id, q), x) == CountOf(w, x) - (if x == id then q else 0)
    ensures WellFormed(Take(w, id, q))
  {
    var i := IndexOf(w, id);
    assert CountOf(w, id) == w[i].quantity;
    if w[i].quantity - q <= 0 {
      assert q == w[i].quantity;
      TakeLast(w, id, i);
    } else {
      TakeSome(w, id, i, q);
    }
  }

  /** Taking every unit of an entry splices it out. */
  lemma TakeLast(w: seq<Entry>, id: ItemId, i: nat)
    requires WellFormed(w) && i == IndexOf(w, id) < |w|
    ensures var r := w[..i] + w[i + 1..];
      && Used(r) == Used(w) - w[i].quantity
      && (forall x :: CountOf(r, x) == CountOf(w, x) - (if x == id then w[i].quantity else 0))
      && WellFormed(r)
  {
    UsedRemove(w, i);
    forall x ensures CountOf(w[..i] + w[i + 1..], x) == CountOf(w, x) - (if x == id then w[i].quantity else 0) {
      CountOfSplice(w, i, x);
    }
    var r := w[..i] + w[i + 1..];
    assert forall j :: 0 <= j < i ==> r[j] == w[j];
    assert forall j :: i <= j < |r| ==> r[j] == w[j + 1];
  }

  /** Taking fewer units than an entry holds decrements it in place. */
  lemma TakeSome(w: seq<Entry>, id: ItemId, i: nat, q: int)
    requires WellFormed(w) && i == IndexOf(w, id) < |w| && q < w[i].quantity
    ensures var r := w[i := Entry(id, w[i].quantity - q)];
      && Used(r) == Used(w) - q
      && (forall x :: CountOf(r, x) == CountOf(w, x) - (if x == id then q else 0))
      && WellFormed(r)
  {
    var e := Entry(id, w[i].quantity - q);
    UsedUpdate(w, i, e);
    forall x ensures CountOf(w[i := e], x) == CountOf(w, x) - (if x == id then q else 0) {
      CountOfReplace(w, i, e, x);
      if x != id {
        assert IndexOf(w, x) != i;
      }
    }
  }
}
