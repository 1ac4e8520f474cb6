/** The shopping cart (src/components/models/Cart.ts): an ordered list of
    products holding at most one entry per product id. */
module CartModel {
  import opened Types

  /** `items.some((i) => i.id === id)` */
  function HasId(s: seq<Product>, id: string): (b: bool)
    ensures b <==> exists i :: 0 <= i < |s| && s[i].id == id
  {
    if s == [] then false
    else if s[0].id == id then true
    else
      var b := HasId(s[1..], id);
      assert b ==> exists i :: 0 <= i < |s| && s[i].id == id by {
        if b {
          var i :| 0 <= i < |s[1..]| && s[1..][i].id == id;
          assert s[i + 1].id == id;
        }
      }
      b
  }

  /** `items.filter((i) => i.id !== id)` */
  function RemoveId(s: seq<Product>, id: string): (r: seq<Product>)
    ensures |r| <= |s|
  {
    if s == [] then []
    else if s[0].id == id then RemoveId(s[1..], id)
    else [s[0]] + RemoveId(s[1..], id)
  }

  /** The sum of the prices, an absent price counting as 0. */
  function Total(s: seq<Product>): (r: int)
    ensures (forall i :: 0 <= i < |s| ==> PriceOrZero(s[i]) >= 0) ==> r >= 0
  {
    if s == [] then 0 else PriceOrZero(s[0]) + Total(s[1..])
  }

  /** No two entries share an id: the cart invariant. */
  ghost predicate IdsDistinct(s: seq<Product>) {
    forall i, j :: 0 <= i < j < |s| ==> s[i].id != s[j].id
  }

  /** What `addItem(p)` leaves in the list: unchanged when the id is present,
      otherwise `p` appended. */
  function Added(s: seq<Product>, p: Product): (r: seq<Product>)
    ensures HasId(r, p.id)
    ensures |r| == if HasId(s, p.id) then |s| else |s| + 1
    ensures r[..|s|] == s
  {
    if HasId(s, p.id) then s
    else
      assert (s + [p])[|s|] == p;
      s + [p]
  }

  /** The set of ids in the list. */
  function IdSet(s: seq<Product>): (r: set<string>)
    ensures forall id :: id in r <==> HasId(s, id)
  {
    if s == [] then {} else {s[0].id} + IdSet(s[1..])
  }

  // ---------------------------------------------------------------------
  // Properties of the list operations

  lemma {:induction false} TotalAppend(a: seq<Product>, b: seq<Product>)
    ensures Total(a + b) == Total(a) + Total(b)
  {
    if a == [] {
      assert a + b == b;
    } else {
      assert (a + b)[0] == a[0];
      assert (a + b)[1..] == a[1..] + b;
      TotalAppend(a[1..], b);
    }
  }

  /** Filtering distributes over concatenation, so the kept items keep
      their relative order. */
  lemma {:induction false} RemoveIdAppend(a: seq<Product>, b: seq<Product>, id: string)
    ensures RemoveId(a + b, id) == RemoveId(a, id) + RemoveId(b, id)
  {
    if a == [] {
      assert a + b == b;
    } else {
      assert (a + b)[0] == a[0];
      assert (a + b)[1..] == a[1..] + b;
      RemoveIdAppend(a[1..], b, id);
    }
  }

  /** The items kept are exactly those with another id. */
  lemma {:induction false} RemoveIdMembers(s: seq<Product>, id: string)
    ensures forall p :: p in RemoveId(s, id) <==> p in s && p.id != id
  {
    if s != [] {
      RemoveIdMembers(s[1..], id);
      assert forall p :: p in s <==> p == s[0] || p in s[1..];
    }
  }

  /** Removing an absent id changes nothing. */
  lemma {:induction false} RemoveIdAbsent(s: seq<Product>, id: string)
    requires !HasId(s, id)
    ensures RemoveId(s, id) == s
  {
    if s != [] {
      RemoveIdAbsent(s[1..], id);
    }
  }

  /** After removal the id is gone. */
  lemma RemoveIdRemoves(s: seq<Product>, id: string)
    ensures !HasId(RemoveId(s, id), id)
  {
    var r := RemoveId(s, id);
    RemoveIdMembers(s, id);
    forall i | 0 <= i < |r| ensures r[i].id != id {
      assert r[i] in r;
    }
  }

  /** Removal keeps the ids distinct. */
  lemma {:induction false} RemoveIdDistinct(s: seq<Product>, id: string)
    requires IdsDistinct(s)
    ensures IdsDistinct(RemoveId(s, id))
  {
    if s != [] {
      var t := s[1..];
      assert IdsDistinct(t);
      RemoveIdDistinct(t, id);
      if s[0].id != id {
        var r := RemoveId(t, id);
        RemoveIdMembers(t, id);
        forall j | 0 <= j < |r| ensures s[0].id != r[j].id {
          assert r[j] in t;
          var k :| 0 <= k < |t| && t[k] == r[j];
          assert s[k + 1] == r[j];
        }
      }
    }
  }

  /** Adding keeps the ids distinct. */
  lemma AddedDistinct(s: seq<Product>, p: Product)
    requires IdsDistinct(s)
    ensures IdsDistinct(Added(s, p))
  {
  }

  /** Adding twice is adding once. */
  lemma AddedIdempotent(s: seq<Product>, p: Product)
    ensures Added(Added(s, p), p) == Added(s, p)
  {
    if !HasId(s, p.id) {
      assert (s + [p])[|s|].id == p.id;
    }
  }

  /** After adding, the id is present; a new item goes to the end and the
      earlier items keep their places. */
  lemma AddedContents(s: seq<Product>, p: Product)
    ensures HasId(Added(s, p), p.id)
    ensures !HasId(s, p.id) ==> |Added(s, p)| == |s| + 1 && Added(s, p)[..|s|] == s && Added(s, p)[|s|] == p
    ensures HasId(s, p.id) ==> Added(s, p) == s
  {
    if !HasId(s, p.id) {
      assert (s + [p])[|s|].id == p.id;
    }
  }

  /** A new item raises the total by its price. */
  lemma AddedTotal(s: seq<Product>, p: Product)
    requires !HasId(s, p.id)
    ensures Total(Added(s, p)) == Total(s) + PriceOrZero(p)
  {
    TotalAppend(s, [p]);
  }

  /** With distinct ids, removing the id of the item at `k` removes exactly
      that item. */
  lemma RemoveIdAt(s: seq<Product>, k: nat)
    requires IdsDistinct(s) && k < |s|
    ensures RemoveId(s, s[k].id) == s[..k] + s[k + 1..]
  {
    OthersLackId(s, k);
    assert s == s[..k] + [s[k]] + s[k + 1..];
    RemoveIdSingle(s[..k], s[k], s[k + 1..]);
  }

  lemma RemoveIdSingle(a: seq<Product>, x: Product, b: seq<Product>)
    requires !HasId(a, x.id) && !HasId(b, x.id)
    ensures RemoveId(a + [x] + b, x.id) == a + b
  {
    var id := x.id;
    RemoveIdAppend(a + [x], b, id);
    RemoveIdAppend(a, [x], id);
    RemoveIdAbsent(a, id);
    RemoveIdAbsent(b, id);
    RemoveIdDrops(x);
  }

  lemma RemoveIdDrops(x: Product)
    ensures RemoveId([x], x.id) == []
  {
    assert [x][1..] == [];
  }

  /** With distinct ids, no item before or after position `k` has `s[k]`'s id. */
  lemma OthersLackId(s: seq<Product>, k: nat)
    requires IdsDistinct(s) && k < |s|
    ensures !HasId(s[..k], s[k].id) && !HasId(s[k + 1..], s[k].id)
  {
    var a, b := s[..k], s[k + 1..];
    forall i | 0 <= i < |a| ensures a[i].id != s[k].id {
      assert a[i] == s[i];
    }
    forall i | 0 <= i < |b| ensures b[i].id != s[k].id {
      assert b[i] == s[k + 1 + i];
    }
  }

  /** Removing the item at `k` lowers the total by exactly its price. */
  lemma RemoveIdTotal(s: seq<Product>, k: nat)
    requires IdsDistinct(s) && k < |s|
    ensures Total(RemoveId(s, s[k].id)) == Total(s) - PriceOrZero(s[k])
  {
    RemoveIdAt(s, k);
    var a, b := s[..k], s[k + 1..];
    assert s == (a + [s[k]]) + b;
    TotalAppend(a + [s[k]], b);
    TotalAppend(a, [s[k]]);
    TotalAppend(a, b);
  }

  /** With distinct ids the number of entries is the number of ids. */
  lemma {:induction false} CountIsNumberOfIds(s: seq<Product>)
    requires IdsDistinct(s)
    ensures |IdSet(s)| == |s|
  {
    if s != [] {
      var t := s[1..];
      assert IdsDistinct(t);
      CountIsNumberOfIds(t);
      assert !HasId(t, s[0].id) by {
        forall k | 0 <= k < |t| ensures t[k].id != s[0].id {
          assert t[k] == s[k + 1];
        }
      }
    }
  }

  // ---------------------------------------------------------------------
  // Any run of cart operations from the empty cart

  datatype CartOp = AddItem(item: Product) | RemoveItem(id: string) | ClearItems

  function Apply(s: seq<Product>, op: CartOp): seq<Product> {
    match op
    case AddItem(p) => Added(s, p)
    case RemoveItem(id) => RemoveId(s, id)
    case ClearItems => []
  }

  /** The list after running `ops` in order on a new cart. */
  function Run(ops: seq<CartOp>): seq<Product> {
    if ops == [] then [] else Apply(Run(ops[..|ops| - 1]), ops[|ops| - 1])
  }

  /** Ids stay pairwise distinct whatever the cart has been asked to do. */
  lemma {:induction false} RunIdsDistinct(ops: seq<CartOp>)
    ensures IdsDistinct(Run(ops))
  {
    if ops != [] {
      var s := Run(ops[..|ops| - 1]);
      RunIdsDistinct(ops[..|ops| - 1]);
      match ops[|ops| - 1]
      case AddItem(p) => AddedDistinct(s, p);
      case RemoveItem(id) => RemoveIdDistinct(s, id);
      case ClearItems =>
    }
  }

  // ---------------------------------------------------------------------

  class Cart {
    /** `private items: IProduct[]` */
    var items: seq<Product>

    ghost predicate Valid()
      reads this
    {
      IdsDistinct(items)
    }

    constructor ()
      ensures Valid() && items == []
    {
      items := [];
    }

    /** Appends `item` unless an entry with its id is already present. */
    method AddItem(item: Product)
      requires Valid()
      modifies this
      ensures Valid()
      ensures items == Apply(old(items), CartOp.AddItem(item))
      ensures HasItem(item.id)
    {
      if !HasId(items, item.id) {
        items := items + [item];
      }
      AddedContents(old(items), item);
      AddedDistinct(old(items), item);
    }

    /** Drops every entry with id `id`. */
    method RemoveItem(id: string)
      requires Valid()
      modifies this
      ensures Valid()
      ensures items == Apply(old(items), CartOp.RemoveItem(id))
      ensures !HasItem(id)
    {
      RemoveIdDistinct(items, id);
      RemoveIdRemoves(items, id);
      items := RemoveId(items, id);
    }

    function HasItem(id: string): (b: bool)
      reads this
      ensures b <==> exists i :: 0 <= i < |items| && items[i].id == id
    {
      HasId(items, id)
    }

    function GetCount(): (n: nat)
      reads this
      requires Valid()
      ensures n == |items| == |IdSet(items)|
    {
      CountIsNumberOfIds(items);
      |items|
    }

    /** `items.reduce((sum, p) => sum + (p.price ?? 0), 0)` */
    method GetTotal() returns (sum: int)
      ensures sum == Total(items)
    {
      sum := 0;
      var i := 0;
      while i < |items|
        invariant 0 <= i <= |items|
        invariant sum == Total(items[..i])
      {
        TotalAppend(items[..i], [items[i]]);
        assert items[..i + 1] == items[..i] + [items[i]];
        sum := sum + PriceOrZero(items[i]);
        i := i + 1;
      }
      assert items[..i] == items;
    }

    /** The current list itself (the source hands out its own array). */
    function GetItems(): (r: seq<Product>)
      reads this
      requires Valid()
      ensures r == items && IdsDistinct(r)
    {
      items
    }

    method ClearItems()
      requires Valid()
      modifies this
      ensures Valid()
      ensures items == Apply(old(items), CartOp.ClearItems)
      ensures |items| == 0 && Total(items) == 0
    {
      items := [];
    }
  }
}
