/** The catalog (src/components/models/Products.ts): the product list as last
    set, replaced wholesale, with a first-match lookup by id. */
module ProductsModel {
  import opened Types

  /** `items.find((item) => item.id === id)`: the first item with that id. */
  function FindById(s: seq<Product>, id: string): (r: Option<Product>)
    ensures r.None? <==> forall i :: 0 <= i < |s| ==> s[i].id != id
    ensures r.Some? ==> exists k :: 0 <= k < |s| && s[k] == r.value && FirstWithId(s, id, k)
  {
    if s == [] then None
    else if s[0].id == id then
      assert FirstWithId(s, id, 0);
      Some(s[0])
    else
      var r := FindById(s[1..], id);
      assert r.Some? ==> exists k :: 0 <= k < |s| && s[k] == r.value && FirstWithId(s, id, k) by {
        if r.Some? {
          var k :| 0 <= k < |s[1..]| && s[1..][k] == r.value && FirstWithId(s[1..], id, k);
          assert s[k + 1] == r.value;
          assert FirstWithId(s, id, k + 1) by {
            forall j | 0 <= j < k + 1 ensures s[j].id != id {
              if j > 0 {
                assert s[j] == s[1..][j - 1];
              }
            }
          }
        }
      }
      r
  }

  /** `k` is the position of the first item of `s` whose id is `id`. */
  ghost predicate FirstWithId(s: seq<Product>, id: string, k: int) {
    0 <= k < |s| && s[k].id == id && forall j :: 0 <= j < k ==> s[j].id != id
  }

  class Products {
    /** `private items: IProduct[]` */
    var items: seq<Product>

    /** A new catalog is empty. */
    constructor ()
      ensures items == []
    {
      items := [];
    }

    /** Replaces the whole list; duplicate ids are not rejected. */
    method SetItems(xs: seq<Product>)
      modifies this
      ensures items == xs
    {
      items := xs;
    }

    /** The current list itself (the source hands out its own array). */
    function GetItems(): (r: seq<Product>)
      reads this
      ensures r == items
    {
      items
    }

    /** The first product with id `id`, or `None`; never fails. */
    function GetById(id: string): (r: Option<Product>)
      reads this
      ensures r.None? <==> forall i :: 0 <= i < |items| ==> items[i].id != id
      ensures r.Some? ==> r.value.id == id && r.value in items
      ensures r.Some? ==> exists k :: 0 <= k < |items| && items[k] == r.value && FirstWithId(items, id, k)
    {
      FindById(items, id)
    }
  }
}
