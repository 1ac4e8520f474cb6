/** Value types shared by the storefront: products, payment methods and the
    order request sent to the shop service (src/types/index.ts). */
module Types {

  /** `T | null` (and `T | undefined`) of the source. */
  datatype Option<+T> = None | Some(value: T) {
    /** `x ?? d` */
    function GetOr(default: T): T {
      match this
      case Some(v) => v
      case None => default
    }
  }

  /** `'card' | 'cash'` */
  datatype PaymentMethod = Card | Cash

  /** A catalog entry. `price` is `None` for a product that is not for sale;
      prices are whole numbers here. */
  datatype Product = Product(
    id: string,
    title: string,
    description: string,
    image: string,
    category: string,
    price: Option<int>)

  /** The body of the order request. */
  datatype OrderRequest = OrderRequest(
    items: seq<string>,
    payment: PaymentMethod,
    email: string,
    phone: string,
    address: string,
    total: int)

  /** `p.price ?? 0`: the amount a product adds to a total. */
  function PriceOrZero(p: Product): int {
    p.price.GetOr(0)
  }

  /** `items.map((p) => p.id)` */
  function Ids(s: seq<Product>): (r: seq<string>)
    ensures |r| == |s|
    ensures forall i :: 0 <= i < |s| ==> r[i] == s[i].id
  {
    if s == [] then [] else [s[0].id] + Ids(s[1..])
  }
}
