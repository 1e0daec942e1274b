/**
 * The entities the order controller works on: the records of the
 * "package-item" catalog, the lines of the cart a client posts, and the
 * validated lines built from the two.
 */
module Catalog {

  datatype Option<+T> = None | Some(value: T)

  /** Catalog ids are opaque to the controller; Strapi issues integers. */
  type ProductId = int

  /** A catalog record as the lookup by id returns it (price in whole dollars). */
  datatype Product = Product(id: ProductId, title: string, price: int)

  /**
   * A line of the posted cart. Only `id` and `qty` are read by the
   * controller; `sentPrice` stands for whatever price the client attached.
   */
  datatype CartLine = CartLine(id: ProductId, qty: int, sentPrice: Option<int>)

  /** A line of the validated cart: identity, title and price from the catalog, quantity from the client. */
  datatype PricedLine = PricedLine(id: ProductId, title: string, price: int, qty: int)

  /** Every line of the cart names a product the catalog has. */
  predicate AllKnown(catalog: map<ProductId, Product>, cart: seq<CartLine>)
  {
    forall i :: 0 <= i < |cart| ==> cart[i].id in catalog
  }

  /** A lookup by id finds the record carrying that id. */
  ghost predicate Consistent(catalog: map<ProductId, Product>)
  {
    forall k :: k in catalog ==> catalog[k].id == k
  }

  /**
   * `lines` is the cart priced against the catalog, line for line: the
   * id, title and price of line i are those of the catalog record that
   * cart line i names, and its quantity is the one the client sent.
   */
  ghost predicate PricedFrom(catalog: map<ProductId, Product>, cart: seq<CartLine>, lines: seq<PricedLine>)
  {
    && |lines| == |cart|
    && AllKnown(catalog, cart)
    && forall i :: 0 <= i < |cart| ==>
         && lines[i].id == catalog[cart[i].id].id
         && lines[i].title == catalog[cart[i].id].title
         && lines[i].price == catalog[cart[i].id].price
         && lines[i].qty == cart[i].qty
  }

  /** Under a consistent catalog every priced line keeps the id the client asked for. */
  lemma PricedKeepsIds(catalog: map<ProductId, Product>, cart: seq<CartLine>, lines: seq<PricedLine>)
    requires Consistent(catalog) && PricedFrom(catalog, cart, lines)
    ensures forall i :: 0 <= i < |lines| ==> lines[i].id == cart[i].id
  {
  }
}
