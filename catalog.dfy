/** The product service's static catalogue and its lookup by id. */
module Catalog {
  import opened Wrappers

  datatype Product = Product(id: int, name: string, price: real, description: string, stock: int)

  /** The `products` slice, in declaration order; nothing ever modifies it. */
  const Catalogue: seq<Product> := [
    Product(1, "Laptop", 999.99, "High-performance laptop", 50),
    Product(2, "Mouse", 29.99, "Wireless mouse", 100),
    Product(3, "Keyboard", 79.99, "Mechanical keyboard", 75),
    Product(4, "Monitor", 299.99, "4K monitor", 25),
    Product(5, "Headphones", 199.99, "Noise-cancelling headphones", 60)
  ]

  /**
   * The position of the first product with the given id, scanning from the
   * front, or None when no product has it.
   */
  function FirstMatch(products: seq<Product>, id: int): (r: Option<nat>)
    ensures r.Some? ==> r.value < |products| && products[r.value].id == id
    ensures r.Some? ==> forall j :: 0 <= j < r.value ==> products[j].id != id
    ensures r.None? <==> forall j :: 0 <= j < |products| ==> products[j].id != id
    decreases |products|
  {
    if products == [] then None
    else if products[0].id == id then Some(0)
    else match FirstMatch(products[1..], id)
      case None => None
      case Some(k) => Some(k + 1)
  }

  /** The catalogue holds exactly the ids 1 to 5, in order, so no id occurs twice. */
  lemma CatalogueIds()
    ensures |Catalogue| == 5
    ensures forall i :: 0 <= i < |Catalogue| ==> Catalogue[i].id == i + 1
    ensures forall i, j :: 0 <= i < j < |Catalogue| ==> Catalogue[i].id != Catalogue[j].id
  {
  }

  /** A lookup of an id from 1 to 5 finds the product at position id - 1; any other id finds nothing. */
  lemma LookupByCatalogueId(id: int)
    ensures FirstMatch(Catalogue, id) == if 1 <= id <= 5 then Some(id - 1) else None
  {
  }

  /** Id 3 is the keyboard. */
  lemma Keyboard()
    ensures FirstMatch(Catalogue, 3) == Some(2)
    ensures Catalogue[2] == Product(3, "Keyboard", 79.99, "Mechanical keyboard", 75)
  {
  }
}
