/**
 * `ProductRepository`: holds the catalogue loaded at start-up and answers
 * look-ups by id. Loading the JSON file itself is not modelled; `Init` takes
 * what the loader produced, which may be `null`.
 */
module ProductRepository {
  import opened Wrappers
  import opened CatalogProduct

  /** Position of the first product whose id equals `id`; a `null` id finds nothing. */
  function FirstIndexWithId(products: seq<Product>, id: Option<string>): (r: Option<nat>)
    ensures id.None? ==> r.None?
    ensures r.Some? ==> r.value < |products| && products[r.value].id == id
    ensures r.Some? ==> forall j :: 0 <= j < r.value ==> products[j].id != id
    ensures r.None? && id.Some? ==> forall j :: 0 <= j < |products| ==> products[j].id != id
  {
    if id.None? || products == [] then None
    else if products[0].id == id then Some(0)
    else
      match FirstIndexWithId(products[1..], id)
      case Some(i) => Some(i + 1)
      case None => None
  }

  /** The product `findById` returns: the first one, in list order, with that id. */
  function FirstWithId(products: seq<Product>, id: Option<string>): Option<Product> {
    match FirstIndexWithId(products, id)
    case Some(i) => Some(products[i])
    case None => None
  }

  class Repository {
    /** The stored catalogue, empty until `Init` runs. */
    var products: seq<Product>

    constructor ()
      ensures products == []
    {
      products := [];
    }

    /** `init`: store the loaded list, or the empty list when the loader produced `null`. */
    method Init(loaded: Option<seq<Product>>)
      modifies this
      ensures products == if loaded.Some? then loaded.value else []
    {
      if loaded.None? {
        products := [];
      } else {
        products := loaded.value;
      }
    }

    /** `findAll`: the stored list itself. */
    method FindAll() returns (r: seq<Product>)
      ensures r == products
    {
      r := products;
    }

    /** `findById`: the first stored product with that id, or nothing. */
    method FindById(id: Option<string>) returns (r: Option<Product>)
      ensures r == FirstWithId(products, id)
      ensures id.None? ==> r.None?
      ensures r.Some? ==> r.value in products && r.value.id == id
      ensures r.None? <==> id.None? || forall p :: p in products ==> p.id != id
    {
      r := FirstWithId(products, id);
    }
  }
}
