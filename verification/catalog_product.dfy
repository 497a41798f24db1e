/**
 * The catalogue entry the backend serves. Every field of the Java bean can be
 * `null`, so each is an `Option`; prices are exact decimals, modelled as
 * integers (cents).
 */
module CatalogProduct {
  import opened Wrappers

  datatype Product = Product(
    id: Option<string>,
    name: Option<string>,
    description: Option<string>,
    brand: Option<string>,
    category: Option<string>,
    price: Option<int>,
    oldPrice: Option<int>,
    stock: Option<int>
  )
}
