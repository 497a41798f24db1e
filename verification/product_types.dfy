/**
 * The shapes of `types/product.ts`: the API record, the view's product with
 * its images, and a cart line. Prices are integers (cents).
 */
module ProductTypes {
  import opened Wrappers

  datatype ProductImage = ProductImage(id: string, src: string, alt: string, fallbackSrc: Option<string>)

  datatype Product = Product(
    id: string,
    name: string,
    price: int,
    brand: Option<string>,
    category: Option<string>,
    images: seq<ProductImage>
  )

  datatype CartItem = CartItem(product: Product, quantity: int)

  /** A record of the listing endpoint; a missing field and a `null` one are both `None`. */
  datatype ApiProduct = ApiProduct(
    id: string,
    name: string,
    price: Option<int>,
    brand: Option<string>,
    category: Option<string>,
    imageUrl: Option<string>
  )

  /** The response body; `items` is `None` when the field is not an array. */
  datatype ApiProductsResponse = ApiProductsResponse(items: Option<seq<ApiProduct>>)
}
