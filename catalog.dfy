/** The records of src/contexts/CartContext.tsx and the reads of the `products` table. */
module Catalog {
  import opened Common

  /** A row of `products` (its two timestamps are not modelled). */
  datatype Product = Product(id: ProductId, name: string, price: real, barcode: string, imageUrl: string)

  /** A cart line as the provider publishes it: the row joined with its product. */
  datatype CartItem = CartItem(id: LineId, productId: ProductId, quantity: int, product: Product)

  /** `from('products').select('*').eq('id', id)`, in table order. */
  function WithId(products: seq<Product>, id: ProductId): (r: seq<Product>)
    ensures forall p :: p in r <==> p in products && p.id == id
  {
    if products == [] then []
    else (if products[0].id == id then [products[0]] else []) + WithId(products[1..], id)
  }

  /** `from('products').select('*').eq('barcode', code)`, in table order. */
  function WithBarcode(products: seq<Product>, code: string): (r: seq<Product>)
    ensures forall p :: p in r <==> p in products && p.barcode == code
  {
    if products == [] then []
    else (if products[0].barcode == code then [products[0]] else []) + WithBarcode(products[1..], code)
  }
}
