/**
 * The remote database the app talks to, replaced by an in-memory object:
 * the read-only `products` table, the `cart` table and the append-only
 * `barcode_scans` log (the table layout of src/lib/supabase.ts).
 */
module Remote {
  import opened Common
  import opened Catalog
  import opened CartTable

  /** A row of `barcode_scans` (its timestamps are not modelled). */
  datatype ScanRow = ScanRow(barcode: string, userId: UserId, status: string)

  class Store {
    const products: seq<Product>
    var cart: seq<CartRow>
    /** The id the store gives the next inserted cart line. */
    var nextId: nat
    var scans: seq<ScanRow>

    ghost predicate Valid()
      reads this
    {
      Wellformed(cart, products, nextId)
    }

    constructor (products: seq<Product>)
      ensures Valid()
      ensures this.products == products && cart == [] && nextId == 0 && scans == []
    {
      this.products := products;
      cart := [];
      nextId := 0;
      scans := [];
    }
  }
}
