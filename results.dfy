/** Optional values, and the outcome of a request handler: a value on success, or
    the reason the handler refused (each error is one of the handlers' failure
    messages). */
module Results {

  datatype Option<+T> = None | Some(value: T)

  /** Why a request was refused. */
  datatype Error =
    | NotFound                      // get_or_404, "Order not found", "Notification not found"
    | MissingFields                 // "All fields are required", "Name and SKU are required", ...
    | UsernameTaken                 // "Username already exists" / "Username already taken"
    | EmailTaken                    // "Email already registered"
    | SkuTaken                      // "SKU already exists" / "SKU already taken by another product"
    | CategoryNameTaken             // "Category name already exists" / "... already taken"
    | SellingBelowCost              // "Selling price must be greater than cost price"
    | CannotToggleSelf              // "Cannot deactivate your own account"
    | HasSalesHistory               // "Cannot delete product with sales history"
    | HasProducts(count: nat)       // "Cannot delete category with N products"
    | NoStockChange                 // "No stock change specified"
    | InvalidAdjustmentType         // "Invalid adjustment type"
    | NegativeStock                 // "Stock cannot be negative"
    | EmptyCart                     // "No items in cart"
    | InsufficientStock(productId: int)
    | InvalidStatus                 // "Invalid status"
    | NotPending                    // "Order is not in pending status"
    | NoSupplierProfile             // "Supplier profile not found"
    | IntegrityError                // a unique constraint rejected the commit

  datatype Result<+T> = Ok(value: T) | Err(error: Error)
}
