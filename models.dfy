/** The entity tables of the store (users, categories, suppliers, products, sales,
    purchase orders, stock movements, notifications): the row shapes, the column
    defaults a new row takes, the unique constraints the schema declares, and the
    product's low-stock property. Prices are integer cents; timestamps are plain
    integers supplied by the caller. */
module Models {
  import opened Results

  type Timestamp = int

  /** A login account; role is one of "admin", "cashier", "manager", "supplier". */
  datatype User = User(id: int, username: string, email: string, role: string, isActive: bool)

  datatype Category = Category(id: int, name: string, description: Option<string>)

  datatype Supplier = Supplier(
    id: int, name: string, contactPerson: Option<string>, email: string,
    phone: Option<string>, address: Option<string>, userId: Option<int>, isActive: bool)

  datatype Product = Product(
    id: int, name: string, sku: string, costCents: int, sellingCents: int,
    quantity: int, reorderLevel: int, categoryId: int, supplierId: int, isActive: bool)

  datatype Sale = Sale(
    id: int, saleNumber: string, totalCents: int, paymentMethod: string, cashierId: int,
    customerName: Option<string>, customerPhone: Option<string>)

  datatype SaleItem = SaleItem(saleId: int, productId: int, quantity: int, unitPriceCents: int, subtotalCents: int)

  /** The status is free text in the table: the handlers write "pending", "approved",
      "ordered", "delivered" and "cancelled", and older rows may hold "confirmed". */
  datatype PurchaseOrder = PurchaseOrder(
    id: int, orderNumber: string, supplierId: int, status: string, totalCents: int,
    expectedDelivery: Option<Timestamp>, deliveryDate: Option<Timestamp>, createdBy: int,
    notes: Option<string>)

  /** The documented kinds of stock movement; the handlers only ever record In and Out. */
  datatype MovementType = In | Out | Adjustment

  datatype StockMovement = StockMovement(
    productId: int, movementType: MovementType, quantity: int, reason: string, userId: int,
    referenceId: Option<int>, referenceType: Option<string>)

  datatype Notification = Notification(
    id: int, userId: int, title: string, kind: string, isRead: bool,
    relatedType: Option<string>, relatedId: Option<int>)

  // ---- Rows as the column defaults leave them ----

  /** A new user account is active unless told otherwise. */
  function NewUser(id: int, username: string, email: string, role: string): (u: User)
    ensures u.isActive
    ensures u.id == id && u.username == username && u.email == email && u.role == role
  {
    User(id, username, email, role, true)
  }

  /** A new product has no stock, reorder level 10 and is active. */
  function NewProduct(id: int, name: string, sku: string, costCents: int, sellingCents: int,
                      categoryId: int, supplierId: int): (p: Product)
    ensures p.quantity == 0 && p.reorderLevel == 10 && p.isActive
    ensures p.id == id && p.name == name && p.sku == sku
    ensures p.costCents == costCents && p.sellingCents == sellingCents
    ensures p.categoryId == categoryId && p.supplierId == supplierId
  {
    Product(id, name, sku, costCents, sellingCents, 0, 10, categoryId, supplierId, true)
  }

  /** A new purchase order is pending and has not been delivered. */
  function NewPurchaseOrder(id: int, orderNumber: string, supplierId: int, totalCents: int,
                            expectedDelivery: Option<Timestamp>, createdBy: int,
                            notes: Option<string>): (o: PurchaseOrder)
    ensures o.status == "pending" && o.deliveryDate == None
    ensures o.id == id && o.orderNumber == orderNumber && o.supplierId == supplierId
    ensures o.totalCents == totalCents && o.expectedDelivery == expectedDelivery
    ensures o.createdBy == createdBy && o.notes == notes
  {
    PurchaseOrder(id, orderNumber, supplierId, "pending", totalCents, expectedDelivery, None, createdBy, notes)
  }

  /** A new notification is unread. */
  function NewNotification(id: int, userId: int, title: string, kind: string,
                           relatedType: Option<string>, relatedId: Option<int>): (n: Notification)
    ensures !n.isRead
    ensures n.id == id && n.userId == userId && n.title == title && n.kind == kind
    ensures n.relatedType == relatedType && n.relatedId == relatedId
  {
    Notification(id, userId, title, kind, false, relatedType, relatedId)
  }

  // ---- Low stock ----

  /** Stock is low when it is at or below the reorder level. */
  predicate IsLowStock(p: Product) {
    p.quantity <= p.reorderLevel
  }

  /** A product created with the column defaults starts out low on stock. */
  lemma NewProductIsLowStock(id: int, name: string, sku: string, costCents: int, sellingCents: int,
                             categoryId: int, supplierId: int)
    ensures IsLowStock(NewProduct(id, name, sku, costCents, sellingCents, categoryId, supplierId))
  {
  }

  // ---- Unique constraints declared by the schema ----
  // Declared on users.username, users.email, categories.name, suppliers.email and
  // products.sku; supplier_products.sku carries no such constraint.

  predicate UsernamesUnique(users: seq<User>) {
    forall i, j :: 0 <= i < j < |users| ==> users[i].username != users[j].username
  }

  predicate UserEmailsUnique(users: seq<User>) {
    forall i, j :: 0 <= i < j < |users| ==> users[i].email != users[j].email
  }

  predicate SupplierEmailsUnique(suppliers: seq<Supplier>) {
    forall i, j :: 0 <= i < j < |suppliers| ==> suppliers[i].email != suppliers[j].email
  }

  predicate SkusUnique(products: map<int, Product>) {
    forall a, b :: a in products && b in products && a != b ==> products[a].sku != products[b].sku
  }

  predicate CategoryNamesUnique(categories: map<int, Category>) {
    forall a, b :: a in categories && b in categories && a != b ==> categories[a].name != categories[b].name
  }
}
