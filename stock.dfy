/** The product side of the store's database: products, categories, sales, sale
    items and the stock-movement log, and the manager and cashier requests that
    change them (app.py add_product, edit_product, delete_product, adjust_stock,
    add_category, edit_category, delete_category, process_sale). Each request
    is atomic: it either commits all its changes or leaves every table as it was. */
module Stock {
  import opened Results
  import opened Models
  import opened Ledger

  /** Some product carries this SKU. */
  predicate SkuInUse(products: map<int, Product>, sku: string) {
    exists k :: k in products && products[k].sku == sku
  }

  /** A product other than `id` carries this SKU. */
  predicate SkuUsedByOther(products: map<int, Product>, sku: string, id: int) {
    exists k :: k in products && k != id && products[k].sku == sku
  }

  predicate CategoryNameInUse(categories: map<int, Category>, name: string) {
    exists k :: k in categories && categories[k].name == name
  }

  predicate CategoryNameUsedByOther(categories: map<int, Category>, name: string, id: int) {
    exists k :: k in categories && k != id && categories[k].name == name
  }

  /** The products filed under category `cid` (the category's `products` backref). */
  function ProductsIn(products: map<int, Product>, cid: int): set<int> {
    set k | k in products && products[k].categoryId == cid
  }

  /** Some sale item refers to product `pid` (the product's `sale_items` backref). */
  predicate HasSaleItems(items: seq<SaleItem>, pid: int) {
    exists i :: 0 <= i < |items| && items[i].productId == pid
  }

  /** Some stock movement refers to product `pid` (the product's
      `stock_movements` backref). */
  predicate HasMovements(movements: seq<StockMovement>, pid: int) {
    exists i :: 0 <= i < |movements| && movements[i].productId == pid
  }

  /** A successful sale keeps the product ids and SKUs, and every sale item and
      stock movement, old or new, names a product still in the table. */
  lemma SaleKeepsTablesConsistent(products: map<int, Product>, saleItems: seq<SaleItem>,
                                  movements: seq<StockMovement>, lines: seq<CartLine>,
                                  saleId: int, cashierId: int)
    requires SkusUnique(products)
    requires forall i :: 0 <= i < |saleItems| ==> saleItems[i].productId in products
    requires forall i :: 0 <= i < |movements| ==> movements[i].productId in products
    requires SaleRun(SaleState(products, [], []), lines, saleId, cashierId).Ok?
    ensures var after := SaleRun(SaleState(products, [], []), lines, saleId, cashierId).value;
            && after.products.Keys == products.Keys
            && (forall k :: k in after.products ==>
                  after.products[k].id == products[k].id && after.products[k].sku == products[k].sku)
            && SkusUnique(after.products)
            && (forall i :: 0 <= i < |saleItems + after.items| ==> (saleItems + after.items)[i].productId in after.products)
            && (forall i :: 0 <= i < |movements + after.movements| ==>
                  (movements + after.movements)[i].productId in after.products)
  {
    var start := SaleState(products, [], []);
    var after := SaleRun(start, lines, saleId, cashierId).value;
    SaleDeductsLineTotals(start, lines, saleId, cashierId);
    SaleRecordsKnownLines(start, lines, saleId, cashierId);
    KnownRecordsAreKnown(saleId, cashierId, products.Keys, lines);
    assert SkusUnique(after.products) by {
      forall a, b | a in after.products && b in after.products && a != b
        ensures after.products[a].sku != after.products[b].sku
      {
        assert after.products[a].sku == products[a].sku && after.products[b].sku == products[b].sku;
      }
    }
  }

  class Inventory {
    var products: map<int, Product>
    var categories: map<int, Category>
    var sales: seq<Sale>
    var saleItems: seq<SaleItem>
    var movements: seq<StockMovement>
    var nextProductId: int
    var nextCategoryId: int

    /** Rows are keyed by their id, fresh ids lie above every id in use, the
        declared unique constraints hold, sale ids count up from 1 and every
        sale item and every stock movement refers to a product still in the
        table. */
    ghost predicate Valid()
      reads this
    {
      && (forall k :: k in products ==> products[k].id == k && k < nextProductId)
      && (forall k :: k in categories ==> categories[k].id == k && k < nextCategoryId)
      && SkusUnique(products)
      && CategoryNamesUnique(categories)
      && (forall i :: 0 <= i < |sales| ==> sales[i].id == i + 1)
      && (forall i :: 0 <= i < |saleItems| ==> saleItems[i].productId in products)
      && (forall i :: 0 <= i < |movements| ==> movements[i].productId in products)
    }

    constructor ()
      ensures Valid()
      ensures products == map[] && categories == map[]
      ensures sales == [] && saleItems == [] && movements == []
    {
      products, categories := map[], map[];
      sales, saleItems, movements := [], [], [];
      nextProductId, nextCategoryId := 1, 1;
    }

    /** add_product: name and SKU are required, the SKU must be new and the
        selling price may not be below the cost price. The product takes the
        given quantity and reorder level; a positive initial quantity is logged
        as an "in" movement. */
    method AddProduct(name: string, sku: string, costCents: int, sellingCents: int,
                      quantity: int, reorderLevel: int, categoryId: int, supplierId: int,
                      userId: int) returns (r: Result<int>)
      requires Valid()
      modifies this
      ensures Valid()
      ensures (name == "" || sku == "") ==> r == Err(MissingFields)
      ensures name != "" && sku != "" && SkuInUse(old(products), sku) ==> r == Err(SkuTaken)
      ensures name != "" && sku != "" && !SkuInUse(old(products), sku) && sellingCents < costCents ==>
                r == Err(SellingBelowCost)
      ensures r.Err? ==> products == old(products) && movements == old(movements) &&
                         nextProductId == old(nextProductId)
      ensures r.Ok? <==> name != "" && sku != "" && !SkuInUse(old(products), sku) && sellingCents >= costCents
      ensures r.Ok? ==>
                var id := old(nextProductId);
                r.value == id && id !in old(products) &&
                products == old(products)[id := NewProduct(id, name, sku, costCents, sellingCents, categoryId, supplierId)
                                                  .(quantity := quantity, reorderLevel := reorderLevel)] &&
                movements == old(movements) +
                  (if quantity > 0
                   then [StockMovement(id, In, quantity, "initial_stock", userId, None, Some("product_creation"))]
                   else [])
      ensures categories == old(categories) && sales == old(sales) && saleItems == old(saleItems)
      ensures nextCategoryId == old(nextCategoryId)
    {
      if name == "" || sku == "" {
        return Err(MissingFields);
      }
      if SkuInUse(products, sku) {
        return Err(SkuTaken);
      }
      if sellingCents < costCents {
        return Err(SellingBelowCost);
      }
      var id := nextProductId;
      var product := NewProduct(id, name, sku, costCents, sellingCents, categoryId, supplierId)
                       .(quantity := quantity, reorderLevel := reorderLevel);
      products := products[id := product];
      nextProductId := nextProductId + 1;
      if quantity > 0 {
        movements := movements + [StockMovement(id, In, quantity, "initial_stock", userId, None, Some("product_creation"))];
      }
      r := Ok(id);
    }

    /** edit_product: the SKU may not belong to another product and the selling
        price may not be below the cost price. Stock and the active flag are not
        touched. */
    method EditProduct(productId: int, name: string, sku: string, costCents: int, sellingCents: int,
                       reorderLevel: int, categoryId: int, supplierId: int) returns (r: Result<()>)
      requires Valid()
      modifies this
      ensures Valid()
      ensures productId !in old(products) ==> r == Err(NotFound)
      ensures productId in old(products) && SkuUsedByOther(old(products), sku, productId) ==> r == Err(SkuTaken)
      ensures (productId in old(products) && !SkuUsedByOther(old(products), sku, productId) &&
               sellingCents < costCents) ==> r == Err(SellingBelowCost)
      ensures r.Ok? <==> productId in old(products) && !SkuUsedByOther(old(products), sku, productId) &&
                         sellingCents >= costCents
      ensures r.Err? ==> products == old(products)
      ensures r.Ok? ==>
                var p := old(products)[productId];
                products == old(products)[productId := p.(name := name, sku := sku, costCents := costCents,
                                                          sellingCents := sellingCents, reorderLevel := reorderLevel,
                                                          categoryId := categoryId, supplierId := supplierId)]
      ensures categories == old(categories) && sales == old(sales) && saleItems == old(saleItems)
      ensures movements == old(movements)
      ensures nextProductId == old(nextProductId) && nextCategoryId == old(nextCategoryId)
    {
      if productId !in products {
        return Err(NotFound);
      }
      if SkuUsedByOther(products, sku, productId) {
        return Err(SkuTaken);
      }
      if sellingCents < costCents {
        return Err(SellingBelowCost);
      }
      var p := products[productId];
      products := products[productId := p.(name := name, sku := sku, costCents := costCents,
                                           sellingCents := sellingCents, reorderLevel := reorderLevel,
                                           categoryId := categoryId, supplierId := supplierId)];
      r := Ok(());
    }

    /** delete_product: refused while any sale item refers to the product. A
        stock movement's product column may not be null and nothing cascades
        the delete to the movements, so a product with any movement cannot be
        deleted either: the commit fails and is rolled back. */
    method DeleteProduct(productId: int) returns (r: Result<()>)
      requires Valid()
      modifies this
      ensures Valid()
      ensures productId !in old(products) ==> r == Err(NotFound)
      ensures productId in old(products) && HasSaleItems(saleItems, productId) ==> r == Err(HasSalesHistory)
      ensures (productId in old(products) && !HasSaleItems(saleItems, productId) &&
               HasMovements(movements, productId)) ==> r == Err(IntegrityError)
      ensures r.Ok? <==> productId in old(products) && !HasSaleItems(saleItems, productId) &&
                         !HasMovements(movements, productId)
      ensures r.Ok? ==> forall i :: 0 <= i < |movements| ==> movements[i].productId != productId
      ensures products == if r.Ok? then old(products) - {productId} else old(products)
      ensures categories == old(categories) && sales == old(sales) && saleItems == old(saleItems)
      ensures movements == old(movements)
      ensures nextProductId == old(nextProductId) && nextCategoryId == old(nextCategoryId)
    {
      if productId !in products {
        return Err(NotFound);
      }
      if HasSaleItems(saleItems, productId) {
        return Err(HasSalesHistory);
      }
      if HasMovements(movements, productId) {
        return Err(IntegrityError);
      }
      products := products - {productId};
      r := Ok(());
    }

    /** adjust_stock: applies PlanAdjustment to the product's stock. On success
        the product takes the new quantity and exactly one "manual_adjustment"
        movement is logged; on refusal nothing changes. */
    method AdjustStock(productId: int, adjustment: int, kind: string, reason: string, userId: int)
      returns (r: Result<int>)
      requires Valid()
      modifies this
      ensures Valid()
      ensures productId !in old(products) ==> r == Err(NotFound) && products == old(products) && movements == old(movements)
      ensures productId in old(products) ==>
                var p := old(products)[productId];
                var plan := PlanAdjustment(p.quantity, adjustment, kind);
                if plan.Err? then
                  r == Err(plan.error) && products == old(products) && movements == old(movements)
                else
                  r == Ok(plan.value.newQuantity) &&
                  products == old(products)[productId := p.(quantity := plan.value.newQuantity)] &&
                  movements == old(movements) +
                    [StockMovement(productId, plan.value.movementType, plan.value.movementQuantity,
                                   reason, userId, None, Some("manual_adjustment"))]
      ensures categories == old(categories) && sales == old(sales) && saleItems == old(saleItems)
      ensures nextProductId == old(nextProductId) && nextCategoryId == old(nextCategoryId)
    {
      if productId !in products {
        return Err(NotFound);
      }
      var product := products[productId];
      if adjustment == 0 {
        return Err(NoStockChange);
      }
      var newQuantity: int;
      var movementType: MovementType;
      var logged := adjustment;
      if kind == "add" {
        newQuantity := product.quantity + adjustment;
        movementType := In;
      } else if kind == "remove" {
        newQuantity := product.quantity - adjustment;
        movementType := Out;
      } else if kind == "set" {
        newQuantity := adjustment;
        var difference := adjustment - product.quantity;
        movementType := if difference > 0 then In else Out;
        logged := Abs(difference);
      } else {
        return Err(InvalidAdjustmentType);
      }
      if newQuantity < 0 {
        return Err(NegativeStock);
      }
      products := products[productId := product.(quantity := newQuantity)];
      movements := movements + [StockMovement(productId, movementType, Abs(logged), reason, userId,
                                              None, Some("manual_adjustment"))];
      r := Ok(newQuantity);
    }

    /** process_sale: an empty cart is refused. Otherwise the cart is walked line
        by line as SaleRun describes; if any known line finds too little stock
        the whole sale is rolled back, and otherwise the sale, its items, the
        stock deductions and one movement per known line are committed together. */
    method ProcessSale(lines: seq<CartLine>, cashierId: int, paymentMethod: string, saleNumber: string,
                       customerName: Option<string>, customerPhone: Option<string>) returns (r: Result<int>)
      requires Valid()
      modifies this
      ensures Valid()
      ensures lines == [] ==> r == Err(EmptyCart)
      ensures var saleId := |old(sales)| + 1;
              var run := SaleRun(SaleState(old(products), [], []), lines, saleId, cashierId);
              if lines == [] || run.Err? then
                (lines != [] ==> r == Err(run.error)) &&
                products == old(products) && sales == old(sales) &&
                saleItems == old(saleItems) && movements == old(movements)
              else
                r == Ok(saleId) &&
                products == run.value.products &&
                sales == old(sales) + [Sale(saleId, saleNumber, CartTotal(lines), paymentMethod, cashierId,
                                            customerName, customerPhone)] &&
                saleItems == old(saleItems) + run.value.items &&
                movements == old(movements) + run.value.movements
      ensures categories == old(categories)
      ensures nextProductId == old(nextProductId) && nextCategoryId == old(nextCategoryId)
    {
      if lines == [] {
        return Err(EmptyCart);
      }
      var saleId := |sales| + 1;
      var sale := Sale(saleId, saleNumber, CartTotal(lines), paymentMethod, cashierId, customerName, customerPhone);
      // The session: changes made here are only visible once committed below.
      ghost var start := SaleState(products, [], []);
      var working := products;
      var newItems: seq<SaleItem> := [];
      var newMovements: seq<StockMovement> := [];
      var i := 0;
      while i < |lines|
        invariant 0 <= i <= |lines|
        invariant SaleRun(start, lines, saleId, cashierId)
               == SaleRun(SaleState(working, newItems, newMovements), lines[i..], saleId, cashierId)
      {
        var line := lines[i];
        assert lines[i..][1..] == lines[i + 1..];
        if line.productId in working {
          var product := working[line.productId];
          newItems := newItems + [SaleItemFor(saleId, line)];
          if product.quantity >= line.quantity {
            working := working[line.productId := product.(quantity := product.quantity - line.quantity)];
            newMovements := newMovements + [SaleMovementFor(saleId, cashierId, line)];
          } else {
            // rollback: nothing of the sale persists
            return Err(InsufficientStock(line.productId));
          }
        }
        i := i + 1;
      }
      assert SaleRun(start, lines, saleId, cashierId) == Ok(SaleState(working, newItems, newMovements));
      SaleKeepsTablesConsistent(products, saleItems, movements, lines, saleId, cashierId);
      products := working;
      sales := sales + [sale];
      saleItems := saleItems + newItems;
      movements := movements + newMovements;
      r := Ok(saleId);
    }

    /** add_category: a name is required and must be new. */
    method AddCategory(name: string, description: Option<string>) returns (r: Result<int>)
      requires Valid()
      modifies this
      ensures Valid()
      ensures name == "" ==> r == Err(MissingFields)
      ensures name != "" && CategoryNameInUse(old(categories), name) ==> r == Err(CategoryNameTaken)
      ensures r.Ok? <==> name != "" && !CategoryNameInUse(old(categories), name)
      ensures r.Ok? ==>
                var id := old(nextCategoryId);
                r.value == id && id !in old(categories) &&
                categories == old(categories)[id := Category(id, name, description)]
      ensures r.Err? ==> categories == old(categories)
      ensures products == old(products) && sales == old(sales) && saleItems == old(saleItems)
      ensures movements == old(movements) && nextProductId == old(nextProductId)
    {
      if name == "" {
        return Err(MissingFields);
      }
      if CategoryNameInUse(categories, name) {
        return Err(CategoryNameTaken);
      }
      var id := nextCategoryId;
      categories := categories[id := Category(id, name, description)];
      nextCategoryId := nextCategoryId + 1;
      r := Ok(id);
    }

    /** edit_category: the name may not belong to another category. */
    method EditCategory(categoryId: int, name: string, description: Option<string>) returns (r: Result<()>)
      requires Valid()
      modifies this
      ensures Valid()
      ensures categoryId !in old(categories) ==> r == Err(NotFound)
      ensures r.Ok? <==> categoryId in old(categories) && !CategoryNameUsedByOther(old(categories), name, categoryId)
      ensures r.Err? && categoryId in old(categories) ==> r == Err(CategoryNameTaken)
      ensures categories == if r.Ok? then old(categories)[categoryId := Category(categoryId, name, description)]
                            else old(categories)
      ensures products == old(products) && sales == old(sales) && saleItems == old(saleItems)
      ensures movements == old(movements)
      ensures nextProductId == old(nextProductId) && nextCategoryId == old(nextCategoryId)
    {
      if categoryId !in categories {
        return Err(NotFound);
      }
      if CategoryNameUsedByOther(categories, name, categoryId) {
        return Err(CategoryNameTaken);
      }
      categories := categories[categoryId := Category(categoryId, name, description)];
      r := Ok(());
    }

    /** delete_category: refused, with the number of products, while any product
        is filed under the category; so no product is ever left pointing at a
        deleted category. */
    method DeleteCategory(categoryId: int) returns (r: Result<()>)
      requires Valid()
      modifies this
      ensures Valid()
      ensures categoryId !in old(categories) ==> r == Err(NotFound)
      ensures categoryId in old(categories) && ProductsIn(products, categoryId) != {} ==>
                r == Err(HasProducts(|ProductsIn(products, categoryId)|))
      ensures r.Ok? <==> categoryId in old(categories) && ProductsIn(products, categoryId) == {}
      ensures r.Ok? ==> forall k :: k in products ==> products[k].categoryId != categoryId
      ensures categories == if r.Ok? then old(categories) - {categoryId} else old(categories)
      ensures products == old(products) && sales == old(sales) && saleItems == old(saleItems)
      ensures movements == old(movements)
      ensures nextProductId == old(nextProductId) && nextCategoryId == old(nextCategoryId)
    {
      if categoryId !in categories {
        return Err(NotFound);
      }
      var filed := ProductsIn(products, categoryId);
      if filed != {} {
        return Err(HasProducts(|filed|));
      }
      assert forall k :: k in products ==> products[k].categoryId != categoryId by {
        forall k | k in products ensures products[k].categoryId != categoryId {
          assert k !in filed;
        }
      }
      categories := categories - {categoryId};
      r := Ok(());
    }
  }
}
