/** The stock rules, as functions of the product table: what a manual stock
    adjustment decides (app.py adjust_stock), and what a sale does to the
    product table, the sale items and the movement log as it walks the cart
    line by line (app.py process_sale). The class in module Stock applies them
    to its tables. */
module Ledger {
  import opened Results
  import opened Models

  function Abs(x: int): nat {
    if x < 0 then -x else x
  }

  // ---------------------------------------------------------------------------
  // Manual adjustments
  // ---------------------------------------------------------------------------

  const AdjustmentKinds: set<string> := {"add", "remove", "set"}

  /** The stock a valid adjustment request asks for: added to, taken from, or
      replacing the current quantity. */
  function Requested(current: int, adjustment: int, kind: string): int
    requires kind in AdjustmentKinds
  {
    match kind
    case "add" => current + adjustment
    case "remove" => current - adjustment
    case _ => adjustment
  }

  /** What a successful adjustment does: the product's new quantity and the one
      movement logged for it. */
  datatype Plan = Plan(newQuantity: int, movementType: MovementType, movementQuantity: nat)

  function CheckNotNegative(plan: Plan): (r: Result<Plan>)
    ensures r.Ok? <==> plan.newQuantity >= 0
    ensures r.Ok? ==> r.value == plan
    ensures r.Err? ==> r.error == NegativeStock
  {
    if plan.newQuantity < 0 then Err(NegativeStock) else Ok(plan)
  }

  /** The decision adjust_stock makes for a product holding `current` units. */
  function PlanAdjustment(current: int, adjustment: int, kind: string): (r: Result<Plan>)
    // refusals, in the order they are checked
    ensures adjustment == 0 ==> r == Err(NoStockChange)
    ensures adjustment != 0 && kind !in AdjustmentKinds ==> r == Err(InvalidAdjustmentType)
    ensures adjustment != 0 && kind in AdjustmentKinds ==>
              (r.Ok? <==> Requested(current, adjustment, kind) >= 0) &&
              (r.Err? ==> r.error == NegativeStock)
    // what is granted
    ensures r.Ok? ==> kind in AdjustmentKinds && r.value.newQuantity == Requested(current, adjustment, kind)
    ensures r.Ok? ==> r.value.newQuantity >= 0
    ensures r.Ok? ==> r.value.movementQuantity == Abs(r.value.newQuantity - current)
    ensures r.Ok? && kind == "add" ==> r.value.movementType == In
    ensures r.Ok? && kind == "remove" ==> r.value.movementType == Out
    ensures r.Ok? && kind == "set" ==>
              r.value.movementType == (if r.value.newQuantity > current then In else Out)
  {
    if adjustment == 0 then Err(NoStockChange)
    else if kind == "add" then CheckNotNegative(Plan(current + adjustment, In, Abs(adjustment)))
    else if kind == "remove" then CheckNotNegative(Plan(current - adjustment, Out, Abs(adjustment)))
    else if kind == "set" then
      var difference := adjustment - current;
      CheckNotNegative(Plan(adjustment, if difference > 0 then In else Out, Abs(difference)))
    else Err(InvalidAdjustmentType)
  }

  /** The change in stock a movement records, read by its type. */
  function Signed(t: MovementType, quantity: int): int {
    match t
    case In => quantity
    case Out => -quantity
    case Adjustment => 0
  }

  /** Removing what was just added restores the former stock, and both
      movements log the same number of units. */
  lemma RemoveUndoesAdd(current: int, n: int)
    requires current >= 0
    requires PlanAdjustment(current, n, "add").Ok?
    ensures var added := PlanAdjustment(current, n, "add").value;
            var removed := PlanAdjustment(added.newQuantity, n, "remove");
            removed.Ok? && removed.value.newQuantity == current &&
            removed.value.movementQuantity == added.movementQuantity
  {
  }

  /** Setting the stock to the value it already holds is accepted, changes
      nothing and logs an "out" movement of zero units. */
  lemma SetTwiceChangesNothing(current: int, n: int)
    requires PlanAdjustment(current, n, "set").Ok?
    ensures var first := PlanAdjustment(current, n, "set").value;
            PlanAdjustment(first.newQuantity, n, "set") == Ok(Plan(first.newQuantity, Out, 0))
  {
  }

  /** The stock cannot be set to zero: an adjustment of 0 is refused before its
      type is looked at. */
  lemma SetToZeroRefused(current: int)
    ensures PlanAdjustment(current, 0, "set") == Err(NoStockChange)
  {
  }

  /** For "set", and for "add" and "remove" of a positive amount, the logged
      movement read with its sign is exactly the change in stock. */
  lemma MovementAccountsForChange(current: int, adjustment: int, kind: string)
    requires kind == "set" || (kind in AdjustmentKinds && adjustment > 0)
    requires PlanAdjustment(current, adjustment, kind).Ok?
    ensures var plan := PlanAdjustment(current, adjustment, kind).value;
            Signed(plan.movementType, plan.movementQuantity) == plan.newQuantity - current
  {
  }

  /** "add" of a negative amount is accepted while the stock stays non-negative:
      the stock falls, yet the movement is logged as "in", so read with its
      sign it records the opposite of the change. */
  lemma NegativeAddLoggedAsIn(current: int, n: int)
    requires n < 0 && current + n >= 0
    ensures PlanAdjustment(current, n, "add") == Ok(Plan(current + n, In, -n))
    ensures Signed(In, -n) == -((current + n) - current)
  {
  }

  /** The mirror case: "remove" of a negative amount makes the stock rise, yet
      the movement is logged as "out". */
  lemma NegativeRemoveLoggedAsOut(current: int, n: int)
    requires n < 0 && current - n >= 0
    ensures PlanAdjustment(current, n, "remove") == Ok(Plan(current - n, Out, -n))
    ensures Signed(Out, -n) == -((current - n) - current)
  {
  }

  // ---------------------------------------------------------------------------
  // Sales
  // ---------------------------------------------------------------------------

  /** One line of the cart a cashier submits. */
  datatype CartLine = CartLine(productId: int, quantity: int, priceCents: int)

  /** What a sale has produced so far: the product table as it now stands, and
      the sale items and movements recorded, in order. */
  datatype SaleState = SaleState(products: map<int, Product>, items: seq<SaleItem>, movements: seq<StockMovement>)

  /** The sale item recorded for a cart line: its quantity at its price. */
  function SaleItemFor(saleId: int, line: CartLine): SaleItem {
    SaleItem(saleId, line.productId, line.quantity, line.priceCents, line.priceCents * line.quantity)
  }

  /** The "out" movement recorded for a cart line, referring to the sale. */
  function SaleMovementFor(saleId: int, cashierId: int, line: CartLine): StockMovement {
    StockMovement(line.productId, Out, line.quantity, "sale", cashierId, Some(saleId), Some("sale"))
  }

  /** One pass of the loop over the cart: an unknown product is skipped; a known
      one is deducted if it has the stock, and otherwise the sale is refused. */
  function SaleStep(st: SaleState, line: CartLine, saleId: int, cashierId: int): (r: Result<SaleState>)
    ensures r.Err? <==> line.productId in st.products && st.products[line.productId].quantity < line.quantity
    ensures r.Err? ==> r.error == InsufficientStock(line.productId)
    ensures r.Ok? && line.productId !in st.products ==> r.value == st
    ensures r.Ok? ==> r.value.products.Keys == st.products.Keys
    ensures r.Ok? && line.productId in st.products ==>
              r.value.products == st.products[line.productId := st.products[line.productId].(
                                    quantity := st.products[line.productId].quantity - line.quantity)] &&
              r.value.products[line.productId].quantity >= 0 &&
              r.value.items == st.items + [SaleItemFor(saleId, line)] &&
              r.value.movements == st.movements + [SaleMovementFor(saleId, cashierId, line)]
  {
    if line.productId !in st.products then Ok(st)
    else
      var p := st.products[line.productId];
      if p.quantity >= line.quantity then
        Ok(SaleState(st.products[line.productId := p.(quantity := p.quantity - line.quantity)],
                     st.items + [SaleItemFor(saleId, line)],
                     st.movements + [SaleMovementFor(saleId, cashierId, line)]))
      else Err(InsufficientStock(line.productId))
  }

  /** The whole loop: the first refusal ends the sale. */
  function SaleRun(st: SaleState, lines: seq<CartLine>, saleId: int, cashierId: int): (r: Result<SaleState>)
    ensures r.Err? ==> r.error.InsufficientStock? && r.error.productId in st.products
    ensures r.Ok? ==> r.value.products.Keys == st.products.Keys
    ensures r.Ok? ==> |st.items| <= |r.value.items| <= |st.items| + |lines| && r.value.items[..|st.items|] == st.items
    ensures r.Ok? ==> |r.value.movements| - |st.movements| == |r.value.items| - |st.items| &&
                      r.value.movements[..|st.movements|] == st.movements
    decreases |lines|
  {
    if lines == [] then Ok(st)
    else
      match SaleStep(st, lines[0], saleId, cashierId)
      case Err(e) => Err(e)
      case Ok(next) => SaleRun(next, lines[1..], saleId, cashierId)
  }

  /** The amount charged: every line's price times its quantity, including
      lines whose product is unknown. */
  function CartTotal(lines: seq<CartLine>): int {
    if lines == [] then 0 else lines[0].priceCents * lines[0].quantity + CartTotal(lines[1..])
  }

  /** The sum of the recorded sale items' subtotals. */
  function ItemsTotal(items: seq<SaleItem>): int {
    if items == [] then 0 else items[0].subtotalCents + ItemsTotal(items[1..])
  }

  // ---- An independent account of the outcome ----

  /** The units of product `pid` the cart asks for, over all its lines. */
  function LineTotal(lines: seq<CartLine>, pid: int): int {
    if lines == [] then 0
    else (if lines[0].productId == pid then lines[0].quantity else 0) + LineTotal(lines[1..], pid)
  }

  /** The products named somewhere in the cart. */
  function Mentioned(lines: seq<CartLine>): set<int> {
    set i | 0 <= i < |lines| :: lines[i].productId
  }

  /** The cart lines whose product is in the table, in cart order. */
  function KnownLines(known: set<int>, lines: seq<CartLine>): (r: seq<CartLine>)
    ensures |r| <= |lines|
    ensures forall i :: 0 <= i < |r| ==> r[i].productId in known
    ensures forall x :: x in r ==> x in lines
    ensures forall i :: 0 <= i < |lines| && lines[i].productId in known ==> lines[i] in r
    ensures (forall i :: 0 <= i < |lines| ==> lines[i].productId in known) ==> r == lines
  {
    if lines == [] then []
    else
      var rest := KnownLines(known, lines[1..]);
      assert forall i :: 1 <= i < |lines| ==> lines[i] == lines[1..][i - 1];
      (if lines[0].productId in known then [lines[0]] else []) + rest
  }

  function SaleItemsFor(saleId: int, lines: seq<CartLine>): (r: seq<SaleItem>)
    ensures |r| == |lines|
    ensures forall i :: 0 <= i < |lines| ==>
              r[i].saleId == saleId && r[i].productId == lines[i].productId &&
              r[i].quantity == lines[i].quantity && r[i].unitPriceCents == lines[i].priceCents &&
              r[i].subtotalCents == lines[i].priceCents * lines[i].quantity
  {
    if lines == [] then [] else [SaleItemFor(saleId, lines[0])] + SaleItemsFor(saleId, lines[1..])
  }

  function SaleMovementsFor(saleId: int, cashierId: int, lines: seq<CartLine>): (r: seq<StockMovement>)
    ensures |r| == |lines|
    ensures forall i :: 0 <= i < |lines| ==>
              r[i].productId == lines[i].productId && r[i].movementType == Out &&
              r[i].quantity == lines[i].quantity && r[i].reason == "sale" && r[i].userId == cashierId &&
              r[i].referenceId == Some(saleId) && r[i].referenceType == Some("sale")
  {
    if lines == [] then [] else [SaleMovementFor(saleId, cashierId, lines[0])] + SaleMovementsFor(saleId, cashierId, lines[1..])
  }

  /** Some product in the table is asked, over the whole cart, for more than it holds. */
  predicate Oversold(products: map<int, Product>, lines: seq<CartLine>) {
    exists pid :: pid in products && pid in Mentioned(lines) && LineTotal(lines, pid) > products[pid].quantity
  }

  predicate NoNegativeLines(lines: seq<CartLine>) {
    forall i :: 0 <= i < |lines| ==> lines[i].quantity >= 0
  }

  predicate StockNotNegative(products: map<int, Product>) {
    forall pid :: pid in products ==> products[pid].quantity >= 0
  }

  lemma {:induction false} MentionedTail(lines: seq<CartLine>)
    requires lines != []
    ensures Mentioned(lines) == {lines[0].productId} + Mentioned(lines[1..])
  {
    var tail := lines[1..];
    forall x | x in Mentioned(lines) ensures x in {lines[0].productId} + Mentioned(tail) {
      var i :| 0 <= i < |lines| && lines[i].productId == x;
      if i > 0 { assert tail[i - 1] == lines[i]; }
    }
    forall x | x in Mentioned(tail) ensures x in Mentioned(lines) {
      var i :| 0 <= i < |tail| && tail[i].productId == x;
      assert lines[i + 1] == tail[i];
    }
  }

  lemma {:induction false} LineTotalNotNegative(lines: seq<CartLine>, pid: int)
    requires NoNegativeLines(lines)
    ensures LineTotal(lines, pid) >= 0
    decreases |lines|
  {
    if lines != [] {
      assert NoNegativeLines(lines[1..]) by {
        forall i | 0 <= i < |lines[1..]| ensures lines[1..][i].quantity >= 0 {
          assert lines[1..][i] == lines[i + 1];
        }
      }
      LineTotalNotNegative(lines[1..], pid);
    }
  }

  lemma {:induction false} LineTotalUnmentioned(lines: seq<CartLine>, pid: int)
    requires pid !in Mentioned(lines)
    ensures LineTotal(lines, pid) == 0
    decreases |lines|
  {
    if lines != [] {
      MentionedTail(lines);
      LineTotalUnmentioned(lines[1..], pid);
    }
  }

  /** A successful sale leaves the same products in the table and lowers each
      one's stock by the total its lines ask for, and by nothing else. */
  lemma {:induction false} SaleDeductsLineTotals(st: SaleState, lines: seq<CartLine>, saleId: int, cashierId: int)
    requires SaleRun(st, lines, saleId, cashierId).Ok?
    ensures var after := SaleRun(st, lines, saleId, cashierId).value;
            after.products.Keys == st.products.Keys &&
            forall pid :: pid in st.products ==>
              after.products[pid] == st.products[pid].(quantity := st.products[pid].quantity - LineTotal(lines, pid))
    decreases |lines|
  {
    if lines != [] {
      var next := SaleStep(st, lines[0], saleId, cashierId).value;
      SaleDeductsLineTotals(next, lines[1..], saleId, cashierId);
    }
  }

  /** A successful sale records, for each cart line whose product is known and
      in cart order, one sale item and one "out" movement with reason "sale". */
  lemma SaleRecordsKnownLines(st: SaleState, lines: seq<CartLine>, saleId: int, cashierId: int)
    requires SaleRun(st, lines, saleId, cashierId).Ok?
    ensures var after := SaleRun(st, lines, saleId, cashierId).value;
            var known := KnownLines(st.products.Keys, lines);
            after.items == st.items + SaleItemsFor(saleId, known) &&
            after.movements == st.movements + SaleMovementsFor(saleId, cashierId, known)
  {
    SaleRecordsItems(st, lines, saleId, cashierId);
    SaleRecordsMovements(st, lines, saleId, cashierId);
  }

  lemma {:induction false} SaleRecordsItems(st: SaleState, lines: seq<CartLine>, saleId: int, cashierId: int)
    requires SaleRun(st, lines, saleId, cashierId).Ok?
    ensures SaleRun(st, lines, saleId, cashierId).value.items
         == st.items + SaleItemsFor(saleId, KnownLines(st.products.Keys, lines))
    decreases |lines|
  {
    if lines != [] {
      var next := SaleStep(st, lines[0], saleId, cashierId).value;
      assert SaleRun(st, lines, saleId, cashierId) == SaleRun(next, lines[1..], saleId, cashierId);
      assert next.products.Keys == st.products.Keys;
      SaleRecordsItems(next, lines[1..], saleId, cashierId);
      var known := KnownLines(st.products.Keys, lines[1..]);
      if lines[0].productId in st.products {
        assert KnownLines(st.products.Keys, lines) == [lines[0]] + known;
        RecordsOfCons(saleId, cashierId, lines[0], known);
        assert next.items == st.items + [SaleItemFor(saleId, lines[0])];
      } else {
        assert KnownLines(st.products.Keys, lines) == known;
      }
    }
  }

  lemma {:induction false} SaleRecordsMovements(st: SaleState, lines: seq<CartLine>, saleId: int, cashierId: int)
    requires SaleRun(st, lines, saleId, cashierId).Ok?
    ensures SaleRun(st, lines, saleId, cashierId).value.movements
         == st.movements + SaleMovementsFor(saleId, cashierId, KnownLines(st.products.Keys, lines))
    decreases |lines|
  {
    if lines != [] {
      var next := SaleStep(st, lines[0], saleId, cashierId).value;
      assert SaleRun(st, lines, saleId, cashierId) == SaleRun(next, lines[1..], saleId, cashierId);
      assert next.products.Keys == st.products.Keys;
      SaleRecordsMovements(next, lines[1..], saleId, cashierId);
      var known := KnownLines(st.products.Keys, lines[1..]);
      if lines[0].productId in st.products {
        assert KnownLines(st.products.Keys, lines) == [lines[0]] + known;
        RecordsOfCons(saleId, cashierId, lines[0], known);
        assert next.movements == st.movements + [SaleMovementFor(saleId, cashierId, lines[0])];
      } else {
        assert KnownLines(st.products.Keys, lines) == known;
      }
    }
  }

  lemma RecordsOfCons(saleId: int, cashierId: int, line: CartLine, rest: seq<CartLine>)
    ensures SaleItemsFor(saleId, [line] + rest) == [SaleItemFor(saleId, line)] + SaleItemsFor(saleId, rest)
    ensures SaleMovementsFor(saleId, cashierId, [line] + rest)
         == [SaleMovementFor(saleId, cashierId, line)] + SaleMovementsFor(saleId, cashierId, rest)
  {
    assert ([line] + rest)[1..] == rest;
  }

  /** A sale of non-negative line quantities is refused exactly when some product
      is asked, over the whole cart, for more than it holds; the refusal names
      such a product. */
  lemma {:induction false} SaleRefusedIffOversold(st: SaleState, lines: seq<CartLine>, saleId: int, cashierId: int)
    requires NoNegativeLines(lines)
    ensures var r := SaleRun(st, lines, saleId, cashierId);
            (r.Err? <==> Oversold(st.products, lines)) &&
            (r.Err? ==> r.error.InsufficientStock? && r.error.productId in st.products &&
                        r.error.productId in Mentioned(lines) &&
                        LineTotal(lines, r.error.productId) > st.products[r.error.productId].quantity)
    decreases |lines|
  {
    if lines != [] {
      var line, rest := lines[0], lines[1..];
      MentionedTail(lines);
      assert NoNegativeLines(rest) by {
        forall i | 0 <= i < |rest| ensures rest[i].quantity >= 0 {
          assert rest[i] == lines[i + 1];
        }
      }
      var pid := line.productId;
      if pid !in st.products {
        SaleRefusedIffOversold(st, rest, saleId, cashierId);
        var rr := SaleRun(st, rest, saleId, cashierId);
        if rr.Err? {
          assert LineTotal(lines, rr.error.productId) == LineTotal(rest, rr.error.productId);
        }
        if Oversold(st.products, lines) {
          var q :| q in st.products && q in Mentioned(lines) && LineTotal(lines, q) > st.products[q].quantity;
          assert q in Mentioned(rest);
        }
      } else {
        var p := st.products[pid];
        LineTotalNotNegative(rest, pid);
        if p.quantity >= line.quantity {
          var next := SaleStep(st, line, saleId, cashierId).value;
          SaleRefusedIffOversold(next, rest, saleId, cashierId);
          var rr := SaleRun(next, rest, saleId, cashierId);
          if rr.Err? {
            var q := rr.error.productId;
            assert LineTotal(rest, q) > next.products[q].quantity;
            assert LineTotal(lines, q) > st.products[q].quantity;
          }
          if Oversold(st.products, lines) {
            var q :| q in st.products && q in Mentioned(lines) && LineTotal(lines, q) > st.products[q].quantity;
            if q == pid {
              if pid !in Mentioned(rest) { LineTotalUnmentioned(rest, pid); }
              assert Oversold(next.products, rest);
            } else {
              assert q in Mentioned(rest);
              assert Oversold(next.products, rest);
            }
          }
          if Oversold(next.products, rest) {
            var q :| q in next.products && q in Mentioned(rest) && LineTotal(rest, q) > next.products[q].quantity;
            assert LineTotal(lines, q) > st.products[q].quantity;
            assert Oversold(st.products, lines);
          }
        } else {
          assert LineTotal(lines, pid) > p.quantity;
          assert Oversold(st.products, lines);
        }
      }
    }
  }

  /** A sale never drives any product's stock below zero. */
  lemma {:induction false} SaleKeepsStockNotNegative(st: SaleState, lines: seq<CartLine>, saleId: int, cashierId: int)
    requires StockNotNegative(st.products)
    requires SaleRun(st, lines, saleId, cashierId).Ok?
    ensures StockNotNegative(SaleRun(st, lines, saleId, cashierId).value.products)
    decreases |lines|
  {
    if lines != [] {
      var next := SaleStep(st, lines[0], saleId, cashierId).value;
      SaleKeepsStockNotNegative(next, lines[1..], saleId, cashierId);
    }
  }

  /** A product that was low on stock is still low after a sale of
      non-negative quantities. */
  lemma SaleKeepsLowStockLow(st: SaleState, lines: seq<CartLine>, saleId: int, cashierId: int, pid: int)
    requires NoNegativeLines(lines)
    requires SaleRun(st, lines, saleId, cashierId).Ok?
    requires pid in st.products && IsLowStock(st.products[pid])
    ensures var after := SaleRun(st, lines, saleId, cashierId).value;
            pid in after.products && IsLowStock(after.products[pid])
  {
    SaleDeductsLineTotals(st, lines, saleId, cashierId);
    LineTotalNotNegative(lines, pid);
  }

  /** When every cart line names a product of the table, the amount charged is
      the sum of the subtotals of the sale items recorded. */
  lemma {:induction false} CartTotalMatchesItems(saleId: int, known: set<int>, lines: seq<CartLine>)
    requires forall i :: 0 <= i < |lines| ==> lines[i].productId in known
    ensures CartTotal(lines) == ItemsTotal(SaleItemsFor(saleId, KnownLines(known, lines)))
    decreases |lines|
  {
    if lines != [] {
      assert forall i :: 0 <= i < |lines[1..]| ==> lines[1..][i] == lines[i + 1];
      CartTotalMatchesItems(saleId, known, lines[1..]);
      assert KnownLines(known, lines) == [lines[0]] + KnownLines(known, lines[1..]);
      RecordsOfCons(saleId, 0, lines[0], KnownLines(known, lines[1..]));
      var items := SaleItemsFor(saleId, [lines[0]] + KnownLines(known, lines[1..]));
      assert items[1..] == SaleItemsFor(saleId, KnownLines(known, lines[1..]));
    }
  }

  /** The items and movements recorded for the known lines name only known
      products. */
  lemma KnownRecordsAreKnown(saleId: int, cashierId: int, known: set<int>, lines: seq<CartLine>)
    ensures var kept := KnownLines(known, lines);
            (forall i :: 0 <= i < |SaleItemsFor(saleId, kept)| ==> SaleItemsFor(saleId, kept)[i].productId in known) &&
            (forall i :: 0 <= i < |SaleMovementsFor(saleId, cashierId, kept)| ==>
               SaleMovementsFor(saleId, cashierId, kept)[i].productId in known)
  {
  }
}
