/** The stock-allocation entities of `model/model.py`: an order line, which is
    a plain value, and a batch of stock, whose one operation hands out
    quantity to order lines. */
module Model {
  import opened Wrappers

  /** A calendar date. The batch stores its arrival date but nothing in the
      model reads it, so a date is kept as an opaque day number. */
  datatype Date = Date(ordinal: int)

  /** A request for `qty` units of product `sku` on behalf of order `orderId`.
      A frozen record: it is never mutated, and two lines are equal exactly
      when their three fields are. The quantity is not checked for sign. */
  datatype OrderLine = OrderLine(orderId: string, sku: string, qty: int)

  /** A batch of stock of one product. `availableQuantity` is the only field
      that changes after construction; `eta` is `None` for stock already in
      the warehouse. */
  datatype Batch = Batch(reference: string, sku: string, availableQuantity: int, eta: Option<Date>)

  /** Why `Allocate` refuses a line: it asks for more than the batch holds. */
  datatype AllocationError = OverAllocation

  /** Everything about a batch except its available quantity. */
  predicate SameIdentity(a: Batch, b: Batch)
  {
    a.reference == b.reference && a.sku == b.sku && a.eta == b.eta
  }

  /** A freshly constructed batch: the quantity given to the constructor
      becomes the available quantity. */
  function NewBatch(reference: string, sku: string, qty: int, eta: Option<Date>): (b: Batch)
    ensures b.reference == reference && b.sku == sku && b.eta == eta
    ensures b.availableQuantity == qty
  {
    Batch(reference, sku, qty, eta)
  }

  /** Allocates `line` to `b`. A line asking for more than is available is
      refused (the source raises); otherwise the line's quantity is taken out
      of the batch. Only quantities take part in the decision: the line's
      product and order are never consulted. */
  function Allocate(b: Batch, line: OrderLine): (r: Result<Batch, AllocationError>)
    ensures r.Ok? <==> line.qty <= b.availableQuantity
    ensures r.Ok? ==> r.value.availableQuantity + line.qty == b.availableQuantity
    ensures r.Ok? ==> SameIdentity(r.value, b)
    ensures r.Ok? ==> r.value.availableQuantity >= 0
    ensures line.qty == b.availableQuantity ==> r.Ok? && r.value.availableQuantity == 0
  {
    if line.qty > b.availableQuantity then
      Err(OverAllocation)
    else
      Ok(b.(availableQuantity := b.availableQuantity - line.qty))
  }

  /** Two order lines are the same value exactly when all three fields agree. */
  lemma OrderLineEquality(a: OrderLine, b: OrderLine)
    ensures a == b <==> (a.orderId == b.orderId && a.sku == b.sku && a.qty == b.qty)
  {
  }

  /** Whether a line is accepted, and what is left afterwards, depends only on
      the two quantities: the batch's reference, product and arrival date and
      the line's product and order play no part. */
  lemma AcceptanceDependsOnlyOnQuantities(b1: Batch, b2: Batch, l1: OrderLine, l2: OrderLine)
    requires b1.availableQuantity == b2.availableQuantity && l1.qty == l2.qty
    ensures Allocate(b1, l1).Ok? <==> Allocate(b2, l2).Ok?
    ensures Allocate(b1, l1).Ok? ==>
      Allocate(b1, l1).value.availableQuantity == Allocate(b2, l2).value.availableQuantity
  {
  }

  /** A line for a different product than the batch's is still allocated
      when the quantity fits: `allocate` never compares product codes. */
  lemma ForeignProductIsAllocated(b: Batch, line: OrderLine)
    requires line.sku != b.sku && line.qty <= b.availableQuantity
    ensures Allocate(b, line).Ok?
    ensures Allocate(b, line).value.sku == b.sku
  {
  }

  /** A line with a negative quantity is refused only when the batch's own
      stock is lower still; when accepted it adds its magnitude to the stock.
      A batch with non-negative stock therefore accepts every such line. */
  lemma NegativeQuantityAddsStock(b: Batch, line: OrderLine)
    requires line.qty < 0
    ensures Allocate(b, line).Ok? <==> line.qty <= b.availableQuantity
    ensures b.availableQuantity >= 0 ==> Allocate(b, line).Ok?
    ensures Allocate(b, line).Ok? ==> Allocate(b, line).value.availableQuantity > b.availableQuantity
  {
  }

  /** The batch of 20 with a line of 2 used in the allocation test: 18 remain.
      The test dates the batch today; any day will do, since the date is unread. */
  lemma TwentyLessTwoLeavesEighteen()
    ensures Allocate(NewBatch("batch-001", "SMALL-TABLE", 20, Some(Date(0))), OrderLine("order-ref", "SMALL-TABLE", 2))
      == Ok(NewBatch("batch-001", "SMALL-TABLE", 18, Some(Date(0))))
  {
  }
}
