# Batch stock allocation

A Dafny model of the stock-allocation domain in `model/model.py`: an
`OrderLine` asks for a quantity of one product (SKU) for one order, and a
`Batch` holds stock of one product and hands quantity out to order lines.

- `wrappers.dfy` — `Option` (Python's `Optional`) and `Result` (a value, or
  the error a raising call would have raised).
- `model.dfy`, module `Model` — the two entities and `allocate`.
  `OrderLine` and `Batch` are immutable datatypes; Python's in-place
  `self.available_quantity -= line.qty` becomes a function returning the
  updated batch, and the raised exception becomes `Err(OverAllocation)`.
- `history.dfy`, module `History` — a batch taken through a series of
  `allocate` calls by a caller that catches each refusal: the state after
  each call, which calls succeed, and what the batch holds at the end.

## Code versus tests

The model follows the code as written. `test_model.py` expects more than the
code provides:

- The tests call `can_allocate` and `deallocate` (`test_model.py:27`, `:34`,
  `:55`); the class defines neither. `allocate` raises on a line larger than
  the available quantity, and the batch keeps only that one integer.
- `allocate` never compares the line's SKU with the batch's, so a line for
  another product is served (`Model.ForeignProductIsAllocated`), although
  `test_model.py:47-50` expects it to be refused.
- Allocating the same line twice subtracts twice
  (`History.AllocatingTwiceTakesTwice`), although `test_model.py:59-63`
  expects idempotence.
- The allocator tests (`test_model.py:69-75`) are unfinished and the code has
  no allocator over several batches.

The code also does not check the sign of a line's quantity: a negative line
is refused only by a batch whose stock is lower still, and an accepted one
adds stock (`Model.NegativeQuantityAddsStock`).

## Model

| member | source | states |
|---|---|---|
| `Model.NewBatch` | model/model.py:15-19 | a new batch keeps the given reference, SKU and arrival date, and the quantity passed to the constructor is its available quantity |
| `Model.Allocate` | model/model.py:21-25 | a line is accepted exactly when its quantity does not exceed the available quantity; otherwise the call fails with the over-allocation error; on success the line's quantity plus what remains equals what was there, reference, SKU and arrival date are unchanged, what remains is never negative, and a line asking for exactly the available quantity is accepted and leaves zero |
| `Model.OrderLineEquality` | model/model.py:6-10 | two order lines are equal exactly when order id, SKU and quantity are all equal |
| `Model.AcceptanceDependsOnlyOnQuantities` | model/model.py:21-25 | two calls with the same available quantity and the same line quantity agree on acceptance and on what remains, whatever the references, SKUs, dates or order ids |
| `Model.ForeignProductIsAllocated` | model/model.py:21-25 | a line whose SKU differs from the batch's is still accepted when its quantity fits, and the batch keeps its own SKU |
| `Model.NegativeQuantityAddsStock` | model/model.py:22-25 | a line with a negative quantity is accepted exactly when it does not exceed the (possibly negative) available quantity, so always by a batch with non-negative stock, and when accepted it increases the available quantity |
| `Model.TwentyLessTwoLeavesEighteen` | test_model.py:25-29 | a batch of 20 serving a line of 2 is left with 18 and otherwise unchanged |
| `History.After` | model/model.py:21-25 | after a call the batch keeps reference, SKU and date; a refused call leaves the batch exactly as it was; an accepted one takes away exactly the line's quantity |
| `History.ReplayAcceptsWhatFits` | model/model.py:22 | in a series of calls, call i succeeds exactly when its line fits in what the earlier calls left |
| `History.ReplayKeepsIdentity` | model/model.py:15-25 | reference, SKU and arrival date survive any series of calls |
| `History.ReplayConservesStock` | model/model.py:21-25 | after any series of calls the available quantity is the initial one less the quantities of exactly the calls that succeeded |
| `History.ReplayKeepsStockNonNegative` | model/model.py:22-25 | a batch starting with non-negative stock never goes negative under any series of calls, whatever the line quantities |
| `History.AllocatingTwiceTakesTwice` | model/model.py:21-25 | allocating the same line twice succeeds both times exactly when the line fits the initial stock and twice its quantity does too, and then takes the quantity twice |
| `History.AllocateEach` | model/model.py:21-25 | serving lines one by one and catching refusals yields the same batch and success flags as the reference series, with stock conserved and identity kept |

## Left out

- `value_objects_entities.py`: a demonstration of value objects versus entities made of module-level statements; it has no operation to model.
- Batch equality and hashing: `Batch` uses Python's default object identity; the model's batches are values and identity is not modelled.
- The exception's message text and the unused `-> bool` annotation on `allocate`: a refusal is the bare `Err(OverAllocation)`, and success returns the updated batch.
- Dates: `eta` is stored and never read, so a date is an opaque day number; no calendar arithmetic is modelled.
- `can_allocate`, `deallocate`, idempotent allocation and an allocator that prefers warehouse stock and earlier arrivals: the tests refer to them but the code defines none of them.
- Mutation in place: the Python object is changed in place; the model returns a new batch value, and a raised call corresponds to the caller keeping the old one (`History.After`).
