/** A batch driven through a series of `allocate` calls, each made on the
    batch as the previous call left it. A call that raises leaves the batch
    as it was, because the source subtracts only after the guard passes. */
module History {
  import opened Wrappers
  import opened Model

  /** The batch as a caller holds it once `allocate(line)` has returned or
      raised. */
  function After(b: Batch, line: OrderLine): (a: Batch)
    ensures SameIdentity(a, b)
    ensures line.qty > b.availableQuantity ==> a == b
    ensures line.qty <= b.availableQuantity ==> a.availableQuantity + line.qty == b.availableQuantity
  {
    match Allocate(b, line)
    case Ok(next) => next
    case Err(_) => b
  }

  /** The batch after calling `allocate` with each of `lines` in turn, and for
      each call whether it succeeded. */
  function Replay(b: Batch, lines: seq<OrderLine>): (out: (Batch, seq<bool>))
    ensures |out.1| == |lines|
    decreases |lines|
  {
    if |lines| == 0 then (b, [])
    else
      var prior := Replay(b, lines[..|lines| - 1]);
      var last := lines[|lines| - 1];
      (After(prior.0, last), prior.1 + [Allocate(prior.0, last).Ok?])
  }

  /** Total quantity of the lines whose flag in `accepted` is set. */
  function AcceptedTotal(lines: seq<OrderLine>, accepted: seq<bool>): (total: int)
    requires |accepted| == |lines|
    decreases |lines|
  {
    if |lines| == 0 then 0
    else
      var n := |lines| - 1;
      AcceptedTotal(lines[..n], accepted[..n]) + (if accepted[n] then lines[n].qty else 0)
  }

  /** Call `i` succeeds exactly when its line fits in what the first `i`
      calls left behind. */
  lemma {:induction false} ReplayAcceptsWhatFits(b: Batch, lines: seq<OrderLine>, i: int)
    requires 0 <= i < |lines|
    ensures Replay(b, lines).1[i] <==> lines[i].qty <= Replay(b, lines[..i]).0.availableQuantity
    decreases |lines|
  {
    var n := |lines| - 1;
    if i < n {
      ReplayAcceptsWhatFits(b, lines[..n], i);
      assert lines[..n][..i] == lines[..i];
    } else {
      assert lines[..i] == lines[..n];
    }
  }

  /** Reference, product and arrival date survive any series of calls. */
  lemma {:induction false} ReplayKeepsIdentity(b: Batch, lines: seq<OrderLine>)
    ensures SameIdentity(Replay(b, lines).0, b)
    decreases |lines|
  {
    if |lines| > 0 {
      ReplayKeepsIdentity(b, lines[..|lines| - 1]);
    }
  }

  /** The final available quantity is the initial one less the quantities of
      exactly the calls that succeeded; a call that raised takes nothing. */
  lemma {:induction false} ReplayConservesStock(b: Batch, lines: seq<OrderLine>)
    ensures Replay(b, lines).0.availableQuantity
      == b.availableQuantity - AcceptedTotal(lines, Replay(b, lines).1)
    decreases |lines|
  {
    if |lines| > 0 {
      var n := |lines| - 1;
      ReplayConservesStock(b, lines[..n]);
      assert Replay(b, lines).1[..n] == Replay(b, lines[..n]).1;
    }
  }

  /** A batch that starts with non-negative stock never goes negative, whatever
      the lines ask for. */
  lemma {:induction false} ReplayKeepsStockNonNegative(b: Batch, lines: seq<OrderLine>)
    requires b.availableQuantity >= 0
    ensures Replay(b, lines).0.availableQuantity >= 0
    decreases |lines|
  {
    if |lines| > 0 {
      ReplayKeepsStockNonNegative(b, lines[..|lines| - 1]);
    }
  }

  /** Allocating the same line twice takes its quantity twice: the batch keeps
      no record of which lines it has served, so allocation is not idempotent.
      Both calls succeed exactly when the line fits once and then again. */
  lemma AllocatingTwiceTakesTwice(b: Batch, line: OrderLine)
    ensures Replay(b, [line, line]).1 == [true, true]
      <==> line.qty <= b.availableQuantity && 2 * line.qty <= b.availableQuantity
    ensures Replay(b, [line, line]).1 == [true, true]
      ==> Replay(b, [line, line]).0.availableQuantity == b.availableQuantity - 2 * line.qty
  {
    var one, two := [line], [line, line];
    assert one[..|one| - 1] == [];
    assert two[..|two| - 1] == one;
    var first := After(b, line);
    assert Replay(b, one).1 == [Allocate(b, line).Ok?];
    assert Replay(b, one).0 == first;
    assert Replay(b, two).1 == [Allocate(b, line).Ok?, Allocate(first, line).Ok?];
  }

  /** Serves `lines` one after another against `b`, as a caller that catches
      each refusal and carries on; returns the final batch and which calls
      succeeded. */
  method AllocateEach(b: Batch, lines: seq<OrderLine>) returns (final: Batch, accepted: seq<bool>)
    ensures final == Replay(b, lines).0 && accepted == Replay(b, lines).1
    ensures final.availableQuantity == b.availableQuantity - AcceptedTotal(lines, accepted)
    ensures SameIdentity(final, b)
  {
    final, accepted := b, [];
    var i := 0;
    while i < |lines|
      invariant 0 <= i <= |lines|
      invariant (final, accepted) == Replay(b, lines[..i])
    {
      assert lines[..i + 1][..i] == lines[..i];
      match Allocate(final, lines[i]) {
        case Ok(next) =>
          final, accepted := next, accepted + [true];
        case Err(_) =>
          accepted := accepted + [false];
      }
      i := i + 1;
    }
    assert lines[..i] == lines;
    ReplayConservesStock(b, lines);
    ReplayKeepsIdentity(b, lines);
  }
}
