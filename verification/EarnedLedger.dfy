/** The earned figure of a position, src/services/earn/earned.py: the settled
    cashflow ledger replayed in integers, against the exact weighted-average
    model it approximates. */
module EarnedLedger {
  import opened Tables

  datatype Operation = Deposit | Withdraw

  /** One ledger row that did not fail. `delta` is its share movement, unknown
      until the settlement read captured it. */
  datatype Flow = Flow(op: Operation, amount: int, delta: Option<int>, pending: bool)

  datatype Earned =
    | Ok(active: int, costBasis: int, realised: int, depositCount: nat)
    | PendingSettlement
    | LedgerIncomplete

  /** The running state of the replay. */
  datatype Book = Book(held: int, costBasis: int, realised: int, deposits: nat)

  const EMPTY := Book(0, 0, 0, 0)

  predicate Readable(flows: seq<Flow>) {
    forall f <- flows :: !f.pending && f.delta.Some?
  }

  /** Whether a row can be applied: a burn moves shares out of a position that has some. */
  predicate Applies(book: Book, f: Flow)
    requires f.delta.Some?
  {
    f.op == Deposit || (f.delta.value < 0 && book.held > 0)
  }

  function BasisOut(costBasis: int, burned: int, held: int): int
    requires held != 0
  {
    costBasis * burned / held
  }

  function Apply(book: Book, f: Flow): Book
    requires f.delta.Some? && Applies(book, f)
  {
    if f.op == Deposit then
      Book(book.held + f.delta.value, book.costBasis + f.amount, book.realised, book.deposits + 1)
    else
      var burned := -f.delta.value;
      var basisOut := BasisOut(book.costBasis, burned, book.held);
      Book(book.held - burned, book.costBasis - basisOut, book.realised + f.amount - basisOut, book.deposits)
  }

  /** The replay of a readable history, or None once a burn cannot be applied. */
  function Replay(flows: seq<Flow>): Option<Book>
    requires Readable(flows)
  {
    if flows == [] then Some(EMPTY)
    else
      var before := Replay(flows[..|flows| - 1]);
      var f := flows[|flows| - 1];
      if before.Some? && Applies(before.value, f) then Some(Apply(before.value, f)) else None
  }

  function Deposited(flows: seq<Flow>): int {
    if flows == [] then 0
    else Deposited(flows[..|flows| - 1]) + var f := flows[|flows| - 1]; if f.op == Deposit then f.amount else 0
  }

  function Withdrawn(flows: seq<Flow>): int {
    if flows == [] then 0
    else Withdrawn(flows[..|flows| - 1]) + var f := flows[|flows| - 1]; if f.op == Withdraw then f.amount else 0
  }

  function Withdrawals(flows: seq<Flow>): nat {
    if flows == [] then 0
    else Withdrawals(flows[..|flows| - 1]) + if flows[|flows| - 1].op == Withdraw then 1 else 0
  }

  function Shares(flows: seq<Flow>): int
    requires Readable(flows)
  {
    if flows == [] then 0 else Shares(flows[..|flows| - 1]) + flows[|flows| - 1].delta.value
  }

  /** `earned_active`. `accounted` is the pool's recorded share movement, None
      when a row of it is unknown; it is compared with the chain's total when
      the caller has one. */
  method EarnedActive(flows: seq<Flow>, shares: int, valueNow: int, poolTotal: Option<int>, accounted: Option<int>)
    returns (r: Earned)
    ensures r.PendingSettlement? <==> exists f <- flows :: f.pending
    ensures r.Ok? <==>
              && Readable(flows)
              && Replay(flows).Some?
              && Shares(flows) == shares
              && (poolTotal.Some? ==> accounted == poolTotal)
    ensures r.Ok? ==>
              && r.active + r.realised == valueNow - (Deposited(flows) - Withdrawn(flows))
              && r.active + r.costBasis == valueNow
              && r.costBasis == Replay(flows).value.costBasis
              && r.depositCount + Withdrawals(flows) == |flows|
  {
    if exists f <- flows :: f.pending {
      return PendingSettlement;
    }
    if exists f <- flows :: f.delta.None? {
      return LedgerIncomplete;
    }
    var held, costBasis, realised, deposits := 0, 0, 0, 0;
    for i := 0 to |flows|
      invariant Replay(flows[..i]) == Some(Book(held, costBasis, realised, deposits))
    {
      ReplayNext(flows, i);
      var f := flows[i];
      var delta := f.delta.value;
      if f.op == Deposit {
        held := held + delta;
        costBasis := costBasis + f.amount;
        deposits := deposits + 1;
        continue;
      }
      var burned := -delta;
      if burned <= 0 || held <= 0 {
        StuckReplay(flows, i + 1);
        return LedgerIncomplete;
      }
      var basisOut := BasisOut(costBasis, burned, held);
      realised := realised + (f.amount - basisOut);
      costBasis := costBasis - basisOut;
      held := held - burned;
    }
    assert flows[..|flows|] == flows;
    Totals(flows);
    if held != shares {
      return LedgerIncomplete;
    }
    if poolTotal.Some? {
      if accounted.None? || accounted != poolTotal {
        return LedgerIncomplete;
      }
    }
    return Ok(valueNow - costBasis, costBasis, realised, deposits);
  }

  lemma {:induction false} ReplayNext(flows: seq<Flow>, i: nat)
    requires Readable(flows) && i < |flows|
    ensures Replay(flows[..i + 1]) ==
            if Replay(flows[..i]).Some? && Applies(Replay(flows[..i]).value, flows[i])
            then Some(Apply(Replay(flows[..i]).value, flows[i])) else None
  {
    assert flows[..i + 1][..i] == flows[..i];
  }

  /** What leaves the basis enters the realised figure, so the identity is exact whatever is rounded. */
  lemma {:induction false} Totals(flows: seq<Flow>)
    requires Readable(flows) && Replay(flows).Some?
    ensures var book := Replay(flows).value;
            && book.costBasis - book.realised == Deposited(flows) - Withdrawn(flows)
            && book.held == Shares(flows)
            && book.deposits + Withdrawals(flows) == |flows|
  {
    if flows != [] {
      Totals(flows[..|flows| - 1]);
    }
  }

  /** A history with a prefix that cannot be replayed cannot be replayed. */
  lemma {:induction false} StuckReplay(flows: seq<Flow>, k: nat)
    requires Readable(flows) && k <= |flows| && Replay(flows[..k]) == None
    ensures Replay(flows) == None
    decreases |flows|
  {
    if k == |flows| {
      assert flows[..k] == flows;
    } else {
      var front := flows[..|flows| - 1];
      assert front[..k] == flows[..k];
      StuckReplay(front, k);
    }
  }

  /** Every burn fits the shares held when it happens. */
  ghost predicate NoOverdraw(flows: seq<Flow>)
    requires Readable(flows)
  {
    flows == [] || (NoOverdraw(flows[..|flows| - 1]) && Shares(flows) >= 0)
  }

  /** One row of the exact weighted-average model: a burn of b out of h shares
      keeps the fraction (h - b) / h of the basis. */
  ghost predicate ExactStep(f: Flow, held: int, before: real, after: real)
    requires f.delta.Some?
  {
    if f.op == Deposit then after == before + f.amount as real
    else ScaledBy(before, after, held + f.delta.value, held)
  }

  /** `after` is the part / whole of `before`. */
  ghost predicate ScaledBy(before: real, after: real, part: int, whole: int) {
    after * whole as real == before * part as real
  }

  /** `exact` is the exact basis before each row and at the end. */
  ghost predicate IsExact(flows: seq<Flow>, exact: seq<real>)
    requires Readable(flows) && Replay(flows).Some?
  {
    && |exact| == |flows| + 1
    && if flows == [] then exact[0] == 0.0
       else
         var n, front := |flows| - 1, flows[..|flows| - 1];
         IsExact(front, exact[..n + 1]) && ExactStep(flows[n], Replay(front).value.held, exact[n], exact[n + 1])
  }

  lemma {:induction false} ExactExists(flows: seq<Flow>) returns (exact: seq<real>)
    requires Readable(flows) && Replay(flows).Some?
    ensures IsExact(flows, exact)
  {
    if flows == [] {
      exact := [0.0];
    } else {
      var front, f := flows[..|flows| - 1], flows[|flows| - 1];
      var before := ExactExists(front);
      var next := NextExact(f, Replay(front).value.held, before[|front|]);
      exact := before + [next];
      assert exact[..|front| + 1] == before;
    }
  }

  lemma NextExact(f: Flow, held: int, before: real) returns (after: real)
    requires f.delta.Some? && (f.op == Withdraw ==> held > 0)
    ensures ExactStep(f, held, before, after)
  {
    if f.op == Deposit {
      after := before + f.amount as real;
    } else {
      after := before * (held + f.delta.value) as real / held as real;
    }
  }

  /** Floor division keeps the remainder in the basis: the integer basis is
      never below the exact one, and above it by less than one base unit per
      withdrawal. So the active figure is reported low by that much at most,
      and never high. */
  lemma {:induction false} BasisBound(flows: seq<Flow>, exact: seq<real>)
    requires Readable(flows) && Replay(flows).Some? && NoOverdraw(flows) && IsExact(flows, exact)
    ensures var excess := Replay(flows).value.costBasis as real - exact[|flows|];
            && 0.0 <= excess
            && (Withdrawals(flows) == 0 ==> excess == 0.0)
            && (Withdrawals(flows) > 0 ==> excess < Withdrawals(flows) as real)
  {
    if flows != [] {
      var n, front := |flows| - 1, flows[..|flows| - 1];
      BasisBound(front, exact[..n + 1]);
      if flows[n].op == Withdraw {
        WithdrawalStep(flows, exact);
      } else {
        DepositStep(flows, exact);
      }
    }
  }

  lemma {:induction false} DepositStep(flows: seq<Flow>, exact: seq<real>)
    requires Readable(flows) && Replay(flows).Some? && IsExact(flows, exact)
    requires flows != [] && flows[|flows| - 1].op == Deposit
    ensures var n, front := |flows| - 1, flows[..|flows| - 1];
            && Replay(front).Some?
            && Replay(flows).value.costBasis as real - exact[n + 1] == Replay(front).value.costBasis as real - exact[n]
            && Withdrawals(flows) == Withdrawals(front)
  {
  }

  lemma {:induction false} WithdrawalStep(flows: seq<Flow>, exact: seq<real>)
    requires Readable(flows) && Replay(flows).Some? && IsExact(flows, exact) && Shares(flows) >= 0
    requires flows != [] && flows[|flows| - 1].op == Withdraw
    requires Replay(flows[..|flows| - 1]).value.costBasis as real >= exact[|flows| - 1]
    ensures var n, front := |flows| - 1, flows[..|flows| - 1];
            && 0.0 <= Replay(flows).value.costBasis as real - exact[n + 1]
                   < Replay(front).value.costBasis as real - exact[n] + 1.0
            && Withdrawals(flows) == Withdrawals(front) + 1
  {
    var n := |flows| - 1;
    var costBasis, burned, held := WithdrawalBooks(flows);
    WithdrawalExact(flows, exact, burned, held);
    Removal(costBasis, Replay(flows).value.costBasis, burned, held, exact[n], exact[n + 1]);
  }

  /** One withdrawal scales the excess down and adds less than one base unit. */
  lemma Removal(costBasis: int, costAfter: int, burned: int, held: int, exact: real, after: real)
    requires 0 < burned <= held && costBasis as real >= exact
    requires costAfter == costBasis - BasisOut(costBasis, burned, held)
    requires ScaledBy(exact, after, held - burned, held)
    ensures 0.0 <= costAfter as real - after < costBasis as real - exact + 1.0
  {
    var out := BasisOut(costBasis, burned, held);
    FloorBounds(costBasis, burned, held);
    assert (held - burned) as real == held as real - burned as real;
    OneWithdrawal(costBasis as real, out as real, exact, after, burned as real, held as real);
    assert costAfter as real == costBasis as real - out as real;
  }

  lemma {:induction false} WithdrawalExact(flows: seq<Flow>, exact: seq<real>, burned: int, held: int)
    requires Readable(flows) && Replay(flows).Some? && IsExact(flows, exact)
    requires flows != [] && flows[|flows| - 1].op == Withdraw && burned == -flows[|flows| - 1].delta.value
    requires Replay(flows[..|flows| - 1]).Some? && Replay(flows[..|flows| - 1]).value.held == held
    ensures ScaledBy(exact[|flows| - 1], exact[|flows|], held - burned, held)
  {
  }

  lemma {:induction false} WithdrawalBooks(flows: seq<Flow>) returns (costBasis: int, burned: int, held: int)
    requires Readable(flows) && Replay(flows).Some? && flows != [] && flows[|flows| - 1].op == Withdraw
    requires Shares(flows) >= 0
    ensures var front := flows[..|flows| - 1];
            && Replay(front).Some? && Replay(front).value.costBasis == costBasis && Replay(front).value.held == held
            && 0 < burned <= held && burned == -flows[|flows| - 1].delta.value
            && Replay(flows).value.costBasis == costBasis - BasisOut(costBasis, burned, held)
            && Withdrawals(flows) == Withdrawals(front) + 1
  {
    var front := flows[..|flows| - 1];
    burned := -flows[|flows| - 1].delta.value;
    Totals(front);
    costBasis, held := Replay(front).value.costBasis, Replay(front).value.held;
  }

  lemma FloorBounds(costBasis: int, burned: int, held: int)
    requires held > 0
    ensures var out := BasisOut(costBasis, burned, held);
            out as real * held as real <= costBasis as real * burned as real < out as real * held as real + held as real
  {
    var out := BasisOut(costBasis, burned, held);
    assert out * held <= costBasis * burned < out * held + held;
    RealProduct(out, held);
    RealProduct(costBasis, burned);
    assert (out * held + held) as real == (out * held) as real + held as real;
  }

  lemma RealProduct(a: int, b: int)
    ensures (a * b) as real == a as real * b as real
  {
  }

  lemma OneWithdrawal(c: real, out: real, exact: real, after: real, b: real, h: real)
    requires 0.0 < b <= h && c >= exact
    requires out * h <= c * b < out * h + h
    requires after * h == exact * (h - b)
    ensures 0.0 <= c - out - after < c - exact + 1.0
  {
    var excess, result := c - exact, c - out - after;
    Sub(c - out, after, h);
    Sub(c, out, h);
    Sub(c, exact, h - b);
    Sub(h, b, c);
    Commute(h - b, c);
    Commute(h, c);
    Commute(b, c);
    assert excess * (h - b) <= result * h < excess * (h - b) + h;
    Bounds(excess, b, h);
    Divide(result, excess, excess * (h - b), h);
  }

  lemma Sub(x: real, y: real, z: real)
    ensures (x - y) * z == x * z - y * z
  {
  }

  lemma Commute(x: real, y: real)
    ensures x * y == y * x
  {
  }

  lemma Divide(x: real, y: real, s: real, h: real)
    requires h > 0.0 && 0.0 <= s <= y * h && s <= x * h < s + h
    ensures 0.0 <= x < y + 1.0
  {
    var z := y + 1.0;
    OneMore(y, z, h);
    Chain(x * h, y * h, z * h, s, h);
    Less(x, z, h);
    NonNegative(x, h);
  }

  lemma OneMore(y: real, z: real, h: real)
    requires z == y + 1.0
    ensures z * h == y * h + h
  {
  }

  lemma Chain(p: real, q: real, r: real, s: real, h: real)
    requires s <= q && p < s + h && r == q + h
    ensures p < r
  {
  }

  lemma Less(x: real, y: real, h: real)
    requires h > 0.0 && x * h < y * h
    ensures x < y
  {
  }

  lemma NonNegative(x: real, h: real)
    requires h > 0.0 && x * h >= 0.0
    ensures x >= 0.0
  {
  }

  lemma Bounds(x: real, b: real, h: real)
    requires 0.0 < b <= h && x >= 0.0
    ensures 0.0 <= x * (h - b) <= x * h
  {
  }
}
