/** The money of the swaps, in any one token: what the LP holds on Privana, in its
    wallet and between the two, and what the shared wallet still has to pay. Gas
    is left aside. */
module SwapLedger {
  import Fees
  import opened SwapCase

  /** A swap's tokens and amounts: its input, what LiFi delivers, the fee on that,
      what an internal swap pays, and what LiFi gives back of the input if it cannot deliver. */
  datatype Terms = Terms(source: nat, dest: nat, amount: nat, received: nat, feeBps: Fees.Rate, output: nat,
                         back: nat) {
    /** What the user is credited. */
    function Credited(): nat {
      Fees.Net(received, feeBps)
    }

    /** What the LP keeps of it. */
    function Kept(): (fee: nat)
      ensures fee == received - Credited()
    {
      Fees.Fee(received, feeBps)
    }
  }

  datatype Swap = Swap(terms: Terms, c: Case)

  datatype World = World(swaps: seq<Swap>, lp: int, wallet: int, transit: int)

  datatype Event = Open(terms: Terms, internal: bool) | Step(swap: nat, act: Act)

  // ---- What moves ----

  datatype Flow = Flow(lp: int, wallet: int, transit: int) {
    function Net(): int {
      lp + wallet + transit
    }
  }

  const NONE := Flow(0, 0, 0)

  function If(b: bool, x: int): int {
    if b then x else 0
  }

  /** What an act moves of the swap's input token. */
  function FlowIn(t: Terms, act: Act): Flow {
    var a: int := t.amount;
    if act == OnEvm(Input, Execute) || act == OnLane(Internal, Moved) || act == CopyInput then Flow(a, 0, 0)
    else if act == OnLane(Withdraw, Moved) then Flow(-a, 0, a)
    else if act == Arrive then Flow(0, a, -a)
    else if act == OnEvm(Lifi, Execute) then Flow(0, -a, 0)
    else if act == GiveBack then Flow(0, t.back, 0)
    else if act == OnEvm(Refund, Execute) then Flow(0, -a, a)
    else if act == CreditRefund then Flow(a, 0, -a)
    else if act == OnLane(Payout, Moved) then Flow(-a, 0, 0)
    else NONE
  }

  /** And of its output token. */
  function FlowOut(t: Terms, act: Act): Flow {
    var r: int := t.received;
    if act == Deliver then Flow(0, r, 0)
    else if act == OnEvm(Deposit, Execute) then Flow(0, -r, r)
    else if act == CreditDeposit then Flow(r, 0, -r)
    else if act == OnLane(Credit, Moved) then Flow(-(t.Credited() as int), 0, 0)
    else if act == OnLane(Internal, Moved) then Flow(-(t.output as int), 0, 0)
    else NONE
  }

  /** What an act moves of token `k`. */
  function FlowOf(t: Terms, act: Act, k: nat): Flow {
    var x, y := if k == t.source then FlowIn(t, act) else NONE, if k == t.dest then FlowOut(t, act) else NONE;
    Flow(x.lp + y.lp, x.wallet + y.wallet, x.transit + y.transit)
  }

  predicate EnabledAt(w: World, e: Event) {
    e.Step? ==> e.swap < |w.swaps| && Enabled(w.swaps[e.swap].c, e.act)
  }

  function Next(w: World, e: Event, k: nat): World
    requires EnabledAt(w, e)
  {
    match e
    case Open(terms, internal) => w.(swaps := w.swaps + [Swap(terms, New(internal))])
    case Step(i, act) =>
      var s := w.swaps[i];
      var f := FlowOf(s.terms, act, k);
      World(w.swaps[i := s.(c := Apply(s.c, act))], w.lp + f.lp, w.wallet + f.wallet, w.transit + f.transit)
  }

  // ---- Sums over the swaps ----

  /** `Held` is what a swap has brought in less what it paid out; `Unmined` what its
      wallet txs not mined yet will take out of the wallet; `Claim` adds an output
      waiting for its deposit; `Counted` is what the code's query of the tables says of that.
      `Owed` is what the LP's Privana balance has to keep for it; `Outflow` what the code counts of that. */
  datatype Measure = Held | Unmined | Claim | Counted | Owed | Outflow

  predicate Ran(c: Case, kind: EvmKind) {
    kind in c.evm && c.evm[kind].ran
  }

  predicate HasMoved(c: Case, lane: LaneKind) {
    lane in c.lanes && c.lanes[lane].moved
  }

  /** A tx that may still take from the wallet. */
  predicate Live(c: Case, kind: EvmKind) {
    kind in c.evm && !c.evm[kind].ran && (c.evm[kind].status == Queued || c.evm[kind].Held())
  }

  predicate AwaitsDeposit(c: Case) {
    c.place == DepositSent && Deposit !in c.evm
  }

  /** `_queued_spend` counts a tx that is queued, or failed unsigned at the step that sends it. */
  predicate Listed(c: Case, kind: EvmKind) {
    && kind in c.evm
    && (c.evm[kind].status == Queued
        || (c.evm[kind].status == Failed && !c.evm[kind].signed && c.place == SentAt(kind)))
  }

  /** A lane row that may still pay out. */
  predicate Unsettled(c: Case, lane: LaneKind) {
    lane in c.lanes && c.lanes[lane].status in {LaneStatus.Waiting, LaneStatus.Sent}
  }

  /** The swap is where a lane write is made, and has not made it. */
  predicate Unqueued(c: Case, lane: LaneKind) {
    lane !in c.lanes && c.place == QueuedAt(lane)
  }

  predicate Unpaid(c: Case, lane: LaneKind) {
    Unsettled(c, lane) && !c.lanes[lane].moved
  }

  /** The input is on the LP's balance, and the swap not yet where its way out is counted. */
  predicate InputUnseen(c: Case) {
    || (c.place == InputSent && Ran(c, Input))
    || (c.place == WithdrawSent && LaneAt(c, Withdraw, Lost))
    || (c.place in {Redeposit, RefundCrediting} && c.returned)
  }

  /** So for the output. */
  predicate OutputUnseen(c: Case) {
    c.place in {DepositSent, DepositCrediting} && c.credited
  }

  /** The LP's balance keeps the swap's input for a withdrawal or a refund. */
  predicate KeepsInput(c: Case) {
    Unpaid(c, Withdraw) || Unpaid(c, Payout) || Unqueued(c, Withdraw) || Unqueued(c, Payout) || InputUnseen(c)
  }

  function OwedOut(c: Case, t: Terms): int {
    If(Unpaid(c, Credit), t.Credited()) + If(Unqueued(c, Credit) || OutputUnseen(c), t.received)
    + If(Unpaid(c, Internal) || Unqueued(c, Internal), t.output)
  }

  /** `lane_outflow` and `unqueued_lane_outflow`. The rows of internal swaps filled in
      earlier rounds are queued before a round prices, and the round itself subtracts its own. */
  function OutflowIn(c: Case, t: Terms): int {
    If(Unsettled(c, Withdraw), t.amount) + If(Unsettled(c, Payout), t.amount)
    + If(Unqueued(c, Withdraw), t.amount) + If(Unqueued(c, Payout), t.amount)
  }

  function OutflowOut(c: Case, t: Terms): int {
    If(Unsettled(c, Credit), t.Credited()) + If(Unqueued(c, Credit), t.received)
    + If(Unsettled(c, Internal), t.output) + If(Unqueued(c, Internal), t.output)
  }

  function HeldIn(c: Case, t: Terms): int {
    If(Ran(c, Input), t.amount) + If(HasMoved(c, Internal), t.amount) + If(c.copied, t.amount)
    - If(Ran(c, Lifi), t.amount) + If(c.givenBack, t.back) - If(HasMoved(c, Payout), t.amount)
  }

  function HeldOut(c: Case, t: Terms): int {
    If(c.delivered, t.received) - If(HasMoved(c, Credit), t.Credited()) - If(HasMoved(c, Internal), t.output)
  }

  function Of(m: Measure, s: Swap, k: nat): int {
    var c, t := s.c, s.terms;
    match m
    case Held =>
      If(k == t.source, HeldIn(c, t)) + If(k == t.dest, HeldOut(c, t))
    case Unmined =>
      If(k == t.source, If(Live(c, Lifi), t.amount) + If(Live(c, Refund), t.amount))
      + If(k == t.dest, If(Live(c, Deposit), t.received))
    case Claim =>
      If(k == t.source, If(Live(c, Lifi), t.amount) + If(Live(c, Refund), t.amount))
      + If(k == t.dest, If(Live(c, Deposit), t.received) + If(AwaitsDeposit(c), t.received))
    case Counted =>
      If(k == t.source, If(Listed(c, Lifi), t.amount) + If(Listed(c, Refund), t.amount))
      + If(k == t.dest, If(Listed(c, Deposit), t.received) + If(AwaitsDeposit(c), t.received))
    case Owed =>
      If(k == t.source, If(KeepsInput(c), t.amount)) + If(k == t.dest, OwedOut(c, t))
    case Outflow =>
      If(k == t.source, OutflowIn(c, t)) + If(k == t.dest, OutflowOut(c, t))
  }

  function Total(m: Measure, swaps: seq<Swap>, k: nat): int {
    if swaps == [] then 0 else Total(m, swaps[..|swaps| - 1], k) + Of(m, swaps[|swaps| - 1], k)
  }

  lemma {:induction false} TotalUpdate(m: Measure, swaps: seq<Swap>, i: nat, s: Swap, k: nat)
    requires i < |swaps|
    ensures Total(m, swaps[i := s], k) == Total(m, swaps, k) - Of(m, swaps[i], k) + Of(m, s, k)
  {
    hide Of;
    var last := |swaps| - 1;
    if i < last {
      TotalUpdate(m, swaps[..last], i, s, k);
      assert swaps[i := s][..last] == swaps[..last][i := s];
    } else {
      assert swaps[i := s][..last] == swaps[..last];
    }
  }

  lemma TotalAppend(m: Measure, swaps: seq<Swap>, s: Swap, k: nat)
    ensures Total(m, swaps + [s], k) == Total(m, swaps, k) + Of(m, s, k)
  {
    assert (swaps + [s])[..|swaps|] == swaps;
  }

  lemma Pair(m: Measure, a: Swap, b: Swap)
    ensures Total(m, [a, b], 0) == Of(m, a, 0) + Of(m, b, 0)
  {
    hide Of;
    TotalAppend(m, [], a, 0);
    TotalAppend(m, [a], b, 0);
    assert [] + [a] == [a] && [a] + [b] == [a, b];
  }

  // ---- Conservation ----

  lemma RanAfter(c: Case, act: Act, kind: EvmKind)
    requires Inv(c) && Enabled(c, act)
    ensures Ran(Apply(c, act), kind) <==> Ran(c, kind) || act == OnEvm(kind, Execute)
    ensures act == OnEvm(kind, Execute) ==> !Ran(c, kind)
  {
    hide Enabled, Apply, Proves, Rank;
    assert kind in c.evm ==> TxOk(c.evm[kind]);
    TxChange(c, act, kind);
  }

  lemma MovedAfter(c: Case, act: Act, lane: LaneKind)
    requires Enabled(c, act)
    ensures HasMoved(Apply(c, act), lane) <==> HasMoved(c, lane) || act == OnLane(lane, Moved)
    ensures act == OnLane(lane, Moved) ==> !HasMoved(c, lane)
  {
    hide Enabled, Apply;
    RowChange(c, act, lane);
  }

  /** An output comes in once, and so does what LiFi gives back or a copy moves. */
  lemma ComesOnce(c: Case, act: Act)
    requires Enabled(c, act)
    ensures act == Deliver ==> !c.delivered
    ensures act == GiveBack ==> !c.givenBack
    ensures act == CopyInput ==> !c.copied
  {
    hide InputMoved, LifiRan;
  }

  lemma DeliveredAfter(c: Case, act: Act)
    requires Enabled(c, act)
    ensures Apply(c, act).delivered <==> c.delivered || act == Deliver
  {
    if !Comes(act) {
      MoneyStays(c, act);
    }
    hide Enabled, NextTx, NextRow;
  }

  lemma GivenBackAfter(c: Case, act: Act)
    requires Enabled(c, act)
    ensures Apply(c, act).givenBack <==> c.givenBack || act == GiveBack
  {
    if !Comes(act) {
      MoneyStays(c, act);
    }
    hide Enabled, NextTx, NextRow;
  }

  lemma CopiedAfter(c: Case, act: Act)
    requires Enabled(c, act)
    ensures Apply(c, act).copied <==> c.copied || act == CopyInput
  {
    if !Comes(act) {
      MoneyStays(c, act);
    }
    hide Enabled, NextTx, NextRow;
  }

  lemma RanDelta(c: Case, act: Act, kind: EvmKind, x: int)
    requires Inv(c) && Enabled(c, act)
    ensures If(Ran(Apply(c, act), kind), x) == If(Ran(c, kind), x) + If(act == OnEvm(kind, Execute), x)
  {
    RanAfter(c, act, kind);
    hide Inv, Enabled, Apply, Ran;
  }

  lemma MovedDelta(c: Case, act: Act, lane: LaneKind, x: int)
    requires Enabled(c, act)
    ensures If(HasMoved(Apply(c, act), lane), x) == If(HasMoved(c, lane), x) + If(act == OnLane(lane, Moved), x)
  {
    MovedAfter(c, act, lane);
    hide Enabled, Apply, HasMoved;
  }

  lemma NetIn(t: Terms, act: Act)
    ensures FlowIn(t, act).Net() ==
              If(act == OnEvm(Input, Execute), t.amount) + If(act == OnLane(Internal, Moved), t.amount)
              + If(act == CopyInput, t.amount) - If(act == OnEvm(Lifi, Execute), t.amount)
              + If(act == GiveBack, t.back) - If(act == OnLane(Payout, Moved), t.amount)
  {
  }

  lemma NetOut(t: Terms, act: Act)
    ensures FlowOut(t, act).Net() ==
              If(act == Deliver, t.received) - If(act == OnLane(Credit, Moved), t.Credited())
              - If(act == OnLane(Internal, Moved), t.output)
  {
  }

  lemma FlagDelta(b: bool, set': bool, x: int)
    requires set' ==> !b
    ensures If(b || set', x) == If(b, x) + If(set', x)
  {
  }

  lemma InConserves(c: Case, act: Act, t: Terms)
    requires Inv(c) && Enabled(c, act)
    ensures HeldIn(Apply(c, act), t) == HeldIn(c, t) + FlowIn(t, act).Net()
  {
    GivenBackAfter(c, act);
    CopiedAfter(c, act);
    ComesOnce(c, act);
    FlagDelta(c.copied, act == CopyInput, t.amount);
    FlagDelta(c.givenBack, act == GiveBack, t.back);
    hide Inv, Apply, Enabled, Ran, HasMoved, If, FlowIn;
    RanDelta(c, act, Input, t.amount);
    RanDelta(c, act, Lifi, t.amount);
    MovedDelta(c, act, Internal, t.amount);
    MovedDelta(c, act, Payout, t.amount);
    NetIn(t, act);
  }

  lemma OutConserves(c: Case, act: Act, t: Terms)
    requires Enabled(c, act)
    ensures HeldOut(Apply(c, act), t) == HeldOut(c, t) + FlowOut(t, act).Net()
  {
    DeliveredAfter(c, act);
    ComesOnce(c, act);
    hide Apply, Enabled, HasMoved, FlowOut;
    MovedDelta(c, act, Internal, t.output);
    MovedDelta(c, act, Credit, t.Credited());
    NetOut(t, act);
  }

  /** Each act changes what the swap holds by exactly what it moves. */
  lemma ActConserves(s: Swap, act: Act, k: nat)
    requires Inv(s.c) && Enabled(s.c, act)
    ensures Of(Held, s.(c := Apply(s.c, act)), k) == Of(Held, s, k) + FlowOf(s.terms, act, k).Net()
  {
    hide Inv, Apply, Enabled, HeldIn, HeldOut, FlowIn, FlowOut;
    InConserves(s.c, act, s.terms);
    OutConserves(s.c, act, s.terms);
  }

  function Sum(w: World): int {
    w.lp + w.wallet + w.transit
  }

  ghost predicate AllOk(w: World) {
    forall i :: 0 <= i < |w.swaps| ==> Inv(w.swaps[i].c)
  }

  lemma EventKeepsOk(w: World, e: Event, k: nat)
    requires AllOk(w) && EnabledAt(w, e)
    ensures AllOk(Next(w, e, k))
  {
    match e
    case Open(_, internal) => NewIsOk(internal);
    case Step(i, act) => KeepsInv(w.swaps[i].c, act);
    hide Inv, Apply, Enabled, FlowOf;
  }

  lemma EventConserves(w: World, e: Event, k: nat)
    requires AllOk(w) && EnabledAt(w, e)
    ensures var w2 := Next(w, e, k);
            Sum(w2) - Total(Held, w2.swaps, k) == Sum(w) - Total(Held, w.swaps, k)
  {
    hide Inv, Apply, Enabled, FlowOf;
    match e
    case Open(terms, internal) => TotalAppend(Held, w.swaps, Swap(terms, New(internal)), k);
    case Step(i, act) =>
      var s := w.swaps[i];
      ActConserves(s, act, k);
      TotalUpdate(Held, w.swaps, i, s.(c := Apply(s.c, act)), k);
  }

  ghost predicate Happens(w: World, events: seq<Event>, k: nat)
    decreases |events|, 0
  {
    events == [] ||
    (Happens(w, events[..|events| - 1], k) && EnabledAt(After(w, events[..|events| - 1], k), events[|events| - 1]))
  }

  ghost function After(w: World, events: seq<Event>, k: nat): World
    requires Happens(w, events, k)
    decreases |events|, 1
  {
    if events == [] then w else Next(After(w, events[..|events| - 1], k), events[|events| - 1], k)
  }

  lemma OneMore(w: World, events: seq<Event>, e: Event, k: nat) returns (more: seq<Event>)
    requires Happens(w, events, k) && EnabledAt(After(w, events, k), e)
    ensures more == events + [e] && Happens(w, more, k) && After(w, more, k) == Next(After(w, events, k), e, k)
  {
    more := events + [e];
    assert more[..|events|] == events;
  }

  /** Over every run, in every token: Privana balance, wallet and transit together
      are the starting float and what the swaps hold. */
  lemma {:induction false} Conservation(w: World, events: seq<Event>, k: nat)
    requires w.swaps == [] && Happens(w, events, k)
    ensures AllOk(After(w, events, k))
    ensures Sum(After(w, events, k)) == Sum(w) + Total(Held, After(w, events, k).swaps, k)
  {
    if events != [] {
      Conservation(w, events[..|events| - 1], k);
      EventKeepsOk(After(w, events[..|events| - 1], k), events[|events| - 1], k);
      EventConserves(After(w, events[..|events| - 1], k), events[|events| - 1], k);
    }
  }

  // ---- What each step holds ----

  /** What a swap at its place may hold of its input and of its output token. */
  predicate Due(c: Case, t: Terms, held: int, out: int) {
    match c.place
    case Scheduled => held == Copied(c, t) && out == 0
    case Pricing => held == Copied(c, t) && out == 0
    case InternalSent => (held == Copied(c, t) && out == 0) || (held == t.amount && out == -(t.output as int))
    case InputSent => (held == 0 || held == t.amount) && out == 0
    case WithdrawSent => held == t.amount && out == 0
    // A crash may fall between queueing the LiFi tx and recording it.
    case ExecuteFunding => (held == t.amount && out == 0) || Swapped(c, t, held, out)
    case ExecuteSent => (held == t.amount && out == 0) || Swapped(c, t, held, out)
    case ExecuteBridging => Swapped(c, t, held, out)
    case DepositSent => held == 0 && out == t.received
    case DepositCrediting => held == 0 && out == t.received
    case CreditSent => held == 0 && (out == t.received || out == t.Kept())
    case Redeposit => held == t.amount && out == 0
    case RefundCrediting => held == t.amount && out == 0
    case RefundPayout => (held == t.amount || held == 0) && out == 0
    case Completed =>
      if c.internal then held == t.amount && out == -(t.output as int) else held == 0 && out == t.Kept()
    case Refunded => held == 0 && out == 0
    case NoFundsMoved => held == Copied(c, t) && out == 0
    case Parked =>
      if c.internal then (held == Copied(c, t) && out == 0) || (held == t.amount && out == -(t.output as int))
      else (held == t.amount && out == 0) || (held == 0 && out in {0, t.Kept()}) || Swapped(c, t, held, out)
  }

  /** The input, if a copy of it moved it. */
  function Copied(c: Case, t: Terms): int {
    If(c.copied, t.amount)
  }

  /** LiFi took the input: it delivered, gave back, or did neither yet. */
  predicate Swapped(c: Case, t: Terms, held: int, out: int) {
    held == If(c.givenBack, t.back) && (out == 0 || (out == t.received && !c.givenBack))
  }

  /** The facts behind it, one per write. */
  lemma Facts(c: Case)
    requires Inv(c)
    ensures Ran(c, Input) ==> InputSent in c.been
    ensures WithdrawSent in c.been ==> Ran(c, Input)
    ensures Ran(c, Lifi) ==> ExecuteFunding in c.been
    ensures HasMoved(c, Internal) ==> InternalSent in c.been
    ensures HasMoved(c, Credit) ==> CreditSent in c.been
    ensures HasMoved(c, Payout) ==> RefundPayout in c.been
    ensures c.delivered ==> Ran(c, Lifi)
    ensures c.givenBack ==> Ran(c, Lifi) && !c.delivered
    ensures c.copied ==> !Ran(c, Input) && !HasMoved(c, Internal)
  {
    assert Apart(c);
    assert WithdrawSent in c.been ==> Proves(c, WithdrawSent);
    assert forall k <- c.evm :: TxOk(c.evm[k]);
  }

  lemma OutputFacts(c: Case)
    requires Inv(c)
    ensures ExecuteBridging in c.been ==> Ran(c, Lifi)
    ensures DepositSent in c.been ==> Ran(c, Lifi) && c.delivered
    ensures CreditSent in c.been ==> DepositSent in c.been
    ensures ExecuteFunding in c.been ==> WithdrawSent in c.been
    ensures Redeposit in c.been ==> !Ran(c, Lifi)
    ensures RefundPayout in c.been ==> !Ran(c, Lifi)
  {
    assert forall k <- c.evm :: TxOk(c.evm[k]);
    assert ExecuteBridging in c.been ==> Proves(c, ExecuteBridging);
    assert DepositSent in c.been ==> Proves(c, DepositSent);
    assert ExecuteFunding in c.been ==> Proves(c, ExecuteFunding);
    OutputPath(c);
    RefundPath(c);
  }

  lemma Sides(c: Case)
    requires Inv(c)
    ensures Pricing in c.been || InternalSent in c.been ==> c.internal
    ensures InputSent in c.been ==> !c.internal
    ensures WithdrawSent in c.been ==> InputSent in c.been
    ensures ExecuteSent in c.been ==> ExecuteFunding in c.been
    ensures RefundPayout in c.been ==> WithdrawSent in c.been
    ensures Redeposit in c.been ==> ExecuteFunding in c.been
    ensures c.place in c.been && forall p <- c.been :: Rank(p) <= Rank(c.place)
  {
    assert InternalSent in c.been ==> Proves(c, InternalSent);
    assert Pricing in c.been ==> Proves(c, Pricing);
    assert InputSent in c.been ==> Proves(c, InputSent);
    assert WithdrawSent in c.been ==> Proves(c, WithdrawSent);
    assert ExecuteSent in c.been ==> Proves(c, ExecuteSent);
    assert RefundCrediting in c.been ==> Proves(c, RefundCrediting);
    assert ExecuteFunding in c.been ==> Proves(c, ExecuteFunding);
    if RefundPayout in c.been {
      assert Proves(c, RefundPayout);
    }
    RefundPath(c);
  }

  lemma StartDue(c: Case, t: Terms)
    requires Inv(c) && c.place in {Scheduled, Pricing, InternalSent, InputSent, WithdrawSent, ExecuteFunding}
    ensures Due(c, t, HeldIn(c, t), HeldOut(c, t))
  {
    Sides(c);
    Facts(c);
    OutputFacts(c);
    LifiHistory(c);
    hide Inv, Ran, HasMoved;
  }

  lemma OutputDue(c: Case, t: Terms)
    requires Inv(c) && c.place in {ExecuteSent, ExecuteBridging, DepositSent, DepositCrediting, CreditSent}
    ensures Due(c, t, HeldIn(c, t), HeldOut(c, t))
  {
    Sides(c);
    Facts(c);
    OutputFacts(c);
    LifiHistory(c);
    hide Inv, Ran, HasMoved;
  }

  lemma RefundDue(c: Case, t: Terms)
    requires Inv(c) && c.place in {Redeposit, RefundCrediting, RefundPayout}
    ensures Due(c, t, HeldIn(c, t), HeldOut(c, t))
  {
    Sides(c);
    Facts(c);
    OutputFacts(c);
    LifiHistory(c);
    hide Inv, Ran, HasMoved;
  }

  lemma CompletedDue(c: Case, t: Terms)
    requires Inv(c) && c.place == Completed
    ensures Due(c, t, HeldIn(c, t), HeldOut(c, t))
  {
    Sides(c);
    Facts(c);
    OutputFacts(c);
    LifiHistory(c);
    EndFacts(c);
    hide Inv, Ran, HasMoved, Rank;
  }

  lemma RefundedDue(c: Case, t: Terms)
    requires Inv(c) && c.place == Refunded
    ensures Due(c, t, HeldIn(c, t), HeldOut(c, t))
  {
    Sides(c);
    Facts(c);
    OutputFacts(c);
    LifiHistory(c);
    EndFacts(c);
    hide Inv, Ran, HasMoved, Rank;
  }

  lemma NoFundsDue(c: Case, t: Terms)
    requires Inv(c) && c.place == NoFundsMoved
    ensures Due(c, t, HeldIn(c, t), HeldOut(c, t))
  {
    Sides(c);
    Facts(c);
    OutputFacts(c);
    LifiHistory(c);
    EndFacts(c);
    hide Inv, Ran, HasMoved, Rank;
  }

  /** A parked swap holds its input, or its output whole, credited, or not there. */
  lemma ParkedDue(c: Case, t: Terms)
    requires Inv(c) && c.place == Parked
    ensures Due(c, t, HeldIn(c, t), HeldOut(c, t))
  {
    Sides(c);
    Facts(c);
    OutputFacts(c);
    LifiHistory(c);
    hide Inv, Ran, HasMoved, Rank;
  }

  /** What a swap brought in less what it paid out is what its place says. */
  lemma HeldDue(c: Case, t: Terms)
    requires Inv(c)
    ensures Due(c, t, HeldIn(c, t), HeldOut(c, t))
  {
    if c.place in {Scheduled, Pricing, InternalSent, InputSent, WithdrawSent, ExecuteFunding} {
      StartDue(c, t);
    } else if c.place in {ExecuteSent, ExecuteBridging, DepositSent, DepositCrediting, CreditSent} {
      OutputDue(c, t);
    } else if c.place in {Redeposit, RefundCrediting, RefundPayout} {
      RefundDue(c, t);
    } else if c.place == Completed {
      CompletedDue(c, t);
    } else if c.place == Refunded {
      RefundedDue(c, t);
    } else if c.place == NoFundsMoved {
      NoFundsDue(c, t);
    } else {
      ParkedDue(c, t);
    }
    hide Inv, HeldIn, HeldOut;
  }

  lemma EndFacts(c: Case)
    requires Inv(c)
    ensures c.place == Completed ==> if c.internal then HasMoved(c, Internal) else HasMoved(c, Credit)
    ensures c.place == Refunded ==> HasMoved(c, Payout)
    ensures c.place == NoFundsMoved ==> !Ran(c, Input) && !HasMoved(c, Internal)
  {
    if c.place == Completed {
      CompletedIsPaid(c);
      assert Internal in c.lanes ==> Proves(c, InternalSent);
      OutputPath(c);
      LifiHistory(c);
    } else if c.place == Refunded {
      RefundedIsPaid(c);
    } else if c.place == NoFundsMoved {
      NoFundsIsTrue(c);
    }
  }

  /** So over every run each swap's share of the float is what its place says: a
      refunded swap has cost the LP nothing, and a completed one leaves exactly the fee. */
  lemma HeldIsDue(w: World, events: seq<Event>, k: nat, i: nat)
    requires w.swaps == [] && Happens(w, events, k) && i < |After(w, events, k).swaps|
    ensures var s := After(w, events, k).swaps[i];
            && Of(Held, s, k) == If(k == s.terms.source, HeldIn(s.c, s.terms)) +
                 If(k == s.terms.dest, HeldOut(s.c, s.terms))
            && Due(s.c, s.terms, HeldIn(s.c, s.terms), HeldOut(s.c, s.terms))
  {
    Conservation(w, events, k);
    var s := After(w, events, k).swaps[i];
    HeldDue(s.c, s.terms);
  }

  /** What the LP keeps of an ended LiFi swap: the fee, or an input only a copy moved. */
  function KeptOf(s: Swap, k: nat): nat {
    (if s.c.place == Completed && k == s.terms.dest then s.terms.Kept() else 0)
    + if s.c.copied && k == s.terms.source then s.terms.amount else 0
  }

  function AllKept(swaps: seq<Swap>, k: nat): nat {
    if swaps == [] then 0 else AllKept(swaps[..|swaps| - 1], k) + KeptOf(swaps[|swaps| - 1], k)
  }

  /** A LiFi swap that ended without being parked, or has not started. */
  predicate Closed(s: Swap) {
    !s.c.internal && s.c.place in {Completed, Refunded, NoFundsMoved, Scheduled}
  }

  /** Once every swap is such a one, the LP holds its float, the fees and the inputs that
      copies moved, and so no less than it started with. */
  lemma FloatAndFees(w: World, events: seq<Event>, k: nat)
    requires w.swaps == [] && Happens(w, events, k)
    requires forall s <- After(w, events, k).swaps :: Closed(s)
    ensures Sum(After(w, events, k)) == Sum(w) + AllKept(After(w, events, k).swaps, k) >= Sum(w)
  {
    Conservation(w, events, k);
    TotalIsKept(After(w, events, k).swaps, k);
  }

  lemma ClosedHolds(s: Swap, k: nat)
    requires Inv(s.c) && Closed(s)
    ensures Of(Held, s, k) == KeptOf(s, k)
  {
    ClosedDue(s.c, s.terms);
    hide Inv, HeldIn, HeldOut, Closed;
  }

  lemma ClosedDue(c: Case, t: Terms)
    requires Inv(c) && !c.internal && c.place in {Completed, Refunded, NoFundsMoved, Scheduled}
    ensures HeldIn(c, t) == Copied(c, t)
    ensures HeldOut(c, t) == if c.place == Completed then t.Kept() else 0
  {
    HeldDue(c, t);
    if c.place in {Completed, Refunded} {
      EndedUncopied(c);
    }
    hide Inv, HeldIn, HeldOut, Swapped;
  }

  lemma EndedUncopied(c: Case)
    requires Inv(c) && c.place in {Completed, Refunded} && !c.internal
    ensures !c.copied
  {
    assert Apart(c) && Proves(c, c.place);
  }

  lemma {:induction false} TotalIsKept(swaps: seq<Swap>, k: nat)
    requires forall i :: 0 <= i < |swaps| ==> Inv(swaps[i].c)
    requires forall s <- swaps :: Closed(s)
    ensures Total(Held, swaps, k) == AllKept(swaps, k)
  {
    if swaps != [] {
      TotalIsKept(swaps[..|swaps| - 1], k);
      hide Inv, Closed, Of, KeptOf;
      ClosedHolds(swaps[|swaps| - 1], k);
    }
  }
}
