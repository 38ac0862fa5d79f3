/** The LP's Privana balance, in any one token: it keeps what the swaps' lane writes
    will still pay, as long as internal swaps are filled from what is beyond that. */
module SwapReserve {
  import Fees
  import InternalPricing
  import opened Tables
  import opened SwapCase
  import opened SwapLedger

  /** An internal swap is filled: it moves on from pricing. */
  predicate Fills(e: Event) {
    e.Step? && e.act == Move(InternalSent)
  }

  /** What a fill will take of token `k`. */
  function Price(w: World, e: Event, k: nat): nat
    requires Fills(e) && e.swap < |w.swaps|
  {
    var t := w.swaps[e.swap].terms;
    if k == t.dest then t.output else 0
  }

  /** The balance covers all that the lanes will still pay. */
  ghost predicate Backed(w: World, k: nat) {
    w.lp >= Total(Owed, w.swaps, k)
  }

  /** A fill is within the balance beyond what is owed. */
  ghost predicate Within(w: World, e: Event, k: nat)
    requires EnabledAt(w, e)
  {
    Fills(e) ==> w.lp >= Price(w, e, k) + Total(Owed, w.swaps, k)
  }

  /** What the pricing loop checks: the balance less what the tables say is going out. */
  ghost predicate Passes(w: World, e: Event, k: nat)
    requires EnabledAt(w, e)
  {
    Fills(e) && k == w.swaps[e.swap].terms.dest ==> w.lp >= Price(w, e, k) + Total(Outflow, w.swaps, k)
  }

  // ---- What an act does to what is owed ----

  lemma UnpaidAfter(c: Case, act: Act, lane: LaneKind)
    requires Inv(c) && Enabled(c, act)
    ensures var d := Apply(c, act);
            && (Unpaid(d, lane) ==> Unpaid(c, lane) || (act == Queue(lane) && lane !in c.lanes))
            && (act == OnLane(lane, Moved) ==> Unpaid(c, lane) && !Unpaid(d, lane))
  {
    assert lane in c.lanes ==> RowOk(c.lanes[lane]);
    hide *;
    RowChange(c, act, lane);
    NewRowQueues(c, act, lane);
    UnpaidRow(c, act, Apply(c, act), lane);
  }

  lemma UnpaidRow(c: Case, act: Act, d: Case, lane: LaneKind)
    requires RowAfter(c, act, d, lane) && (lane in c.lanes ==> RowOk(c.lanes[lane]))
    ensures Unpaid(d, lane) ==> Unpaid(c, lane) || lane !in c.lanes
    ensures Unpaid(d, lane) ==> lane in d.lanes
    ensures act == OnLane(lane, Moved) ==> Unpaid(c, lane) && !Unpaid(d, lane)
  {
    hide QueuedAt;
  }

  lemma NewRowQueues(c: Case, act: Act, lane: LaneKind)
    requires Enabled(c, act)
    ensures lane in Apply(c, act).lanes && lane !in c.lanes ==> act == Queue(lane)
    ensures act == Queue(lane) ==> Apply(c, act).place == c.place
  {
    hide CanMove, CanTx, CanRow, NextTx, NextRow;
  }

  /** A lane write is queued only where the swap still counts as about to queue it. */
  lemma QueuedWasUnqueued(c: Case, lane: LaneKind)
    requires Inv(c) && Enabled(c, Queue(lane)) && lane !in c.lanes
    ensures Unqueued(c, lane)
  {
    assert Written(c, lane);
  }

  lemma UnqueuedAfter(c: Case, act: Act, lane: LaneKind)
    requires Enabled(c, act)
    ensures Unqueued(Apply(c, act), lane) ==> lane !in c.lanes && Apply(c, act).place == QueuedAt(lane)
    ensures Unqueued(Apply(c, act), lane) ==> Unqueued(c, lane) || Arrives(c, act, QueuedAt(lane))
    ensures act == Queue(lane) ==> !Unqueued(Apply(c, act), lane)
  {
    hide CanTx, CanRow, NextTx, NextRow, CanMove;
  }

  /** The act moves the swap to `p`. */
  predicate Arrives(c: Case, act: Act, p: Place) {
    c.place != p && (act == Move(p) || (act == SendLifi && p == ExecuteSent))
  }

  lemma PlaceAfter(c: Case, act: Act)
    requires Enabled(c, act)
    ensures Apply(c, act).place == c.place || Arrives(c, act, Apply(c, act).place)
    ensures act.Move? ==> Apply(c, act).lanes == c.lanes && Apply(c, act).evm == c.evm
  {
    if !act.Move? && !act.SendLifi? {
      PlaceStays(c, act);
    }
    hide Enabled, NextTx, NextRow;
  }

  lemma FlagsAfter(c: Case, act: Act)
    requires Enabled(c, act)
    ensures Apply(c, act).credited <==> c.credited || act == CreditDeposit
    ensures Apply(c, act).returned <==> c.returned || act == CreditRefund
  {
    if !Comes(act) {
      MoneyStays(c, act);
    }
    hide Enabled, NextTx, NextRow;
  }

  // ---- The input ----

  /** A swap that has not been at `p` yet has made no write there. */
  lemma NotYet(c: Case, p: Place)
    requires Inv(c) && Rank(c.place) < Rank(p)
    ensures p !in c.been
    ensures forall k <- c.evm :: SubmittedAt(k) != p
    ensures forall l <- c.lanes :: QueuedAt(l) != p
  {
  }

  lemma ArrivesWithdraw(c: Case, act: Act)
    requires Inv(c) && Enabled(c, act) && Arrives(c, act, WithdrawSent)
    ensures InputUnseen(c) && Withdraw !in c.lanes
  {
    NotYet(c, WithdrawSent);
    assert Input in c.evm ==> TxOk(c.evm[Input]);
    hide Inv, Rank;
  }

  lemma ArrivesPayout(c: Case, act: Act)
    requires Enabled(c, act) && Arrives(c, act, RefundPayout)
    ensures InputUnseen(c)
  {
  }

  lemma ArrivesInput(c: Case, act: Act)
    requires Inv(c) && Enabled(c, act) && Arrives(c, act, InputSent)
    ensures Input !in c.evm
  {
    NotYet(c, InputSent);
    hide Inv, Rank;
  }

  lemma ArrivesRedeposit(c: Case, act: Act)
    requires Inv(c) && Enabled(c, act) && Arrives(c, act, Redeposit)
    ensures !c.returned
  {
    NotYet(c, Redeposit);
    assert Caused(c);
    hide Inv, Rank;
  }

  lemma ArrivesRefundCrediting(c: Case, act: Act)
    requires Enabled(c, act) && Arrives(c, act, RefundCrediting)
    ensures c.place == Redeposit
  {
  }

  lemma UnseenAfter(c: Case, act: Act)
    requires Inv(c) && Enabled(c, act) && InputUnseen(Apply(c, act))
    ensures KeepsInput(c) || act == OnEvm(Input, Execute) || act == CreditRefund
  {
    var d := Apply(c, act);
    PlaceAfter(c, act);
    FlagsAfter(c, act);
    RanAfter(c, act, Input);
    LostAfter(c, act);
    if Arrives(c, act, d.place) {
      if d.place == InputSent {
        ArrivesInput(c, act);
      } else if d.place == WithdrawSent {
        ArrivesWithdraw(c, act);
      } else if d.place == Redeposit {
        ArrivesRedeposit(c, act);
      } else {
        ArrivesRefundCrediting(c, act);
      }
    }
    hide Inv, Apply, Enabled;
  }

  lemma LostAfter(c: Case, act: Act)
    requires Enabled(c, act)
    ensures LaneAt(Apply(c, act), Withdraw, Lost) ==> LaneAt(c, Withdraw, Lost) || Unpaid(c, Withdraw)
  {
    RowChange(c, act, Withdraw);
    hide Apply, Enabled;
  }

  /** A withdrawal or refund due was due before, or the input was there for it. */
  lemma DueBefore(c: Case, act: Act, lane: LaneKind)
    requires Inv(c) && Enabled(c, act) && lane in {Withdraw, Payout}
    requires Unpaid(Apply(c, act), lane) || Unqueued(Apply(c, act), lane)
    ensures Unpaid(c, lane) || Unqueued(c, lane) || InputUnseen(c)
  {
    UnpaidAfter(c, act, lane);
    UnqueuedAfter(c, act, lane);
    if act == Queue(lane) && lane !in c.lanes {
      QueuedWasUnqueued(c, lane);
    } else if Unqueued(Apply(c, act), lane) && !Unqueued(c, lane) {
      if lane == Withdraw {
        ArrivesWithdraw(c, act);
      } else {
        ArrivesPayout(c, act);
      }
    }
    hide Inv, Apply, Enabled, Unpaid, Unqueued, InputUnseen;
  }

  /** What is kept of the input was there before, or came in with this act. */
  lemma InputAfter(c: Case, act: Act)
    requires Inv(c) && Enabled(c, act) && KeepsInput(Apply(c, act))
    ensures KeepsInput(c) || act == OnEvm(Input, Execute) || act == CreditRefund
  {
    var d := Apply(c, act);
    hide Inv, Apply, Enabled, Unpaid, Unqueued, InputUnseen;
    if InputUnseen(d) {
      UnseenAfter(c, act);
    } else if Unpaid(d, Withdraw) || Unqueued(d, Withdraw) {
      DueBefore(c, act, Withdraw);
    } else {
      DueBefore(c, act, Payout);
    }
  }

  /** While a withdrawal may still pay, no refund is due. */
  lemma WithdrawAlone(c: Case)
    requires Inv(c) && Unpaid(c, Withdraw)
    ensures Payout !in c.lanes && c.place !in {InputSent, Redeposit, RefundCrediting, RefundPayout}
  {
    assert RefundPayout in c.been ==> Proves(c, RefundPayout);
    assert RefundCrediting in c.been ==> Proves(c, RefundCrediting);
    assert Redeposit in c.been ==> Proves(c, Redeposit);
    assert ExecuteFunding in c.been ==> Proves(c, ExecuteFunding);
    assert QueuedAt(Withdraw) in c.been && Rank(WithdrawSent) <= Rank(c.place);
    assert Payout in c.lanes ==> QueuedAt(Payout) in c.been;
  }

  /** And while a refund may, no withdrawal is. */
  lemma PayoutAlone(c: Case)
    requires Inv(c) && Unpaid(c, Payout)
    ensures !Unpaid(c, Withdraw) && c.place !in {InputSent, WithdrawSent, Redeposit, RefundCrediting}
  {
    if Unpaid(c, Withdraw) {
      WithdrawAlone(c);
    }
    assert QueuedAt(Payout) in c.been && Rank(RefundPayout) <= Rank(c.place);
  }

  lemma InputPaid(c: Case, act: Act)
    requires Inv(c) && Enabled(c, act) && act in {OnLane(Withdraw, Moved), OnLane(Payout, Moved)}
    ensures KeepsInput(c) && !KeepsInput(Apply(c, act))
  {
    var d := Apply(c, act);
    UnpaidAfter(c, act, Withdraw);
    UnpaidAfter(c, act, Payout);
    if act == OnLane(Withdraw, Moved) {
      WithdrawAlone(c);
    } else {
      PayoutAlone(c);
    }
    hide Inv, CanRow, NextRow;
  }

  // ---- The output ----

  predicate KeepsOutput(c: Case) {
    Unqueued(c, Credit) || OutputUnseen(c)
  }

  lemma ArrivesDeposit(c: Case, act: Act)
    requires Inv(c) && Enabled(c, act) && Arrives(c, act, DepositSent)
    ensures !c.credited
  {
    NotYet(c, DepositSent);
    assert Caused(c);
    hide Inv, Rank;
  }

  lemma ArrivesCredit(c: Case, act: Act)
    requires Enabled(c, act) && (Arrives(c, act, CreditSent) || Arrives(c, act, DepositCrediting))
    ensures Arrives(c, act, CreditSent) ==> OutputUnseen(c)
    ensures Arrives(c, act, DepositCrediting) ==> c.place == DepositSent
  {
  }

  lemma OutputAfter(c: Case, act: Act)
    requires Inv(c) && Enabled(c, act) && KeepsOutput(Apply(c, act))
    ensures KeepsOutput(c) || act == CreditDeposit
  {
    var d := Apply(c, act);
    UnqueuedAfter(c, act, Credit);
    if OutputUnseen(d) {
      OutputUnseenAfter(c, act);
    } else if !Unqueued(c, Credit) {
      ArrivesCredit(c, act);
    }
    hide Inv, Apply, Enabled, Unqueued, OutputUnseen;
  }

  lemma OutputUnseenAfter(c: Case, act: Act)
    requires Inv(c) && Enabled(c, act) && OutputUnseen(Apply(c, act))
    ensures OutputUnseen(c) || act == CreditDeposit
  {
    var d := Apply(c, act);
    PlaceAfter(c, act);
    FlagsAfter(c, act);
    if Arrives(c, act, d.place) {
      if d.place == DepositSent {
        ArrivesDeposit(c, act);
      } else {
        ArrivesCredit(c, act);
      }
    }
    hide Inv, Apply, Enabled;
  }

  /** A credit being queued stops counting as one to queue. */
  lemma CreditQueued(c: Case)
    requires Inv(c) && Enabled(c, Queue(Credit)) && Credit !in c.lanes
    ensures KeepsOutput(c) && !KeepsOutput(Apply(c, Queue(Credit)))
  {
    QueuedWasUnqueued(c, Credit);
  }

  lemma CreditDelta(c: Case, act: Act, credited: nat, received: nat)
    requires Inv(c) && Enabled(c, act) && credited <= received
    ensures var d := Apply(c, act);
            If(Unpaid(d, Credit), credited) + If(KeepsOutput(d), received) <=
              If(Unpaid(c, Credit), credited) + If(KeepsOutput(c), received)
              + If(act == CreditDeposit, received) - If(act == OnLane(Credit, Moved), credited)
  {
    var d := Apply(c, act);
    UnpaidAfter(c, act, Credit);
    if KeepsOutput(d) {
      OutputAfter(c, act);
    }
    if act == Queue(Credit) && Credit !in c.lanes {
      CreditQueued(c);
    }
    hide Inv, Apply, Enabled, Unpaid, KeepsOutput;
  }

  predicate KeepsInternal(c: Case) {
    Unpaid(c, Internal) || Unqueued(c, Internal)
  }

  lemma InternalDelta(c: Case, act: Act, output: nat)
    requires Inv(c) && Enabled(c, act)
    ensures If(KeepsInternal(Apply(c, act)), output) <=
              If(KeepsInternal(c), output) + If(act == Move(InternalSent), output) -
              If(act == OnLane(Internal, Moved), output)
  {
    UnpaidAfter(c, act, Internal);
    UnqueuedAfter(c, act, Internal);
    if act == Queue(Internal) && Internal !in c.lanes {
      QueuedWasUnqueued(c, Internal);
    }
    hide Inv, Apply, Enabled, Unpaid;
  }

  lemma InputDelta(c: Case, act: Act, amount: nat)
    requires Inv(c) && Enabled(c, act)
    ensures If(KeepsInput(Apply(c, act)), amount) <=
              If(KeepsInput(c), amount) + If(act == OnEvm(Input, Execute), amount) + If(act == CreditRefund, amount)
              - If(act == OnLane(Withdraw, Moved), amount) - If(act == OnLane(Payout, Moved), amount)
  {
    if KeepsInput(Apply(c, act)) {
      InputAfter(c, act);
    }
    if act in {OnLane(Withdraw, Moved), OnLane(Payout, Moved)} {
      InputPaid(c, act);
    }
    hide Inv, Apply, Enabled, KeepsInput;
  }

  lemma BalanceFlow(t: Terms, act: Act)
    ensures FlowIn(t, act).lp >=
              If(act == OnEvm(Input, Execute), t.amount) + If(act == CreditRefund, t.amount)
              - If(act == OnLane(Withdraw, Moved), t.amount) - If(act == OnLane(Payout, Moved), t.amount)
    ensures FlowOut(t, act).lp ==
              If(act == CreditDeposit, t.received) - If(act == OnLane(Credit, Moved), t.Credited())
              - If(act == OnLane(Internal, Moved), t.output)
  {
    hide Fees.Net;
  }

  /** Outside a fill, what is owed never rises by more than the balance. */
  lemma OwedAfter(s: Swap, act: Act, k: nat)
    requires Inv(s.c) && Enabled(s.c, act)
    ensures Of(Owed, s.(c := Apply(s.c, act)), k) <=
              Of(Owed, s, k) + FlowOf(s.terms, act, k).lp +
              If(act == Move(InternalSent) && k == s.terms.dest, s.terms.output)
  {
    var c, t := s.c, s.terms;
    OwedOutIs(c, t);
    OwedOutIs(Apply(c, act), t);
    InputDelta(c, act, t.amount);
    CreditDelta(c, act, t.Credited(), t.received);
    InternalDelta(c, act, t.output);
    BalanceFlow(t, act);
    hide Inv, Apply, Enabled, KeepsInput, KeepsOutput, KeepsInternal, OwedOut, FlowIn, FlowOut;
  }

  lemma OwedOutIs(c: Case, t: Terms)
    ensures OwedOut(c, t) == If(Unpaid(c, Credit), t.Credited()) + If(KeepsOutput(c), t.received) +
              If(KeepsInternal(c), t.output)
  {
    hide Unpaid, Unqueued, OutputUnseen;
  }

  /** A fill adds just its output. */
  lemma FillOwes(s: Swap, k: nat)
    requires Inv(s.c) && Enabled(s.c, Move(InternalSent))
    ensures FlowOf(s.terms, Move(InternalSent), k).lp == 0
    ensures Of(Owed, s.(c := Apply(s.c, Move(InternalSent))), k) ==
              Of(Owed, s, k) + If(k == s.terms.dest, s.terms.output)
  {
    var c := s.c;
    NotYet(c, InternalSent);
    hide Inv, Rank;
  }

  // ---- When the balance stays backed ----

  lemma NewOwesNothing(terms: Terms, internal: bool, k: nat)
    ensures Of(Owed, Swap(terms, New(internal)), k) == 0
  {
  }

  lemma StepBacks(w: World, e: Event, k: nat)
    requires AllOk(w) && EnabledAt(w, e) && e.Step?
    ensures var w2 := Next(w, e, k);
            w2.lp - Total(Owed, w2.swaps, k) >=
              w.lp - Total(Owed, w.swaps, k) - (if Fills(e) then Price(w, e, k) else 0)
    ensures Fills(e) ==>
              var w2 := Next(w, e, k);
              w2.lp - Total(Owed, w2.swaps, k) == w.lp - Total(Owed, w.swaps, k) - Price(w, e, k)
  {
    var s := w.swaps[e.swap];
    OwedAfter(s, e.act, k);
    TotalUpdate(Owed, w.swaps, e.swap, s.(c := Apply(s.c, e.act)), k);
    if Fills(e) {
      FillOwes(s, k);
    }
    hide Inv, Apply, Enabled, Of, FlowOf, AllOk;
  }

  /** Every step keeps the balance backed, but a fill beyond what is not owed. */
  lemma KeepsBackedIff(w: World, e: Event, k: nat)
    requires AllOk(w) && Backed(w, k) && EnabledAt(w, e)
    ensures Backed(Next(w, e, k), k) <==> Within(w, e, k)
  {
    match e
    case Open(terms, internal) =>
      NewOwesNothing(terms, internal, k);
      TotalAppend(Owed, w.swaps, Swap(terms, New(internal)), k);
    case Step(_, _) =>
      StepBacks(w, e, k);
      hide Next;
  }

  ghost predicate AllWithin(w: World, events: seq<Event>, k: nat)
    requires Happens(w, events, k)
  {
    events == [] ||
    (AllWithin(w, events[..|events| - 1], k) && Within(After(w, events[..|events| - 1], k), events[|events| - 1], k))
  }

  ghost predicate BackedThroughout(w: World, events: seq<Event>, k: nat)
    requires Happens(w, events, k)
  {
    Backed(After(w, events, k), k) && (events == [] || BackedThroughout(w, events[..|events| - 1], k))
  }

  /** In every run of both venues, the LP's balance in a token covers all that its lanes
      will still pay of it, throughout, exactly when every fill is within what is not owed. */
  lemma {:induction false} BackedIff(w: World, events: seq<Event>, k: nat)
    requires w.swaps == [] && w.lp >= 0 && Happens(w, events, k)
    ensures BackedThroughout(w, events, k) <==> AllWithin(w, events, k)
  {
    if events != [] {
      var front := events[..|events| - 1];
      BackedIff(w, front, k);
      Conservation(w, front, k);
      hide AllOk, Backed, Within, Next, EnabledAt;
      if BackedThroughout(w, front, k) {
        KeepsBackedIff(After(w, front, k), events[|events| - 1], k);
      }
    }
  }

  // ---- What the check sees of it ----

  /** What of token `k` came in for the swap and is not counted yet. */
  function Unseen(s: Swap, k: nat): nat {
    (if k == s.terms.source && InputUnseen(s.c) then s.terms.amount else 0)
    + if k == s.terms.dest && OutputUnseen(s.c) then s.terms.received else 0
  }

  function TotalUnseen(swaps: seq<Swap>, k: nat): nat {
    if swaps == [] then 0 else TotalUnseen(swaps[..|swaps| - 1], k) + Unseen(swaps[|swaps| - 1], k)
  }

  lemma OwedIsSeen(s: Swap, k: nat)
    ensures Of(Owed, s, k) <= Of(Outflow, s, k) + Unseen(s, k)
  {
    hide Unsettled, Unqueued, InputUnseen, OutputUnseen, Fees.Net;
  }

  lemma {:induction false} TotalIsSeen(swaps: seq<Swap>, k: nat)
    ensures Total(Owed, swaps, k) <= Total(Outflow, swaps, k) + TotalUnseen(swaps, k)
  {
    if swaps != [] {
      TotalIsSeen(swaps[..|swaps| - 1], k);
      OwedIsSeen(swaps[|swaps| - 1], k);
      hide Of, Unseen;
    }
  }

  ghost predicate AllPass(w: World, events: seq<Event>, k: nat)
    requires Happens(w, events, k)
  {
    events == [] ||
    (AllPass(w, events[..|events| - 1], k)
      && PassesUnhurried(After(w, events[..|events| - 1], k), events[|events| - 1], k))
  }

  /** The check passes, and nothing that came in waits to be counted. */
  ghost predicate PassesUnhurried(w: World, e: Event, k: nat)
    requires EnabledAt(w, e)
  {
    Passes(w, e, k) && (Fills(e) ==> TotalUnseen(w.swaps, k) == 0)
  }

  /** So the check of the pricing loop suffices as long as no money that came in for
      another swap waits to be counted when it is made. */
  lemma {:induction false} CheckSuffices(w: World, events: seq<Event>, k: nat)
    requires w.swaps == [] && w.lp >= 0 && Happens(w, events, k) && AllPass(w, events, k)
    ensures BackedThroughout(w, events, k)
  {
    PassingIsWithin(w, events, k);
    BackedIff(w, events, k);
  }

  lemma {:induction false} PassingIsWithin(w: World, events: seq<Event>, k: nat)
    requires w.swaps == [] && w.lp >= 0 && Happens(w, events, k) && AllPass(w, events, k)
    ensures AllWithin(w, events, k)
  {
    if events != [] {
      var front := events[..|events| - 1];
      PassingIsWithin(w, front, k);
      BackedIff(w, front, k);
      PassIsWithin(After(w, front, k), events[|events| - 1], k);
      hide PassesUnhurried, Within, Backed, EnabledAt, Next;
    }
  }

  lemma PassIsWithin(w: World, e: Event, k: nat)
    requires EnabledAt(w, e) && PassesUnhurried(w, e, k) && Backed(w, k)
    ensures Within(w, e, k)
  {
    TotalIsSeen(w.swaps, k);
    hide Total, TotalUnseen;
  }

  // ---- A round of the pricing loop ----

  /** A fill changes the check's figure by just its price. */
  lemma FillCounts(s: Swap, k: nat)
    requires Inv(s.c) && Enabled(s.c, Move(InternalSent))
    ensures Of(Outflow, s.(c := Apply(s.c, Move(InternalSent))), k) ==
              Of(Outflow, s, k) + If(k == s.terms.dest, s.terms.output)
  {
    NotYet(s.c, InternalSent);
    hide Inv, Rank;
  }

  lemma FillStep(w: World, e: Event, k: nat)
    requires AllOk(w) && EnabledAt(w, e) && Fills(e)
    ensures var w2 := Next(w, e, k);
            && AllOk(w2) && w2.lp == w.lp && |w2.swaps| == |w.swaps|
            && Total(Outflow, w2.swaps, k) == Total(Outflow, w.swaps, k) + Price(w, e, k)
            && forall i: nat :: i < |w.swaps| && i != e.swap ==> w2.swaps[i] == w.swaps[i]
  {
    var s := w.swaps[e.swap];
    EventKeepsOk(w, e, k);
    FillOwes(s, k);
    FillCounts(s, k);
    TotalUpdate(Outflow, w.swaps, e.swap, s.(c := Apply(s.c, e.act)), k);
    hide Inv, Apply, Enabled, Of, FlowOf, AllOk;
  }

  /** The swaps a round prices, with what they are priced at. */
  ghost predicate Round(w: World, ids: seq<nat>, cands: seq<InternalPricing.Candidate>) {
    && |ids| == |cands|
    && (forall i, j :: 0 <= i < j < |ids| ==> ids[i] != ids[j])
    && forall i :: 0 <= i < |ids| ==>
         && ids[i] < |w.swaps| && w.swaps[ids[i]].c.place == Pricing
         && cands[i] == InternalPricing.Candidate(w.swaps[ids[i]].terms.dest, w.swaps[ids[i]].terms.output)
  }

  /** Reads of token `k` answer the balance less what is going out, or nothing. */
  ghost predicate TrueReads(w: World, cands: seq<InternalPricing.Candidate>, replies: seq<Option<int>>, k: nat) {
    && |replies| == |cands|
    && forall i :: 0 <= i < |cands| && cands[i].token == k && replies[i].Some? ==>
         replies[i].value == w.lp - Total(Outflow, w.swaps, k)
  }

  /** The fills the first `n` of them come to. */
  function Filled(ids: seq<nat>, cands: seq<InternalPricing.Candidate>, replies: seq<Option<int>>, n: nat): seq<Event>
    requires n <= |ids| == |cands| == |replies|
  {
    if n == 0 then []
    else
      Filled(ids, cands, replies, n - 1)
      + if InternalPricing.Decided(cands, replies, n - 1).Filled? then [Step(ids[n - 1], Move(InternalSent))] else []
  }

  ghost predicate EachPasses(w: World, events: seq<Event>, k: nat)
    requires Happens(w, events, k)
  {
    events == [] ||
    (EachPasses(w, events[..|events| - 1], k) && Passes(After(w, events[..|events| - 1], k), events[|events| - 1], k))
  }

  /** `end` is where a round stands after `n` candidates. */
  ghost predicate Stands(w: World, end: World, ids: seq<nat>, cands: seq<InternalPricing.Candidate>,
                         replies: seq<Option<int>>, n: nat, k: nat)
    requires n <= |ids| == |cands| == |replies|
  {
    && AllOk(end) && |end.swaps| == |w.swaps| && end.lp == w.lp
    && (forall i :: n <= i < |ids| && ids[i] < |w.swaps| ==> end.swaps[ids[i]] == w.swaps[ids[i]])
    && match InternalPricing.Left(cands, replies, n, k)
       case None => Total(Outflow, end.swaps, k) == Total(Outflow, w.swaps, k)
       case Some(left) => left == end.lp - Total(Outflow, end.swaps, k)
  }

  /** One candidate, filled or not. */
  lemma StandsOn(w: World, mid: World, ids: seq<nat>, cands: seq<InternalPricing.Candidate>, replies: seq<Option<int>>,
                 n: nat, k: nat)
    requires Round(w, ids, cands) && TrueReads(w, cands, replies, k) && n < |ids|
    requires Stands(w, mid, ids, cands, replies, n, k)
    ensures var e := Step(ids[n], Move(InternalSent));
            if InternalPricing.Decided(cands, replies, n).Filled? then
              && EnabledAt(mid, e) && Passes(mid, e, k)
              && Stands(w, Next(mid, e, k), ids, cands, replies, n + 1, k)
            else Stands(w, mid, ids, cands, replies, n + 1, k)
  {
    if InternalPricing.Decided(cands, replies, n).Filled? {
      StandsFilled(w, mid, ids, cands, replies, n, k);
    }
    hide AllOk, Total, Next, Apply, Enabled, CanMove, EnabledAt;
  }

  lemma StandsFilled(w: World, mid: World, ids: seq<nat>, cands: seq<InternalPricing.Candidate>,
                     replies: seq<Option<int>>, n: nat, k: nat)
    requires Round(w, ids, cands) && TrueReads(w, cands, replies, k) && n < |ids|
    requires Stands(w, mid, ids, cands, replies, n, k) && InternalPricing.Decided(cands, replies, n).Filled?
    ensures var e := Step(ids[n], Move(InternalSent));
            && EnabledAt(mid, e) && Passes(mid, e, k)
            && Stands(w, Next(mid, e, k), ids, cands, replies, n + 1, k)
  {
    CanFill(mid, ids[n]);
    hide AllOk, Total, Next, Apply, Enabled, CanMove, EnabledAt;
    FillStep(mid, Step(ids[n], Move(InternalSent)), k);
  }

  lemma CanFill(w: World, i: nat)
    requires i < |w.swaps| && w.swaps[i].c.place == Pricing
    ensures EnabledAt(w, Step(i, Move(InternalSent)))
  {
  }

  /** Where the fills of the first `n` candidates lead, each having passed the check. */
  ghost predicate Filling(w: World, ids: seq<nat>, cands: seq<InternalPricing.Candidate>, replies: seq<Option<int>>,
                          n: nat, k: nat)
    requires n <= |ids| == |cands| == |replies|
  {
    var events := Filled(ids, cands, replies, n);
    && Happens(w, events, k) && EachPasses(w, events, k)
    && Stands(w, After(w, events, k), ids, cands, replies, n, k)
  }

  /** When the reads answer the truth and nothing else happens meanwhile, the loop's map of
      what is left makes every fill of a round pass the check at its own time. */
  lemma {:induction false} RoundPasses(w: World, ids: seq<nat>, cands: seq<InternalPricing.Candidate>,
                                       replies: seq<Option<int>>, n: nat, k: nat)
    requires AllOk(w) && Round(w, ids, cands) && TrueReads(w, cands, replies, k)
    requires n <= |ids| == |cands| == |replies|
    ensures Filling(w, ids, cands, replies, n, k)
  {
    hide *;
    if n > 0 {
      RoundPasses(w, ids, cands, replies, n - 1, k);
      FillingOn(w, ids, cands, replies, n - 1, k);
    } else {
      FillingNone(w, ids, cands, replies, k);
    }
  }

  lemma FillingNone(w: World, ids: seq<nat>, cands: seq<InternalPricing.Candidate>, replies: seq<Option<int>>, k: nat)
    requires AllOk(w) && |ids| == |cands| == |replies|
    ensures Filling(w, ids, cands, replies, 0, k)
  {
  }

  lemma FillingOn(w: World, ids: seq<nat>, cands: seq<InternalPricing.Candidate>, replies: seq<Option<int>>,
                  n: nat, k: nat)
    requires Round(w, ids, cands) && TrueReads(w, cands, replies, k)
    requires n < |ids| == |cands| == |replies| && Filling(w, ids, cands, replies, n, k)
    ensures Filling(w, ids, cands, replies, n + 1, k)
  {
    var before, e := Filled(ids, cands, replies, n), Step(ids[n], Move(InternalSent));
    StandsOn(w, After(w, before, k), ids, cands, replies, n, k);
    hide InternalPricing.Decided, InternalPricing.Left, Passes, EnabledAt, Next, Stands, Round, TrueReads;
    if InternalPricing.Decided(cands, replies, n).Filled? {
      var more := OneMore(w, before, e, k);
      assert more[..|before|] == before;
    } else {
      assert before + [] == before;
    }
  }

  // ---- A fill that takes what another swap brought in ----

  /** A LiFi swap whose input has just been mined. */
  function Arrived(): Case {
    Case(false, InputSent, {Scheduled, InputSent}, map[Input := Tx(EvmStatus.Mined, true, true, false)], map[],
         false, false, false, false, false, false)
  }

  /** An internal swap being priced. */
  function Priced(): Case {
    Case(true, Pricing, {Scheduled, Pricing}, map[], map[], false, false, false, false, false, false)
  }

  lemma ArrivedOk()
    ensures Inv(Arrived()) && CanMove(Arrived(), WithdrawSent)
  {
  }

  lemma PricedOk()
    ensures Inv(Priced()) && CanMove(Priced(), InternalSent)
  {
  }

  /** The sums of one swap of each kind, before and after it moves on. */
  lemma ArrivedSums(x: Swap)
    requires x.c == Arrived() && x.terms.source == 0 && x.terms.dest == 1
    ensures Of(Owed, x, 0) == x.terms.amount && Of(Outflow, x, 0) == 0
    ensures Of(Outflow, x.(c := At(x.c, WithdrawSent)), 0) == x.terms.amount
  {
    hide OwedOut, OutflowOut;
  }

  lemma PricedSums(y: Swap)
    requires y.c == Priced() && y.terms.source == 1 && y.terms.dest == 0
    ensures Of(Owed, y, 0) == 0 && Of(Outflow, y, 0) == 0
    ensures Of(Outflow, y.(c := At(y.c, InternalSent)), 0) == y.terms.output
  {
    hide KeepsInput, OutflowIn, Fees.Net;
  }

  lemma Moves(w: World, w2: World, i: nat, p: Place)
    requires i < |w.swaps| && CanMove(w.swaps[i].c, p)
    requires w2 == w.(swaps := w.swaps[i := w.swaps[i].(c := At(w.swaps[i].c, p))])
    ensures EnabledAt(w, Step(i, Move(p))) && Next(w, Step(i, Move(p)), 0) == w2
  {
    hide CanMove, At;
  }

  /** The balance covers what is owed and the check passes, since the input that came in for
      the other swap is not counted before that swap moves on; once it has, the balance
      falls short of what the tables themselves count as going out. */
  lemma FillTakesArrived(n: nat) returns (w: World, fill: Event, next: Event)
    requires n > 0
    ensures AllOk(w) && Backed(w, 0) && EnabledAt(w, fill) && Fills(fill) && Passes(w, fill, 0)
    ensures Happens(w, [fill, next], 0)
    ensures var end := After(w, [fill, next], 0); end.lp == n < n + n == Total(Outflow, end.swaps, 0)
  {
    var x, y := Swap(Terms(0, 1, n, n, 0, 0, 0), Arrived()), Swap(Terms(1, 0, n, n, 0, n, 0), Priced());
    var x2, y2 := x.(c := At(x.c, WithdrawSent)), y.(c := At(y.c, InternalSent));
    w, fill, next := World([x, y], n, 0, 0), Step(1, Move(InternalSent)), Step(0, Move(WithdrawSent));
    var w2, end := World([x, y2], n, 0, 0), World([x2, y2], n, 0, 0);
    StartOk(w, x, y);
    TakenSums(x, y, x2, y2);
    hide Of, Arrived, Priced, At, Total, Inv, CanMove, Enabled, Apply, FlowOf, Next, AllOk;
    assert [x, y][1 := y2] == [x, y2] && [x, y2][0 := x2] == [x2, y2];
    Moves(w, w2, 1, InternalSent);
    Moves(w2, end, 0, WithdrawSent);
    TwoEvents(w, w2, end, fill, next);
  }

  lemma StartOk(w: World, x: Swap, y: Swap)
    requires w.swaps == [x, y] && x.c == Arrived() && y.c == Priced()
    ensures AllOk(w) && CanMove(x.c, WithdrawSent) && CanMove(y.c, InternalSent)
  {
    ArrivedOk();
    PricedOk();
    hide Inv, CanMove, Arrived, Priced;
  }

  lemma TakenSums(x: Swap, y: Swap, x2: Swap, y2: Swap)
    requires x.c == Arrived() && x.terms.source == 0 && x.terms.dest == 1 && x2 == x.(c := At(x.c, WithdrawSent))
    requires y.c == Priced() && y.terms.source == 1 && y.terms.dest == 0 && y2 == y.(c := At(y.c, InternalSent))
    ensures Total(Owed, [x, y], 0) == x.terms.amount && Total(Outflow, [x, y], 0) == 0
    ensures Total(Outflow, [x2, y2], 0) == x.terms.amount + y.terms.output
  {
    ArrivedSums(x);
    PricedSums(y);
    hide Of, Arrived, Priced, At, Total;
    Pair(Owed, x, y);
    Pair(Outflow, x, y);
    Pair(Outflow, x2, y2);
  }

  lemma TwoEvents(w: World, w2: World, end: World, a: Event, b: Event)
    requires EnabledAt(w, a) && Next(w, a, 0) == w2 && EnabledAt(w2, b) && Next(w2, b, 0) == end
    ensures Happens(w, [a, b], 0) && After(w, [a, b], 0) == end
  {
    var none: seq<Event> := [];
    assert Happens(w, none, 0) && After(w, none, 0) == w;
    hide Happens, After, EnabledAt, Next;
    var one := OneMore(w, none, a, 0);
    var two := OneMore(w, one, b, 0);
    assert two == [a, b];
  }
}
