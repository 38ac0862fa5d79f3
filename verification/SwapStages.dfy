/** The handlers of src/services/swap/lifi_pipeline.py and internal_pipeline.py
    for one swap. Each is given the place the swap was at when its stage read it,
    which may be old; what it reads from tables, chains and LiFi it reads now.
    `Valid` says that whatever they did is a run of `SwapCase`. */
module SwapStages {
  import Fees
  import InternalPricing
  import SlippageFloor
  import opened SwapCase
  import opened SwapWallet

  /** A final tx or lane write: what a handler waits for. */
  predicate Final(c: Case, kind: EvmKind) {
    IsAt(c, kind, Mined) || Over(c, kind)
  }

  predicate LaneFinal(c: Case, lane: LaneKind) {
    LaneAt(c, lane, Landed) || LaneAt(c, lane, Lost)
  }

  /** How a swap ends once its payment is final. */
  function EndOf(lane: LaneKind, row: Row): Place {
    if row.status == Landed then (if lane == Payout then Refunded else Completed)
    else if lane == Internal && row.error != Foreign then NoFundsMoved
    else Parked
  }

  lemma EndIsMove(c: Case, lane: LaneKind)
    requires lane != Withdraw && LaneFinal(c, lane) && c.place == QueuedAt(lane)
    ensures CanMove(c, EndOf(lane, c.lanes[lane]))
  {
  }

  /** Where each final write lets its handler move the swap. */
  lemma InputMoves(c: Case)
    ensures c.place == InputSent && IsAt(c, Input, Mined) ==> CanMove(c, WithdrawSent)
    ensures c.place == InputSent && Over(c, Input) ==> CanMove(c, Parked)
    ensures c.place == InputSent && Dead(c, Input) && !c.copied ==> CanMove(c, NoFundsMoved)
  {
  }

  lemma WithdrawMoves(c: Case)
    ensures c.place == WithdrawSent && LaneAt(c, Withdraw, Landed) ==> CanMove(c, ExecuteFunding)
    ensures c.place == WithdrawSent && LaneAt(c, Withdraw, Lost) ==> CanMove(c, RefundPayout)
    ensures c.place == WithdrawSent && Withdraw in c.lanes && c.lanes[Withdraw].error == GivenUp ==> CanMove(c, Parked)
  {
  }

  lemma LifiMoves(c: Case)
    ensures c.place == ExecuteFunding ==> CanMove(c, if Lifi in c.evm then ExecuteSent else Redeposit)
    ensures c.place == ExecuteSent && IsAt(c, Lifi, Mined) ==> CanMove(c, ExecuteBridging) && CanMove(c, Parked)
    ensures c.place == ExecuteSent && IsAt(c, Lifi, Mined) && c.delivered ==> CanMove(c, DepositSent)
    ensures c.place == ExecuteSent && Over(c, Lifi) ==> CanMove(c, if Dead(c, Lifi) then Redeposit else Parked)
  {
  }

  lemma WalletMoves(c: Case, kind: EvmKind)
    requires kind in {Deposit, Refund}
    ensures c.place == SubmittedAt(kind) && IsAt(c, kind, Mined) ==>
              CanMove(c, if kind == Deposit then DepositCrediting else RefundCrediting)
    ensures c.place == SubmittedAt(kind) && Over(c, kind) ==> CanMove(c, Parked)
  {
  }

  lemma UnsentParks(c: Case, kind: EvmKind)
    requires kind in {Deposit, Refund} && kind !in c.evm
    ensures c.place == SubmittedAt(kind) ==> CanMove(c, Parked)
  {
  }

  lemma SubmitAdds(c: Case, kind: EvmKind)
    requires Enabled(c, Submit(kind))
    ensures Apply(c, Submit(kind)).place == c.place && kind in Apply(c, Submit(kind)).evm
  {
  }

  class SwapRow {
    var c: Case
    ghost const start: Case
    ghost var trace: seq<Act>

    ghost predicate Valid()
      reads this
    {
      Inv(start) && Allowed(start, trace) && c == Run(start, trace)
    }

    lemma Known()
      requires Valid()
      ensures Inv(c)
    {
      InvRun(start, trace);
    }

    /** A restart: the row and its writes are as they are. */
    constructor (c: Case)
      requires Inv(c)
      ensures Valid() && this.c == c && trace == []
    {
      this.c, start, trace := c, c, [];
    }

    method Do(act: Act)
      requires Valid() && Enabled(c, act)
      modifies this
      ensures Valid() && c == Apply(old(c), act) && trace == old(trace) + [act]
    {
      RunOne(start, trace, act);
      hide Allowed, Run, Inv, CanTx, CanRow, NextTx, NextRow, InputMoved, LifiRan;
      c := Apply(c, act);
      trace := trace + [act];
    }

    /** Queues a lane write unless its owner has one. */
    method QueueOnce(lane: LaneKind)
      requires Valid() && QueuedAt(lane) in c.been
      modifies this
      ensures Valid() && old(trace) <= trace && |trace| == |old(trace)| + 1
      ensures lane in c.lanes && c == if lane in old(c).lanes then old(c) else old(c).(lanes := c.lanes)
    {
      Do(Queue(lane));
    }

    /** `_update`: moves the row only while it is still where it was read. */
    method Update(seen: Place, p: Place) returns (moved: bool)
      requires Valid() && (c.place == seen ==> CanMove(c, p))
      modifies this
      ensures Valid() && old(trace) <= trace && |trace| <= |old(trace)| + 1
      ensures moved <==> old(c).place == seen
      ensures c == (if moved then At(old(c), p) else old(c))
      ensures (moved ==> c.place == p) && c.evm == old(c).evm && c.lanes == old(c).lanes
    {
      if c.place != seen {
        return false;
      }
      Do(Move(p));
      return true;
    }

    /** `_retry_for_gas`: whether the tx was refused for gas. It stays, or is queued again once `topUp` is due. */
    method RetryForGas(kind: EvmKind, topUp: bool) returns (held: bool)
      requires Valid()
      modifies this
      ensures Valid() && old(trace) <= trace && |trace| <= |old(trace)| + 1
      ensures held <==> kind in old(c).evm && old(c).evm[kind].Held()
      ensures c.place == old(c).place && (kind in c.evm <==> kind in old(c).evm)
      ensures (!held ==> c == old(c) && trace == old(trace))
    {
      hide Allowed, Run, Inv, Enabled, Apply;
      held := kind in c.evm && c.evm[kind].Held();
      if held && topUp {
        HeldIsAttended(kind);
        if c.place == SentAt(kind) {
          QueueAgain(kind);
        }
      }
    }

    method QueueAgain(kind: EvmKind)
      requires Valid() && c.place == SentAt(kind) && kind in c.evm && c.evm[kind].Held()
      modifies this
      ensures Valid() && old(trace) <= trace && |trace| == |old(trace)| + 1
      ensures c == old(c).(evm := old(c).evm[kind := FRESH_TX])
    {
      Do(Retry(kind));
    }

    lemma HeldIsAttended(kind: EvmKind)
      requires Valid() && kind in c.evm && c.evm[kind].Held()
      ensures c.place == SubmittedAt(kind) || c.place == SentAt(kind)
    {
      Known();
      assert Attended(c, kind);
    }

    /** `claim`, for a scheduled swap whose user has nothing in flight. */
    method Claim(seen: Place) returns (moved: bool)
      requires Valid() && seen == Scheduled
      modifies this
      ensures Valid() && old(trace) <= trace && (moved <==> old(c).place == Scheduled)
      ensures moved ==> c.place == if c.internal then Pricing else InputSent
    {
      moved := Update(seen, if c.internal then Pricing else InputSent);
    }

    /** `_settle_input`; `spent` says the user's nonce was spent on something else, and the nonce
        read shows that and a copy of the input alike. */
    method SettleInput(seen: Place, topUp: bool, spent: bool)
      requires Valid() && seen == InputSent && InputSent in c.been
      modifies this
      ensures Valid() && old(trace) <= trace && |trace| <= |old(trace)| + 1
      ensures old(c).place == InputSent && Final(old(c), Input) ==> c.place != InputSent
      ensures c.place == NoFundsMoved && old(c).place == InputSent ==> !spent && !c.copied
      ensures Input in c.evm
    {
      hide Allowed, Run, Inv, CanMove, InputMoved, LifiRan;
      InputMoves(c);
      if Input !in c.evm {
        SubmitInput();
        return;
      }
      hide Apply, Enabled;
      var tx := c.evm[Input];
      if tx.status == Mined {
        var _ := Update(seen, WithdrawSent);
        return;
      }
      if tx.status == Queued {
        return;
      }
      var held := RetryForGas(Input, topUp);
      if held {
        return;
      }
      var pastNonce := spent || c.copied;
      var _ := Update(seen, if tx.Unspent() && !pastNonce then NoFundsMoved else Parked);
    }

    method SubmitInput()
      requires Valid() && InputSent in c.been && Input !in c.evm
      modifies this
      ensures Valid() && old(trace) <= trace && |trace| == |old(trace)| + 1
      ensures c == old(c).(evm := old(c).evm[Input := FRESH_TX])
    {
      Do(Submit(Input));
    }

    /** `_settle_withdraw`; `late` says it waited past the queue's limit. */
    method SettleWithdraw(seen: Place, late: bool)
      requires Valid() && seen == WithdrawSent && WithdrawSent in c.been
      modifies this
      ensures Valid() && old(trace) <= trace && |trace| <= |old(trace)| + 2
      ensures old(c).place == WithdrawSent && LaneFinal(old(c), Withdraw) ==> c.place != WithdrawSent
      ensures Withdraw in c.lanes
    {
      hide Allowed, Run, Inv, Enabled, Apply, CanMove, At;
      if Withdraw !in c.lanes {
        QueueOnce(Withdraw);
        return;
      }
      WithdrawMoves(c);
      var row := c.lanes[Withdraw];
      if row.status == Landed {
        var _ := Update(seen, ExecuteFunding);
      } else if row.status == Lost {
        var _ := Update(seen, RefundPayout);
      } else if row.error == GivenUp {
        var _ := Update(seen, Parked);
      } else if row.status == Waiting && late {
        Cancel();
        WithdrawMoves(c);
        var _ := Update(seen, RefundPayout);
      }
    }

    /** `cancel_queued` of the withdrawal: a row not signed can never land. */
    method Cancel()
      requires Valid() && LaneAt(c, Withdraw, Waiting) && c.lanes[Withdraw].error != GivenUp
      modifies this
      ensures Valid() && old(trace) <= trace && |trace| == |old(trace)| + 1
      ensures c.place == old(c).place && LaneAt(c, Withdraw, Lost)
    {
      Known();
      assert RowOk(c.lanes[Withdraw]);
      Do(OnLane(Withdraw, Fail(Other)));
    }

    /** `_send_lifi_tx`: `funds` and `still` are the two wallet checks, `reply` and `again` LiFi's
        quotes by slippage, and `otherChain` says the tx it built is for another chain. */
    method SendLifiTx(seen: Place, late: bool, amount: nat, funds: Reads, reply: nat -> SlippageFloor.Quote,
                      again: nat -> SlippageFloor.Quote, slippageBps: nat, floor: nat, feeBps: nat, otherChain: bool,
                      still: Reads)
      returns (execution: SlippageFloor.Execution)
      requires Valid() && seen == ExecuteFunding && ExecuteFunding in c.been
      requires feeBps < Fees.BPS && slippageBps <= Fees.BPS
      modifies this
      ensures Valid() && old(trace) <= trace && |trace| <= |old(trace)| + 1
      ensures old(c).place == seen && (Lifi in old(c).evm || late || (Holds(funds, amount) && Holds(still, amount))) ==>
                c.place != seen
      ensures Lifi in c.evm && Lifi !in old(c).evm ==>
                && old(c).place == seen && !late && Holds(funds, amount) && Holds(still, amount) && execution.Accepted?
                && forall received: nat ::
                     received >= execution.quote.toAmountMin ==> Fees.Net(received, feeBps) >= floor
      ensures old(c).place == seen && c.place == Redeposit && !late && !otherChain ==>
                && Lifi !in old(c).evm && Holds(funds, amount)
                && forall toAmount: nat :: SlippageFloor.Consistent(reply, again, toAmount) ==>
                     Fees.Net(toAmount, feeBps) < floor
    {
      hide Allowed, Run, Inv, Enabled, Apply, CanMove, At, Holds, SlippageFloor.Consistent, Fees.Net;
      LifiMoves(c);
      execution := SlippageFloor.BelowFloor;
      if Lifi in c.evm {
        var _ := Update(seen, ExecuteSent);
        return;
      }
      if late {
        var _ := Update(seen, Redeposit);
        return;
      }
      if !Holds(funds, amount) {
        return;
      }
      execution := SlippageFloor.ExecutionQuote(reply, again, slippageBps, floor, feeBps);
      if execution == SlippageFloor.BelowFloor || otherChain {
        var _ := Update(seen, Redeposit);
        return;
      }
      if !Holds(still, amount) || c.place != seen {
        return;
      }
      QueueLifi();
    }

    method QueueLifi()
      requires Valid() && c.place == ExecuteFunding
      modifies this
      ensures Valid() && old(trace) <= trace && |trace| == |old(trace)| + 1
      ensures c.place == ExecuteSent && Lifi in c.evm
    {
      Do(SendLifi);
    }

    /** `_settle_lifi_tx`; a same-chain swap goes on only if its logs show the output paid to the wallet. */
    method SettleLifiTx(seen: Place, topUp: bool, crossChain: bool)
      requires Valid() && seen == ExecuteSent && ExecuteSent in c.been
      modifies this
      ensures Valid() && old(trace) <= trace && |trace| <= |old(trace)| + 1
      ensures old(c).place == ExecuteSent && Final(old(c), Lifi) ==> c.place != ExecuteSent
      ensures c.place == Redeposit && old(c).place == ExecuteSent ==> Dead(old(c), Lifi)
    {
      hide Allowed, Run, Inv, Enabled, Apply, CanMove, At;
      Sent();
      LifiMoves(c);
      var tx := c.evm[Lifi];
      if tx.status == Queued {
        return;
      }
      if tx.status != Mined {
        var held := RetryForGas(Lifi, topUp);
        if !held {
          var _ := Update(seen, if tx.Unspent() then Redeposit else Parked);
        }
        return;
      }
      if crossChain {
        var _ := Update(seen, ExecuteBridging);
        return;
      }
      var shown: bool := *;
      var _ := Update(seen, if shown && c.delivered then DepositSent else Parked);
    }

    lemma Sent()
      requires Valid() && ExecuteSent in c.been
      ensures Lifi in c.evm
    {
      Known();
      assert Proves(c, ExecuteSent);
    }

    /** `_settle_bridge`; `late` says LiFi took too long, `ended` that it ended short of a full delivery. */
    method SettleBridge(seen: Place, late: bool, ended: bool)
      requires Valid() && seen == ExecuteBridging
      modifies this
      ensures Valid() && old(trace) <= trace && |trace| <= |old(trace)| + 1
      ensures c.place == DepositSent && old(c).place == ExecuteBridging ==> old(c).delivered && !late && !ended
    {
      if late || ended {
        var _ := Update(seen, Parked);
        return;
      }
      var reported: bool := *;
      if reported && c.delivered {
        var _ := Update(seen, DepositSent);
      }
    }

    /** What `_holds` is asked for: a deposit's output is among the queued spends already. */
    static function Asked(kind: EvmKind, amount: nat): nat {
      if kind == Deposit then 0 else amount
    }

    /** `_deposit`, of the output, and `_refund`, of the input: a wallet tx to the
        deposit address once the wallet covers it, then its credit. */
    method SettleWalletTx(seen: Place, kind: EvmKind, amount: nat, funds: Reads, late: bool, topUp: bool)
      requires Valid() && kind in {Deposit, Refund} && seen == SubmittedAt(kind) && seen in c.been
      modifies this
      ensures Valid() && old(trace) <= trace && |trace| <= |old(trace)| + 1
      ensures old(c).place == seen && Final(old(c), kind) ==> c.place != seen
      ensures kind in c.evm && kind !in old(c).evm ==> Holds(funds, Asked(kind, amount)) && c.place == seen
      ensures old(c).place == seen && kind !in old(c).evm && Holds(funds, Asked(kind, amount)) && !late ==>
                kind in c.evm
    {
      hide Allowed, Run, Inv, CanTx, CanRow, NextTx, NextRow, Holds;
      if kind !in c.evm {
        SendWalletTx(seen, kind, Holds(funds, Asked(kind, amount)), late);
      } else {
        WatchWalletTx(seen, kind, topUp);
      }
    }

    /** The tx is queued once covered; a redeposit too late to make, or a deposit never covered, parks. */
    method SendWalletTx(seen: Place, kind: EvmKind, covered: bool, late: bool)
      requires Valid() && kind in {Deposit, Refund} && seen == SubmittedAt(kind) && kind !in c.evm
      modifies this
      ensures Valid() && old(trace) <= trace && |trace| <= |old(trace)| + 1
      ensures kind in c.evm ==> covered && c.place == seen
      ensures old(c).place == seen && covered && !late ==> kind in c.evm
    {
      UnsentParks(c, kind);
      hide Allowed, Run, Inv, CanMove, Apply;
      if (kind == Refund && late) || (!covered && late) {
        var _ := Update(seen, Parked);
      } else if covered {
        if c.place == seen {
          Do(Submit(kind));
          SubmitAdds(old(c), kind);
        }
      }
    }

    method WatchWalletTx(seen: Place, kind: EvmKind, topUp: bool)
      requires Valid() && kind in {Deposit, Refund} && seen == SubmittedAt(kind) && seen in c.been && kind in c.evm
      modifies this
      ensures Valid() && old(trace) <= trace && |trace| <= |old(trace)| + 1
      ensures old(c).place == seen && Final(old(c), kind) ==> c.place != seen
    {
      hide Allowed, Run, Inv, Enabled, Apply, CanMove, At;
      WalletMoves(c, kind);
      var status := c.evm[kind].status;
      if status == Mined {
        var _ := Update(seen, if kind == Deposit then DepositCrediting else RefundCrediting);
      } else if status != Queued {
        var held := RetryForGas(kind, topUp);
        if !held {
          var _ := Update(seen, Parked);
        }
      }
    }

    /** `_check_credited`: on once Privana reports the deposit credited. */
    method CheckCredited(seen: Place, late: bool)
      requires Valid() && seen in {DepositCrediting, RefundCrediting}
      modifies this
      ensures Valid() && old(trace) <= trace && |trace| <= |old(trace)| + 1
      ensures c.place == CreditSent && old(c).place == seen == DepositCrediting ==> old(c).credited
      ensures c.place == RefundPayout && old(c).place == seen == RefundCrediting ==> old(c).returned
    {
      var reported: bool := *;
      if reported && (if seen == DepositCrediting then c.credited else c.returned) {
        var _ := Update(seen, if seen == DepositCrediting then CreditSent else RefundPayout);
      } else if late {
        var _ := Update(seen, Parked);
      }
    }

    /** `_credit`, `_settle_refund_payout` and the internal `_settle`: the payment
        is queued once, and the swap ends as its lane row does. */
    method SettlePayment(seen: Place, lane: LaneKind)
      requires Valid() && lane in {Credit, Payout, Internal} && seen == QueuedAt(lane) && seen in c.been
      modifies this
      ensures Valid() && old(trace) <= trace && |trace| <= |old(trace)| + 1
      ensures old(c).place == seen && LaneFinal(old(c), lane) ==> Finished(c.place)
      ensures old(c).place != seen ==> c == old(c)
      ensures lane in c.lanes
    {
      if c.place != seen {
        WrittenByNow(lane);
      }
      hide Allowed, Run, Inv, CanTx, CanRow, NextTx, NextRow, InputMoved, LifiRan;
      if lane !in c.lanes {
        QueueOnce(lane);
        return;
      }
      EndPayment(seen, lane);
    }

    method EndPayment(seen: Place, lane: LaneKind)
      requires Valid() && lane in {Credit, Payout, Internal} && seen == QueuedAt(lane) && lane in c.lanes
      modifies this
      ensures Valid() && old(trace) <= trace && |trace| <= |old(trace)| + 1
      ensures old(c).place == seen && LaneFinal(old(c), lane) ==> Finished(c.place)
      ensures (old(c).place != seen ==> c == old(c)) && c.lanes == old(c).lanes
    {
      var row := c.lanes[lane];
      if row.status in {Landed, Lost} {
        if c.place == seen {
          EndIsMove(c, lane);
        }
        hide CanMove, Allowed, Run, Inv;
        var _ := Update(seen, EndOf(lane, row));
      }
    }

    lemma WrittenByNow(lane: LaneKind)
      requires Valid() && QueuedAt(lane) in c.been && c.place != QueuedAt(lane)
      ensures lane in c.lanes
    {
      Known();
      assert Written(c, lane);
    }

    /** What `_price` does with one claimed internal swap: `reverts` says its simulated input
        or its repricing failed, `outcome` what the fill loop decided, `late` that it waited long. */
    method Price(seen: Place, reverts: bool, outcome: InternalPricing.Outcome, late: bool)
      requires Valid() && seen == Pricing
      modifies this
      ensures Valid() && old(trace) <= trace && |trace| <= |old(trace)| + 1
      ensures old(c).place == Pricing && c.place == InternalSent ==> outcome.Filled? && !reverts
      ensures old(c).place == Pricing && c.place == Pricing ==> outcome.Deferred? && !reverts && !late
      ensures old(c).place != Pricing ==> c == old(c)
    {
      if reverts {
        var _ := Update(seen, NoFundsMoved);
        return;
      }
      match outcome
      case Deferred =>
        if late {
          var _ := Update(seen, NoFundsMoved);
        }
      case Short =>
        var _ := Update(seen, NoFundsMoved);
      case Filled =>
        var _ := Update(seen, InternalSent);
    }
  }
}
