/** The layers joined: what the swaps take for granted of a queued tx and of a lane
    row is what the batcher and the lane do with one. */
module Layers {
  import opened Tables
  import E = EvmQueue
  import L = LaneQueue
  import LaneCopies
  import opened LaneOnce
  import S = SwapCase
  import W = WithdrawQueue

  // ---- A row of the batcher, as a swap sees it ----

  ghost predicate Reached(w: E.World, i: nat) {
    exists v <- w.reached :: v.row == i
  }

  ghost predicate RanOk(w: E.World, i: nat) {
    exists n: nat :: E.MinedFor(w, n, i) && w.mined[n].ok
  }

  function StatusOf(s: E.Status): S.EvmStatus {
    match s
    case Queued => S.EvmStatus.Queued
    case Mined => S.EvmStatus.Mined
    case Reverted => S.EvmStatus.Reverted
    case Failed => S.EvmStatus.Failed
  }

  /** While a row is queued an attempt counts as out once a node may have it. */
  ghost function TxOf(w: E.World, i: nat): S.Tx
    requires i < |w.rows|
  {
    var r := w.rows[i];
    S.Tx(StatusOf(r.status), if r.status == E.Queued then Reached(w, i) else r.Signed(), RanOk(w, i),
         r.status == E.Failed && !r.Signed() && r.error == E.GasRefused)
  }

  /** One event of a swap's tx. */
  ghost predicate TxStep(t: S.Tx, u: S.Tx) {
    exists e :: S.CanTx(t, e) && u == S.NextTx(t, e)
  }

  /** None, one, or the two by which an attempt no node was known to have loses its nonce. */
  ghost predicate TxSteps(t: S.Tx, u: S.Tx) {
    || u == t || TxStep(t, u)
    || (S.CanTx(t, S.Sign) && TxStep(S.NextTx(t, S.Sign), u))
  }

  lemma OutWasSigned(w: E.World, i: nat)
    requires E.Inv(w) && i < |w.rows|
    ensures Reached(w, i) ==> w.rows[i].Signed()
    ensures RanOk(w, i) ==> w.rows[i].Signed() && Reached(w, i)
  {
    if Reached(w, i) {
      var v :| v in w.reached && v.row == i;
      assert v in w.rows[i].attempts;
    }
    if RanOk(w, i) {
      var n: nat :| E.MinedFor(w, n, i);
      MinedWasReached(w, n, i);
    }
  }

  /** A mined version was out, and sits at the row's nonce. */
  lemma MinedWasReached(w: E.World, n: nat, i: nat)
    requires E.Inv(w) && E.MinedFor(w, n, i)
    ensures i < |w.rows| && w.rows[i].Signed() && n == w.rows[i].Held() && Reached(w, i)
  {
    var v := w.mined[n].version;
    assert v in w.reached && v in w.rows[i].attempts;
  }

  /** A tx the batcher settled ran exactly when it says so. */
  lemma TxOfOk(w: E.World, i: nat)
    requires E.Inv(w) && i < |w.rows|
    ensures S.TxOk(TxOf(w, i))
    ensures w.rows[i].status != E.Queued ==> (RanOk(w, i) <==> w.rows[i].status == E.Mined)
  {
    var r := w.rows[i];
    assert E.Truthful(w, i);
    forall n: nat | E.MinedFor(w, n, i) ensures r.Signed() && n == r.Held() && Reached(w, i) {
      MinedWasReached(w, n, i);
    }
    if r.status in {E.Mined, E.Reverted} {
      assert E.MinedFor(w, r.nonce.value, i);
    }
    hide E.Inv;
  }

  lemma SameOut(w: E.World, act: E.Act, i: nat)
    requires E.Enabled(w, act)
    ensures Reached(E.Apply(w, act), i) <==> Reached(w, i) || (act.Reach? && act.version.row == i)
  {
    var w2 := E.Apply(w, act);
    if act.Reach? && act.version.row == i {
      assert act.version in w2.reached;
    }
    if Reached(w, i) {
      var v :| v in w.reached && v.row == i;
      assert v in w2.reached;
    }
  }

  predicate MinesOk(act: E.Act, i: nat) {
    act.Mine? && act.entry.Ours? && act.entry.ok && act.entry.version.row == i
  }

  lemma SameRan(w: E.World, act: E.Act, i: nat)
    requires E.Enabled(w, act)
    ensures RanOk(E.Apply(w, act), i) <==> RanOk(w, i) || MinesOk(act, i)
  {
    var w2 := E.Apply(w, act);
    assert forall n: nat :: n < |w.mined| ==> w2.mined[n] == w.mined[n];
    if MinesOk(act, i) {
      assert E.MinedFor(w2, |w.mined|, i) && w2.mined[|w.mined|].ok;
    }
    if RanOk(w, i) {
      var n: nat :| E.MinedFor(w, n, i) && w.mined[n].ok;
      assert E.MinedFor(w2, n, i) && w2.mined[n].ok;
    }
  }

  /** A version can be mined only while its row is queued, and then none was yet. */
  lemma MinesQueued(w: E.World, act: E.Act, i: nat)
    requires E.Inv(w) && E.Enabled(w, act) && i < |w.rows| && act.Mine? && act.entry.Ours? && act.entry.version.row == i
    ensures w.rows[i].status == E.Queued && Reached(w, i) && !RanOk(w, i)
  {
    var v := act.entry.version;
    assert v in w.rows[i].attempts && v.nonce == w.rows[i].Held() == |w.mined|;
    assert E.Truthful(w, i);
    forall n: nat | E.MinedFor(w, n, i) ensures n == |w.mined| {
      MinedWasReached(w, n, i);
    }
  }

  /** What an act does to the row itself. */
  lemma RowAfter(w: E.World, act: E.Act, i: nat)
    requires E.Enabled(w, act) && i < |w.rows|
    ensures var w2 := E.Apply(w, act);
            && i < |w2.rows|
            && match act
               case Requeue(ids, at) => w2.rows[i] == if i in ids then E.Again(w.rows[i], at) else w.rows[i]
               case Attempt(j, v, at) =>
                 w2.rows[i] ==
                 if i == j then w.rows[i].(attempts := w.rows[i].attempts + [v], updatedAt := at) else w.rows[i]
               case Erase(j) => w2.rows[i] == if i == j then w.rows[i].(attempts := []) else w.rows[i]
               case Seen(j, v, ok, at) =>
                 w2.rows[i] ==
                 if i == j then
                   E.Finish(w.rows[i], if ok then E.Mined else E.Reverted, Some(v), Some(v.nonce), E.NoError, at)
                 else w.rows[i]
               case Unsent(j, error, at) =>
                 w2.rows[i] == if i == j then E.Finish(w.rows[i], E.Failed, None, None, error, at) else w.rows[i]
               case Taken(j, at) =>
                 w2.rows[i] ==
                 if i == j then E.Finish(w.rows[i], E.Failed, None, Some(w.rows[i].Held()), E.OtherError, at)
                 else w.rows[i]
               case _ => w2.rows[i] == w.rows[i]
  {
  }

  lemma Stepped(t: S.Tx, e: S.EvmEvent, u: S.Tx)
    requires S.CanTx(t, e) && u == S.NextTx(t, e)
    ensures TxStep(t, u)
  {
  }

  lemma MineSteps(w: E.World, act: E.Act, i: nat)
    requires E.Inv(w) && E.Enabled(w, act) && i < |w.rows| && act.Mine?
    ensures TxSteps(TxOf(w, i), TxOf(E.Apply(w, act), i))
  {
    var w2 := E.Apply(w, act);
    SameOut(w, act, i);
    SameRan(w, act, i);
    if act.entry.Ours? && act.entry.version.row == i {
      MinesQueued(w, act, i);
    }
    hide E.Inv, Reached, RanOk, TxStep;
    if MinesOk(act, i) {
      Stepped(TxOf(w, i), S.Execute, TxOf(w2, i));
    }
  }

  lemma ReachSteps(w: E.World, act: E.Act, i: nat)
    requires E.Inv(w) && E.Enabled(w, act) && i < |w.rows| && act.Reach?
    ensures TxSteps(TxOf(w, i), TxOf(E.Apply(w, act), i))
  {
    var w2 := E.Apply(w, act);
    SameOut(w, act, i);
    SameRan(w, act, i);
    hide E.Inv, Reached, RanOk, TxStep;
    if act.version.row == i && w.rows[i].status == E.Queued {
      Stepped(TxOf(w, i), S.Sign, TxOf(w2, i));
    }
  }

  lemma SeenSteps(w: E.World, act: E.Act, i: nat)
    requires E.Inv(w) && E.Enabled(w, act) && i < |w.rows| && act.Seen? && act.row == i
    ensures TxSteps(TxOf(w, i), TxOf(E.Apply(w, act), i))
  {
    var w2, v := E.Apply(w, act), act.version;
    SameOut(w, act, i);
    SameRan(w, act, i);
    assert v.row == i && v.nonce == w.rows[i].Held() && E.MinedFor(w, v.nonce, i);
    MinedWasReached(w, v.nonce, i);
    forall n: nat | E.MinedFor(w, n, i) ensures n == v.nonce {
      MinedWasReached(w, n, i);
    }
    assert RanOk(w, i) <==> act.ok;
    hide E.Inv, Reached, RanOk, TxStep;
    Stepped(TxOf(w, i), if act.ok then S.Mine else S.Revert, TxOf(w2, i));
  }

  lemma UnsentSteps(w: E.World, act: E.Act, i: nat)
    requires E.Inv(w) && E.Enabled(w, act) && i < |w.rows| && act.Unsent? && act.row == i
    ensures TxSteps(TxOf(w, i), TxOf(E.Apply(w, act), i))
  {
    var w2 := E.Apply(w, act);
    SameOut(w, act, i);
    SameRan(w, act, i);
    OutWasSigned(w, i);
    hide E.Inv, Reached, RanOk, TxStep;
    Stepped(TxOf(w, i), S.Refuse(act.error == E.GasRefused), TxOf(w2, i));
  }

  lemma TakenSteps(w: E.World, act: E.Act, i: nat)
    requires E.Inv(w) && E.Enabled(w, act) && i < |w.rows| && act.Taken? && act.row == i
    ensures TxSteps(TxOf(w, i), TxOf(E.Apply(w, act), i))
  {
    var w2 := E.Apply(w, act);
    SameOut(w, act, i);
    SameRan(w, act, i);
    forall n: nat | E.MinedFor(w, n, i) ensures n == w.rows[i].Held() {
      MinedWasReached(w, n, i);
    }
    assert !RanOk(w, i);
    hide E.Inv, Reached, RanOk, TxStep;
    Stepped(S.NextTx(TxOf(w, i), S.Sign), S.Lose, TxOf(w2, i));
  }

  /** Any other act leaves the swap's tx as it was. */
  lemma OtherSteps(w: E.World, act: E.Act, i: nat)
    requires E.Inv(w) && E.Enabled(w, act) && i < |w.rows| && !act.Mine? && !act.Reach?
    requires (act.Seen? || act.Unsent? || act.Taken? ==> act.row != i) && (act.Requeue? ==> i !in act.ids)
    ensures TxOf(E.Apply(w, act), i) == TxOf(w, i)
  {
    var w2 := E.Apply(w, act);
    SameOut(w, act, i);
    SameRan(w, act, i);
    RowAfter(w, act, i);
    hide E.Inv, Reached, RanOk, E.Apply;
  }

  lemma RequeueSteps(w: E.World, act: E.Act, i: nat)
    requires E.Inv(w) && E.Enabled(w, act) && i < |w.rows| && act.Requeue? && i in act.ids
    ensures TxOf(w, i).status == S.EvmStatus.Failed && !TxOf(w, i).signed && TxOf(E.Apply(w, act), i) == S.FRESH_TX
  {
    SameOut(w, act, i);
    SameRan(w, act, i);
    OutWasSigned(w, i);
    hide E.Inv, Reached, RanOk;
  }

  /** Whatever the batcher, a node or the chain does with a row of the batcher is, to the
      swap it is for, one of the events it allows for, or the row's requeue. */
  lemma BatcherRefines(w: E.World, act: E.Act, i: nat)
    requires E.Inv(w) && E.Enabled(w, act) && i < |w.rows|
    ensures var w2 := E.Apply(w, act);
            && i < |w2.rows|
            && if act.Requeue? && i in act.ids then
                 TxOf(w, i).status == S.EvmStatus.Failed && !TxOf(w, i).signed && TxOf(w2, i) == S.FRESH_TX
               else TxSteps(TxOf(w, i), TxOf(w2, i))
  {
    RowAfter(w, act, i);
    hide E.Inv, E.Apply, E.Enabled, TxOf, TxStep;
    if act.Requeue? && i in act.ids {
      RequeueSteps(w, act, i);
    } else if act.Mine? {
      MineSteps(w, act, i);
    } else if act.Reach? {
      ReachSteps(w, act, i);
    } else if act.Seen? && act.row == i {
      SeenSteps(w, act, i);
    } else if act.Unsent? && act.row == i {
      UnsentSteps(w, act, i);
    } else if act.Taken? && act.row == i {
      TakenSteps(w, act, i);
    } else {
      OtherSteps(w, act, i);
    }
  }

  // ---- A row of a transfer lane, as a swap sees it ----

  function LaneStatusOf(s: L.Status): S.LaneStatus {
    match s
    case Queued => S.LaneStatus.Waiting
    case Sent => S.LaneStatus.Sent
    case Landed => S.LaneStatus.Landed
    case Failed => S.LaneStatus.Lost
  }

  function ErrorOf(e: L.Error): S.LaneError {
    match e
    case NoError => S.LaneError.NoError
    case ForeignSpend => S.LaneError.Foreign
    case Outcome => S.LaneError.Other
    case Cancelled => S.LaneError.Other
  }

  ghost function RowOf(w: L.World, i: nat): S.Row
    requires i < |w.rows|
  {
    S.Row(LaneStatusOf(w.rows[i].status), Moved(w, i), ErrorOf(w.rows[i].error))
  }

  ghost predicate RowStep(r: S.Row, lane: S.LaneKind, q: S.Row) {
    exists e :: S.CanRow(r, lane, e) && q == S.NextRow(r, lane, e)
  }

  /** A lane row that LANDED moved, and one that FAILED on its own did not. */
  lemma RowOfOk(w: L.World, i: nat)
    requires L.Inv(w) && LaneCopies.AllMovedOk(w) && i < |w.rows|
    ensures S.RowOk(RowOf(w, i))
  {
    assert L.RowOk(w, i) && LaneCopies.MovedOk(w, i);
    if w.rows[i].status == L.Landed {
      assert LaneCopies.MovedAt(w, w.rows[i].nonce.value, i);
    }
    hide L.Inv, LaneCopies.AllMovedOk;
  }

  /** A guarded move is of a sent row that has not moved. */
  lemma MovesOnce(w: L.World, act: L.Act, i: nat)
    requires L.Inv(w) && LaneCopies.AllMovedOk(w) && L.Enabled(w, act) && LaneCopies.Guarded(w, act)
    requires i < |w.rows| && Moves(act, i)
    ensures w.rows[i].status == L.Sent && !Moved(w, i) && L.Apply(w, act).rows == w.rows
  {
    assert L.RowOk(w, i) && LaneCopies.MovedOk(w, i);
    hide L.NextAfterLanded, L.Batch;
  }

  lemma LaneStepped(r: S.Row, lane: S.LaneKind, e: S.LaneEvent, q: S.Row)
    requires S.CanRow(r, lane, e) && q == S.NextRow(r, lane, e)
    ensures RowStep(r, lane, q)
  {
  }

  lemma MoveStep(w: L.World, act: L.Act, i: nat, lane: S.LaneKind)
    requires L.Inv(w) && LaneCopies.AllMovedOk(w) && L.Enabled(w, act) && LaneCopies.Guarded(w, act)
    requires i < |w.rows| && Moves(act, i)
    ensures RowStep(RowOf(w, i), lane, RowOf(L.Apply(w, act), i))
  {
    MovesOnce(w, act, i);
    MovedAfter(w, act, i);
    hide L.Inv, LaneCopies.AllMovedOk, L.Enabled, LaneCopies.Guarded, L.Apply, Moved, RowStep;
    LaneStepped(RowOf(w, i), lane, S.LaneEvent.Moved, RowOf(L.Apply(w, act), i));
  }

  /** What settling a sent row is to its swap. */
  function SettleEvent(r: L.Row, counter: nat): Option<S.LaneEvent>
    requires r.Signed() && r.nonce.Some?
  {
    match L.Settled(r, counter).status
    case Sent => None
    case Landed => Some(S.Land)
    case Failed => Some(S.Fail(ErrorOf(L.Settled(r, counter).error)))
    case Queued => Some(S.Again)
  }

  lemma SettleStep(w: L.World, i: nat, counter: nat, lane: S.LaneKind)
    requires L.Inv(w) && LaneCopies.AllMovedOk(w) && L.Enabled(w, L.Settle(i, counter)) && lane != S.Withdraw
    requires LaneCopies.Guarded(w, L.Settle(i, counter))
    ensures var w2 := L.Apply(w, L.Settle(i, counter));
            RowOf(w2, i) == RowOf(w, i) || RowStep(RowOf(w, i), lane, RowOf(w2, i))
  {
    var act := L.Settle(i, counter);
    var w2 := L.Apply(w, act);
    var r := w.rows[i];
    MovedAfter(w, act, i);
    SettleFacts(w, i, counter);
    hide L.Inv, LaneCopies.AllMovedOk, L.Enabled, LaneCopies.Guarded, Moved, RowStep, L.NextAfterLanded;
    var event := SettleEvent(r, counter);
    if event.Some? {
      LaneStepped(RowOf(w, i), lane, event.value, RowOf(w2, i));
    }
  }

  /** A row settles as landed only if it moved, and as its own failure or queued again only if not. */
  lemma SettleFacts(w: L.World, i: nat, counter: nat)
    requires L.Inv(w) && LaneCopies.AllMovedOk(w) && L.Enabled(w, L.Settle(i, counter))
    requires LaneCopies.Guarded(w, L.Settle(i, counter))
    ensures var r := w.rows[i];
            && (r.Last().report == L.Mined ==> Moved(w, i))
            && (r.Last().Dead() && counter <= r.nonce.value ==> !Moved(w, i))
  {
    var r := w.rows[i];
    hide L.NextAfterLanded;
    assert L.RowOk(w, i) && LaneCopies.MovedOk(w, i);
    if r.Last().report == L.Mined {
      assert LaneCopies.MovedAt(w, r.nonce.value, i);
    }
    forall n: nat | LaneCopies.MovedAt(w, n, i) ensures n == r.nonce.value {
    }
  }

  lemma SignStep(w: L.World, act: L.Act, i: nat, lane: S.LaneKind)
    requires L.Enabled(w, act) && act.Sign? && i < |w.rows|
    ensures var w2 := L.Apply(w, act);
            i < |w2.rows| && (RowOf(w2, i) == RowOf(w, i) || RowStep(RowOf(w, i), lane, RowOf(w2, i)))
  {
    var w2 := L.Apply(w, act);
    MovedAfter(w, act, i);
    L.SignRows(w, act);
    hide L.Enabled, L.Apply, Moved, RowStep;
    if i in w2.batch {
      var k :| 0 <= k < |w2.batch| && w2.batch[k] == i;
      assert w2.rows[w2.batch[k]] == L.Signed(w.rows[i], act.counter + k, k == 0);
      LaneStepped(RowOf(w, i), lane, S.Signed, RowOf(w2, i));
    }
  }

  lemma RestSteps(w: L.World, act: L.Act, i: nat)
    requires L.Enabled(w, act) && i < |w.rows| && !act.Sign? && !Moves(act, i) && act != L.Cancel(i)
    requires act.Settle? ==> act.row != i
    ensures i < |L.Apply(w, act).rows| && RowOf(L.Apply(w, act), i) == RowOf(w, i)
  {
    MovedAfter(w, act, i);
    hide Moved, L.NextAfterLanded, L.Batch;
  }

  /** Whatever a transfer lane, its batcher, other senders or the chain do with a row is, to
      the swap it is for, nothing or one of the events it allows for, as long as the step is
      guarded; transfers are not cancelled. */
  lemma LaneRefines(w: L.World, act: L.Act, i: nat, lane: S.LaneKind)
    requires L.Inv(w) && LaneCopies.AllMovedOk(w) && L.Enabled(w, act) && LaneCopies.Guarded(w, act)
    requires i < |w.rows| && lane != S.Withdraw && act != L.Cancel(i)
    ensures var w2 := L.Apply(w, act);
            i < |w2.rows| && (RowOf(w2, i) == RowOf(w, i) || RowStep(RowOf(w, i), lane, RowOf(w2, i)))
  {
    if act.Sign? {
      SignStep(w, act, i, lane);
    } else if act.Settle? && act.row == i {
      SettleStep(w, i, act.counter, lane);
    } else if Moves(act, i) {
      MovesOnce(w, act, i);
      MoveStep(w, act, i, lane);
    } else {
      RestSteps(w, act, i);
    }
  }

  // ---- A withdrawal, as a swap sees it ----

  function WithdrawStatusOf(s: W.Status): S.LaneStatus {
    match s
    case Queued => S.LaneStatus.Waiting
    case Sent => S.LaneStatus.Sent
    case Landed => S.LaneStatus.Landed
    case Failed => S.LaneStatus.Lost
  }

  /** A refusal shows only once the row failed. */
  function WithdrawErrorOf(r: W.Row): S.LaneError {
    if r.status == W.Failed then S.LaneError.Other
    else if r.error == W.GivenUp then S.LaneError.GivenUp
    else S.LaneError.NoError
  }

  ghost function WithdrawOf(w: W.World, i: nat): S.Row
    requires i < |w.rows|
  {
    S.Row(WithdrawStatusOf(w.rows[i].status), W.Landing(w, i), WithdrawErrorOf(w.rows[i]))
  }

  /** To its swap, nothing happened to the row, or one event it allows for. */
  ghost predicate WithdrawStep(r: S.Row, q: S.Row) {
    q == r || RowStep(r, S.Withdraw, q)
  }

  /** What an act is to the swap of its row. */
  function WithdrawEvent(act: W.Act): Option<S.LaneEvent> {
    match act
    case Cancel(_) => Some(S.Fail(S.LaneError.Other))
    case Land(_) => Some(S.LaneEvent.Moved)
    case Sign(_, _) => Some(S.Signed)
    case Settle(_, _) => Some(S.Land)
    case Fail(_, _) => Some(S.Fail(S.LaneError.Other))
    case GiveUp(_, _) => Some(S.GiveUp)
    case _ => None
  }

  /** A request lands only for a sent row that has not landed. */
  lemma LandsSent(w: W.World, i: nat)
    requires W.Inv(w) && W.Enabled(w, W.Land(i))
    ensures w.rows[i].status == W.Sent && !W.Landing(w, i)
  {
    assert W.RowOk(w, i);
    hide W.NextAfterLanded;
  }

  /** A refused withdrawal that is failed has not landed. */
  lemma FailsUnlanded(w: W.World, i: nat, counter: nat)
    requires W.Inv(w) && W.Enabled(w, W.Fail(i, counter))
    ensures !W.Landing(w, i) && w.rows[i].error == W.Refusal
  {
    assert W.RowOk(w, i);
    assert W.Gone(w.rows[i], w.clock);
    hide W.NextAfterLanded;
  }

  lemma WithdrawStepped(r: S.Row, e: S.LaneEvent, q: S.Row)
    requires S.CanRow(r, S.Withdraw, e) && q == S.NextRow(r, S.Withdraw, e)
    ensures WithdrawStep(r, q)
  {
  }

  /** Whatever touches another row, sends a request or answers one leaves this one as it was. */
  lemma WithdrawUntouched(w: W.World, act: W.Act, i: nat)
    requires W.Inv(w) && W.Enabled(w, act) && i < |w.rows|
    requires WithdrawEvent(act).Some? ==> act.row != i
    ensures i < |W.Apply(w, act).rows| && WithdrawOf(W.Apply(w, act), i) == WithdrawOf(w, i)
  {
    assert W.RowOk(w, i);
    hide W.NextAfterLanded;
  }

  lemma WithdrawHappens(w: W.World, act: W.Act, i: nat)
    requires W.Inv(w) && W.Enabled(w, act) && i < |w.rows|
    requires WithdrawEvent(act).Some? && act.row == i && (act.Settle? ==> W.Landing(w, i))
    ensures i < |W.Apply(w, act).rows| && WithdrawStep(WithdrawOf(w, i), WithdrawOf(W.Apply(w, act), i))
  {
    assert W.RowOk(w, i);
    if act.Land? {
      LandsSent(w, i);
    } else if act.Fail? {
      FailsUnlanded(w, i, act.counter);
    } else if act.Sign? && act.counter < |w.spends| {
      assert W.SpendOk(w, act.counter);
    }
    hide W.NextAfterLanded, WithdrawStep;
    WithdrawStepped(WithdrawOf(w, i), WithdrawEvent(act).value, WithdrawOf(W.Apply(w, act), i));
  }

  /** A row settled though another spent its nonce is landed without having moved, which no
      swap allows for. */
  lemma SettledByOther(w: W.World, i: nat, counter: nat)
    requires W.Inv(w) && W.Enabled(w, W.Settle(i, counter)) && !W.Landing(w, i)
    ensures i < |W.Apply(w, W.Settle(i, counter)).rows|
    ensures !WithdrawStep(WithdrawOf(w, i), WithdrawOf(W.Apply(w, W.Settle(i, counter)), i))
  {
    assert W.RowOk(w, i);
    hide W.NextAfterLanded;
  }

  /** Whatever the withdraw lane, the service, the clock or the chain do with a withdrawal is,
      to the swap it is for, nothing or one of the events it allows for, exactly unless a row
      is settled whose nonce another withdrawal spent. */
  lemma WithdrawRefinesIff(w: W.World, act: W.Act, i: nat)
    requires W.Inv(w) && W.Enabled(w, act) && i < |w.rows|
    ensures i < |W.Apply(w, act).rows|
    ensures WithdrawStep(WithdrawOf(w, i), WithdrawOf(W.Apply(w, act), i)) <==>
              (act.Settle? && act.row == i ==> W.Landing(w, i))
  {
    hide W.Inv, W.Enabled, W.Apply, WithdrawOf;
    if WithdrawEvent(act) == None || act.row != i {
      WithdrawUntouched(w, act, i);
    } else if !act.Settle? || W.Landing(w, i) {
      WithdrawHappens(w, act, i);
    } else {
      SettledByOther(w, i, act.counter);
    }
  }

  /** In every run in which no one else withdraws for the signer, every act is such an event. */
  lemma WithdrawRefines(w: W.World, acts: seq<W.Act>, act: W.Act, i: nat)
    requires W.Inv(w) && W.Own(w) && W.Allowed(w, acts) && W.Alone(acts) && W.Enabled(W.Run(w, acts), act)
    requires i < |W.Run(w, acts).rows|
    ensures var end := W.Run(w, acts);
            && S.RowOk(WithdrawOf(end, i)) && i < |W.Apply(end, act).rows|
            && WithdrawStep(WithdrawOf(end, i), WithdrawOf(W.Apply(end, act), i))
  {
    var end := W.Run(w, acts);
    W.InvRun(w, acts);
    W.OwnRun(w, acts);
    WithdrawOfOk(end, i);
    if act.Settle? {
      SettlesOwn(end, act.row, act.counter);
    }
    WithdrawRefinesIff(end, act, i);
    hide W.Inv, W.Own, W.Run, W.Enabled, W.Apply, WithdrawOf, WithdrawStep;
  }

  lemma SettlesOwn(w: W.World, i: nat, counter: nat)
    requires W.Inv(w) && W.Own(w) && W.Enabled(w, W.Settle(i, counter))
    ensures W.Landing(w, i)
  {
    assert W.Backed(w, i);
    hide W.Inv, W.NextAfterLanded;
  }

  /** A withdrawal is LANDED only if it moved, and not FAILED if it did. */
  lemma WithdrawOfOk(w: W.World, i: nat)
    requires W.Inv(w) && W.Own(w) && i < |w.rows|
    ensures S.RowOk(WithdrawOf(w, i))
  {
    assert W.RowOk(w, i) && W.Backed(w, i);
    hide W.Own;
  }
}
