/** When each row of a lane moves at most once, copies of its signatures sent by someone
    else counted: the exact condition on a step, and on a run. */
module LaneOnce {
  import opened Tables
  import opened LaneQueue
  import opened LaneCopies

  /** Whether row `i`'s transfer moved, by our tx or by a copy of one of its signatures. */
  ghost predicate Moved(w: World, i: nat) {
    exists n: nat :: MovedAt(w, n, i)
  }

  /** A row that is neither queued nor failed on its own. */
  predicate MayHaveMoved(r: Row) {
    r.status in {Sent, Landed} || (r.status == Failed && r.error == ForeignSpend)
  }

  /** Row `i` moved at most once, and not at all while queued or once failed on its own. */
  ghost predicate Once(w: World, i: nat)
    requires i < |w.rows|
  {
    && (forall n: nat, m: nat :: MovedAt(w, n, i) && MovedAt(w, m, i) ==> n == m)
    && (Moved(w, i) ==> MayHaveMoved(w.rows[i]))
  }

  ghost predicate AllOnce(w: World) {
    forall i: nat :: i < |w.rows| ==> Once(w, i)
  }

  /** Our tx runs only a row that has not moved; a copy moves only one that has not, and is
      neither queued nor failed on its own; and a row that moved though its tx died is
      settled only on a count past its nonce. */
  ghost predicate Single(w: World, act: Act)
    requires Enabled(w, act)
  {
    match act
    case Execute(i) => !Moved(w, i)
    case Elsewhere(s) => s.Replay? ==> !Moved(w, s.row) && MayHaveMoved(w.rows[s.row])
    case Settle(i, counter) => Moved(w, i) && w.rows[i].Last().Dead() ==> counter > w.rows[i].nonce.value
    case _ => true
  }

  /** The act spends the next nonce with row `i`'s transfer. */
  predicate Moves(act: Act, i: nat) {
    act == Execute(i) || (act.Elsewhere? && act.spend.Replay? && act.spend.row == i)
  }

  lemma MovedAtAfter(w: World, act: Act, n: nat, i: nat)
    requires Enabled(w, act)
    ensures MovedAt(Apply(w, act), n, i) <==> MovedAt(w, n, i) || (Moves(act, i) && n == |w.spends|)
  {
    hide NextAfterLanded, Batch;
  }

  lemma MovedAfter(w: World, act: Act, i: nat)
    requires Enabled(w, act)
    ensures Moved(Apply(w, act), i) <==> Moved(w, i) || Moves(act, i)
  {
    var w2 := Apply(w, act);
    forall n: nat ensures MovedAt(w2, n, i) <==> MovedAt(w, n, i) || (Moves(act, i) && n == |w.spends|) {
      MovedAtAfter(w, act, n, i);
    }
    hide Apply, Enabled, MovedAt;
    if Moved(w, i) {
      var n: nat :| MovedAt(w, n, i);
      assert MovedAt(w2, n, i);
    }
    if Moves(act, i) {
      assert MovedAt(w2, |w.spends|, i);
    }
  }

  /** Moving at most once survives an act unless it moves a row that has moved. */
  lemma SingleMoves(w: World, act: Act, i: nat)
    requires Enabled(w, act) && i < |w.rows| && Once(w, i)
    ensures (forall n: nat, m: nat :: MovedAt(Apply(w, act), n, i) && MovedAt(Apply(w, act), m, i) ==> n == m)
            <==> !(Moved(w, i) && Moves(act, i))
  {
    var w2 := Apply(w, act);
    forall n: nat ensures MovedAt(w2, n, i) <==> MovedAt(w, n, i) || (Moves(act, i) && n == |w.spends|) {
      MovedAtAfter(w, act, n, i);
    }
    assert !MovedAt(w, |w.spends|, i);
    hide Apply, Enabled, MovedAt;
    if Moved(w, i) && Moves(act, i) {
      var n: nat :| MovedAt(w, n, i);
      assert MovedAt(w2, n, i) && MovedAt(w2, |w.spends|, i) && n != |w.spends|;
    }
  }

  // ---- What an act makes of a row ----

  /** Only a settling takes a row out of those that may have moved, and only one dead at a
      count not past its nonce. */
  predicate Withdraws(w: World, act: Act, i: nat)
    requires Enabled(w, act) && i < |w.rows|
  {
    act.Settle? && act.row == i && w.rows[i].Last().Dead() && act.counter <= w.rows[i].nonce.value
  }

  lemma MayAfter(w: World, act: Act, i: nat)
    requires Inv(w) && Enabled(w, act) && i < |w.rows| && MayHaveMoved(w.rows[i])
    ensures MayHaveMoved(Apply(w, act).rows[i]) <==> !Withdraws(w, act, i)
  {
    assert RowOk(w, i);
    if act.Sign? {
      SignRows(w, act);
      hide Apply, Enabled, Batch;
      StaysUnsigned(w, act, i);
    } else {
      hide NextAfterLanded, Batch, Inv;
    }
  }

  lemma StaysUnsigned(w: World, act: Act, i: nat)
    requires Enabled(w, act) && act.Sign? && i < |w.rows| && MayHaveMoved(w.rows[i])
    ensures Apply(w, act).rows[i] == w.rows[i]
  {
    SignRows(w, act);
    hide Apply, Enabled, Batch;
  }

  /** A row our tx runs is sent. */
  lemma RunsSent(w: World, i: nat)
    requires Inv(w) && Enabled(w, Execute(i))
    ensures w.rows[i].status == Sent && Apply(w, Execute(i)).rows == w.rows
  {
    assert RowOk(w, i);
  }

  lemma RowsAreThere(w: World, act: Act)
    requires Enabled(w, act)
    ensures |w.rows| <= |Apply(w, act).rows|
  {
    if act.Sign? {
      SignRows(w, act);
    }
    hide NextAfterLanded, Batch;
  }

  /** What one row keeps, exactly. */
  lemma KeepsOnceRow(w: World, act: Act, i: nat)
    requires i < |w.rows| && Inv(w) && Once(w, i) && Enabled(w, act) && |w.rows| <= |Apply(w, act).rows|
    ensures Once(Apply(w, act), i) <==>
              && !(Moved(w, i) && Moves(act, i))
              && (Moves(act, i) ==> MayHaveMoved(w.rows[i]))
              && !(Moved(w, i) && Withdraws(w, act, i))
  {
    SingleMoves(w, act, i);
    MovedAfter(w, act, i);
    if Moves(act, i) {
      SpendsKeepRows(w, act);
    } else if MayHaveMoved(w.rows[i]) {
      MayAfter(w, act, i);
    }
    hide Inv, Apply, Enabled, Moved, MovedAt, MayHaveMoved;
  }

  lemma SpendsKeepRows(w: World, act: Act)
    requires Enabled(w, act) && (act.Execute? || act.Elsewhere?)
    ensures Apply(w, act).rows == w.rows
  {
  }

  /** Rows not there yet have not moved. */
  lemma NotThereYet(w: World, act: Act, i: nat)
    requires Inv(w) && Enabled(w, act) && |w.rows| <= i < |Apply(w, act).rows|
    ensures Once(Apply(w, act), i)
  {
    MovedAfter(w, act, i);
    assert !Moved(w, i) by {
      forall n: nat | n < |w.spends| ensures w.spends[n].Foreign? || w.spends[n].row < |w.rows| {
        assert SpendOk(w, n);
      }
    }
    NoneMoves(w, act, i);
    hide Inv, Apply, Enabled, MayHaveMoved;
  }

  lemma NoneMoves(w: World, act: Act, i: nat)
    requires Enabled(w, act) && |w.rows| <= i
    ensures !Moves(act, i)
  {
    hide NextAfterLanded, Batch;
  }

  /** What a step does to the row it moves or settles, if any. */
  function Touched(act: Act): Option<nat> {
    match act
    case Execute(i) => Some(i)
    case Elsewhere(s) => if s.Replay? then Some(s.row) else None
    case Settle(i, _) => Some(i)
    case _ => None
  }

  lemma TouchedIs(w: World, act: Act, i: nat)
    requires Inv(w) && Enabled(w, act) && i < |w.rows|
    ensures Moves(act, i) || Withdraws(w, act, i) ==> Touched(act) == Some(i)
    ensures Touched(act) == Some(i) ==>
              (Single(w, act) <==>
                && !(Moved(w, i) && Moves(act, i)) && (Moves(act, i) ==> MayHaveMoved(w.rows[i]))
                && !(Moved(w, i) && Withdraws(w, act, i)))
  {
    if act.Execute? {
      RunsSent(w, act.row);
    }
    hide Inv, Moved, NextAfterLanded;
  }

  lemma TouchedIsThere(w: World, act: Act)
    requires Enabled(w, act)
    ensures Touched(act).Some? ==> Touched(act).value < |w.rows|
    ensures Touched(act) == None ==> Single(w, act)
  {
    hide NextAfterLanded, Batch, Moved;
  }

  /** Every step of every lane, copies and late reads included, keeps each row moving at
      most once, and never while queued or once failed on its own, exactly when it is such
      a step. */
  lemma KeepsOnceIff(w: World, act: Act)
    requires Inv(w) && AllOnce(w) && Enabled(w, act)
    ensures AllOnce(Apply(w, act)) <==> Single(w, act)
  {
    var w2 := Apply(w, act);
    RowsAreThere(w, act);
    TouchedIsThere(w, act);
    forall i: nat | i < |w2.rows| ensures Once(w2, i) <==> (Touched(act) == Some(i) ==> Single(w, act)) {
      if i < |w.rows| {
        KeepsOnceRow(w, act, i);
        TouchedIs(w, act, i);
      } else {
        NotThereYet(w, act, i);
      }
      hide Inv, Apply, Enabled, Once, Single, Moves, Withdraws, Moved, MayHaveMoved;
    }
    hide Inv, Apply, Enabled, Once, Single;
  }

  ghost predicate SingleRun(w: World, acts: seq<Act>)
    requires Allowed(w, acts)
  {
    acts == [] || (SingleRun(w, acts[..|acts| - 1]) && Single(Run(w, acts[..|acts| - 1]), acts[|acts| - 1]))
  }

  /** Each row moved at most once in every state of the run. */
  ghost predicate OnceThroughout(w: World, acts: seq<Act>)
    requires Allowed(w, acts)
  {
    AllOnce(Run(w, acts)) && (acts == [] || OnceThroughout(w, acts[..|acts| - 1]))
  }

  lemma {:induction false} OnceIff(w: World, acts: seq<Act>)
    requires Inv(w) && AllOnce(w) && Allowed(w, acts)
    ensures OnceThroughout(w, acts) <==> SingleRun(w, acts)
  {
    if acts != [] {
      var front := acts[..|acts| - 1];
      OnceIff(w, front);
      InvRun(w, front);
      hide AllOnce, Single, Inv, Enabled, Apply;
      if OnceThroughout(w, front) {
        KeepsOnceIff(Run(w, front), acts[|acts| - 1]);
      }
    }
  }

  /** Rows that moved at most at their last nonce moved at most once. */
  lemma MovedOkIsOnce(w: World)
    requires AllMovedOk(w)
    ensures AllOnce(w)
  {
    forall i: nat | i < |w.rows| ensures Once(w, i) {
      assert MovedOk(w, i);
    }
  }

  /** So a guarded run is a run of such steps. */
  lemma {:induction false} GuardedIsSingle(w: World, acts: seq<Act>)
    requires Inv(w) && AllMovedOk(w) && Allowed(w, acts) && GuardedRun(w, acts)
    ensures OnceThroughout(w, acts) && SingleRun(w, acts)
  {
    hide AllOnce, AllMovedOk, Single, Guarded, Inv, Enabled, Apply;
    MovedOkRunIff(w, acts);
    MovedOkIsOnce(Run(w, acts));
    MovedOkIsOnce(w);
    if acts != [] {
      GuardedIsSingle(w, acts[..|acts| - 1]);
    }
    OnceIff(w, acts);
  }
}
