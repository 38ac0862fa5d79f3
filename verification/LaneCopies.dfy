/** Copies of a lane's signed transfers sent by someone else: anyone who has seen
    one may spend its nonce with it. When each row still moves at most at its last nonce. */
module LaneCopies {
  import opened Tables
  import opened LaneQueue

  /** Whether row `i`'s transfer moved at nonce `n`, by our tx or by a copy of it. */
  predicate MovedAt(w: World, n: nat, i: nat) {
    n < |w.spends| && !w.spends[n].Foreign? && w.spends[n].row == i
  }

  /** A copy moves only the sent row whose turn it is, at the nonce it was last signed
      at; and a row whose copy moved is not settled on a read from before that. */
  ghost predicate Guarded(w: World, act: Act)
    requires Enabled(w, act)
  {
    match act
    case Elsewhere(s) =>
      s.Replay? ==> w.rows[s.row].status == Sent && w.rows[s.row].Last().nonce == |w.spends|
    case Settle(i, counter) =>
      MovedAt(w, w.rows[i].nonce.value, i) && w.rows[i].Last().Dead() ==> counter > w.rows[i].nonce.value
    case _ => true
  }

  /** Row `i` moved only at its last nonce, and then it is sent, landed, or
      failed as spent elsewhere. */
  ghost predicate MovedOk(w: World, i: nat)
    requires i < |w.rows|
  {
    var r := w.rows[i];
    forall n: nat :: MovedAt(w, n, i) ==>
      && r.Signed() && n == r.Last().nonce
      && (r.status in {Sent, Landed} || (r.status == Failed && r.error == ForeignSpend))
  }

  ghost predicate AllMovedOk(w: World) {
    forall i: nat :: i < |w.rows| ==> MovedOk(w, i)
  }

  lemma KeepsMovedOk(w: World, act: Act, i: nat)
    requires i < |w.rows| && RowOk(w, i) && MovedOk(w, i) && Enabled(w, act) && Guarded(w, act) && !act.Sign?
    ensures MovedOk(Apply(w, act), i)
  {
    hide NextAfterLanded;
    var w2 := Apply(w, act);
    forall n: nat | MovedAt(w2, n, i)
      ensures w2.rows[i].Signed() && n == w2.rows[i].Last().nonce
      ensures w2.rows[i].status in {Sent, Landed} || (w2.rows[i].status == Failed && w2.rows[i].error == ForeignSpend)
    {
      if n < |w.spends| {
        assert MovedAt(w, n, i);
      }
    }
  }

  lemma SignKeepsMovedOk(w: World, w2: World, i: nat)
    requires i < |w.rows| && MovedOk(w, i)
    requires w2.spends == w.spends && SignedAs(w.rows, w2.batch, w2.base, w2.rows)
    ensures MovedOk(w2, i)
  {
    forall n: nat | MovedAt(w2, n, i) ensures w2.rows[i] == w.rows[i] {
      assert MovedAt(w, n, i);
      assert i !in w2.batch;
    }
    assert forall n: nat :: MovedAt(w2, n, i) ==> MovedAt(w, n, i);
  }

  lemma KeepsAllMovedOk(w: World, act: Act)
    requires Inv(w) && AllMovedOk(w) && Enabled(w, act) && Guarded(w, act)
    ensures AllMovedOk(Apply(w, act))
  {
    var w2 := Apply(w, act);
    hide Enabled, Guarded;
    if act.Sign? {
      SignRows(w, act);
      hide Apply, Batch;
      forall i: nat | i < |w2.rows| ensures MovedOk(w2, i) {
        SignKeepsMovedOk(w, w2, i);
      }
    } else {
      forall i: nat | i < |w2.rows| ensures MovedOk(w2, i) {
        if i < |w.rows| {
          assert RowOk(w, i);
          KeepsMovedOk(w, act, i);
        } else {
          FreshNotMoved(w, act, i);
        }
      }
    }
  }

  lemma FreshNotMoved(w: World, act: Act, i: nat)
    requires Inv(w) && Enabled(w, act) && !act.Sign? && |w.rows| <= i < |Apply(w, act).rows|
    ensures MovedOk(Apply(w, act), i)
  {
    forall n: nat | n < |w.spends| ensures w.spends[n].Foreign? || w.spends[n].row < |w.rows| {
      assert SpendOk(w, n);
    }
  }

  // ---- The exact condition ----

  /** A copy of any other signature moves its row at a nonce it is not waiting on:
      a second time, or though it is queued, or failed on its own. */
  lemma UnguardedReplay(w: World, s: Spend)
    requires Inv(w) && s.Replay? && Enabled(w, Elsewhere(s)) && !Guarded(w, Elsewhere(s))
    ensures !AllMovedOk(Apply(w, Elsewhere(s)))
  {
    var w2, i := Apply(w, Elsewhere(s)), s.row;
    assert RowOk(w, i) && MovedAt(w2, |w.spends|, i);
    if w.rows[i].status == Landed {
      assert Ran(w, i);
    }
    assert !MovedOk(w2, i);
  }

  /** A row settled on a read from before its copy moved is queued again, or failed
      as its own, though it moved. */
  lemma UnguardedSettle(w: World, i: nat, counter: nat)
    requires Inv(w) && Enabled(w, Settle(i, counter)) && !Guarded(w, Settle(i, counter))
    ensures !AllMovedOk(Apply(w, Settle(i, counter)))
  {
    hide NextAfterLanded;
    var w2, n := Apply(w, Settle(i, counter)), w.rows[i].nonce.value;
    assert MovedAt(w2, n, i) && !MovedOk(w2, i);
  }

  /** Every step of every lane, copies and late reads included, keeps rows moving at
      most once, and only at the nonce they were last signed at, exactly when it is
      guarded. */
  lemma KeepsMovedIff(w: World, act: Act)
    requires Inv(w) && AllMovedOk(w) && Enabled(w, act)
    ensures AllMovedOk(Apply(w, act)) <==> Guarded(w, act)
  {
    if Guarded(w, act) {
      KeepsAllMovedOk(w, act);
    } else if act.Settle? {
      UnguardedSettle(w, act.row, act.counter);
    } else {
      UnguardedReplay(w, act.spend);
    }
  }

  ghost predicate GuardedRun(w: World, acts: seq<Act>)
    requires Allowed(w, acts)
  {
    acts == [] || (GuardedRun(w, acts[..|acts| - 1]) && Guarded(Run(w, acts[..|acts| - 1]), acts[|acts| - 1]))
  }

  /** Every state of the run has each row moved at most once, at its last nonce. */
  ghost predicate MovedOkRun(w: World, acts: seq<Act>)
    requires Allowed(w, acts)
  {
    AllMovedOk(Run(w, acts)) && (acts == [] || MovedOkRun(w, acts[..|acts| - 1]))
  }

  lemma {:induction false} MovedOkRunIff(w: World, acts: seq<Act>)
    requires Inv(w) && AllMovedOk(w) && Allowed(w, acts)
    ensures MovedOkRun(w, acts) <==> GuardedRun(w, acts)
  {
    if acts != [] {
      var front := acts[..|acts| - 1];
      MovedOkRunIff(w, front);
      InvRun(w, front);
      if MovedOkRun(w, front) {
        KeepsMovedIff(Run(w, front), acts[|acts| - 1]);
      }
    }
  }

  /** Counting copies sent by others too: in a guarded run each row's transfer moves
      at most once, LANDED means exactly once, and FAILED with any error but
      FOREIGN_SPEND means it never moved. */
  lemma MovesAtMostOnce(w: World, acts: seq<Act>, i: nat)
    requires Inv(w) && AllMovedOk(w) && Allowed(w, acts) && GuardedRun(w, acts) && i < |Run(w, acts).rows|
    ensures var end := Run(w, acts);
            var r := end.rows[i];
            && (forall n: nat, m: nat :: MovedAt(end, n, i) && MovedAt(end, m, i) ==> n == m)
            && (r.status == Landed ==> r.nonce.Some? && MovedAt(end, r.nonce.value, i))
            && ((r.status == Queued || (r.status == Failed && r.error != ForeignSpend)) ==>
                  forall n: nat :: !MovedAt(end, n, i))
  {
    MovedOkRunIff(w, acts);
    RunsAtMostOnce(w, acts, i);
    var end := Run(w, acts);
    hide Run, Allowed, GuardedRun;
    assert MovedOk(end, i);
    assert end.rows[i].status == Landed ==> RanAt(end, end.rows[i].nonce.value, i);
  }

  // ---- A run in which a copy moves a landed row again ----

  /** The two rows of the run. */
  function Two(a: Row, b: Row, spends: seq<Spend>, batch: seq<nat>): World {
    World([a, b], spends, batch, 0)
  }

  function First(report: Report): Row {
    Row(Sent, Some(0), [Tx(0, true, report)], NoError)
  }

  function Second(report: Report): Row {
    Row(Sent, Some(1), [Tx(1, false, report)], NoError)
  }

  function FirstFailed(): Row {
    Row(Failed, Some(0), [Tx(0, true, Refused)], Outcome)
  }

  function SecondAgain(): Row {
    Row(Queued, None, [Tx(1, false, Refused)], Outcome)
  }

  function SecondSent(report: Report): Row {
    Row(Sent, Some(0), [Tx(1, false, Refused), Tx(0, true, report)], Outcome)
  }

  function SecondLanded(): Row {
    Row(Landed, Some(0), [Tx(1, false, Refused), Tx(0, true, Mined)], NoError)
  }

  lemma Then(w: World, acts: seq<Act>, act: Act, after: World) returns (more: seq<Act>)
    requires Allowed(w, acts) && GuardedRun(w, acts) && Enabled(Run(w, acts), act) && Guarded(Run(w, acts), act)
    requires Apply(Run(w, acts), act) == after
    ensures more == acts + [act] && Allowed(w, more) && GuardedRun(w, more) && Run(w, more) == after
  {
    RunOne(w, acts, act);
    more := acts + [act];
    assert more[..|acts|] == acts;
  }

  lemma NoActs(w: World)
    ensures Allowed(w, []) && GuardedRun(w, []) && Run(w, []) == w
  {
  }

  lemma SubmitStep()
    ensures Apply(World([], [], [], 0), Submit(2)) == Two(Fresh(), Fresh(), [], [])
  {
    assert [] + seq(2, _ => Fresh()) == [Fresh(), Fresh()];
  }

  lemma SignBoth()
    ensures var w := Two(Fresh(), Fresh(), [], []);
            Enabled(w, Sign(0, 2)) && Apply(w, Sign(0, 2)) == Two(First(Waiting), Second(Waiting), [], [0, 1])
  {
    var w := Two(Fresh(), Fresh(), [], []);
    BatchOfTwo(w.rows);
    NextIsBelow(w.rows, 0);
    hide Batch, NextAfterLanded;
    SignRows(w, Sign(0, 2));
    var out := Apply(w, Sign(0, 2)).rows;
    hide Apply;
    assert out[[0, 1][0]] == Signed(w.rows[0], 0, true) && out[[0, 1][1]] == Signed(w.rows[1], 1, false);
    assert Fresh().signings + [Tx(0, true, Waiting)] == [Tx(0, true, Waiting)];
    assert Fresh().signings + [Tx(1, false, Waiting)] == [Tx(1, false, Waiting)];
    assert out == [First(Waiting), Second(Waiting)];
  }

  lemma BatchOfTwo(rows: seq<Row>)
    requires |rows| == 2 && IsQueued(rows[0]) && IsQueued(rows[1])
    ensures Batch(rows, 2) == [0, 1]
  {
    var ids := Batch(rows, 2);
    FirstWhereSkipsNone(rows, IsQueued, 0, 2, 0);
    FirstWhereSkipsNone(rows, IsQueued, 0, 2, 1);
    hide FirstWhere;
    assert |ids| == 2;
  }

  lemma SignSecond()
    ensures var w := Two(FirstFailed(), SecondAgain(), [], [0, 1]);
            Enabled(w, Sign(0, 2)) && Apply(w, Sign(0, 2)) == Two(FirstFailed(), SecondSent(Waiting), [], [1])
  {
    var w := Two(FirstFailed(), SecondAgain(), [], [0, 1]);
    BatchOfSecond(w.rows);
    NextIsBelow(w.rows, 0);
    hide Batch, NextAfterLanded;
    SignRows(w, Sign(0, 2));
    var out := Apply(w, Sign(0, 2)).rows;
    hide Apply;
    assert out[[1][0]] == Signed(w.rows[1], 0, true) && out[0] == w.rows[0];
    assert SecondAgain().signings + [Tx(0, true, Waiting)] == SecondSent(Waiting).signings;
    assert out == [FirstFailed(), SecondSent(Waiting)];
  }

  lemma BatchOfSecond(rows: seq<Row>)
    requires |rows| == 2 && !IsQueued(rows[0]) && IsQueued(rows[1])
    ensures Batch(rows, 2) == [1]
  {
    var ids := Batch(rows, 2);
    FirstWhereSkipsNone(rows, IsQueued, 0, 2, 1);
    assert ids == FirstWhere(rows, IsQueued, 1, 2);
    hide FirstWhere;
    assert 1 <= |ids| <= ids[|ids| - 1] < 2;
  }

  /** Both txs die; the first row fails on its own and the second is queued again. */
  lemma BothDie()
    ensures var w := Two(First(Waiting), Second(Waiting), [], [0, 1]);
            Enabled(w, Tell(0, Refused)) && Apply(w, Tell(0, Refused)) ==
              Two(First(Refused), Second(Waiting), [], [0, 1])
    ensures var w := Two(First(Refused), Second(Waiting), [], [0, 1]);
            Enabled(w, Tell(1, Refused)) && Apply(w, Tell(1, Refused)) ==
              Two(First(Refused), Second(Refused), [], [0, 1])
  {
    hide NextAfterLanded;
    assert First(Waiting).signings[0 := Tx(0, true, Refused)] == First(Refused).signings;
    assert Second(Waiting).signings[0 := Tx(1, false, Refused)] == Second(Refused).signings;
    assert [First(Waiting), Second(Waiting)][0 := First(Refused)] == [First(Refused), Second(Waiting)];
    assert [First(Refused), Second(Waiting)][1 := Second(Refused)] == [First(Refused), Second(Refused)];
  }

  lemma FirstFails()
    ensures var w, act := Two(First(Refused), Second(Refused), [], [0, 1]), Settle(0, 0);
            Enabled(w, act) && Guarded(w, act) && Apply(w, act) == Two(FirstFailed(), Second(Refused), [], [0, 1])
  {
    var w := Two(First(Refused), Second(Refused), [], [0, 1]);
    NextIsBelow(w.rows, 0);
    hide NextAfterLanded;
    assert [First(Refused), Second(Refused)][0 := FirstFailed()] == [FirstFailed(), Second(Refused)];
  }

  lemma SecondQueuedAgain()
    ensures var w, act := Two(FirstFailed(), Second(Refused), [], [0, 1]), Settle(1, 0);
            Enabled(w, act) && Guarded(w, act) && Apply(w, act) == Two(FirstFailed(), SecondAgain(), [], [0, 1])
  {
    var w := Two(FirstFailed(), Second(Refused), [], [0, 1]);
    NextIsBelow(w.rows, 0);
    hide NextAfterLanded;
    assert [FirstFailed(), Second(Refused)][1 := SecondAgain()] == [FirstFailed(), SecondAgain()];
  }

  /** The second row lands at nonce 0, on a count read after. */
  lemma SecondRuns()
    ensures var w := Two(FirstFailed(), SecondSent(Waiting), [], [1]);
            Enabled(w, Execute(1)) && Apply(w, Execute(1)) == Two(FirstFailed(), SecondSent(Waiting), [Ours(1, 1)], [1])
    ensures var w := Two(FirstFailed(), SecondSent(Waiting), [Ours(1, 1)], [1]);
            Enabled(w, Tell(1, Mined)) && Apply(w, Tell(1, Mined)) ==
              Two(FirstFailed(), SecondSent(Mined), [Ours(1, 1)], [1])
  {
    hide NextAfterLanded;
    assert [] + [Ours(1, 1)] == [Ours(1, 1)];
    assert SecondSent(Waiting).signings[1 := Tx(0, true, Mined)] == SecondSent(Mined).signings;
    assert [FirstFailed(), SecondSent(Waiting)][1 := SecondSent(Mined)] == [FirstFailed(), SecondSent(Mined)];
  }

  lemma SecondLands()
    ensures var w, act := Two(FirstFailed(), SecondSent(Mined), [Ours(1, 1)], [1]), Settle(1, 1);
            && Enabled(w, act) && Guarded(w, act)
            && Apply(w, act) == Two(FirstFailed(), SecondLanded(), [Ours(1, 1)], [1])
  {
    var w := Two(FirstFailed(), SecondSent(Mined), [Ours(1, 1)], [1]);
    NextIsBelow(w.rows, 0);
    hide NextAfterLanded;
    assert [FirstFailed(), SecondSent(Mined)][1 := SecondLanded()] == [FirstFailed(), SecondLanded()];
  }

  /** The old signature's nonce comes up, and its copy moves the landed row again. */
  lemma CopyMoves()
    ensures var w, act := Two(FirstFailed(), SecondLanded(), [Ours(1, 1)], [1]), Elsewhere(Replay(1, 0));
            Enabled(w, act) && !Guarded(w, act) && MovedAt(Apply(w, act), 0, 1) && MovedAt(Apply(w, act), 1, 1)
  {
  }

  /** Every count read is the true one and no row is settled before a copy of it; still
      a copy of a row's earlier signature runs it a second time after it landed. */
  lemma OldCopyMovesTwice() returns (acts: seq<Act>, copy: Act)
    ensures var empty := World([], [], [], 0);
            && Allowed(empty, acts) && GuardedRun(empty, acts) && copy == Elsewhere(Replay(1, 0))
            && var end := Run(empty, acts);
               && |end.rows| == 2 && end.rows[1].status == Landed && Enabled(end, copy)
               && MovedAt(Apply(end, copy), 0, 1) && MovedAt(Apply(end, copy), 1, 1)
  {
    acts := RunToRequeue();
    acts := RunToLanded(acts);
    CopyMoves();
    copy := Elsewhere(Replay(1, 0));
    hide Run, Allowed, GuardedRun, Enabled, Apply, MovedAt;
  }

  lemma RunToRequeue() returns (acts: seq<Act>)
    ensures var empty := World([], [], [], 0);
            && Allowed(empty, acts) && GuardedRun(empty, acts)
            && Run(empty, acts) == Two(FirstFailed(), SecondAgain(), [], [0, 1])
  {
    var empty := World([], [], [], 0);
    NoActs(empty);
    SubmitStep();
    SignBoth();
    BothDie();
    FirstFails();
    SecondQueuedAgain();
    hide Run, Allowed, GuardedRun, Apply, Two, First, Second, FirstFailed, SecondAgain, Batch, NextAfterLanded;
    acts := [];
    acts := Then(empty, acts, Submit(2), Two(Fresh(), Fresh(), [], []));
    acts := Then(empty, acts, Sign(0, 2), Two(First(Waiting), Second(Waiting), [], [0, 1]));
    acts := Then(empty, acts, Tell(0, Refused), Two(First(Refused), Second(Waiting), [], [0, 1]));
    acts := Then(empty, acts, Tell(1, Refused), Two(First(Refused), Second(Refused), [], [0, 1]));
    acts := Then(empty, acts, Settle(0, 0), Two(FirstFailed(), Second(Refused), [], [0, 1]));
    acts := Then(empty, acts, Settle(1, 0), Two(FirstFailed(), SecondAgain(), [], [0, 1]));
  }

  lemma RunToLanded(before: seq<Act>) returns (acts: seq<Act>)
    requires var empty := World([], [], [], 0);
             && Allowed(empty, before) && GuardedRun(empty, before)
             && Run(empty, before) == Two(FirstFailed(), SecondAgain(), [], [0, 1])
    ensures var empty := World([], [], [], 0);
            && Allowed(empty, acts) && GuardedRun(empty, acts)
            && Run(empty, acts) == Two(FirstFailed(), SecondLanded(), [Ours(1, 1)], [1])
  {
    var empty := World([], [], [], 0);
    SignSecond();
    SecondRuns();
    SecondLands();
    hide Run, Allowed, GuardedRun, Apply, Two, First, Second, FirstFailed, SecondAgain, SecondSent, SecondLanded;
    hide Batch, NextAfterLanded;
    acts := before;
    acts := Then(empty, acts, Sign(0, 2), Two(FirstFailed(), SecondSent(Waiting), [], [1]));
    acts := Then(empty, acts, Execute(1), Two(FirstFailed(), SecondSent(Waiting), [Ours(1, 1)], [1]));
    acts := Then(empty, acts, Tell(1, Mined), Two(FirstFailed(), SecondSent(Mined), [Ours(1, 1)], [1]));
    acts := Then(empty, acts, Settle(1, 1), Two(FirstFailed(), SecondLanded(), [Ours(1, 1)], [1]));
  }
}
