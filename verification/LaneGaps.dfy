/** The nonces of a lane's sent rows: consecutive when signed, and when settling
    the rows out of order leaves a gap. */
module LaneGaps {
  import opened Tables
  import opened LaneQueue

  /** Whether row `i` is sent and holds nonce `n`. */
  predicate Holds(w: World, i: nat, n: nat) {
    i < |w.rows| && w.rows[i].status == Sent && w.rows[i].nonce == Some(n)
  }

  ghost predicate Held(w: World, n: nat) {
    exists i: nat :: Holds(w, i, n)
  }

  /** The sent rows hold consecutive nonces. */
  ghost predicate Consecutive(w: World) {
    forall low: nat, n: nat, high: nat :: low <= n <= high && Held(w, low) && Held(w, high) ==> Held(w, n)
  }

  /** Some other sent row holds a lower nonce than row `i`, and some a higher one. */
  ghost predicate Between(w: World, i: nat)
    requires i < |w.rows| && w.rows[i].nonce.Some?
  {
    && (exists low: nat :: low < w.rows[i].nonce.value && Held(w, low))
    && (exists high: nat :: w.rows[i].nonce.value < high && Held(w, high))
  }

  /** A row leaves the sent ones only at an end of them. */
  ghost predicate FromAnEnd(w: World, act: Act)
    requires Enabled(w, act)
  {
    act.Settle? && Settled(w.rows[act.row], act.counter).status != Sent ==> !Between(w, act.row)
  }

  /** Two sent rows never hold one nonce. */
  lemma HeldOnce(w: World, i: nat, j: nat, n: nat)
    requires Inv(w) && Holds(w, i, n) && Holds(w, j, n)
    ensures i == j
  {
    assert RowOk(w, i) && RowOk(w, j);
  }

  /** What settling row `i` out of the sent ones leaves held. */
  lemma SettleFrees(w: World, i: nat, counter: nat, n: nat)
    requires Inv(w) && Enabled(w, Settle(i, counter)) && Settled(w.rows[i], counter).status != Sent
    ensures Held(Apply(w, Settle(i, counter)), n) <==> Held(w, n) && n != w.rows[i].nonce.value
  {
    hide NextAfterLanded, Settled, Inv;
    var w2 := Apply(w, Settle(i, counter));
    assert forall j: nat :: j != i ==> (Holds(w2, j, n) <==> Holds(w, j, n));
    assert !Holds(w2, i, n);
    if n == w.rows[i].nonce.value {
      forall j: nat | Holds(w, j, n) ensures j == i {
        HeldOnce(w, i, j, n);
      }
    } else if Held(w, n) {
      var j: nat :| Holds(w, j, n);
      assert Holds(w2, j, n);
    }
  }

  /** An act that is no signing and takes no row out of the sent ones leaves what is held. */
  lemma OthersKeepHeld(w: World, act: Act, n: nat)
    requires Enabled(w, act) && !act.Sign? && (act.Settle? ==> Settled(w.rows[act.row], act.counter).status == Sent)
    ensures Held(Apply(w, act), n) <==> Held(w, n)
  {
    hide NextAfterLanded;
    var w2 := Apply(w, act);
    forall j: nat ensures Holds(w2, j, n) <==> Holds(w, j, n) {
      SameHolds(w, act, j, n);
    }
  }

  lemma SameHolds(w: World, act: Act, j: nat, n: nat)
    requires Enabled(w, act) && !act.Sign? && (act.Settle? ==> Settled(w.rows[act.row], act.counter).status == Sent)
    ensures Holds(Apply(w, act), j, n) <==> Holds(w, j, n)
  {
    hide NextAfterLanded;
  }

  /** A batch is signed at consecutive nonces. */
  lemma SignIsConsecutive(w: World, act: Act)
    requires Enabled(w, act) && act.Sign?
    ensures Consecutive(Apply(w, act))
  {
    var w2 := Apply(w, act);
    SignRows(w, act);
    hide Apply, Enabled, Batch;
    forall n: nat ensures Held(w2, n) <==> w2.base <= n < w2.base + |w2.batch| {
      SignedHolds(w, w2, n);
    }
  }

  lemma SignedHolds(w: World, w2: World, n: nat)
    requires SignedAs(w.rows, w2.batch, w2.base, w2.rows) && forall r <- w.rows :: r.status != Sent
    ensures Held(w2, n) <==> w2.base <= n < w2.base + |w2.batch|
  {
    if w2.base <= n < w2.base + |w2.batch| {
      assert Holds(w2, w2.batch[n - w2.base], n);
    }
    if Held(w2, n) {
      var i: nat :| Holds(w2, i, n);
      assert w.rows[i] in w.rows;
      assert i in w2.batch;
      var k :| 0 <= k < |w2.batch| && w2.batch[k] == i;
      assert w2.rows[w2.batch[k]] == Signed(w.rows[i], w2.base + k, k == 0);
    }
  }

  /** Each step keeps the sent nonces consecutive exactly when it takes a row out of
      them, if any, at an end. */
  lemma KeepsConsecutiveIff(w: World, act: Act)
    requires Inv(w) && Consecutive(w) && Enabled(w, act)
    ensures Consecutive(Apply(w, act)) <==> FromAnEnd(w, act)
  {
    var w2 := Apply(w, act);
    if act.Sign? {
      SignIsConsecutive(w, act);
    } else if act.Settle? && Settled(w.rows[act.row], act.counter).status != Sent {
      forall n: nat ensures Held(w2, n) <==> Held(w, n) && n != w.rows[act.row].nonce.value {
        SettleFrees(w, act.row, act.counter, n);
      }
      hide Apply, Enabled, Settled, Inv, Held;
      GapIff(w, w2, act.row);
    } else {
      forall n: nat ensures Held(w2, n) <==> Held(w, n) {
        OthersKeepHeld(w, act, n);
      }
      hide Held;
    }
  }

  lemma GapIff(w: World, w2: World, i: nat)
    requires i < |w.rows| && w.rows[i].nonce.Some? && Consecutive(w)
    requires forall n: nat :: Held(w2, n) <==> Held(w, n) && n != w.rows[i].nonce.value
    ensures Consecutive(w2) <==> !Between(w, i)
  {
    hide Held;
    var gap := w.rows[i].nonce.value;
    if Between(w, i) {
      var low: nat :| low < gap && Held(w, low);
      var high: nat :| gap < high && Held(w, high);
      assert Held(w2, low) && Held(w2, high) && !Held(w2, gap);
    } else {
      forall low: nat, n: nat, high: nat | low <= n <= high && Held(w2, low) && Held(w2, high) ensures Held(w2, n) {
        assert Held(w, low) && Held(w, high) && Held(w, n);
      }
    }
  }

  ghost predicate FromEndsRun(w: World, acts: seq<Act>)
    requires Allowed(w, acts)
  {
    acts == [] || (FromEndsRun(w, acts[..|acts| - 1]) && FromAnEnd(Run(w, acts[..|acts| - 1]), acts[|acts| - 1]))
  }

  ghost predicate ConsecutiveRun(w: World, acts: seq<Act>)
    requires Allowed(w, acts)
  {
    Consecutive(Run(w, acts)) && (acts == [] || ConsecutiveRun(w, acts[..|acts| - 1]))
  }

  /** So over a run they are consecutive throughout exactly when rows always leave at an end. */
  lemma {:induction false} ConsecutiveIff(w: World, acts: seq<Act>)
    requires Inv(w) && Consecutive(w) && Allowed(w, acts)
    ensures ConsecutiveRun(w, acts) <==> FromEndsRun(w, acts)
  {
    if acts != [] {
      var front := acts[..|acts| - 1];
      ConsecutiveIff(w, front);
      InvRun(w, front);
      hide Consecutive, FromAnEnd, Inv, Enabled, Apply;
      if ConsecutiveRun(w, front) {
        KeepsConsecutiveIff(Run(w, front), acts[|acts| - 1]);
      }
    }
  }

  // ---- A run that leaves a gap ----

  function SentRow(n: nat, report: Report): Row {
    Row(Sent, Some(n), [Tx(n, n == 0, report)], NoError)
  }

  function Three(second: Row): World {
    World([SentRow(0, Waiting), second, SentRow(2, Waiting)], [], [0, 1, 2], 0)
  }

  function Again(): Row {
    Row(Queued, None, [Tx(1, false, Refused)], Outcome)
  }

  lemma SignThree()
    ensures var w := World([Fresh(), Fresh(), Fresh()], [], [], 0);
            && Enabled(World([], [], [], 0), Submit(3)) && Apply(World([], [], [], 0), Submit(3)) == w
            && Enabled(w, Sign(0, 3)) && Apply(w, Sign(0, 3)) == Three(SentRow(1, Waiting))
  {
    var w := World([Fresh(), Fresh(), Fresh()], [], [], 0);
    assert [] + seq(3, _ => Fresh()) == w.rows;
    BatchOfThree(w.rows);
    NextIsBelow(w.rows, 0);
    hide Batch, NextAfterLanded;
    SignRows(w, Sign(0, 3));
    var out := Apply(w, Sign(0, 3)).rows;
    hide Apply;
    SignedThree(out);
  }

  lemma SignedThree(out: seq<Row>)
    requires SignedAs([Fresh(), Fresh(), Fresh()], [0, 1, 2], 0, out)
    ensures out == [SentRow(0, Waiting), SentRow(1, Waiting), SentRow(2, Waiting)]
  {
    var ids: seq<nat> := [0, 1, 2];
    forall n: nat | n < 3 ensures out[n] == SentRow(n, Waiting) {
      assert out[ids[n]] == Signed(Fresh(), n, n == 0);
    }
  }

  lemma BatchOfThree(rows: seq<Row>)
    requires |rows| == 3 && forall i :: 0 <= i < 3 ==> IsQueued(rows[i])
    ensures Batch(rows, 3) == [0, 1, 2]
  {
    var ids := Batch(rows, 3);
    FirstWhereSkipsNone(rows, IsQueued, 0, 3, 0);
    FirstWhereSkipsNone(rows, IsQueued, 0, 3, 1);
    FirstWhereSkipsNone(rows, IsQueued, 0, 3, 2);
    hide FirstWhere;
    assert |ids| == 3;
  }

  lemma RefuseSecond()
    ensures var w := Three(SentRow(1, Waiting));
            Enabled(w, Tell(1, Refused)) && Apply(w, Tell(1, Refused)) == Three(SentRow(1, Refused))
  {
    hide NextAfterLanded;
    assert SentRow(1, Waiting).signings[0 := Tx(1, false, Refused)] == SentRow(1, Refused).signings;
    assert Three(SentRow(1, Waiting)).rows[1 := SentRow(1, Refused)] == Three(SentRow(1, Refused)).rows;
  }

  lemma SettleSecond()
    ensures var w := Three(SentRow(1, Refused));
            && Enabled(w, Settle(1, 0)) && Apply(w, Settle(1, 0)) == Three(Again())
  {
    var w := Three(SentRow(1, Refused));
    NextIsBelow(w.rows, 0);
    hide NextAfterLanded;
    assert w.rows[1 := Again()] == Three(Again()).rows;
  }

  lemma AllHold()
    ensures Consecutive(Three(SentRow(1, Refused)))
  {
    var w := Three(SentRow(1, Refused));
    assert Holds(w, 0, 0) && Holds(w, 1, 1) && Holds(w, 2, 2);
  }

  lemma SecondMissing()
    ensures !Consecutive(Three(Again()))
  {
    var w := Three(Again());
    assert Holds(w, 0, 0) && Holds(w, 2, 2);
    assert Held(w, 0) && Held(w, 2);
    assert !Held(w, 1);
  }

  /** Three rows are sent; the tx of the second is refused before the first's is final,
      and the row is queued again between the others. */
  lemma SettleLeavesGap() returns (acts: seq<Act>)
    ensures var empty := World([], [], [], 0);
            && acts == [Submit(3), Sign(0, 3), Tell(1, Refused), Settle(1, 0)] && Allowed(empty, acts)
            && Consecutive(Run(empty, acts[..3])) && !Consecutive(Run(empty, acts))
  {
    var empty := World([], [], [], 0);
    SignThree();
    RefuseSecond();
    SettleSecond();
    AllHold();
    SecondMissing();
    hide Apply, Enabled, Consecutive, Three, SentRow, Again;
    var one, two, three := [Submit(3)], [Submit(3), Sign(0, 3)], [Submit(3), Sign(0, 3), Tell(1, Refused)];
    acts := [Submit(3), Sign(0, 3), Tell(1, Refused), Settle(1, 0)];
    RunOne(empty, [], Submit(3));
    hide Run, Allowed;
    assert [] + [Submit(3)] == one && one + [Sign(0, 3)] == two;
    assert two + [Tell(1, Refused)] == three && three + [Settle(1, 0)] == acts;
    RunOne(empty, one, Sign(0, 3));
    RunOne(empty, two, Tell(1, Refused));
    RunOne(empty, three, Settle(1, 0));
    assert acts[..3] == three;
  }
}
