/** src/clients/privana_lanes.py's `WithdrawLane`: the one writer of a signer's
    withdrawal nonce. While it waits for a reply, other rows are queued or
    cancelled, requests land and time passes. `Valid` says the trace is a run of
    `WithdrawQueue`. */
module WithdrawLane {
  import opened Tables
  import opened WithdrawQueue

  /** The row a round works on: the sent one, else the oldest queued. */
  function Pick(rows: seq<Row>): Option<nat> {
    var sent, queued := FirstWhere(rows, IsSent, 0, 1), FirstWhere(rows, IsQueued, 0, 1);
    if sent != [] then Some(sent[0]) else if queued != [] then Some(queued[0]) else None
  }

  lemma PickIs(w: World)
    requires Inv(w)
    ensures match Pick(w.rows)
            case None => forall r <- w.rows :: r.status in {Landed, Failed}
            case Some(i) =>
              && i < |w.rows|
              && (IsSent(w.rows[i]) || (w.rows[i].status == Queued && NoneSent(w.rows)))
              && forall j: nat :: j < i && w.rows[i].status == Queued ==> w.rows[j].status != Queued
  {
    forall i: nat | i < |w.rows| && w.rows[i].status == Sent ensures FirstWhere(w.rows, IsSent, 0, 1) != [] {
      assert RowOk(w, i);
      FirstWhereSkipsNone(w.rows, IsSent, 0, 1, i);
    }
    forall i: nat | i < |w.rows| && w.rows[i].status == Queued
      ensures FirstWhere(w.rows, IsQueued, 0, 1) != [] && FirstWhere(w.rows, IsQueued, 0, 1)[0] <= i
    {
      FirstWhereSkipsNone(w.rows, IsQueued, 0, 1, i);
      var ids := FirstWhere(w.rows, IsQueued, 0, 1);
      assert ids != [] ==> ids[0] in ids && ids == [ids[0]];
    }
  }

  lemma LandedBelow(w: World)
    requires Inv(w)
    ensures NextAfterLanded(w.rows) <= |w.spends|
  {
    var next := NextAfterLanded(w.rows);
    if next > 0 {
      var i: nat :| i < |w.rows| && LandedNonce(w.rows[i]) == Some((next - 1) as nat);
      assert RowOk(w, i);
    }
  }

  predicate ByOthers(act: Act) {
    act.Submit? || act.Cancel? || act.Tick? || act.Land? || act.Elsewhere?
  }

  /** Others leave a sent row alone, and can only cancel a queued one. */
  predicate LeftAlone(before: Row, after: Row) {
    after == before || (before.status == Queued && after.status == Failed)
  }

  lemma OthersLeave(w: World, act: Act, i: nat)
    requires Enabled(w, act) && ByOthers(act) && i < |w.rows|
    ensures i < |Apply(w, act).rows| && LeftAlone(w.rows[i], Apply(w, act).rows[i])
    ensures NoneSent(w.rows) ==> NoneSent(Apply(w, act).rows)
    ensures w.clock <= Apply(w, act).clock
  {
  }

  datatype Reply = Accepted | Refusal | NoAnswer

  /** What a refusal adds after the request. */
  ghost predicate Answers(reply: seq<Act>, i: nat) {
    reply == [] || (|reply| == 1 && (reply[0] == Refuse(i) || (reply[0].Settle? && reply[0].row == i)))
  }

  /** What a round does with row `i`: nothing, one closing write, or a signing or resend and its request. */
  ghost predicate Round(log: seq<Act>, i: nat) {
    || log == []
    || (|log| == 1 && (log[0].Settle? || log[0].Fail? || log[0].GiveUp?) && log[0].row == i)
    || (|log| > 1 && (log[0].Sign? || log[0].Resend?) && log[0].row == i && log[1] == Post(i) && Answers(log[2..], i))
  }

  /** Why a round may do nothing: the row was cancelled, or its last send is recent. */
  ghost predicate Waiting(before: Row, after: Row, clock: int) {
    if before.status == Queued then after.status == Failed
    else after == before && before.status == Sent && clock - before.sentAt < RESEND_SEC
  }

  lemma RoundIs(log: seq<Act>, first: Act, i: nat)
    requires (first.Sign? || first.Resend?) && first.row == i
    requires exists reply :: log == [first] + [Post(i)] + reply && Answers(reply, i)
    ensures Round(log, i) && log != []
  {
    var reply :| log == [first] + [Post(i)] + reply && Answers(reply, i);
    assert log[2..] == reply;
  }

  class WithdrawLane {
    var rows: seq<Row>
    var spends: seq<Spend>
    var pending: set<nat>
    var landings: seq<nat>
    var clock: int

    ghost const start: World
    ghost var trace: seq<Act>
    // What the lane itself did this round.
    ghost var log: seq<Act>

    ghost function View(): World
      reads this
    {
      World(rows, spends, pending, landings, clock)
    }

    ghost predicate Valid()
      reads this
    {
      Inv(start) && Allowed(start, trace) && View() == Run(start, trace)
    }

    lemma Known()
      requires Valid()
      ensures Inv(View())
    {
      InvRun(start, trace);
    }

    /** A start or restart: nothing is kept in memory. */
    constructor (w: World)
      requires Inv(w)
      ensures Valid() && View() == w && start == w && trace == []
    {
      rows, spends, pending, landings, clock := w.rows, w.spends, w.pending, w.landings, w.clock;
      start, trace, log := w, [], [];
    }

    method Do(act: Act)
      requires Valid() && Enabled(View(), act)
      modifies `rows, `spends, `pending, `landings, `clock, `trace
      ensures Valid() && View() == Apply(old(View()), act) && trace == old(trace) + [act]
    {
      RunOne(start, trace, act);
      var w := Apply(World(rows, spends, pending, landings, clock), act);
      hide Allowed, Run, Inv, Enabled, Apply;
      rows, spends, pending, landings, clock := w.rows, w.spends, w.pending, w.landings, w.clock;
      trace := trace + [act];
    }

    /** A write or request of the lane. */
    method Write(act: Act)
      requires Valid() && Enabled(View(), act) && !ByOthers(act)
      modifies `rows, `spends, `pending, `landings, `clock, `trace, `log
      ensures Valid() && View() == Apply(old(View()), act) && trace == old(trace) + [act] && log == old(log) + [act]
    {
      log := log + [act];
      Do(act);
    }

    /** What others do before the lane's next step. */
    method Others(ghost i: nat)
      requires Valid() && i < |rows|
      modifies `rows, `spends, `pending, `landings, `clock, `trace
      ensures Valid() && old(trace) <= trace && |old(rows)| <= |rows| && old(clock) <= clock
      ensures LeftAlone(old(rows)[i], rows[i]) && (NoneSent(old(rows)) ==> NoneSent(rows))
    {
      var times: nat := *;
      while times > 0
        invariant Valid() && old(trace) <= trace && |old(rows)| <= |rows| && old(clock) <= clock
        invariant LeftAlone(old(rows)[i], rows[i]) && (NoneSent(old(rows)) ==> NoneSent(rows))
      {
        var act: Act := *;
        if ByOthers(act) && Enabled(World(rows, spends, pending, landings, clock), act) {
          OthersLeave(View(), act, i);
          hide Enabled, Apply, NoneSent;
          Do(act);
        }
        times := times - 1;
      }
    }

    /** `_counter`: a read that may lag, raised to what landed here. */
    method Counter() returns (counter: nat)
      requires Valid()
      ensures Readable(View(), counter)
    {
      Known();
      LandedBelow(View());
      var read: nat := *;
      var next := NextAfterLanded(rows);
      if read > |spends| || exists i: nat :: i < |rows| && IsSent(rows[i]) && Gone(rows[i], clock) {
        read := |spends|;
      }
      counter := if read < next then next else read;
    }

    /** `_send`: the request, and what its reply says. */
    method Send(i: nat)
      requires Valid() && i < |rows| && IsSent(rows[i])
      modifies `rows, `spends, `pending, `landings, `clock, `trace, `log
      ensures Valid() && old(trace) <= trace && |old(rows)| <= |rows|
      ensures exists reply :: log == old(log) + [Post(i)] + reply && Answers(reply, i)
    {
      ghost var known := log;
      Write(Post(i));
      Others(i);
      var reply: Reply := *;
      assert log == known + [Post(i)] + [];
      if reply != Reply.Refusal {
        return;
      }
      var counter := Counter();
      if counter > rows[i].nonce.value {
        Write(Settle(i, counter));
        assert log == known + [Post(i)] + [Settle(i, counter)];
      } else if rows[i].attempts == 1 {
        Write(Refuse(i));
        assert log == known + [Post(i)] + [Refuse(i)];
      }
    }

    /** `_sign`, unless the row was cancelled meanwhile. */
    method SignRow(i: nat, counter: nat) returns (signed: bool)
      requires Valid() && i < |rows| && Readable(View(), counter) && NoneSent(rows)
      modifies `rows, `spends, `pending, `landings, `clock, `trace, `log
      ensures Valid() && old(trace) <= trace && |old(rows)| <= |rows|
      ensures signed <==> old(rows)[i].status == Queued
      ensures signed ==> log == old(log) + [Sign(i, counter)] && IsSent(rows[i])
      ensures !signed ==> log == old(log) && rows == old(rows)
    {
      if rows[i].status != Queued {
        return false;
      }
      Write(Sign(i, counter));
      return true;
    }

    /** A round of the queued row `i`. */
    method Start(i: nat)
      requires Valid() && i < |rows| && rows[i].status == Queued && NoneSent(rows) && log == []
      modifies `rows, `spends, `pending, `landings, `clock, `trace, `log
      ensures Valid() && old(trace) <= trace && |old(rows)| <= |rows| && Round(log, i)
      ensures log == [] ==> rows[i].status == Failed
    {
      hide Allowed, Run, Inv, Enabled, Apply, Readable;
      Others(i);
      var counter := Counter();
      var signed := SignRow(i, counter);
      if signed {
        assert log == [Sign(i, counter)];
        Send(i);
        RoundIs(log, Sign(i, counter), i);
      }
    }

    /** One round: the sent row is settled, failed, given up on or sent again, or
        the oldest queued one is signed and sent. A row overdue at the start is
        never left waiting. */
    method RunRound()
      requires Valid()
      modifies `rows, `spends, `pending, `landings, `clock, `trace, `log
      ensures Valid() && old(trace) <= trace
      ensures match Pick(old(rows))
              case None => log == []
              case Some(i) =>
                && i < |old(rows)| <= |rows| && Round(log, i)
                && (log == [] ==> Waiting(old(rows)[i], rows[i], old(clock)))
    {
      log := [];
      Known();
      PickIs(View());
      hide Allowed, Run, Inv, Pick, Round;
      var pick := Pick(rows);
      if pick.Some? {
        if rows[pick.value].status == Queued {
          Start(pick.value);
        } else {
          Proceed(pick.value);
        }
      }
    }

    /** The send is recorded before it is made. */
    method SendAgain(i: nat, counter: nat)
      requires Valid() && i < |rows| && IsSent(rows[i]) && log == [] && Enabled(View(), Resend(i, counter))
      modifies `rows, `spends, `pending, `landings, `clock, `trace, `log
      ensures Valid() && old(trace) <= trace && |old(rows)| <= |rows| && log != [] && Round(log, i)
    {
      hide Allowed, Run, Inv;
      Write(Resend(i, counter));
      assert log == [Resend(i, counter)];
      Send(i);
      RoundIs(log, Resend(i, counter), i);
    }

    /** A round of the sent row `i`. */
    method Proceed(i: nat)
      requires Valid() && i < |rows| && IsSent(rows[i]) && log == []
      modifies `rows, `spends, `pending, `landings, `clock, `trace, `log
      ensures Valid() && old(trace) <= trace && |old(rows)| <= |rows| && Round(log, i)
      ensures log == [] ==> rows[i] == old(rows)[i] && old(clock) - rows[i].sentAt < RESEND_SEC
    {
      hide Allowed, Run, Inv, Round;
      Others(i);
      var counter := Counter();
      Decide(i, counter);
    }

    /** What a count read now says of a sent row. */
    method Decide(i: nat, counter: nat)
      requires Valid() && i < |rows| && IsSent(rows[i]) && log == [] && Readable(View(), counter)
      modifies `rows, `spends, `pending, `landings, `clock, `trace, `log
      ensures Valid() && old(trace) <= trace && |old(rows)| <= |rows| && Round(log, i)
      ensures log == [] ==> rows == old(rows) && old(clock) - rows[i].sentAt < RESEND_SEC
    {
      hide Allowed, Run, Inv;
      var row := rows[i];
      if counter > row.nonce.value {
        Write(Settle(i, counter));
      } else if clock - row.sentAt < RESEND_SEC {
        return;
      } else if row.error != NoError && row.attempts == 1 {
        Write(Fail(i, counter));
      } else if row.attempts >= MAX_SENDS {
        Write(GiveUp(i, counter));
      } else {
        SendAgain(i, counter);
      }
    }
  }
}
