/** src/services/earn/worker.py's `EarnWorker` and the part of `deposit` and
    `withdraw` it runs. Between its steps requests come in and receipts appear,
    and the process may stop. `Valid` says the trace is a run of `EarnQueue`. */
module EarnWorker {
  import opened Tables
  import opened EarnQueue

  predicate Unresolved(r: Row) {
    r.status in {Executing, Pending}
  }

  /** What recovery looks at. */
  predicate Unread(r: Row) {
    Unresolved(r) || (r.hash && !r.settled)
  }

  /** What others do to a row: its tx may land. */
  predicate Same(before: Row, after: Row) {
    after == before || (before.landed == None && before.sent > 0 && after == before.(landed := after.landed))
  }

  ghost predicate LeftAlone(before: seq<Row>, after: seq<Row>) {
    && |before| <= |after|
    && (forall i :: 0 <= i < |before| ==> Same(before[i], after[i]))
    && (forall i :: |before| <= i < |after| ==> after[i].status == Scheduled && !after[i].hash)
  }

  lemma LeftAloneTwice(a: seq<Row>, b: seq<Row>, c: seq<Row>)
    requires LeftAlone(a, b) && LeftAlone(b, c)
    ensures LeftAlone(a, c)
  {
    forall i | 0 <= i < |a| ensures Same(a[i], c[i]) {
      assert Same(a[i], b[i]) && Same(b[i], c[i]);
    }
  }

  lemma OthersLeaveAlone(w: World, act: Act)
    requires Enabled(w, act) && (act.Schedule? || act.Land?)
    ensures LeftAlone(w.rows, Apply(w, act).rows) && Apply(w, act).work == w.work
  {
  }

  class EarnWorker {
    var rows: seq<Row>
    var work: Work
    ghost const start: World
    ghost var trace: seq<Act>

    ghost function View(): World
      reads this
    {
      World(rows, work)
    }

    ghost predicate Valid()
      reads this
    {
      Inv(start) && Allowed(start, trace) && View() == Run(start, trace)
    }

    lemma Known()
      requires Valid()
      ensures Inv(View())
    {
      InvRun(start, trace);
    }

    lemma HashIsPast(i: nat)
      requires Valid() && i < |rows| && rows[i].hash
      ensures !Before(rows[i].status)
    {
      Known();
      assert RowOk(View(), i);
    }

    /** A start or restart: the rows are kept, where the worker was is not. */
    constructor (rows: seq<Row>)
      requires Inv(World(rows, Idle))
      ensures Valid() && View() == World(rows, Idle) && trace == []
    {
      this.rows, work, start, trace := rows, Idle, World(rows, Idle), [];
    }

    method Do(act: Act)
      requires Valid() && Enabled(View(), act)
      modifies this
      ensures Valid() && View() == Apply(old(View()), act) && trace == old(trace) + [act]
    {
      RunOne(start, trace, act);
      var w := Apply(World(rows, work), act);
      hide Allowed, Run, Inv, Apply, Enabled;
      rows, work := w.rows, w.work;
      trace := trace + [act];
    }

    /** Requests queued and receipts appearing meanwhile. */
    method Others()
      requires Valid()
      modifies this
      ensures Valid() && old(trace) <= trace && work == old(work) && LeftAlone(old(rows), rows)
    {
      var times: nat := *;
      while times > 0
        invariant Valid() && old(trace) <= trace && work == old(work) && LeftAlone(old(rows), rows)
      {
        var act: Act := *;
        if (act.Schedule? || act.Land?) && Enabled(World(rows, work), act) {
          ghost var before := rows;
          OthersLeaveAlone(View(), act);
          hide Allowed, Run, Inv, Apply, Enabled;
          Do(act);
          LeftAloneTwice(old(rows), before, rows);
        }
        times := times - 1;
      }
    }

    /** `_settle`: the receipt first, then the share read, which may fail and is tried again. */
    method Settle(i: nat)
      requires Valid() && work == Idle && i < |rows| && rows[i].hash
      modifies this
      ensures Valid() && old(trace) <= trace && work == Idle && |rows| == |old(rows)|
      ensures rows == old(rows)[i := rows[i]] && rows[i].hash && rows[i].status != Executing
      ensures rows[i].sent == old(rows)[i].sent
    {
      HashIsPast(i);
      hide Allowed, Run, Inv, Enabled, Apply;
      var seen: bool := *;
      if !seen || rows[i].landed == None {
        return;
      }
      if !rows[i].landed.value || rows[i].status !in {Completed, Undeployed} {
        SettleRewrites(View(), i);
        Do(EarnQueue.Act.Settle(i));
      }
      var read: bool := *;
      if read && !rows[i].settled {
        MarkRewrites(View(), i);
        Do(Mark(i));
      }
    }

    lemma SettleRewrites(w: World, i: nat)
      requires w.work == Idle && i < |w.rows| && w.rows[i].hash && w.rows[i].landed.Some?
      ensures Enabled(w, EarnQueue.Act.Settle(i))
      ensures var w2 := Apply(w, EarnQueue.Act.Settle(i));
              && w2 == World(w.rows[i := w2.rows[i]], Idle) && w2.rows[i].status != Executing
              && w2.rows[i].sent == w.rows[i].sent && w2.rows[i].hash && w2.rows[i].landed == w.rows[i].landed
    {
    }

    lemma MarkRewrites(w: World, i: nat)
      requires w.work == Idle && i < |w.rows| && w.rows[i].hash && w.rows[i].landed.Some?
      ensures Enabled(w, Mark(i))
      ensures Apply(w, Mark(i)) == w.(rows := w.rows[i := w.rows[i].(settled := true)])
    {
    }

    /** `_recover` of one row: settled from its receipt, given up on when its
        broadcast is unknown, or returned to the queue when nothing went out. */
    method RecoverRow(i: nat)
      requires Valid() && work == Idle && i < |rows| && Unread(rows[i])
      modifies this
      ensures Valid() && old(trace) <= trace && work == Idle && |rows| == |old(rows)| && rows == old(rows)[i := rows[i]]
      ensures rows[i].status != Executing && (rows[i].status == Pending ==> rows[i].hash)
      ensures rows[i].sent == old(rows)[i].sent
      ensures old(rows)[i].status == Pending && !old(rows)[i].hash ==> rows[i].status == Failed
      ensures old(rows)[i].status == Executing && !old(rows)[i].hash ==> rows[i].status == Scheduled
    {
      if rows[i].hash {
        Settle(i);
      } else if rows[i].status == Pending {
        Do(GiveUp(i));
      } else {
        Do(Requeue(i));
      }
    }

    /** One step of the recovery loop. */
    method RecoverNext(i: nat, ghost n: nat)
      requires Valid() && work == Idle && i < n <= |rows| && Recovered(rows[..i]) && NoneTaken(rows[n..])
      modifies this
      ensures Valid() && old(trace) <= trace && work == Idle && |old(rows)| <= |rows|
      ensures Recovered(rows[..i + 1]) && NoneTaken(rows[n..]) && SentAlike(old(rows), rows)
    {
      hide Allowed, Run, Inv;
      ghost var before := rows;
      Others();
      StaysRecovered(before, rows, i, n);
      assert forall j :: 0 <= j < |before| ==> Same(before[j], rows[j]);
      ghost var between := rows;
      if Unread(rows[i]) {
        RecoverRow(i);
      }
      assert rows[..i + 1] == between[..i] + [rows[i]] && rows[n..] == between[n..];
    }

    /** `_recover`: every row a stop left mid-flight, and every receipt not read yet.
        Returns whether anything is still in flight. */
    method Recover() returns (inFlight: bool)
      requires Valid() && work == Idle
      modifies this
      ensures Valid() && old(trace) <= trace && work == Idle && |old(rows)| <= |rows|
      ensures inFlight <==> exists i :: 0 <= i < |rows| && Unresolved(rows[i])
      ensures forall i :: 0 <= i < |rows| && Unresolved(rows[i]) ==> rows[i].status == Pending && rows[i].hash
      ensures SentAlike(old(rows), rows)
    {
      hide Allowed, Run, Inv;
      var n := |rows|;
      for i := 0 to n
        invariant Valid() && old(trace) <= trace && work == Idle && n <= |rows|
        invariant Recovered(rows[..i]) && NoneTaken(rows[n..]) && SentAlike(old(rows), rows)
      {
        RecoverNext(i, n);
      }
      inFlight := exists i :: 0 <= i < |rows| && Unresolved(rows[i]);
      assert forall i :: n <= i < |rows| ==> rows[n..][i - n] == rows[i];
      assert forall i :: 0 <= i < n ==> rows[..n][i] == rows[i];
    }

    /** `_release_awaiting_liquidity` for one pool: waiting withdrawals its account can
        pay go back to the queue, oldest first; one larger than the whole pool
        goes back too, to be failed. Together they never overdraw the account. */
    method Release(capacity: int, whole: nat)
      requires Valid() && work == Idle
      modifies this
      ensures Valid() && old(trace) <= trace && work == Idle && |rows| == |old(rows)|
      ensures forall i :: 0 <= i < |rows| ==> MayRelease(old(rows)[i], rows[i])
      ensures Released(old(rows), rows, whole) <= if capacity > 0 then capacity else 0
    {
      var left := capacity;
      assert rows[..0] == [];
      for i := 0 to |rows|
        invariant Valid() && old(trace) <= trace && work == Idle && |rows| == |old(rows)|
        invariant forall j :: 0 <= j < |rows| ==> MayRelease(old(rows)[j], rows[j])
        invariant forall j :: i <= j < |rows| ==> rows[j] == old(rows)[j]
        invariant Released(old(rows)[..i], rows[..i], whole) + left <= capacity && (left >= 0 || left == capacity)
      {
        var amount, fits := rows[i].amount, false;
        ghost var before := rows;
        if rows[i].status == Awaiting {
          fits := amount <= left;
          var readable: bool := *;
          if fits || (readable && amount > whole) {
            Do(EarnQueue.Act.Release(i));
          }
          if fits {
            left := left - amount;
          }
        }
        ReleasedOneMore(old(rows), before, rows, i, whole);
      }
      assert old(rows)[..|rows|] == old(rows) && rows[..|rows|] == rows;
    }

    /** `deposit` or `withdraw` of the row just taken: recorded as pending before it is
        broadcast. Returns with the row settled, waiting or left for recovery. */
    method Execute(i: nat, poolNonce: nat, poolSignature: nat)
      requires Valid() && work == At(i, Taken) && i < |rows| && rows[i].status == Executing
      modifies this
      ensures Valid() && old(trace) <= trace && work == Idle && |old(rows)| <= |rows|
      ensures forall j :: 0 <= j < |old(rows)| && j != i ==> Same(old(rows)[j], rows[j])
      ensures forall j :: |old(rows)| <= j < |rows| ==> rows[j].status == Scheduled && !rows[j].hash
    {
      hide Allowed, Run, Inv;
      var refused: bool, short: bool, stop: bool := *, *, *;
      if refused {
        Do(Fail(i));
        return;
      }
      if !rows[i].deposit && short {
        Do(Await(i));
        return;
      }
      if stop {
        Do(Crash);
        return;
      }
      var nonce := if rows[i].deposit then rows[i].authNonce else poolNonce;
      var signature := if rows[i].deposit then rows[i].authSignature else poolSignature;
      Do(Record(i, nonce, signature));
      Submit(i);
    }

    /** `_submit_and_settle`. */
    method Submit(i: nat)
      requires Valid() && work == At(i, Recorded) && i < |rows|
      modifies this
      ensures Valid() && old(trace) <= trace && work == Idle && |old(rows)| <= |rows|
      ensures forall j :: 0 <= j < |old(rows)| && j != i ==> Same(old(rows)[j], rows[j])
      ensures forall j :: |old(rows)| <= j < |rows| ==> rows[j].status == Scheduled && !rows[j].hash
    {
      hide Allowed, Run, Inv;
      var stop: bool, raised: bool, went: bool := *, *, *;
      if stop {
        Do(Crash);
        return;
      }
      if raised && !went {
        Do(Fail(i));
        return;
      }
      Do(Send(i));
      if raised {
        Do(Fail(i));
        return;
      }
      Confirm(i);
    }

    /** The hash is recorded before the receipt is waited for. */
    method Confirm(i: nat)
      requires Valid() && work == At(i, Broadcast) && i < |rows|
      modifies this
      ensures Valid() && old(trace) <= trace && work == Idle && |old(rows)| <= |rows|
      ensures forall j :: 0 <= j < |old(rows)| && j != i ==> Same(old(rows)[j], rows[j])
      ensures forall j :: |old(rows)| <= j < |rows| ==> rows[j].status == Scheduled && !rows[j].hash
    {
      hide Allowed, Run, Inv;
      var stop: bool, unknown: bool := *, *;
      if stop {
        Do(Crash);
        return;
      }
      Do(SaveHash(i));
      ghost var before := rows;
      Others();
      assert forall j :: 0 <= j < |before| ==> Same(before[j], rows[j]);
      if unknown || rows[i].landed.None? {
        Do(Leave(i));
      } else if rows[i].landed.value {
        Do(Finish(i));
      } else {
        Do(Fail(i));
      }
    }

    /** `run_once`: recovers first, and starts nothing while anything is in flight. */
    method RunOnce(next: nat, capacity: int, whole: nat, poolNonce: nat, poolSignature: nat)
      requires Valid() && work == Idle
      modifies this
      ensures Valid() && old(trace) <= trace && work == Idle && |old(rows)| <= |rows|
      ensures forall i, j :: 0 <= i < |old(rows)| && rows[i].sent > old(rows)[i].sent && 0 <= j < |rows| && j != i ==>
                !Unresolved(rows[j])
    {
      var inFlight := Recover();
      if inFlight {
        return;
      }
      ghost var settled := rows;
      Release(capacity, whole);
      AllReleased(settled, rows);
      hide Allowed, Run, Inv, Unresolved;
      TakeNext(next, poolNonce, poolSignature);
    }

    /** The next scheduled row is taken and run; nothing else is sent. */
    method TakeNext(next: nat, poolNonce: nat, poolSignature: nat)
      requires Valid() && work == Idle && forall j :: 0 <= j < |rows| ==> !Unresolved(rows[j])
      modifies this
      ensures Valid() && old(trace) <= trace && work == Idle && |old(rows)| <= |rows|
      ensures forall i :: 0 <= i < |old(rows)| && i != next ==> Same(old(rows)[i], rows[i])
      ensures forall i, j :: 0 <= i < |old(rows)| && rows[i].sent > old(rows)[i].sent && 0 <= j < |rows| && j != i ==>
                !Unresolved(rows[j])
    {
      hide Allowed, Run, Inv;
      if next < |rows| && rows[next].status == Scheduled {
        Do(Take(next));
        Execute(next, poolNonce, poolSignature);
      }
    }
  }

  lemma AllReleased(before: seq<Row>, after: seq<Row>)
    requires |after| == |before| && forall j :: 0 <= j < |after| ==> MayRelease(before[j], after[j])
    requires forall j :: 0 <= j < |before| ==> !Unresolved(before[j])
    ensures forall j :: 0 <= j < |after| ==> !Unresolved(after[j]) && after[j].sent == before[j].sent
  {
    forall j | 0 <= j < |after| ensures !Unresolved(after[j]) && after[j].sent == before[j].sent {
      assert MayRelease(before[j], after[j]);
    }
  }

  ghost predicate SentAlike(before: seq<Row>, after: seq<Row>) {
    |before| <= |after| && forall i :: 0 <= i < |before| ==> after[i].sent == before[i].sent
  }

  predicate MayRelease(before: Row, after: Row) {
    after == before || (before.status == Awaiting && after == before.(status := Scheduled))
  }

  /** The amounts released, but for those larger than the whole pool. */
  function Released(before: seq<Row>, after: seq<Row>, whole: nat): nat
    requires |before| == |after|
  {
    if before == [] then 0
    else
      var last := |before| - 1;
      Released(before[..last], after[..last], whole)
      + if after[last] != before[last] && before[last].amount <= whole then before[last].amount else 0
  }

  lemma ReleasedOneMore(first: seq<Row>, before: seq<Row>, after: seq<Row>, i: nat, whole: nat)
    requires i < |first| == |before| == |after| && after == before[i := after[i]]
    ensures Released(first[..i + 1], after[..i + 1], whole) ==
              Released(first[..i], before[..i], whole)
              + if after[i] != first[i] && first[i].amount <= whole then first[i].amount else 0
  {
    assert first[..i + 1][..i] == first[..i] && after[..i + 1][..i] == before[..i];
  }

  ghost predicate Recovered(rows: seq<Row>) {
    forall i :: 0 <= i < |rows| ==> rows[i].status != Executing && (rows[i].status == Pending ==> rows[i].hash)
  }

  ghost predicate NoneTaken(rows: seq<Row>) {
    forall i :: 0 <= i < |rows| ==> !Unresolved(rows[i])
  }

  lemma StaysRecovered(before: seq<Row>, after: seq<Row>, i: nat, n: nat)
    requires i <= n <= |before| && LeftAlone(before, after) && Recovered(before[..i]) && NoneTaken(before[n..])
    ensures Recovered(after[..i]) && NoneTaken(after[n..])
  {
    forall j | 0 <= j < i
      ensures after[..i][j].status == before[..i][j].status && after[..i][j].hash == before[..i][j].hash
    {
      assert Same(before[j], after[j]);
    }
    forall j | 0 <= j < |after| - n ensures !Unresolved(after[n..][j]) {
      if n + j < |before| {
        assert Same(before[n + j], after[n + j]) && !Unresolved(before[n..][j]);
      }
    }
  }
}
