/** src/clients/privana_lanes.py's `_run_lane`: one round of a transfer lane, run
    in its sender's thread while other threads submit and cancel rows and the
    chain moves on. `Valid` says the trace is a run of `LaneQueue`. */
module TransferLane {
  import opened Tables
  import opened LaneQueue

  predicate IsSent(r: Row) {
    r.status == Status.Sent
  }

  /** Ids of the sent rows. */
  function SentIds(rows: seq<Row>): seq<nat> {
    AllWhere(rows, IsSent)
  }

  /** The table orders sent rows by nonce; that is their id order. */
  lemma SentInNonceOrder(w: World, k: nat, m: nat)
    requires Inv(w) && k < m < |SentIds(w.rows)|
    ensures var ids := SentIds(w.rows);
            w.rows[ids[k]].nonce.Some? && w.rows[ids[m]].nonce.Some?
            && w.rows[ids[k]].nonce.value < w.rows[ids[m]].nonce.value
  {
    var ids := SentIds(w.rows);
    assert RowOk(w, ids[k]) && RowOk(w, ids[m]);
    var x, y := w.rows[ids[k]].nonce.value - w.base, w.rows[ids[m]].nonce.value - w.base;
    assert w.batch[x] == ids[k] && w.batch[y] == ids[m];
  }

  lemma LandedBelow(w: World)
    requires Inv(w)
    ensures NextAfterLanded(w.rows) <= |w.spends|
  {
    var next := NextAfterLanded(w.rows);
    if next > 0 {
      var i: nat :| i < |w.rows| && LandedNonce(w.rows[i]) == Some((next - 1) as nat);
      assert RowOk(w, i);
    }
  }

  lemma LandedBelowNext(rows: seq<Row>, i: nat)
    requires i < |rows| && rows[i].status == Landed && rows[i].nonce.Some?
    ensures rows[i].nonce.value < NextAfterLanded(rows)
  {
    assert rows[i] in rows;
  }

  /** A count stays usable for the whole round. */
  lemma StaysReadable(w: World, act: Act, counter: nat)
    requires Enabled(w, act) && !act.Sign? && Readable(w, counter) && (act.Settle? ==> act.counter == counter)
    ensures Readable(Apply(w, act), counter)
  {
    var w2 := Apply(w, act);
    forall i: nat | i < |w.rows| && w.rows[i].status == Landed && w.rows[i].nonce.Some?
      ensures w.rows[i].nonce.value < counter
    {
      LandedBelowNext(w.rows, i);
    }
    hide NextAfterLanded;
    NextIsBelow(w2.rows, counter);
  }

  /** What settling leaves of the rows that were sent. */
  ghost predicate StaySent(ids: seq<nat>, rows: seq<Row>) {
    forall i <- ids :: i < |rows| && rows[i].status == Status.Sent && rows[i].Signed() && rows[i].nonce.Some?
  }

  lemma KeepsSent(w: World, act: Act, ids: seq<nat>)
    requires Enabled(w, act) && !act.Sign? && StaySent(ids, w.rows) && (act.Settle? ==> act.row !in ids)
    ensures StaySent(ids, Apply(w, act).rows)
  {
    hide NextAfterLanded;
  }

  predicate Others(act: Act) {
    !act.Sign? && !act.Settle?
  }

  function SettleActs(ids: seq<nat>, counter: nat): (acts: seq<Act>)
    ensures |acts| == |ids|
    ensures forall k :: 0 <= k < |ids| ==> acts[k] == Settle(ids[k], counter)
  {
    seq(|ids|, k requires 0 <= k < |ids| => Settle(ids[k], counter))
  }

  /** The signing loop: the first of the batch alone is simulated. */
  method SignAll(rows: seq<Row>, ids: seq<nat>, counter: nat) returns (table: seq<Row>)
    requires Ascending(ids) && forall k :: 0 <= k < |ids| ==> ids[k] < |rows|
    ensures table == SignFirst(rows, ids, counter, |ids|)
  {
    var signed := 0;
    table := rows;
    while signed < |ids|
      invariant 0 <= signed <= |ids| && table == SignFirst(rows, ids, counter, signed)
    {
      SignFirstAt(rows, ids, counter, signed);
      Untouched(ids, signed);
      var i, nonce := ids[signed], counter + signed;
      table := table[i := Signed(table[i], nonce, signed == 0)];
      signed := signed + 1;
    }
  }

  class TransferLane {
    const limit: nat
    var rows: seq<Row>
    var spends: seq<Spend>

    ghost var batch: seq<nat>
    ghost var base: nat
    ghost const start: World
    ghost var trace: seq<Act>
    // What the lane itself did this round.
    ghost var log: seq<Act>

    ghost function View(): World
      reads this
    {
      World(rows, spends, batch, base)
    }

    ghost predicate Valid()
      reads this
    {
      Inv(start) && Allowed(start, trace) && View() == Run(start, trace)
    }

    lemma Known()
      requires Valid()
      ensures Inv(View())
    {
      InvRun(start, trace);
    }

    /** A start or restart: nothing is kept in memory. */
    constructor (limit: nat, w: World)
      requires Inv(w)
      ensures Valid() && View() == w && start == w && trace == []
    {
      this.limit := limit;
      rows, spends, batch, base := w.rows, w.spends, w.batch, w.base;
      start, trace, log := w, [], [];
    }

    /** An act of another thread, of the batcher or of the chain. */
    method Other(counter: nat, ghost ids: seq<nat>)
      requires Valid() && Readable(View(), counter) && StaySent(ids, rows)
      modifies `rows, `spends, `trace
      ensures Valid() && old(trace) <= trace && Readable(View(), counter) && StaySent(ids, rows)
    {
      var act: Act := *;
      ghost var w := View();
      if Others(act) && Enabled(World(rows, spends, [], 0), act) {
        OthersAlike(w, World(rows, spends, [], 0), act);
        hide Allowed, Run, Inv, NextAfterLanded, Enabled, Apply, StaySent, Readable;
        RunOne(start, trace, act);
        StaysReadable(w, act, counter);
        KeepsSent(w, act, ids);
        var w2 := Apply(World(rows, spends, [], 0), act);
        rows, spends := w2.rows, w2.spends;
        trace := trace + [act];
      }
    }

    /** `_settle` of one sent row. */
    method SettleRow(i: nat, counter: nat, ghost later: seq<nat>)
      requires i < |rows| && rows[i].status == Status.Sent && rows[i].Signed() && rows[i].nonce.Some?
      requires Valid() && Readable(View(), counter) && StaySent(later, rows) && i !in later
      modifies `rows, `trace, `log
      ensures Valid() && old(trace) <= trace && log == old(log) + [Settle(i, counter)]
      ensures |rows| == |old(rows)| && rows == old(rows)[i := Settled(old(rows)[i], counter)]
      ensures Readable(View(), counter) && StaySent(later, rows)
    {
      ghost var w, act := View(), Settle(i, counter);
      RunOne(start, trace, act);
      StaysReadable(w, act, counter);
      KeepsSent(w, act, later);
      hide Allowed, Run, Inv, NextAfterLanded;
      rows := rows[i := Settled(rows[i], counter)];
      trace, log := trace + [act], log + [act];
    }

    /** `_sign`: the oldest queued rows at consecutive nonces, in one transaction. */
    method SignBatch(counter: nat)
      requires Valid() && Enabled(View(), Sign(counter, limit))
      modifies `rows, `batch, `base, `trace, `log
      ensures Valid() && old(trace) <= trace && log == old(log) + [Sign(counter, limit)]
      ensures View() == Apply(old(View()), Sign(counter, limit))
    {
      ghost var w, act := View(), Sign(counter, limit);
      RunOne(start, trace, act);
      hide Allowed, Run, Inv, NextAfterLanded, Batch;
      BatchIs(rows, limit);
      var ids := Batch(rows, limit);
      rows := SignAll(rows, ids, counter);
      batch, base := ids, counter;
      trace, log := trace + [act], log + [act];
    }

    /** One round: settles every sent row at one count and, once none is left sent,
        signs the next batch from that count. */
    method RunLane(read: nat, gasRefused: bool) returns (signs: bool, counter: nat)
      requires Valid() && read <= |spends|
      modifies `rows, `spends, `batch, `base, `trace, `log
      ensures Valid() && old(trace) <= trace
      ensures read <= counter <= |spends| && NextAfterLanded(old(rows)) <= counter
      ensures log == SettleActs(SentIds(old(rows)), counter) + if signs then [Sign(counter, limit)] else []
      ensures signs ==> batch != [] && base == counter && !gasRefused
      ensures !signs ==> gasRefused || SentIds(rows) != [] || Batch(rows, limit) == []
    {
      Known();
      LandedBelow(View());
      SentSteady(View());
      hide Inv, Allowed, Run, NextAfterLanded, StaySent, SentIds, Batch;
      var next := NextAfterLanded(rows);
      counter := if read < next then next else read;
      var ids := SentIds(rows);
      log := [];
      SettleSent(ids, counter);
      signs := SignNext(counter, gasRefused);
    }

    /** The rest of the round: the next batch, unless rows are still sent, none is
        queued, or gas was refused just now. */
    method SignNext(counter: nat, gasRefused: bool) returns (signs: bool)
      requires Valid() && Readable(View(), counter)
      modifies `rows, `batch, `base, `trace, `log
      ensures Valid() && old(trace) <= trace
      ensures log == old(log) + if signs then [Sign(counter, limit)] else []
      ensures signs ==> batch != [] && base == counter && !gasRefused
      ensures !signs ==> gasRefused || SentIds(rows) != [] || Batch(rows, limit) == []
    {
      hide Inv, Allowed, Run, NextAfterLanded, SentIds, Batch;
      if SentIds(rows) != [] || Batch(rows, limit) == [] || gasRefused {
        return false;
      }
      NoneSent();
      SignBatch(counter);
      return true;
    }

    lemma NoneSent()
      requires SentIds(rows) == []
      ensures forall r <- rows :: r.status != Status.Sent
    {
      forall i: nat | i < |rows| ensures rows[i].status != Status.Sent {
        if rows[i].status == Status.Sent {
          AllWhereSkipsNone(rows, IsSent, i);
        }
      }
    }

    method SettleSent(ids: seq<nat>, counter: nat)
      requires Valid() && Readable(View(), counter) && StaySent(ids, rows) && Ascending(ids) && log == []
      modifies `rows, `spends, `trace, `log
      ensures Valid() && old(trace) <= trace && Readable(View(), counter)
      ensures log == SettleActs(ids, counter)
    {
      hide NextAfterLanded, Allowed, Run, Inv, StaySent;
      for k := 0 to |ids|
        invariant Valid() && old(trace) <= trace && Readable(View(), counter)
        invariant StaySent(ids[k..], rows)
        invariant log == SettleActs(ids, counter)[..k]
      {
        SettleNext(ids, k, counter);
      }
    }

    /** One turn of the settling loop: others act first. */
    method SettleNext(ids: seq<nat>, k: nat, counter: nat)
      requires Valid() && Readable(View(), counter) && Ascending(ids) && k < |ids| && StaySent(ids[k..], rows)
      modifies `rows, `spends, `trace, `log
      ensures Valid() && old(trace) <= trace && Readable(View(), counter) && StaySent(ids[k + 1..], rows)
      ensures log == old(log) + [Settle(ids[k], counter)]
    {
      hide NextAfterLanded, Allowed, Run, Inv;
      Other(counter, ids[k..]);
      NextOf(ids, k, rows);
      hide StaySent;
      SettleRow(ids[k], counter, ids[k + 1..]);
    }
  }

  lemma NextOf(ids: seq<nat>, k: nat, rows: seq<Row>)
    requires Ascending(ids) && k < |ids| && StaySent(ids[k..], rows)
    ensures ids[k] !in ids[k + 1..] && StaySent(ids[k + 1..], rows)
    ensures ids[k] < |rows| && rows[ids[k]].status == Status.Sent && rows[ids[k]].Signed() && rows[ids[k]].nonce.Some?
  {
    assert ids[k..] == [ids[k]] + ids[k + 1..] && ids[k] in ids[k..];
    forall j | k < j < |ids| ensures ids[j] != ids[k] {
    }
  }

  lemma SentSteady(w: World)
    requires Inv(w)
    ensures StaySent(SentIds(w.rows), w.rows)
    ensures forall i: nat :: i < |w.rows| && w.rows[i].status == Status.Sent ==> i in SentIds(w.rows)
  {
    forall i | i in SentIds(w.rows) ensures RowOk(w, i) {
    }
    forall i: nat | i < |w.rows| && w.rows[i].status == Status.Sent ensures i in SentIds(w.rows) {
      AllWhereSkipsNone(w.rows, IsSent, i);
    }
  }

  lemma Untouched(ids: seq<nat>, n: nat)
    requires Ascending(ids) && n < |ids|
    ensures ids[n] !in ids[..n]
  {
  }

  /** Acts of others do not depend on the last batch. */
  lemma OthersAlike(w: World, v: World, act: Act)
    requires w.rows == v.rows && w.spends == v.spends && Others(act) && Enabled(v, act)
    ensures Enabled(w, act) && Apply(w, act) == Apply(v, act).(batch := w.batch, base := w.base)
  {
  }
}
