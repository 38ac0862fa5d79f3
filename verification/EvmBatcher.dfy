/** src/clients/evm_batcher.py's `EvmBatcher`: the only sender of one account.
    Its fields are the table, its own memory, the chain and a ghost trace of
    every act; `Valid` says the trace is a run of `EvmQueue`, kept in nonce
    order while `calm`. */
module EvmBatcher {
  import opened EvmQueue
  import opened Tables

  const STUCK_AFTER_SEC := 900
  const FEE_BUMP_BPS := 1250

  datatype Verdict = Done | Unknown | Open
  datatype Outcome = Sent | Skipped | Stopped
  datatype Reply = Accepted | Refused(error: Error) | NoAnswer

  function Max(a: nat, b: nat): nat {
    if a < b then b else a
  }

  // ---- Fees ----

  /** Whether `held` still pays what `fees` asks, on a legacy chain its gas price. */
  predicate Includable(held: Fees, fees: Fees, legacy: bool) {
    if legacy then held.price >= fees.price
    else held.tip >= fees.tip && held.price >= (fees.price - fees.tip) / 2 + fees.tip
  }

  function Bump(held: nat, fee: nat): nat {
    Max(fee, held + held * FEE_BUMP_BPS / 10_000 + 1)
  }

  function Raise(held: Fees, fees: Fees, legacy: bool): Fees {
    Fees(Bump(held.price, fees.price), if legacy then fees.tip else Bump(held.tip, fees.tip))
  }

  /** Whether a node replaces `held` with a tx paying `fees`: more by the bump on every fee. */
  predicate Outbids(held: Fees, fees: Fees, legacy: bool) {
    && (fees.price - held.price) * 10_000 > held.price * FEE_BUMP_BPS
    && (legacy || (fees.tip - held.tip) * 10_000 > held.tip * FEE_BUMP_BPS)
  }

  lemma RaiseOutbids(held: Fees, fees: Fees, legacy: bool)
    ensures Outbids(held, Raise(held, fees, legacy), legacy)
    ensures Raise(held, fees, legacy).price >= fees.price && Raise(held, fees, legacy).tip >= fees.tip
  {
  }

  // ---- Reading the table ----

  /** Ids of the oldest queued rows, at most `limit`. */
  function FirstQueued(rows: seq<Row>, limit: nat): seq<nat> {
    FirstWhere(rows, (r: Row) => r.status == Queued, 0, limit)
  }

  /** One past the highest nonce a row finished on. */
  function NextAfterMined(rows: seq<Row>): nat {
    NextAfter(rows, (r: Row) => r.nonce)
  }

  /** The table never claims more nonces than the chain mined. */
  lemma NextAfterMinedWithinChain(w: World)
    requires Inv(w)
    ensures NextAfterMined(w.rows) <= |w.mined|
  {
    var next := NextAfterMined(w.rows);
    if next > 0 {
      var i: nat :| i < |w.rows| && w.rows[i].nonce == Some((next - 1) as nat);
      assert Truthful(w, i);
    }
  }

  lemma SettledBelowNext(w: World, j: nat)
    requires Inv(w) && j < |w.rows| && Settled(w.rows[j])
    ensures w.rows[j].Held() < NextAfterMined(w.rows)
  {
    assert Truthful(w, j);
    assert w.rows[j] in w.rows;
    if w.rows[j].status != Failed {
      assert w.rows[j].txHash.value in w.rows[j].attempts;
    }
  }

  // ---- What other threads and the chain leave alone ----

  /** `after` is `before`, or `before` failed unsigned and was queued again. */
  predicate Stays(before: Row, after: Row) {
    after == before || (Requeueable(before) && after.status == Queued && !after.Signed())
  }

  ghost predicate Quiet(before: seq<Row>, after: seq<Row>) {
    && |before| <= |after|
    && (forall j :: 0 <= j < |before| ==> Stays(before[j], after[j]))
    && forall j :: |before| <= j < |after| ==> after[j].status == Queued && !after[j].Signed()
  }

  ghost predicate SameBelow(before: seq<Row>, after: seq<Row>, frontier: nat) {
    |before| <= |after| && forall j :: 0 <= j < |before| && j < frontier ==> after[j] == before[j]
  }

  lemma QuietTwice(a: seq<Row>, b: seq<Row>, c: seq<Row>)
    requires Quiet(a, b) && Quiet(b, c)
    ensures Quiet(a, c)
  {
    forall j | 0 <= j < |a| ensures Stays(a[j], c[j]) {
      assert Stays(a[j], b[j]) && Stays(b[j], c[j]);
    }
  }

  lemma NoneSignedAfter(w: World, i: nat)
    requires Ordered(w) && Waits(w, i) && !w.rows[i].Signed()
    ensures NoneSignedBehind(w, {i})
  {
    forall j: nat | i < j && Waits(w, j) ensures !w.rows[j].Signed() {
      assert InOrder(w, i, j);
    }
  }

  /** In order, the next nonce of a batch fits its next unsigned row: every row
      waiting before it holds a lower nonce and none waits signed behind it. */
  lemma NextFits(w: World, i: nat, nonce: nat)
    requires Ordered(w) && Waits(w, i) && !w.rows[i].Signed()
    requires forall j: nat :: j < i && Waits(w, j) ==> w.rows[j].Signed() && w.rows[j].Held() < nonce
    requires forall j: nat :: j < |w.rows| && Settled(w.rows[j]) ==> w.rows[j].Held() < nonce
    ensures NextInLine(w, i, nonce)
  {
    NoneSignedAfter(w, i);
    assert i in {i};
    forall j: nat | j < |w.rows| && w.rows[j].Signed() ensures w.rows[j].Held() < nonce {
      assert Waits(w, j) || Settled(w.rows[j]);
    }
  }

  lemma NoneSignedStays(w: World, later: World, i: nat)
    requires NoneSignedBehind(w, {i}) && i < |w.rows| <= |later.rows|
    requires Quiet(w.rows[i := later.rows[i]], later.rows)
    ensures NoneSignedBehind(later, {i})
  {
    assert i in {i};
    forall j: nat | i < j && Waits(later, j) ensures !later.rows[j].Signed() {
      if j < |w.rows| {
        assert Stays(w.rows[i := later.rows[i]][j], later.rows[j]);
      }
    }
  }

  lemma Rewritten(before: seq<Row>, mid: seq<Row>, after: seq<Row>, i: nat, frontier: nat)
    requires i < |before| <= |mid| == |after| && after == mid[i := after[i]] && Quiet(before[i := mid[i]], mid)
    ensures Quiet(before[i := after[i]], after)
    ensures SameBelow(before[i := mid[i]], mid, frontier) ==> SameBelow(before[i := after[i]], after, frontier)
  {
    forall j | 0 <= j < |before| ensures Stays(before[i := after[i]][j], after[j]) {
      assert Stays(before[i := mid[i]][j], mid[j]);
    }
  }

  /** What sending row `i` does to the table. */
  ghost predicate Treated(before: seq<Row>, after: seq<Row>, i: nat, nonce: nat, outcome: Outcome) {
    && i < |before| <= |after| && Quiet(before[i := after[i]], after)
    && match outcome
       case Sent =>
         && after[i].status == Queued && after[i].Signed() && after[i].Held() == nonce
         && (before[i].Signed() ==> before[i].Held() == nonce)
       case Skipped => !before[i].Signed() && !after[i].Signed()
       case Stopped => true
  }

  ghost predicate TreatedBelow(before: seq<Row>, after: seq<Row>, i: nat, outcome: Outcome, frontier: nat) {
    && i < |before| <= |after| && SameBelow(before[i := after[i]], after, frontier)
    && (outcome.Skipped? ==> after[i].status != Queued)
  }

  ghost predicate Ascending(ids: seq<nat>) {
    forall k, m :: 0 <= k < m < |ids| ==> ids[k] < ids[m]
  }

  lemma AscendingGrows(ids: seq<nat>, q: nat, some: seq<nat>)
    requires Ascending(ids) && q < |ids| && Ascending(some) && forall i <- some :: i in ids[..q]
    ensures ids[q] !in ids[..q] && ids[q] !in some && Ascending(some + [ids[q]])
  {
    forall i | i in some ensures i < ids[q] {
      var k :| 0 <= k < q && ids[..q][k] == i;
      assert ids[k] < ids[q];
    }
    var more := some + [ids[q]];
    forall k, m | 0 <= k < m < |more| ensures more[k] < more[m] {
      assert more[k] == some[k] && some[k] in some && (m == |some| || more[m] == some[m]);
    }
  }

  /** `ids` are queued rows of the batch, as `snap` read them. */
  ghost predicate Picked(ids: seq<nat>, rows: seq<Row>, snap: seq<Row>, frontier: nat) {
    && |snap| <= |rows|
    && (forall i <- ids :: i < frontier && i < |snap| && rows[i] == snap[i] && rows[i].status == Queued)
    && Ascending(ids)
  }

  /** Rows signed before had their full receipt wait. */
  ghost predicate Ripe(ids: seq<nat>, snap: seq<Row>, clock: int) {
    forall i <- ids :: i < |snap| && (snap[i].Signed() ==> snap[i].updatedAt + RECEIPT_TIMEOUT_SEC <= clock)
  }

  lemma PickedStays(ids: seq<nat>, rows: seq<Row>, later: seq<Row>, snap: seq<Row>, frontier: nat)
    requires Picked(ids, rows, snap, frontier) && Quiet(rows, later)
    ensures Picked(ids, later, snap, frontier)
  {
    forall i | i in ids ensures later[i] == rows[i] {
      assert Stays(rows[i], later[i]);
    }
  }

  /** Row `i` is done with; the rows before and after it still wait. */
  lemma PickedWithout(a: seq<nat>, i: nat, b: seq<nat>, rows: seq<Row>, later: seq<Row>, snap: seq<Row>, frontier: nat)
    requires Picked(a + [i] + b, rows, snap, frontier)
    requires i < |rows| <= |later| && Quiet(rows[i := later[i]], later)
    ensures Picked(a + b, later, snap, frontier)
  {
    var ids := a + [i] + b;
    assert ids[|a|] == i;
    forall k | 0 <= k < |a + b| ensures (a + b)[k] == ids[if k < |a| then k else k + 1] {
    }
    forall j | j in a + b ensures j < |rows| && j != i && later[j] == rows[j] && j in ids {
      var k :| 0 <= k < |a + b| && (a + b)[k] == j;
      assert ids[if k < |a| then k else k + 1] == j;
      assert j in ids;
      assert Stays(rows[i := later[i]][j], later[j]);
    }
  }

  /** Every row waiting below `frontier` is one of `ids`. */
  ghost predicate Covers(ids: seq<nat>, rows: seq<Row>, frontier: nat) {
    frontier <= |rows| && forall j: nat :: j < frontier && rows[j].status == Queued ==> j in ids
  }

  lemma CoversStays(ids: seq<nat>, rows: seq<Row>, later: seq<Row>, frontier: nat)
    requires Covers(ids, rows, frontier) && SameBelow(rows, later, frontier)
    ensures Covers(ids, later, frontier)
  {
  }

  lemma CoversWithout(a: seq<nat>, i: nat, b: seq<nat>, rows: seq<Row>, later: seq<Row>, frontier: nat)
    requires Covers(a + [i] + b, rows, frontier)
    requires i < |rows| == |later| && later == rows[i := later[i]] && later[i].status != Queued
    ensures Covers(a + b, later, frontier)
  {
    forall j: nat | j < frontier && later[j].status == Queued ensures j in a + b {
      assert j in a + [i] + b && j != i;
    }
  }

  /** Every row waiting below `frontier` is one of `ids` or holds a nonce below `nonce`. */
  ghost predicate Below(ids: seq<nat>, rows: seq<Row>, frontier: nat, nonce: nat) {
    && frontier <= |rows|
    && forall j: nat :: j < frontier && rows[j].status == Queued && j !in ids ==>
         rows[j].Signed() && rows[j].Held() < nonce
  }

  ghost predicate SettledUnder(rows: seq<Row>, nonce: nat) {
    forall j: nat :: j < |rows| && Settled(rows[j]) ==> rows[j].Held() < nonce
  }

  lemma BelowStays(ids: seq<nat>, rows: seq<Row>, later: seq<Row>, frontier: nat, nonce: nat)
    requires Below(ids, rows, frontier, nonce) && SameBelow(rows, later, frontier)
    ensures Below(ids, later, frontier, nonce)
  {
  }

  lemma SettledUnderStays(rows: seq<Row>, later: seq<Row>, nonce: nat)
    requires SettledUnder(rows, nonce) && Quiet(rows, later)
    ensures SettledUnder(later, nonce)
  {
    forall j: nat | j < |later| && Settled(later[j]) ensures later[j].Held() < nonce {
      assert j < |rows| && Stays(rows[j], later[j]);
    }
  }

  /** The nonce after row `ids[0]` was treated. */
  function NonceAfter(nonce: nat, at: nat, outcome: Outcome): nat {
    if outcome.Sent? then Max(nonce, at + 1) else nonce
  }

  lemma BelowTreated(ids: seq<nat>, rows: seq<Row>, later: seq<Row>, frontier: nat, nonce: nat, at: nat,
                     outcome: Outcome)
    requires ids != [] && !outcome.Stopped? && Below(ids, rows, frontier, nonce)
    requires Treated(rows, later, ids[0], at, outcome) && TreatedBelow(rows, later, ids[0], outcome, frontier)
    ensures Below(ids[1..], later, frontier, NonceAfter(nonce, at, outcome))
  {
    forall j: nat | j < frontier && later[j].status == Queued && j !in ids[1..]
      ensures later[j].Signed() && later[j].Held() < NonceAfter(nonce, at, outcome)
    {
      assert ids == [ids[0]] + ids[1..];
      if j != ids[0] {
        assert j !in [ids[0]] + ids[1..];
        assert later[j] == rows[j];
      }
    }
  }

  lemma NoGapStays(rows: seq<Row>, later: seq<Row>, used: nat, more: nat, nonce: nat)
    requires NoGap(rows, used, nonce) && Quiet(rows, later) && used <= more
    ensures NoGap(later, more, nonce)
  {
    if nonce > used {
      var r :| r in rows && r.Signed() && r.Held() == nonce - 1;
      var j: nat :| j < |rows| && rows[j] == r;
      assert Stays(rows[j], later[j]) && later[j] in later;
    }
  }

  /** After a row is sent the next nonce is one past it, or as before. */
  lemma NoGapTreated(rows: seq<Row>, later: seq<Row>, i: nat, used: nat, more: nat, nonce: nat, at: nat,
                     outcome: Outcome)
    requires NoGap(rows, used, nonce) && used <= more && !outcome.Stopped? && Treated(rows, later, i, at, outcome)
    ensures NoGap(later, more, NonceAfter(nonce, at, outcome))
  {
    if outcome.Sent? && at + 1 > nonce {
      assert later[i] in later;
    } else if nonce > used {
      var r :| r in rows && r.Signed() && r.Held() == nonce - 1;
      var j: nat :| j < |rows| && rows[j] == r;
      if j != i {
        assert Stays(rows[i := later[i]][j], later[j]);
      }
      assert later[j] in later;
    }
  }

  /** The first of the picked rows is as it was read. */
  lemma PickedFirst(ids: seq<nat>, before: seq<Row>, rows: seq<Row>, snap: seq<Row>, frontier: nat)
    requires ids != [] && Picked(ids, before, snap, frontier) && Picked(ids, rows, snap, frontier)
    ensures var i := ids[0];
            && i < |before| && i < |rows| && i < |snap| && i < frontier && rows[i] == snap[i] == before[i]
            && rows[i].status == Queued && Ascending(ids)
  {
    assert ids[0] in ids;
  }

  /** What treating the first row leaves of the rest. */
  lemma RestPicked(ids: seq<nat>, rows: seq<Row>, later: seq<Row>, snap: seq<Row>, frontier: nat, nonce: nat, at: nat,
                   outcome: Outcome, used: nat, more: nat)
    requires ids != [] && !outcome.Stopped? && Picked(ids, rows, snap, frontier) && used <= more
    requires SettledUnder(rows, nonce) && NoGap(rows, used, nonce) && Treated(rows, later, ids[0], at, outcome)
    ensures Picked(ids[1..], later, snap, frontier)
    ensures SettledUnder(later, NonceAfter(nonce, at, outcome)) && NoGap(later, more, NonceAfter(nonce, at, outcome))
  {
    var i := ids[0];
    hide SettledUnder, NoGap, Picked;
    assert ids == [] + [i] + ids[1..] && ids[1..] == [] + ids[1..];
    PickedWithout([], i, ids[1..], rows, later, snap, frontier);
    SettledUnderTreated(rows, later, i, nonce, at, outcome);
    NoGapTreated(rows, later, i, used, more, nonce, at, outcome);
  }

  lemma TreatedIs(before: seq<Row>, after: seq<Row>, i: nat, nonce: nat, outcome: Outcome)
    requires Treated(before, after, i, nonce, outcome)
    ensures outcome.Sent? ==> AllWait([i], after)
    ensures outcome.Skipped? ==> AllUnsigned([i], after)
  {
    hide Quiet;
  }

  lemma TreatedTwice(a: seq<Row>, b: seq<Row>, c: seq<Row>, i: nat, nonce: nat, outcome: Outcome)
    requires i < |a| <= |b| && a[i] == b[i] && Quiet(a, b) && Treated(b, c, i, nonce, outcome)
    ensures Treated(a, c, i, nonce, outcome)
  {
    QuietTwice(a[i := c[i]], b[i := c[i]], c);
  }

  ghost predicate AllWait(ids: seq<nat>, rows: seq<Row>) {
    forall i <- ids :: i < |rows| && rows[i].status == Queued
  }

  ghost predicate AllUnsigned(ids: seq<nat>, rows: seq<Row>) {
    forall i <- ids :: i < |rows| && !rows[i].Signed()
  }

  lemma RestWaits(ids: seq<nat>, k: nat, rows: seq<Row>, later: seq<Row>)
    requires k < |ids| && Ascending(ids) && AllWait(ids[k..], rows)
    requires ids[k] < |rows| == |later| && (later == rows || later == rows[ids[k] := later[ids[k]]])
    ensures AllWait(ids[k + 1..], later)
  {
    forall i | i in ids[k + 1..] ensures i < |later| && later[i].status == Queued {
      var d :| 0 <= d < |ids| - k - 1 && ids[k + 1..][d] == i;
      assert ids[k..][d + 1] == i && ids[k..][d + 1] in ids[k..] && ids[k] < ids[k + 1 + d];
    }
  }

  lemma AllWaitStays(ids: seq<nat>, rows: seq<Row>, later: seq<Row>)
    requires AllWait(ids, rows) && Quiet(rows, later)
    ensures AllWait(ids, later)
  {
    forall i | i in ids ensures Stays(rows[i], later[i]) {
    }
  }

  lemma AllTogether(a: seq<nat>, b: seq<nat>, rows: seq<Row>)
    ensures AllWait(a, rows) && AllWait(b, rows) ==> AllWait(a + b, rows)
    ensures AllUnsigned(a, rows) && AllUnsigned(b, rows) ==> AllUnsigned(a + b, rows)
  {
  }

  lemma TreatedKeeps(ids: seq<nat>, rows: seq<Row>, later: seq<Row>, i: nat, nonce: nat, outcome: Outcome)
    requires i !in ids && Treated(rows, later, i, nonce, outcome)
    ensures AllWait(ids, rows) ==> AllWait(ids, later)
    ensures AllUnsigned(ids, rows) ==> AllUnsigned(ids, later)
  {
    forall j | j in ids && j < |rows| ensures Stays(rows[j], later[j]) {
      assert Stays(rows[i := later[i]][j], later[j]);
    }
  }

  /** The sending loop after `q` rows, of which it sent `sent`. */
  ghost predicate SentSoFar(unsent: seq<nat>, q: nat, sent: seq<nat>, handled: set<nat>, rows: seq<Row>)
    requires q <= |unsent|
  {
    && AllWait(sent, rows) && Ascending(sent) && (forall i <- sent :: i in unsent[..q])
    && (forall i <- unsent[..q] :: i in handled)
    && (sent == [] ==> AllUnsigned(unsent[..q], rows))
  }

  lemma SentStays(unsent: seq<nat>, q: nat, sent: seq<nat>, handled: set<nat>, rows: seq<Row>,
                  wider: set<nat>, later: seq<Row>, nonce: nat, outcome: Outcome)
    requires q < |unsent| && Ascending(unsent) && SentSoFar(unsent, q, sent, handled, rows)
    requires handled <= wider && Treated(rows, later, unsent[q], nonce, outcome)
    ensures SentSoFar(unsent, q, sent, wider, later)
  {
    AscendingGrows(unsent, q, sent);
    AscendingGrows(unsent, q, []);
    hide Treated, Ascending;
    TreatedKeeps(sent, rows, later, unsent[q], nonce, outcome);
    TreatedKeeps(unsent[..q], rows, later, unsent[q], nonce, outcome);
  }

  lemma SentOneMore(unsent: seq<nat>, q: nat, sent: seq<nat>, handled: set<nat>, rows: seq<Row>,
                    wider: set<nat>, later: seq<Row>, nonce: nat, outcome: Outcome)
    requires q < |unsent| && Ascending(unsent) && SentSoFar(unsent, q, sent, handled, rows)
    requires handled <= wider && unsent[q] in wider
    requires Treated(rows, later, unsent[q], nonce, outcome)
    requires !outcome.Stopped? && (outcome.Sent? ==> AllWait([unsent[q]], later))
    requires outcome.Skipped? ==> AllUnsigned([unsent[q]], later)
    ensures SentSoFar(unsent, q + 1, if outcome.Sent? then sent + [unsent[q]] else sent, wider, later)
  {
    SentStays(unsent, q, sent, handled, rows, wider, later, nonce, outcome);
    AscendingGrows(unsent, q, sent);
    hide Treated, Ascending;
    var i := unsent[q];
    assert unsent[..q + 1] == unsent[..q] + [i];
    AllTogether(sent, [i], later);
    AllTogether(unsent[..q], [i], later);
  }

  lemma SettledUnderTreated(rows: seq<Row>, later: seq<Row>, i: nat, nonce: nat, at: nat, outcome: Outcome)
    requires !outcome.Stopped? && SettledUnder(rows, nonce) && Treated(rows, later, i, at, outcome)
    ensures SettledUnder(later, NonceAfter(nonce, at, outcome))
  {
    forall j: nat | j < |later| && Settled(later[j]) ensures later[j].Held() < NonceAfter(nonce, at, outcome) {
      assert j != i;
      if j < |rows| {
        assert Stays(rows[i := later[i]][j], later[j]);
      }
    }
  }

  lemma BatchCovers(rows: seq<Row>, limit: nat)
    requires FirstQueued(rows, limit) != []
    ensures var ids := FirstQueued(rows, limit);
            var frontier := ids[|ids| - 1] + 1;
            Picked(ids, rows, rows, frontier) && Covers(ids, rows, frontier)
  {
    var ids := FirstQueued(rows, limit);
    forall j: nat | j <= ids[|ids| - 1] && rows[j].status == Queued ensures j in ids {
      FirstWhereSkipsNone(rows, (r: Row) => r.status == Queued, 0, limit, j);
      assert ids[|ids| - 1] in ids;
    }
  }

  lemma SettledAllUnder(w: World, nonce: nat)
    requires Inv(w) && NextAfterMined(w.rows) <= nonce
    ensures SettledUnder(w.rows, nonce)
  {
    forall j: nat | j < |w.rows| && Settled(w.rows[j]) ensures w.rows[j].Held() < nonce {
      SettledBelowNext(w, j);
    }
  }

  function Requeued(r: Row, owners: set<nat>, at: int): Row {
    if r.owner in owners && Requeueable(r) then Again(r, at) else r
  }

  /** The settling loop after `k` rows, of which `unsent` are left to send. */
  ghost predicate SettledSoFar(batch: seq<nat>, k: nat, unsent: seq<nat>, handled: set<nat>, progressed: bool)
    requires k <= |batch|
  {
    && (progressed ==> exists i <- batch :: i in handled)
    && (forall i <- unsent :: i in batch)
    && (forall i <- batch[..k] :: i in unsent || i in handled)
    && (!progressed ==> unsent == batch[..k])
  }

  lemma SettledOneMore(batch: seq<nat>, k: nat, unsent: seq<nat>, handled: set<nat>, progressed: bool,
                       wider: set<nat>, done: bool)
    requires k < |batch| && SettledSoFar(batch, k, unsent, handled, progressed) && handled <= wider
    requires done ==> batch[k] in wider
    ensures SettledSoFar(batch, k + 1, if done then unsent else unsent + [batch[k]], wider, progressed || done)
  {
    assert batch[..k + 1] == batch[..k] + [batch[k]] && batch[k] in batch;
  }

  lemma SettledStays(batch: seq<nat>, k: nat, unsent: seq<nat>, handled: set<nat>, progressed: bool, wider: set<nat>)
    requires k < |batch| && SettledSoFar(batch, k, unsent, handled, progressed) && handled <= wider
    ensures SettledSoFar(batch, k, unsent, wider, progressed) && batch[k] in batch
  {
  }

  lemma RipeMore(a: seq<nat>, b: seq<nat>, snap: seq<Row>, clock: int, later: int)
    requires Ripe(a, snap, clock) && Ripe(b, snap, later) && clock <= later
    ensures Ripe(a, snap, later) && Ripe(a + b, snap, later)
  {
  }

  predicate Settling(act: Act) {
    act.Seen? || act.Unsent? || act.Taken?
  }

  predicate Writing(act: Act) {
    Settling(act) || act.Attempt? || act.Erase?
  }

  /** What the memory and the clock say agrees with the table and the chain. */
  ghost predicate Remembers(w: World, minedAt: seq<int>, usedSince: map<nat, int>, inFlight: set<Version>, clock: int) {
    && |minedAt| == |w.mined|
    && (forall n :: 0 <= n < |minedAt| ==> minedAt[n] <= clock)
    && (forall i <- usedSince :: Waits(w, i) && w.rows[i].Signed() && w.rows[i].Held() < |minedAt|
          && minedAt[w.rows[i].Held()] <= usedSince[i] <= clock)
    && forall v <- inFlight :: v.row < |w.rows| && v in w.rows[v.row].attempts
  }

  lemma WriteRemembers(w: World, act: Act, minedAt: seq<int>, usedSince: map<nat, int>, inFlight: set<Version>,
                       clock: int)
    requires Remembers(w, minedAt, usedSince, inFlight, clock)
    requires OneNonce(w) && Writing(act) && Enabled(w, act)
    requires act.Erase? ==> w.rows[act.row].attempts[0] !in inFlight && act.row !in usedSince
    ensures var kept := if Settling(act) then usedSince - {act.row} else usedSince;
            Remembers(Apply(w, act), minedAt, kept, inFlight, clock)
  {
  }

  /** A write leaves the chain and the nodes as they are. */
  lemma KeepsChain(w: World, act: Act)
    requires Writing(act) && Enabled(w, act)
    ensures Apply(w, act) == w.(rows := Apply(w, act).rows)
  {
  }

  /** A requeue puts no row ahead of a signed one or of the batch under way. */
  ghost predicate Calm(w: World, act: Act, frontier: nat) {
    act.Requeue? ==> NoneSignedBehind(w, act.ids) && forall i <- act.ids :: frontier <= i
  }

  lemma CalmIsOrderly(w: World, act: Act, frontier: nat)
    requires Enabled(w, act) && !Writing(act) && Calm(w, act, frontier)
    ensures Orderly(w, act)
  {
  }

  lemma EventRemembers(w: World, act: Act, minedAt: seq<int>, usedSince: map<nat, int>, inFlight: set<Version>,
                       clock: int)
    requires Remembers(w, minedAt, usedSince, inFlight, clock)
    requires !Writing(act) && Enabled(w, act)
    ensures Remembers(Apply(w, act), if act.Mine? then minedAt + [clock] else minedAt, usedSince, inFlight, clock)
  {
  }

  /** `w` is where the run `trace` from `start` ends, and the run is in order if `calm`. */
  ghost predicate Follows(start: World, trace: seq<Act>, w: World, calm: bool) {
    && Inv(start) && Allowed(start, trace) && w == Run(start, trace)
    && (calm ==> Ordered(start) && OrderlyRun(start, trace))
  }

  lemma FollowsOne(start: World, trace: seq<Act>, w: World, calm: bool, act: Act, still: bool)
    requires Follows(start, trace, w, calm) && Enabled(w, act)
    requires still ==> calm && Orderly(w, act)
    ensures Follows(start, trace + [act], Apply(w, act), still)
  {
    hide Apply, Enabled, Orderly, Inv, Ordered;
    RunOne(start, trace, act);
    assert (trace + [act])[..|trace|] == trace;
  }

  lemma FollowsKnown(start: World, trace: seq<Act>, w: World, calm: bool)
    requires Follows(start, trace, w, calm)
    ensures Inv(w) && (calm ==> Ordered(w))
  {
    InvRun(start, trace);
    if calm {
      OrderedRun(start, trace);
    }
  }

  lemma EventQuiet(w: World, act: Act, frontier: nat)
    requires !Writing(act) && Enabled(w, act)
    ensures Quiet(w.rows, Apply(w, act).rows) && w.mined <= Apply(w, act).mined
    ensures Apply(w, act).reached <= w.reached + if act.Reach? then {act.version} else {}
    ensures Calm(w, act, frontier) ==> SameBelow(w.rows, Apply(w, act).rows, frontier)
  {
  }

  lemma SameBelowTwice(a: seq<Row>, b: seq<Row>, c: seq<Row>, frontier: nat)
    requires SameBelow(a, b, frontier) && SameBelow(b, c, frontier)
    ensures SameBelow(a, c, frontier)
  {
  }

  lemma TickRemembers(w: World, minedAt: seq<int>, usedSince: map<nat, int>, inFlight: set<Version>, clock: int,
                      later: int)
    requires Remembers(w, minedAt, usedSince, inFlight, clock) && clock <= later
    ensures Remembers(w, minedAt, usedSince, inFlight, later)
  {
  }

  class EvmBatcher {
    const batchSize: nat
    const legacy: bool

    // The table, and what a crash loses.
    var rows: seq<Row>
    var usedSince: map<nat, int>

    // The chain, its nodes and the clock; `inFlight` may still reach a node.
    var mined: seq<Entry>
    var minedAt: seq<int>
    var reached: set<Version>
    var inFlight: set<Version>
    var clock: int

    ghost const start: World
    ghost var trace: seq<Act>
    // Rows below `frontier` belong to the batch under way. `calm` holds until a
    // requeue puts a row ahead of a signed one or of the batch.
    ghost var frontier: nat
    ghost var calm: bool
    // This batch: whether it ended early, the rows settled or sent, and how many
    // calls failed or found a tx still pending.
    var halted: bool
    ghost var handled: set<nat>
    ghost var setbacks: nat

    ghost function View(): World
      reads this
    {
      World(rows, mined, reached)
    }

    ghost predicate Valid()
      reads this
    {
      && Follows(start, trace, View(), calm)
      && Remembers(View(), minedAt, usedSince, inFlight, clock)
    }

    lemma Known()
      requires Valid()
      ensures Inv(View()) && (calm ==> Ordered(View()))
    {
      FollowsKnown(start, trace, View(), calm);
    }

    lemma OneNonceKnown()
      requires Valid()
      ensures OneNonce(View())
    {
      Known();
    }

    lemma Clocked()
      requires Valid()
      ensures |minedAt| == |mined|
    {
    }

    /** What the chain mined for a row is an attempt of it, at the nonce they all hold. */
    lemma OwnVersions(i: nat)
      requires Valid() && i < |rows|
      ensures forall v <- rows[i].attempts :: v.row == i && v.nonce == rows[i].Held()
      ensures forall n: nat :: MinedFor(View(), n, i) ==> mined[n].version in rows[i].attempts && n == rows[i].Held()
    {
      Known();
      forall n: nat | MinedFor(View(), n, i) ensures mined[n].version in rows[i].attempts && n == rows[i].Held() {
        assert mined[n].version in reached;
      }
    }

    /** Nothing of an unsigned row is out. */
    lemma NothingOut(i: nat, v: Version)
      requires Valid() && i < |rows| && !rows[i].Signed() && v.row == i
      ensures v !in reached && v !in inFlight && i !in usedSince
    {
      Known();
    }

    lemma FirstInOrder(i: nat)
      requires Valid() && calm && Waits(View(), i) && !rows[i].Signed()
      ensures NoneSignedBehind(View(), {i})
    {
      Known();
      NoneSignedAfter(View(), i);
    }

    lemma NextNonceFits(ids: seq<nat>, nonce: nat)
      requires Valid() && calm && ids != [] && ids[0] < frontier && Ascending(ids)
      requires Waits(View(), ids[0]) && !rows[ids[0]].Signed()
      requires SettledUnder(rows, nonce) && Below(ids, rows, frontier, nonce) && NoGap(rows, |mined|, nonce)
      ensures Fits(View(), ids[0], nonce)
    {
      Known();
      forall j: nat | j < ids[0] && Waits(View(), j) ensures rows[j].Signed() && rows[j].Held() < nonce {
        assert j !in ids;
      }
      NextFits(View(), ids[0], nonce);
    }

    lemma CountWithinChain()
      requires Valid()
      ensures NextAfterMined(rows) <= |mined|
    {
      Known();
      NextAfterMinedWithinChain(View());
    }

    lemma SettledBelow(nonce: nat)
      requires Valid() && NextAfterMined(rows) <= nonce
      ensures SettledUnder(rows, nonce)
    {
      Known();
      SettledAllUnder(View(), nonce);
    }

    /** A start or a restart: the table and the chain are as they are, memory is
        empty, and anything signed before may still arrive. */
    constructor (batchSize: nat, legacy: bool, w: World, minedAt: seq<int>, clock: int, inFlight: set<Version>)
      requires Inv(w) && |minedAt| == |w.mined| && forall n :: 0 <= n < |minedAt| ==> minedAt[n] <= clock
      requires forall v <- inFlight :: v.row < |w.rows| && v in w.rows[v.row].attempts
      ensures Valid() && View() == w && start == w && trace == [] && usedSince == map[]
      ensures calm <==> Ordered(w)
    {
      this.batchSize, this.legacy := batchSize, legacy;
      rows, mined, reached := w.rows, w.mined, w.reached;
      this.minedAt, this.inFlight, this.clock := minedAt, inFlight, clock;
      usedSince := map[];
      start, trace := w, [];
      frontier, calm, handled, setbacks, halted := 0, Ordered(w), {}, 0, false;
    }

    /** One write of this batcher to the table. */
    method Write(act: Act)
      requires Valid() && Writing(act) && Enabled(View(), act) && (calm ==> Orderly(View(), act))
      requires act.Erase? ==> rows[act.row].attempts[0] !in inFlight && act.row !in usedSince
      modifies `rows, `usedSince, `trace, `handled
      ensures Valid() && View() == Apply(old(View()), act) && trace == old(trace) + [act]
      ensures usedSince == if Settling(act) then old(usedSince) - {act.row} else old(usedSince)
      ensures handled == if Settling(act) then old(handled) + {act.row} else old(handled)
    {
      OneNonceKnown();
      hide Remembers, Follows, Apply, Enabled, Inv, Ordered, Orderly, OneNonce, Writing;
      FollowsOne(start, trace, View(), calm, act, calm);
      WriteRemembers(View(), act, minedAt, usedSince, inFlight, clock);
      KeepsChain(View(), act);
      if Settling(act) {
        usedSince := usedSince - {act.row};
        handled := handled + {act.row};
      }
      rows := Apply(World(rows, mined, reached), act).rows;
      trace := trace + [act];
    }

    /** Something another thread, a node or the chain does. */
    method Event(act: Act)
      requires Valid() && !Writing(act) && Enabled(View(), act)
      modifies `rows, `mined, `minedAt, `reached, `trace, `calm, `handled
      ensures Valid() && View() == Apply(old(View()), act) && trace == old(trace) + [act]
      ensures minedAt == if act.Mine? then old(minedAt) + [clock] else old(minedAt)
      ensures calm == (old(calm) && Calm(old(View()), act, frontier))
      ensures handled == if act.Reach? then old(handled) + {act.version.row} else old(handled)
    {
      hide Remembers, Follows, Apply, Enabled, Inv, Ordered, Orderly, NoneSignedBehind;
      ghost var still := calm && Calm(View(), act, frontier);
      if still {
        CalmIsOrderly(View(), act, frontier);
      }
      FollowsOne(start, trace, View(), calm, act, still);
      EventRemembers(View(), act, minedAt, usedSince, inFlight, clock);
      calm := still;
      if act.Mine? {
        minedAt := minedAt + [clock];
      }
      if act.Reach? {
        handled := handled + {act.version.row};
      }
      var w := Apply(World(rows, mined, reached), act);
      rows, mined, reached := w.rows, w.mined, w.reached;
      trace := trace + [act];
    }

    /** An act of another thread, of a node or of the chain. */
    method Foreign() returns (act: Act)
      ensures !Writing(act) && Enabled(View(), act) && (act.Reach? ==> act.version in inFlight)
    {
      if {
      case true =>
        var entry: Entry := *;
        act := Mine(entry);
      case true =>
        var ids: set<nat> := *;
        act := Act.Requeue(ids, clock);
      case true =>
        var v: Version := *;
        act := Reach(v);
      case true =>
        var intents: seq<Intent> := *;
        return Act.Submit(intents, clock);
      }
      if !Enabled(World(rows, mined, reached), act) || (act.Reach? && act.version !in inFlight) {
        act := Act.Submit([], clock);
      }
    }

    /** One thing other threads, the nodes, the chain or the clock may do. */
    method Other()
      requires Valid()
      modifies `rows, `mined, `minedAt, `reached, `trace, `calm, `handled, `clock
      ensures Valid() && old(trace) <= trace && old(mined) <= mined && old(clock) <= clock && old(handled) <= handled
      ensures Quiet(old(rows), rows) && reached <= old(reached) + inFlight
      ensures calm ==> old(calm) && SameBelow(old(rows), rows, frontier)
    {
      hide Follows, Remembers, Quiet, SameBelow, Apply, Enabled, Calm, Writing;
      var tick: int := *;
      if tick > 0 {
        TickRemembers(View(), minedAt, usedSince, inFlight, clock, clock + tick);
        clock := clock + tick;
      }
      var act := Foreign();
      EventQuiet(View(), act, frontier);
      Event(act);
    }

    /** Whatever happens before the batcher's next step. */
    method Others()
      requires Valid()
      modifies `rows, `mined, `minedAt, `reached, `trace, `calm, `handled, `clock
      ensures Valid() && old(trace) <= trace && old(mined) <= mined && old(clock) <= clock && old(handled) <= handled
      ensures Quiet(old(rows), rows) && reached <= old(reached) + inFlight
      ensures calm ==> old(calm) && SameBelow(old(rows), rows, frontier)
    {
      var times: nat := *;
      while times > 0
        invariant Valid() && old(trace) <= trace && old(mined) <= mined && old(clock) <= clock
        invariant old(handled) <= handled
        invariant Quiet(old(rows), rows) && reached <= old(reached) + inFlight
        invariant calm ==> old(calm) && SameBelow(old(rows), rows, frontier)
      {
        ghost var before := rows;
        Other();
        QuietTwice(old(rows), before, rows);
        if calm {
          SameBelowTwice(old(rows), before, rows, frontier);
        }
        times := times - 1;
      }
    }

    /** A node's count of the nonces mined; it may lag. */
    method Count() returns (count: nat)
      ensures count <= |mined|
    {
      count := *;
      if count > |mined| {
        count := |mined|;
      }
    }

    /** A node's receipt of `v`: it may come late, by less than STUCK_AFTER_SEC. */
    method Receipt(v: Version) returns (ok: Option<bool>)
      requires |minedAt| == |mined|
      ensures ok.Some? ==> v.nonce < |mined| && mined[v.nonce] == Ours(v, ok.value)
      ensures ok.None? && v.nonce < |mined| && minedAt[v.nonce] + STUCK_AFTER_SEC <= clock ==>
                !(mined[v.nonce].Ours? && mined[v.nonce].version == v)
    {
      ok := None;
      if v.nonce < |mined| && mined[v.nonce].Ours? && mined[v.nonce].version == v {
        var late: bool := *;
        if !late || minedAt[v.nonce] + STUCK_AFTER_SEC <= clock {
          ok := Some(mined[v.nonce].ok);
        }
      }
    }

    /** The first attempt with a receipt, and whether it succeeded. */
    method FindReceipt(attempts: seq<Version>) returns (found: Option<Entry>)
      requires |minedAt| == |mined|
      ensures found.Some? ==>
                && found.value.Ours? && found.value.version in attempts
                && found.value.version.nonce < |mined| && mined[found.value.version.nonce] == found.value
      ensures found.None? ==> forall v <- attempts ::
                (v.nonce < |mined| && minedAt[v.nonce] + STUCK_AFTER_SEC <= clock) ==>
                !(mined[v.nonce].Ours? && mined[v.nonce].version == v)
    {
      for k := 0 to |attempts|
        invariant forall v <- attempts[..k] ::
                    (v.nonce < |mined| && minedAt[v.nonce] + STUCK_AFTER_SEC <= clock) ==>
                    !(mined[v.nonce].Ours? && mined[v.nonce].version == v)
      {
        var ok := Receipt(attempts[k]);
        if ok.Some? {
          return Some(Ours(attempts[k], ok.value));
        }
      }
      return None;
    }

    /** Looks for a receipt of any attempt. `Unknown`: the nonce is used and none
        shows; by STUCK_AFTER_SEC after it was used, that means another tx took it. */
    method Settle(i: nat, used: Option<nat>) returns (verdict: Verdict)
      requires Valid() && Waits(View(), i)
      requires used.Some? ==> used.value <= |mined|
      modifies `rows, `usedSince, `trace, `handled
      ensures Valid() && old(trace) <= trace
      ensures verdict.Done? ==>
                && |rows| == |old(rows)| && rows == old(rows)[i := rows[i]] && Settled(rows[i])
                && usedSince == old(usedSince) - {i} && handled == old(handled) + {i}
      ensures !verdict.Done? ==> rows == old(rows) && usedSince == old(usedSince) && handled == old(handled)
      ensures verdict.Unknown? ==>
                && used.Some? && rows[i].Signed() && rows[i].Held() < used.value
                && (minedAt[rows[i].Held()] + STUCK_AFTER_SEC <= clock ==> !MinedFor(View(), rows[i].Held(), i))
      ensures verdict.Open? && used.Some? && rows[i].Signed() ==> used.value <= rows[i].Held()
    {
      hide Follows, Remembers;
      Clocked();
      var attempts := rows[i].attempts;
      var found := FindReceipt(attempts);
      if found.Some? {
        Write(Seen(i, found.value.version, found.value.ok, clock));
        return Done;
      }
      OwnVersions(i);
      if used.Some? && exists v <- attempts :: v.nonce < used.value {
        return Unknown;
      }
      return Open;
    }

    /** The newest attempt a node still holds, unless the lookup fails. */
    method NewestHeld(attempts: seq<Version>) returns (failed: bool, held: Option<Version>)
      ensures held.Some? ==> held.value in attempts
    {
      var k := |attempts|;
      while k > 0 {
        k := k - 1;
        failed := *;
        if failed {
          return true, None;
        }
        var found: bool := *;
        if found {
          return false, Some(attempts[k]);
        }
      }
      return false, None;
    }

    method Ask() returns (reply: Reply) {
      reply := *;
    }

    /** Fails row `i` with nothing signed. */
    method FailUnsent(i: nat, error: Error, ghost nonce: nat)
      requires Valid() && Waits(View(), i) && !rows[i].Signed()
      modifies `rows, `usedSince, `trace, `handled
      ensures Valid() && old(trace) <= trace && handled == old(handled) + {i}
      ensures Treated(old(rows), rows, i, nonce, Skipped) && TreatedBelow(old(rows), rows, i, Skipped, frontier)
    {
      hide Follows, Remembers;
      Write(Unsent(i, error, clock));
    }

    /** Prices a retry over the version the nodes still hold; nothing to pay when
        the lookup fails or that version can still be mined. */
    method Price(row: Row, asked: Fees) returns (fees: Option<Fees>)
      requires row.Signed()
      ensures fees.Some? ==> fees.value == asked || exists v <- row.attempts :: Outbids(v.fees, fees.value, legacy)
    {
      var failed, held := NewestHeld(row.attempts);
      if failed {
        return None;
      }
      if held == None {
        return Some(asked);
      }
      if Includable(held.value.fees, asked, legacy) {
        return None;
      }
      RaiseOutbids(held.value.fees, asked, legacy);
      return Some(Raise(held.value.fees, asked, legacy));
    }

    /** Records the attempt; other things happen before it is broadcast. */
    method Record(i: nat, v: Version)
      requires Valid() && Waits(View(), i) && v.row == i < frontier
      requires rows[i].Signed() ==> v.nonce == rows[i].Held() && rows[i].updatedAt + RECEIPT_TIMEOUT_SEC <= clock
      requires !rows[i].Signed() && calm ==> Fits(View(), i, v.nonce)
      modifies `rows, `mined, `minedAt, `reached, `usedSince, `trace, `calm, `handled, `clock
      ensures Valid() && old(trace) <= trace && old(mined) <= mined && old(clock) <= clock && old(handled) <= handled
      ensures |old(rows)| <= |rows|
      ensures rows[i] == old(rows[i]).(attempts := old(rows[i]).attempts + [v], updatedAt := old(clock))
      ensures Quiet(old(rows)[i := rows[i]], rows)
      ensures calm ==> old(calm) && SameBelow(old(rows)[i := rows[i]], rows, frontier)
      ensures !old(rows[i].Signed()) ==> v !in inFlight && v !in reached && i !in usedSince
      ensures !old(rows[i].Signed()) && calm ==> NoneSignedBehind(View(), {i})
    {
      hide Follows, Remembers;
      ghost var before := View();
      if !before.rows[i].Signed() {
        NothingOut(i, v);
        if calm {
          FirstInOrder(i);
        }
      }
      Write(Attempt(i, v, clock));
      ghost var recorded := rows;
      Others();
      assert Stays(recorded[i], rows[i]);
      if calm && !before.rows[i].Signed() {
        NoneSignedStays(before, View(), i);
      }
    }

    /** A refused first attempt never existed: the row fails unsigned. */
    method Drop(i: nat, v: Version, error: Error)
      requires Valid() && Waits(View(), i) && rows[i].attempts == [v]
      requires v !in inFlight && v !in reached && i !in usedSince
      requires calm ==> NoneSignedBehind(View(), {i})
      modifies `rows, `usedSince, `trace, `handled
      ensures Valid() && old(trace) <= trace && handled == old(handled) + {i}
      ensures |rows| == |old(rows)| && rows == old(rows)[i := rows[i]]
      ensures !rows[i].Signed() && rows[i].status == Failed && rows[i].error == error
    {
      hide Follows, Remembers;
      Write(Erase(i));
      Write(Unsent(i, error, clock));
    }

    /** Records the attempt, and only then broadcasts it. */
    method Transmit(i: nat, v: Version) returns (outcome: Outcome)
      requires Valid() && Waits(View(), i) && v.row == i < frontier
      requires rows[i].Signed() ==> v.nonce == rows[i].Held() && rows[i].updatedAt + RECEIPT_TIMEOUT_SEC <= clock
      requires !rows[i].Signed() && calm ==> Fits(View(), i, v.nonce)
      modifies `rows, `mined, `minedAt, `reached, `inFlight, `usedSince, `trace, `calm, `handled, `clock, `setbacks
      ensures Valid() && old(trace) <= trace && old(mined) <= mined && old(clock) <= clock && old(handled) <= handled
      ensures old(setbacks) <= setbacks
      ensures Treated(old(rows), rows, i, v.nonce, outcome)
      ensures (calm ==> old(calm) && TreatedBelow(old(rows), rows, i, outcome, frontier))
      ensures !outcome.Stopped? ==> i in handled
      ensures outcome.Stopped? ==> setbacks > old(setbacks)
    {
      hide Follows, Remembers, Fits, NoneSignedBehind, Quiet, SameBelow;
      var retry := rows[i].Signed();
      ghost var before := rows;
      Record(i, v);
      var reply := Broadcast(v);
      if reply.Accepted? {
        return Sent;
      }
      if retry || reply.NoAnswer? {
        setbacks := setbacks + 1;
        return Stopped;
      }
      ghost var recorded := rows;
      Drop(i, v, reply.error);
      Rewritten(before, recorded, rows, i, frontier);
      return Skipped;
    }

    /** A send without an answer: `v` may still reach a node. */
    method Launch(v: Version)
      requires Valid() && v.row < |rows| && v in rows[v.row].attempts
      modifies `inFlight
      ensures Valid() && inFlight == old(inFlight) + {v}
    {
      inFlight := inFlight + {v};
    }

    /** The node takes the version, refuses it, or gives no answer and may still get it. */
    method Broadcast(v: Version) returns (reply: Reply)
      requires Valid() && v.row < |rows| && v in rows[v.row].attempts
      modifies `mined, `minedAt, `reached, `inFlight, `trace, `calm, `handled, `rows
      ensures Valid() && old(trace) <= trace && rows == old(rows) && mined == old(mined) && calm == old(calm)
      ensures if reply.Refused? then inFlight == old(inFlight) && reached == old(reached) && handled == old(handled)
              else handled == old(handled) + {v.row} || handled == old(handled)
      ensures reply.Accepted? ==> handled == old(handled) + {v.row}
    {
      hide Follows, Remembers;
      reply := Ask();
      var arrived: bool := *;
      if reply.Accepted? || (reply.NoAnswer? && arrived) {
        Arrive(v);
      } else if reply.NoAnswer? {
        Launch(v);
      }
    }

    /** Signs row `i` at `nonce` and sends it. */
    method Send(i: nat, row: Row, nonce: nat, asked: Fees) returns (outcome: Outcome)
      requires Valid() && Waits(View(), i) && rows[i] == row && i < frontier
      requires row.Signed() ==> nonce == row.Held() && row.updatedAt + RECEIPT_TIMEOUT_SEC <= clock
      requires !row.Signed() && calm ==> Fits(View(), i, nonce)
      modifies `rows, `mined, `minedAt, `reached, `inFlight, `usedSince, `trace, `calm, `handled, `clock, `setbacks
      ensures Valid() && old(trace) <= trace && old(mined) <= mined && old(clock) <= clock && old(handled) <= handled
      ensures old(setbacks) <= setbacks
      ensures Treated(old(rows), rows, i, nonce, outcome)
      ensures (calm ==> old(calm) && TreatedBelow(old(rows), rows, i, outcome, frontier))
      ensures !outcome.Stopped? ==> i in handled
      ensures outcome.Stopped? ==> setbacks > old(setbacks)
    {
      assert Treated(rows, rows, i, nonce, Stopped) && TreatedBelow(rows, rows, i, Stopped, frontier);
      hide Follows, Remembers, Fits, Treated, TreatedBelow;
      var fees := asked;
      if row.Signed() {
        var price := Price(row, asked);
        if price == None {
          setbacks := setbacks + 1;
          return Stopped;
        }
        fees := price.value;
      }
      if row.simulate && !row.Signed() {
        var reply := Ask();
        if reply.Refused? {
          FailUnsent(i, reply.error, nonce);
          return Skipped;
        }
        if reply.NoAnswer? {
          setbacks := setbacks + 1;
          return Stopped;
        }
      }
      var signed: bool := *;
      if !signed {
        setbacks := setbacks + 1;
        return Stopped;
      }
      outcome := Transmit(i, Version(i, nonce, fees));
    }

    method Arrive(v: Version)
      requires Valid() && v.row < |rows| && v in rows[v.row].attempts
      modifies `rows, `mined, `minedAt, `reached, `inFlight, `trace, `calm, `handled
      ensures Valid() && old(trace) <= trace && rows == old(rows) && mined == old(mined) && calm == old(calm)
      ensures handled == old(handled) + {v.row}
    {
      Launch(v);
      hide Follows, Remembers;
      Event(Reach(v));
    }

    /** Whether row `i` waits for a receipt of a used nonce, or for its last attempt. */
    ghost predicate Blocked(i: nat)
      reads this
    {
      && Waits(View(), i) && rows[i].Signed()
      && (clock - rows[i].updatedAt < RECEIPT_TIMEOUT_SEC || (i in usedSince && clock - usedSince[i] < STUCK_AFTER_SEC))
    }

    /** Remembers since when the nonce of row `i` is used with no receipt. */
    method Since(i: nat) returns (since: int)
      requires Valid() && Waits(View(), i) && rows[i].Signed() && rows[i].Held() < |mined|
      modifies `usedSince
      ensures Valid() && i in usedSince && usedSince[i] == since
      ensures minedAt[rows[i].Held()] <= since <= clock
      ensures usedSince == old(usedSince)[i := since] && (i in old(usedSince) ==> usedSince == old(usedSince))
    {
      if i !in usedSince {
        usedSince := usedSince[i := clock];
      }
      since := usedSince[i];
    }

    /** What a round does with one row of its batch before it sends anything. */
    method Review(i: nat, row: Row, used: nat) returns (verdict: Verdict)
      requires Valid() && Waits(View(), i) && rows[i] == row && used <= |mined|
      modifies `rows, `usedSince, `trace, `handled
      ensures Valid() && old(trace) <= trace && |rows| == |old(rows)| && rows == old(rows)[i := rows[i]]
      ensures verdict.Done? ==> Settled(rows[i]) && handled == old(handled) + {i}
      ensures !verdict.Done? ==> rows == old(rows) && handled == old(handled)
      ensures verdict.Unknown? ==> Blocked(i)
      ensures verdict.Open? && row.Signed() ==> row.updatedAt + RECEIPT_TIMEOUT_SEC <= clock
    {
      hide Follows, Remembers;
      Clocked();
      verdict := Settle(i, Some(used));
      if verdict == Unknown {
        var since := Since(i);
        if clock - since >= STUCK_AFTER_SEC {
          Write(Taken(i, clock));
          verdict := Done;
        }
      } else if verdict == Open && row.Signed() && clock - row.updatedAt < RECEIPT_TIMEOUT_SEC {
        verdict := Unknown;
      }
    }

    /** One step of the settling loop: `a` is kept for sending, `b` comes after row `i`. */
    method Step(ghost a: seq<nat>, i: nat, ghost b: seq<nat>, snap: seq<Row>, used: nat) returns (verdict: Verdict)
      requires Valid() && Picked(a + [i] + b, rows, snap, frontier) && used <= |mined|
      requires calm ==> Covers(a + [i] + b, rows, frontier)
      modifies `rows, `mined, `minedAt, `reached, `usedSince, `trace, `calm, `handled, `clock
      ensures Valid() && old(trace) <= trace && old(mined) <= mined && old(clock) <= clock && old(handled) <= handled
      ensures calm ==> old(calm)
      ensures verdict.Unknown? ==> Blocked(i)
      ensures verdict.Open? ==> Ripe([i], snap, clock)
      ensures verdict.Open? ==> Picked(a + [i] + b, rows, snap, frontier)
      ensures verdict.Open? && calm ==> Covers(a + [i] + b, rows, frontier)
      ensures verdict.Done? ==> i in handled && Picked(a + b, rows, snap, frontier)
      ensures verdict.Done? && calm ==> Covers(a + b, rows, frontier)
    {
      ghost var before := rows;
      Others();
      assert (a + [i] + b)[|a|] == i;
      hide Follows, Remembers;
      PickedStays(a + [i] + b, before, rows, snap, frontier);
      if calm {
        CoversStays(a + [i] + b, before, rows, frontier);
      }
      assert i in a + [i] + b;
      hide Picked, Covers;
      ghost var between := rows;
      verdict := Review(i, snap[i], used);
      if verdict == Done {
        PickedWithout(a, i, b, between, rows, snap, frontier);
        if calm {
          CoversWithout(a, i, b, between, rows, frontier);
        }
      }
    }

    method Halt(i: nat)
      requires Valid() && Blocked(i)
      modifies `halted
      ensures Valid() && halted && Blocked(i)
    {
      halted := true;
    }

    /** The settling loop's body: row `k` of the batch. */
    method Advance(batch: seq<nat>, k: nat, before: seq<nat>, snap: seq<Row>, used: nat, already: bool)
      returns (unsent: seq<nat>, progressed: bool)
      requires Valid() && !halted && k < |batch| && used <= |mined|
      requires Picked(before + batch[k..], rows, snap, frontier) && Ripe(before, snap, clock)
      requires calm ==> Covers(before + batch[k..], rows, frontier)
      requires SettledSoFar(batch, k, before, handled, already)
      modifies `rows, `mined, `minedAt, `reached, `usedSince, `trace, `calm, `handled, `clock, `halted
      ensures Valid() && old(trace) <= trace && old(mined) <= mined && old(clock) <= clock && old(handled) <= handled
      ensures calm ==> old(calm)
      ensures halted ==> SettledSoFar(batch, k, unsent, handled, progressed) && Blocked(batch[k])
      ensures !halted ==> SettledSoFar(batch, k + 1, unsent, handled, progressed) && Ripe(unsent, snap, clock)
      ensures !halted ==> Picked(unsent + batch[k + 1..], rows, snap, frontier)
      ensures !halted && calm ==> Covers(unsent + batch[k + 1..], rows, frontier)
    {
      hide Follows, Remembers, Covers, Picked, Blocked, Ripe, SettledSoFar;
      var i := batch[k];
      ghost var known, started := handled, clock;
      assert before + batch[k..] == before + [i] + batch[k + 1..];
      var verdict := Step(before, i, batch[k + 1..], snap, used);
      unsent, progressed := before, already;
      if verdict == Unknown {
        Halt(i);
        SettledStays(batch, k, unsent, known, progressed, handled);
        return;
      }
      SettledOneMore(batch, k, unsent, known, progressed, handled, verdict == Done);
      if verdict == Done {
        progressed := true;
        RipeMore(before, [], snap, started, clock);
      } else {
        unsent := before + [i];
        RipeMore(before, [i], snap, started, clock);
      }
    }

    /** Settles what it can of the batch; `unsent` is the rest, unless a row holds the queue. */
    method SettleBatch(batch: seq<nat>, snap: seq<Row>, used: nat)
      returns (unsent: seq<nat>, progressed: bool, ghost done: nat)
      requires Valid() && !halted && Picked(batch, rows, snap, frontier) && used <= |mined|
      requires calm ==> Covers(batch, rows, frontier)
      modifies `rows, `mined, `minedAt, `reached, `usedSince, `trace, `calm, `handled, `clock, `halted
      ensures Valid() && old(trace) <= trace && old(mined) <= mined && old(clock) <= clock && old(handled) <= handled
      ensures calm ==> old(calm)
      ensures done <= |batch| && SettledSoFar(batch, done, unsent, handled, progressed)
      ensures if halted then done < |batch| && Blocked(batch[done]) else done == |batch|
      ensures !halted ==> Picked(unsent, rows, snap, frontier) && Ripe(unsent, snap, clock)
      ensures !halted && calm ==> Covers(unsent, rows, frontier)
    {
      unsent, progressed := [], false;
      assert unsent + batch[0..] == batch && Ripe([], snap, clock)
        && SettledSoFar(batch, 0, unsent, handled, progressed);
      hide Follows, Remembers, Covers, Picked, Blocked, Ripe, SettledSoFar;
      for k := 0 to |batch|
        invariant Valid() && !halted
        invariant old(trace) <= trace && old(mined) <= mined && old(clock) <= clock && old(handled) <= handled
        invariant calm ==> old(calm)
        invariant Picked(unsent + batch[k..], rows, snap, frontier) && Ripe(unsent, snap, clock)
        invariant calm ==> Covers(unsent + batch[k..], rows, frontier)
        invariant SettledSoFar(batch, k, unsent, handled, progressed)
      {
        unsent, progressed := Advance(batch, k, unsent, snap, used, progressed);
        if halted {
          return unsent, progressed, k;
        }
      }
      done := |batch|;
      assert unsent + batch[|batch|..] == unsent;
    }

    /** Treats the first of `ids`; `at` is the nonce it was given. */
    method Treat(ids: seq<nat>, row: Row, nonce: nat, failedBefore: bool) returns (outcome: Outcome, at: nat)
      requires Valid() && ids != [] && ids[0] < |rows| && rows[ids[0]] == row && row.status == Queued
      requires ids[0] < frontier
      requires Ascending(ids) && (row.Signed() ==> row.updatedAt + RECEIPT_TIMEOUT_SEC <= clock)
      requires SettledUnder(rows, nonce) && NoGap(rows, |mined|, nonce) && (calm ==> Below(ids, rows, frontier, nonce))
      modifies `rows, `mined, `minedAt, `reached, `inFlight, `usedSince, `trace, `calm, `handled, `clock, `setbacks
      ensures Valid() && old(trace) <= trace && old(mined) <= mined && old(clock) <= clock && old(handled) <= handled
      ensures old(setbacks) <= setbacks
      ensures Treated(old(rows), rows, ids[0], at, outcome)
      ensures calm ==> old(calm) && TreatedBelow(old(rows), rows, ids[0], outcome, frontier)
      ensures !outcome.Stopped? ==> ids[0] in handled
      ensures outcome.Stopped? ==> setbacks > old(setbacks)
      // Behind a failed row, one that was not simulated has nothing left to stand on.
      ensures failedBefore && !row.simulate && !row.Signed() ==> outcome == Skipped
    {
      var i := ids[0];
      hide Follows, Remembers, Fits, Below, SettledUnder, Ascending, Treated, TreatedBelow;
      OwnVersions(i);
      at := if row.Signed() then row.attempts[|row.attempts| - 1].nonce else nonce;
      if failedBefore && !row.simulate && !row.Signed() {
        FailUnsent(i, OtherError, at);
        return Skipped, at;
      }
      if calm && !row.Signed() {
        NextNonceFits(ids, nonce);
      }
      var asked: Fees := *;
      outcome := Send(i, row, at, asked);
    }

    /** One step of the sending loop. */
    method SendNext(ids: seq<nat>, snap: seq<Row>, nonce: nat, failedBefore: bool) returns (outcome: Outcome, at: nat)
      requires Valid() && ids != [] && Picked(ids, rows, snap, frontier) && Ripe([ids[0]], snap, clock)
      requires SettledUnder(rows, nonce) && NoGap(rows, |mined|, nonce) && (calm ==> Below(ids, rows, frontier, nonce))
      modifies `rows, `mined, `minedAt, `reached, `inFlight, `usedSince, `trace, `calm, `handled, `clock, `setbacks
      ensures Valid() && old(trace) <= trace && old(mined) <= mined && old(clock) <= clock && old(handled) <= handled
      ensures old(setbacks) <= setbacks && (calm ==> old(calm))
      ensures Treated(old(rows), rows, ids[0], at, outcome)
      ensures outcome.Stopped? ==> setbacks > old(setbacks)
      ensures outcome.Sent? ==> AllWait([ids[0]], rows)
      ensures outcome.Skipped? ==> AllUnsigned([ids[0]], rows)
      ensures !outcome.Stopped? ==>
                && ids[0] in handled && Picked(ids[1..], rows, snap, frontier)
                && SettledUnder(rows, NonceAfter(nonce, at, outcome))
                && NoGap(rows, |mined|, NonceAfter(nonce, at, outcome))
                && (calm ==> Below(ids[1..], rows, frontier, NonceAfter(nonce, at, outcome)))
    {
      var i := ids[0];
      hide Follows, Remembers;
      ghost var before := rows;
      assert i in ids;
      Others();
      PickedStays(ids, before, rows, snap, frontier);
      SettledUnderStays(before, rows, nonce);
      NoGapStays(before, rows, |old(mined)|, |mined|, nonce);
      if calm {
        BelowStays(ids, before, rows, frontier, nonce);
      }
      ghost var between, used := rows, |mined|;
      PickedFirst(ids, before, between, snap, frontier);
      hide SettledUnder, Below, NoGap, Picked, Treated, TreatedBelow, Quiet;
      outcome, at := Treat(ids, snap[i], nonce, failedBefore);
      if outcome != Stopped {
        RestPicked(ids, between, rows, snap, frontier, nonce, at, outcome, used, |mined|);
        if calm {
          BelowTreated(ids, between, rows, frontier, nonce, at, outcome);
        }
      }
      TreatedTwice(before, between, rows, i, at, outcome);
      TreatedIs(before, rows, i, at, outcome);
    }

    /** Sends the rest of the batch at consecutive nonces, until a row stops it. */
    method SendUnsent(unsent: seq<nat>, snap: seq<Row>, first: nat) returns (sent: seq<nat>)
      requires Valid() && !halted && Picked(unsent, rows, snap, frontier)
      requires calm ==> Below(unsent, rows, frontier, first)
      requires SettledUnder(rows, first) && first <= |mined| && Ascending(unsent) && Ripe(unsent, snap, clock)
      modifies `rows, `mined, `minedAt, `reached, `inFlight, `usedSince, `trace, `calm, `handled, `clock, `setbacks
      modifies `halted
      ensures Valid() && old(trace) <= trace && old(mined) <= mined && old(clock) <= clock && old(handled) <= handled
      ensures old(setbacks) <= setbacks && (halted ==> old(setbacks) < setbacks)
      ensures calm ==> old(calm)
      ensures exists q :: 0 <= q <= |unsent| && SentSoFar(unsent, q, sent, handled, rows) && (!halted ==> q == |unsent|)
    {
      sent := [];
      var nonce, failedBefore := first, false;
      assert unsent[0..] == unsent && SentSoFar(unsent, 0, sent, handled, rows) && NoGap(rows, |mined|, nonce);
      hide Follows, Remembers, Picked, Below, SettledUnder, Treated, Quiet, SentSoFar, Ascending, NoGap;
      for q := 0 to |unsent|
        invariant Valid() && !halted
        invariant old(trace) <= trace && old(mined) <= mined && old(clock) <= clock && old(handled) <= handled
        invariant old(setbacks) <= setbacks && (calm ==> old(calm))
        invariant Picked(unsent[q..], rows, snap, frontier)
        invariant calm ==> Below(unsent[q..], rows, frontier, nonce)
        invariant SettledUnder(rows, nonce) && NoGap(rows, |mined|, nonce)
        invariant SentSoFar(unsent, q, sent, handled, rows)
      {
        var i := unsent[q];
        ghost var before, known := rows, handled;
        assert i in unsent && Ripe([i], snap, clock) && unsent[q..][0] == i;
        var outcome, at := SendNext(unsent[q..], snap, nonce, failedBefore);
        SentStays(unsent, q, sent, known, before, handled, rows, at, outcome);
        if outcome == Stopped {
          halted := true;
          return;
        }
        assert unsent[q..][1..] == unsent[q + 1..];
        SentOneMore(unsent, q, sent, known, before, handled, rows, at, outcome);
        failedBefore := outcome == Skipped;
        if outcome == Sent {
          sent := sent + [i];
        }
        nonce := NonceAfter(nonce, at, outcome);
      }
    }

    /** Waits for the last tx sent, then settles what was. */
    method SettleSent(sent: seq<nat>)
      requires Valid() && AllWait(sent, rows) && Ascending(sent)
      modifies `rows, `mined, `minedAt, `reached, `usedSince, `trace, `calm, `handled, `clock
      ensures Valid() && old(trace) <= trace && old(mined) <= mined && old(clock) <= clock && old(handled) <= handled
      ensures calm ==> old(calm)
    {
      hide Follows, Remembers;
      ghost var before := rows;
      Others();
      AllWaitStays(sent, before, rows);
      assert sent[0..] == sent;
      for k := 0 to |sent|
        invariant Valid() && old(trace) <= trace && old(mined) <= mined && old(clock) <= clock
        invariant old(handled) <= handled
        invariant calm ==> old(calm)
        invariant AllWait(sent[k..], rows)
      {
        assert sent[k] == sent[k..][0] && sent[k] in sent[k..];
        before := rows;
        var _ := Settle(sent[k], None);
        RestWaits(sent, k, before, rows);
        ghost var between := rows;
        Others();
        AllWaitStays(sent[k + 1..], between, rows);
      }
    }

    /** Sends what the batch has left, waits, and settles what was sent. */
    method SendBatch(unsent: seq<nat>, snap: seq<Row>, used: nat) returns (any: bool)
      requires Valid() && !halted && Picked(unsent, rows, snap, frontier) && Ripe(unsent, snap, clock)
      requires used <= |mined| && (calm ==> Covers(unsent, rows, frontier))
      modifies `rows, `mined, `minedAt, `reached, `inFlight, `usedSince, `trace, `calm, `handled, `clock, `setbacks
      modifies `halted
      ensures Valid() && old(trace) <= trace && old(mined) <= mined && old(clock) <= clock && old(handled) <= handled
      ensures old(setbacks) <= setbacks && (halted ==> old(setbacks) < setbacks) && (calm ==> old(calm))
      ensures !halted ==> forall i <- unsent :: i in handled
      ensures any ==> exists i <- unsent :: i in handled
      ensures !halted && !any ==> AllUnsigned(unsent, rows)
    {
      var nonce := Max(used, NextAfterMined(rows));
      SettledBelow(nonce);
      CountWithinChain();
      hide Follows, Remembers, SettledUnder, Quiet;
      var sent := SendUnsent(unsent, snap, nonce);
      any := sent != [];
      if any {
        assert sent[0] in sent && sent[0] in unsent;
        SettleSent(sent);
      }
    }

    /** Settles the batch, then sends what is left of it. */
    method Work(batch: seq<nat>, snap: seq<Row>, used: nat) returns (progressed: bool)
      requires Valid() && !halted && Picked(batch, rows, snap, frontier) && used <= |mined|
      requires calm ==> Covers(batch, rows, frontier)
      modifies `rows, `mined, `minedAt, `reached, `inFlight, `usedSince, `trace, `calm, `handled, `clock, `setbacks
      modifies `halted
      ensures Valid() && old(trace) <= trace && old(mined) <= mined && (calm ==> old(calm))
      ensures !halted ==> forall i <- batch :: i in handled
      ensures halted ==> setbacks > old(setbacks) || exists i <- batch :: Blocked(i)
      ensures progressed ==> exists i <- batch :: i in handled
      ensures !progressed && !halted ==> AllUnsigned(batch, rows)
    {
      hide Follows, Remembers, Picked, Covers, AllUnsigned;
      var unsent;
      ghost var done;
      unsent, progressed, done := SettleBatch(batch, snap, used);
      if halted {
        return;
      }
      assert batch[..|batch|] == batch;
      var any := SendBatch(unsent, snap, used);
      progressed := progressed || any;
    }

    /** Takes `batch` as the rows under way. */
    ghost method Take(batch: seq<nat>)
      requires Valid() && batch == FirstQueued(rows, batchSize) != []
      modifies `frontier, `handled
      ensures Valid() && handled == {} && Picked(batch, rows, rows, frontier) && Covers(batch, rows, frontier)
      ensures NextAfterMined(rows) <= |mined|
    {
      hide Follows, Remembers, Picked, Covers, FirstQueued, NextAfterMined;
      CountWithinChain();
      BatchCovers(rows, batchSize);
      frontier := batch[|batch| - 1] + 1;
      handled := {};
    }

    /** One batch. Returns whether it settled or sent anything. */
    method RunBatch() returns (progressed: bool)
      requires Valid()
      modifies this
      ensures Valid() && old(trace) <= trace && old(mined) <= mined && (calm ==> old(calm))
      ensures var batch := FirstQueued(old(rows), batchSize);
              && (!halted ==> forall i <- batch :: i in handled)
              && (halted ==> setbacks > old(setbacks) || exists i <- batch :: Blocked(i))
              && (progressed ==> exists i <- batch :: i in handled)
              && (!progressed && !halted ==> AllUnsigned(batch, rows))
    {
      hide Follows, Remembers, Picked, Covers, FirstQueued;
      halted := false;
      var batch := FirstQueued(rows, batchSize);
      if batch == [] {
        return false;
      }
      Take(batch);
      var count := Count();
      var used := Max(count, NextAfterMined(rows));
      progressed := Work(batch, rows, used);
      frontier := 0;
    }

    /** `submit` by another thread. */
    method Submit(intents: seq<Intent>)
      requires Valid()
      modifies `rows, `mined, `minedAt, `reached, `trace, `calm, `handled
      ensures Valid() && rows == Enqueue(old(rows), intents, clock) && mined == old(mined) && calm == old(calm)
      ensures forall x <- intents :: HasOwner(rows, x.owner)
    {
      EnqueueOwns(rows, intents, clock);
      Event(Act.Submit(intents, clock));
    }

    /** `requeue` by another thread, of the rows of `owners` that failed unsigned. */
    method Requeue(owners: set<nat>) returns (count: nat)
      requires Valid()
      modifies `rows, `mined, `minedAt, `reached, `trace, `calm, `handled
      ensures Valid() && |rows| == |old(rows)| && mined == old(mined)
      ensures forall i :: 0 <= i < |rows| ==> rows[i] == Requeued(old(rows)[i], owners, clock)
      ensures forall i: nat, n: nat :: i < |rows| && rows[i] != old(rows)[i] ==> !MinedFor(View(), n, i)
    {
      Known();
      var ids := set i: nat | i < |rows| && rows[i].owner in owners && Requeueable(rows[i]);
      Event(Act.Requeue(ids, clock));
      count := |ids|;
    }
  }
}
