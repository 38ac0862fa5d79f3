/** One account's Privana transfer lane: the rows of src/clients/privana_lanes.py,
    the evm tx of each signing, and the account's transfer nonces on chain.
    A tx reported anything but `Mined` never runs: `EvmQueue.AtMostOnceOnChain`
    and `EvmQueue.SettledForGood` are what the batcher gives for that. */
module LaneQueue {
  import opened Tables

  datatype Report = Waiting | Mined | Reverted | Refused | GasRefused

  /** The evm tx of one signing, spending transfer nonce `nonce`. */
  datatype Tx = Tx(nonce: nat, simulate: bool, report: Report) {
    predicate Dead() {
      report in {Reverted, Refused, GasRefused}
    }
  }

  datatype Status = Queued | Sent | Landed | Failed

  datatype Error = NoError | ForeignSpend | Outcome | Cancelled

  datatype Row = Row(status: Status, nonce: Option<nat>, signings: seq<Tx>, error: Error) {
    predicate Signed() {
      signings != []
    }

    function Last(): Tx
      requires Signed()
    {
      signings[|signings| - 1]
    }

    predicate AllDead() {
      forall k :: 0 <= k < |signings| ==> signings[k].Dead()
    }
  }

  /** Who spent a nonce: the tx of a signing, someone else with its signature, or another transfer. */
  datatype Spend = Ours(row: nat, signing: nat) | Replay(row: nat, signing: nat) | Foreign

  /** `batch` and `base` are the rows and the first nonce of the last signing. */
  datatype World = World(rows: seq<Row>, spends: seq<Spend>, batch: seq<nat>, base: nat)

  datatype Act =
    | Submit(count: nat)
    | Cancel(row: nat)
    | Execute(row: nat)
    | Tell(row: nat, report: Report)
    | Elsewhere(spend: Spend)
    | Settle(row: nat, counter: nat)
    | Sign(counter: nat, limit: nat)

  predicate IsQueued(r: Row) {
    r.status == Queued
  }

  function LandedNonce(r: Row): Option<nat> {
    if r.status == Landed then r.nonce else None
  }

  function NextAfterLanded(rows: seq<Row>): nat {
    NextAfter(rows, LandedNonce)
  }

  /** A count a lane may use: read from a node that may lag, but not below what landed here. */
  predicate Readable(w: World, counter: nat) {
    NextAfterLanded(w.rows) <= counter <= |w.spends|
  }

  function Batch(rows: seq<Row>, limit: nat): seq<nat> {
    FirstWhere(rows, IsQueued, 0, limit)
  }

  /** Whether `s` is a signing of ours at nonce `n`. */
  predicate Names(w: World, s: Spend, n: nat)
    requires !s.Foreign?
  {
    s.row < |w.rows| && s.signing < |w.rows[s.row].signings| && w.rows[s.row].signings[s.signing].nonce == n
  }

  predicate Enabled(w: World, act: Act) {
    match act
    case Submit(_) => true
    case Cancel(i) => i < |w.rows| && w.rows[i].status == Queued
    case Execute(i) =>
      i < |w.rows| && w.rows[i].Signed() && w.rows[i].Last().report == Waiting && w.rows[i].Last().nonce == |w.spends|
    case Tell(i, report) =>
      && i < |w.rows| && w.rows[i].Signed() && w.rows[i].Last().report == Waiting && report != Waiting
      && (report == Mined <==> Ran(w, i))
    case Elsewhere(s) =>
      s.Foreign? || (s.Replay? && Names(w, s, |w.spends|))
    case Settle(i, counter) =>
      i < |w.rows| && w.rows[i].status == Sent && w.rows[i].Signed() && w.rows[i].nonce.Some? && Readable(w, counter)
    case Sign(counter, limit) =>
      && (forall r <- w.rows :: r.status != Sent) && Batch(w.rows, limit) != [] && Readable(w, counter)
  }

  /** Whether the tx of row `i`'s last signing ran. */
  predicate Ran(w: World, i: nat)
    requires i < |w.rows| && w.rows[i].Signed()
  {
    var n := w.rows[i].Last().nonce;
    n < |w.spends| && w.spends[n] == Ours(i, |w.rows[i].signings| - 1)
  }

  /** What settling a sent row at `counter` makes of it. */
  function Settled(r: Row, counter: nat): Row
    requires r.Signed() && r.nonce.Some?
  {
    var tx := r.Last();
    if tx.report == Waiting then r
    else if tx.report == Mined then
      if counter <= r.nonce.value then r else r.(status := Landed, error := NoError)
    else if counter > r.nonce.value then r.(status := Failed, error := ForeignSpend)
    else if tx.simulate && r.nonce.value == counter && tx.report != GasRefused then
      r.(status := Failed, error := Outcome)
    else r.(status := Queued, nonce := None, error := Outcome)
  }

  function Signed(r: Row, nonce: nat, simulate: bool): Row {
    r.(status := Sent, nonce := Some(nonce), signings := r.signings + [Tx(nonce, simulate, Waiting)])
  }

  /** The rows once the first `n` of `ids` are signed at consecutive nonces from `counter`. */
  function SignFirst(rows: seq<Row>, ids: seq<nat>, counter: nat, n: nat): (out: seq<Row>)
    requires n <= |ids| && forall k :: 0 <= k < |ids| ==> ids[k] < |rows|
    ensures |out| == |rows|
  {
    if n == 0 then rows
    else SignFirst(rows, ids, counter, n - 1)[ids[n - 1] := Signed(rows[ids[n - 1]], counter + n - 1, n == 1)]
  }

  function Fresh(): Row {
    Row(Queued, None, [], NoError)
  }

  function WithReport(r: Row, report: Report): Row
    requires r.Signed()
  {
    r.(signings := r.signings[|r.signings| - 1 := r.Last().(report := report)])
  }

  function Apply(w: World, act: Act): World
    requires Enabled(w, act)
  {
    match act
    case Submit(count) => w.(rows := w.rows + seq(count, _ => Fresh()))
    case Cancel(i) => w.(rows := w.rows[i := w.rows[i].(status := Failed, error := Cancelled)])
    case Execute(i) => w.(spends := w.spends + [Ours(i, |w.rows[i].signings| - 1)])
    case Tell(i, report) => w.(rows := w.rows[i := WithReport(w.rows[i], report)])
    case Elsewhere(s) => w.(spends := w.spends + [s])
    case Settle(i, counter) => w.(rows := w.rows[i := Settled(w.rows[i], counter)])
    case Sign(counter, limit) =>
      var ids := Batch(w.rows, limit);
      World(SignFirst(w.rows, ids, counter, |ids|), w.spends, ids, counter)
  }

  lemma NextIsBelow(rows: seq<Row>, counter: nat)
    requires forall i: nat :: i < |rows| && rows[i].status == Landed && rows[i].nonce.Some? ==>
               rows[i].nonce.value < counter
    ensures NextAfterLanded(rows) <= counter
  {
  }

  // ---- One signing of a batch ----

  ghost predicate Ascending(ids: seq<nat>) {
    forall k, m :: 0 <= k < m < |ids| ==> ids[k] < ids[m]
  }

  lemma {:induction false} SignFirstAt(rows: seq<Row>, ids: seq<nat>, counter: nat, n: nat)
    requires n <= |ids| && Ascending(ids) && forall k :: 0 <= k < |ids| ==> ids[k] < |rows|
    ensures var out := SignFirst(rows, ids, counter, n);
            && (forall k :: 0 <= k < n ==> out[ids[k]] == Signed(rows[ids[k]], counter + k, k == 0))
            && (forall j: nat :: j < |rows| && j !in ids[..n] ==> out[j] == rows[j])
  {
    if n > 0 {
      SignFirstAt(rows, ids, counter, n - 1);
      hide Signed;
      assert ids[..n] == ids[..n - 1] + [ids[n - 1]];
      assert forall k :: 0 <= k < n - 1 ==> ids[k] != ids[n - 1];
    }
  }

  // ---- What every state keeps ----

  ghost predicate RowOk(w: World, i: nat)
    requires i < |w.rows|
  {
    var r := w.rows[i];
    && (forall k :: 0 <= k < |r.signings| - 1 ==> r.signings[k].Dead())
    && (r.Signed() && r.Last().report == Mined ==> Ran(w, i))
    && match r.status
       case Queued => r.nonce == None && r.AllDead()
       case Sent =>
         && r.Signed() && r.nonce == Some(r.Last().nonce) && w.base <= r.nonce.value
         && r.nonce.value - w.base < |w.batch| && w.batch[r.nonce.value - w.base] == i
         && r.Last().simulate == (r.nonce.value == w.base)
       case Landed => r.Signed() && r.nonce == Some(r.Last().nonce) && r.Last().report == Mined
       case Failed => r.AllDead() && (r.error == ForeignSpend ==> r.Signed() && r.Last().nonce < |w.spends|)
  }

  ghost predicate SpendOk(w: World, n: nat)
    requires n < |w.spends|
  {
    var s := w.spends[n];
    s.Foreign? || (Names(w, s, n) && (s.Ours? ==> !w.rows[s.row].signings[s.signing].Dead()))
  }

  ghost predicate Inv(w: World) {
    && Ascending(w.batch)
    && (forall k :: 0 <= k < |w.batch| ==> w.batch[k] < |w.rows| && w.rows[w.batch[k]].Signed())
    && (forall i: nat :: i < |w.rows| ==> RowOk(w, i))
    && (forall n: nat :: n < |w.spends| ==> SpendOk(w, n))
  }

  lemma BatchIs(rows: seq<Row>, limit: nat)
    ensures var ids := Batch(rows, limit);
            Ascending(ids) && forall k :: 0 <= k < |ids| ==> ids[k] < |rows| && rows[ids[k]].status == Queued
  {
    hide FirstWhere;
  }

  /** What `Sign` does to each row. */
  ghost predicate SignedAs(rows: seq<Row>, ids: seq<nat>, counter: nat, out: seq<Row>) {
    && |out| == |rows|
    && (forall k :: 0 <= k < |ids| ==> ids[k] < |rows| && rows[ids[k]].status == Queued)
    && (forall k :: 0 <= k < |ids| ==> out[ids[k]] == Signed(rows[ids[k]], counter + k, k == 0))
    && (forall j: nat :: j < |rows| && j !in ids ==> out[j] == rows[j])
  }

  lemma SignRows(w: World, act: Act)
    requires act.Sign? && Enabled(w, act)
    ensures var w2, ids := Apply(w, act), Batch(w.rows, act.limit);
            && w2 == World(w2.rows, w.spends, ids, act.counter) && Ascending(ids) && ids != []
            && SignedAs(w.rows, ids, act.counter, w2.rows)
            && (forall r <- w.rows :: r.status != Sent) && Readable(w, act.counter)
  {
    hide Batch, NextAfterLanded;
    BatchIs(w.rows, act.limit);
    var ids := Batch(w.rows, act.limit);
    SignFirstAt(w.rows, ids, act.counter, |ids|);
    assert ids[..|ids|] == ids;
  }

  lemma SignKeepsRow(w: World, w2: World, i: nat)
    requires i < |w.rows| && RowOk(w, i) && w.rows[i].status != Sent
    requires w2.spends == w.spends && SignedAs(w.rows, w2.batch, w2.base, w2.rows)
    ensures RowOk(w2, i)
  {
    if i in w2.batch {
      var k :| 0 <= k < |w2.batch| && w2.batch[k] == i;
      assert w2.rows[i] == Signed(w.rows[i], w2.base + k, k == 0);
    }
  }

  lemma KeepsRow(w: World, act: Act, i: nat)
    requires !act.Sign? && Enabled(w, act) && i < |w.rows| && RowOk(w, i)
    ensures RowOk(Apply(w, act), i)
  {
    hide NextAfterLanded;
  }

  lemma KeepsSpend(w: World, act: Act, n: nat)
    requires !act.Sign? && Enabled(w, act) && n < |w.spends| && SpendOk(w, n)
    ensures SpendOk(Apply(w, act), n)
  {
    hide NextAfterLanded;
  }

  lemma SignKeepsSpend(w: World, w2: World, n: nat)
    requires n < |w.spends| && SpendOk(w, n)
    requires w2.spends == w.spends && SignedAs(w.rows, w2.batch, w2.base, w2.rows)
    ensures SpendOk(w2, n)
  {
    var s := w.spends[n];
    if !s.Foreign? && s.row in w2.batch {
      var k :| 0 <= k < |w2.batch| && w2.batch[k] == s.row;
      assert w2.rows[s.row] == Signed(w.rows[s.row], w2.base + k, k == 0);
    }
  }

  lemma KeepsInv(w: World, act: Act)
    requires Inv(w) && Enabled(w, act)
    ensures Inv(Apply(w, act))
  {
    var w2 := Apply(w, act);
    hide Enabled;
    if act.Sign? {
      SignRows(w, act);
      hide Apply, Batch;
      forall i: nat | i < |w2.rows| ensures RowOk(w2, i) {
        assert w.rows[i] in w.rows;
        SignKeepsRow(w, w2, i);
      }
      forall n: nat | n < |w2.spends| ensures SpendOk(w2, n) {
        SignKeepsSpend(w, w2, n);
      }
    } else {
      forall i: nat | i < |w2.rows| ensures RowOk(w2, i) {
        if i < |w.rows| {
          KeepsRow(w, act, i);
        }
      }
      forall n: nat | n < |w2.spends| ensures SpendOk(w2, n) {
        if n < |w.spends| {
          KeepsSpend(w, act, n);
        } else {
          NewSpend(w, act);
        }
      }
    }
  }

  lemma NewSpend(w: World, act: Act)
    requires Inv(w) && Enabled(w, act) && (act.Execute? || act.Elsewhere?)
    ensures SpendOk(Apply(w, act), |w.spends|)
  {
  }

  // ---- Runs ----

  ghost predicate Allowed(w: World, acts: seq<Act>)
    decreases |acts|, 0
  {
    acts == [] || (Allowed(w, acts[..|acts| - 1]) && Enabled(Run(w, acts[..|acts| - 1]), acts[|acts| - 1]))
  }

  ghost function Run(w: World, acts: seq<Act>): World
    requires Allowed(w, acts)
    decreases |acts|, 1
  {
    if acts == [] then w else Apply(Run(w, acts[..|acts| - 1]), acts[|acts| - 1])
  }

  lemma {:induction false} InvRun(w: World, acts: seq<Act>)
    requires Inv(w) && Allowed(w, acts)
    ensures Inv(Run(w, acts))
  {
    if acts != [] {
      InvRun(w, acts[..|acts| - 1]);
      KeepsInv(Run(w, acts[..|acts| - 1]), acts[|acts| - 1]);
    }
  }

  lemma {:induction false} RunOne(w: World, acts: seq<Act>, act: Act)
    requires Allowed(w, acts) && Enabled(Run(w, acts), act)
    ensures Allowed(w, acts + [act]) && Run(w, acts + [act]) == Apply(Run(w, acts), act)
  {
    assert (acts + [act])[..|acts|] == acts;
  }

  /** Whether our own tx of a signing of row `i` ran at nonce `n`. */
  predicate RanAt(w: World, n: nat, i: nat) {
    n < |w.spends| && w.spends[n].Ours? && w.spends[n].row == i
  }

  /** In every run, whatever is read late or spent elsewhere, our txs run a row
      at most once; LANDED means once, at its nonce; FAILED and QUEUED mean not
      at all; and every signing but the last is dead. */
  lemma RunsAtMostOnce(w: World, acts: seq<Act>, i: nat)
    requires Inv(w) && Allowed(w, acts) && i < |Run(w, acts).rows|
    ensures var end := Run(w, acts);
            var r := end.rows[i];
            && (forall n: nat, m: nat :: RanAt(end, n, i) && RanAt(end, m, i) ==> n == m)
            && (r.status == Landed ==> r.nonce.Some? && RanAt(end, r.nonce.value, i))
            && (r.status in {Failed, Queued} ==> forall n: nat :: !RanAt(end, n, i))
            && (forall k :: 0 <= k < |r.signings| - 1 ==> r.signings[k].Dead())
  {
    InvRun(w, acts);
    RanOnlyLast(Run(w, acts), i);
    assert RowOk(Run(w, acts), i);
  }

  lemma RanOnlyLast(w: World, i: nat)
    requires Inv(w) && i < |w.rows|
    ensures forall n: nat :: RanAt(w, n, i) ==>
              w.rows[i].Signed() && n == w.rows[i].Last().nonce && !w.rows[i].Last().Dead()
  {
    forall n: nat | RanAt(w, n, i)
      ensures w.rows[i].Signed() && n == w.rows[i].Last().nonce && !w.rows[i].Last().Dead()
    {
      assert SpendOk(w, n) && RowOk(w, i);
    }
  }

  // ---- A lane no one else spends from: order and progress, however late the reads ----

  /** Every nonce was spent by our own tx: those before the last batch by landed
      rows, the rest by the batch, in its order. Rows ran in id order, and only
      later rows are still queued. */
  ghost predicate Own(w: World) {
    && w.base <= |w.spends| <= w.base + |w.batch|
    && (forall n: nat :: n < |w.spends| ==> w.spends[n].Ours? && w.spends[n].row < |w.rows|)
    && (forall n: nat :: w.base <= n < |w.spends| ==> w.spends[n].row == w.batch[n - w.base])
    && (forall n: nat :: n < w.base ==> w.rows[w.spends[n].row].status == Landed)
    && (forall n: nat, k: nat :: n < w.base && k < |w.batch| ==> w.spends[n].row < w.batch[k])
    && (forall n: nat, m: nat :: n < m < w.base ==> w.spends[n].row < w.spends[m].row)
    && (forall i: nat :: i < |w.rows| && w.rows[i].status == Queued ==> Last(w, i))
  }

  /** Queued row `i` comes after every row that ran and, unless it is one of them, after the last batch. */
  ghost predicate Last(w: World, i: nat) {
    && (forall n: nat :: n < |w.spends| ==> w.spends[n].Ours? && w.spends[n].row < i)
    && (i !in w.batch ==> forall k: nat :: k < |w.batch| ==> w.batch[k] < i)
  }

  lemma RanInOrder(w: World, n: nat, m: nat)
    requires Inv(w) && Own(w) && n < m < |w.spends|
    ensures w.spends[n].row < w.spends[m].row
  {
  }

  /** A dead tx of the last batch, and any behind it, did not run. */
  lemma DeadUnspent(w: World, i: nat, k: nat)
    requires Inv(w) && Own(w) && k < |w.batch| && w.batch[k] == i && i < |w.rows| && w.rows[i].Signed()
    requires w.rows[i].Last().Dead()
    ensures |w.spends| <= w.base + k
  {
    var n := w.base + k;
    if n < |w.spends| {
      assert SpendOk(w, n) && RowOk(w, i) && RanAt(w, n, i);
      RanOnlyLast(w, i);
    }
  }

  lemma AliveLanded(w: World, n: nat)
    requires Inv(w) && Own(w) && n < |w.spends| && (forall r <- w.rows :: r.status != Sent)
    ensures var r := w.rows[w.spends[n].row]; r.status == Landed && r.nonce == Some(n)
  {
    var i := w.spends[n].row;
    assert SpendOk(w, n) && RowOk(w, i) && RanAt(w, n, i);
    assert w.rows[i] in w.rows;
    RanOnlyLast(w, i);
    var r := w.rows[i];
    assert r.Last() == r.signings[|r.signings| - 1];
  }

  /** With no one else spending, a new batch is signed at the true count, however late the read. */
  lemma SignsAtTheCount(w: World, counter: nat, limit: nat)
    requires Inv(w) && Own(w) && Enabled(w, Sign(counter, limit))
    ensures counter == |w.spends|
  {
    if |w.spends| > 0 {
      var n := |w.spends| - 1;
      AliveLanded(w, n);
      var r := w.rows[w.spends[n].row];
      assert r in w.rows && LandedNonce(r) == Some(n);
    }
  }

  lemma SignKeepsOwn(w: World, counter: nat, limit: nat)
    requires Inv(w) && Own(w) && Enabled(w, Sign(counter, limit))
    ensures Own(Apply(w, Sign(counter, limit)))
  {
    var act := Sign(counter, limit);
    var w2, ids := Apply(w, act), Batch(w.rows, limit);
    SignsAtTheCount(w, counter, limit);
    SignRows(w, act);
    forall k | 0 <= k < |ids| ensures w2.rows[ids[k]].status == Sent {
      assert w2.rows[ids[k]] == Signed(w.rows[ids[k]], counter + k, k == 0);
    }
    forall n: nat | n < |w.spends| ensures w.spends[n].row !in ids && w2.rows[w.spends[n].row].status == Landed {
      AliveLanded(w, n);
    }
    forall n: nat, m: nat | n < m < |w.spends| ensures w.spends[n].row < w.spends[m].row {
      RanInOrder(w, n, m);
    }
    forall i: nat | i < |w2.rows| && w2.rows[i].status == Queued ensures Last(w2, i) {
      assert i !in ids;
      assert w2.rows[i] == w.rows[i] && Last(w, i);
      FirstWhereSkipsNone(w.rows, IsQueued, 0, limit, i);
    }
    forall n: nat, k: nat | n < w2.base && k < |ids| ensures w.spends[n].row < ids[k] {
      assert w.rows[ids[k]].status == Queued && Last(w, ids[k]);
    }
  }

  /** The tx that may run next is that of the batch row whose turn it is. */
  lemma InTurn(w: World, i: nat)
    requires Inv(w) && Own(w) && Enabled(w, Execute(i))
    ensures w.rows[i].status == Sent && |w.spends| < w.base + |w.batch| && w.batch[|w.spends| - w.base] == i
  {
    assert RowOk(w, i);
  }

  lemma QueuedBehind(w: World, k: nat, j: nat)
    requires Inv(w) && Own(w) && |w.spends| == w.base + k && k < |w.batch| && w.rows[w.batch[k]].status == Sent
    requires j < |w.rows| && w.rows[j].status == Queued
    ensures w.batch[k] < j && Last(w, j)
  {
    assert Last(w, j);
    if j in w.batch {
      var p :| 0 <= p < |w.batch| && w.batch[p] == j;
      assert RowOk(w, j) && p != k;
      DeadUnspent(w, j, p);
      assert w.batch[k] < w.batch[p];
    }
  }

  lemma ExecuteKeepsOwn(w: World, i: nat)
    requires Inv(w) && Own(w) && Enabled(w, Execute(i))
    ensures Own(Apply(w, Execute(i)))
  {
    var w2, k := Apply(w, Execute(i)), |w.spends| - w.base;
    InTurn(w, i);
    forall j: nat | j < |w.rows| && w.rows[j].status == Queued ensures i < j && Last(w, j) {
      QueuedBehind(w, k, j);
    }
    hide RowOk, SpendOk, NextAfterLanded;
    assert w2 == w.(spends := w.spends + [Ours(i, |w.rows[i].signings| - 1)]);
    forall j: nat | j < |w.rows| && w.rows[j].status == Queued ensures Last(w2, j) {
    }
  }

  lemma SettleKeepsOwn(w: World, i: nat, counter: nat)
    requires Inv(w) && Own(w) && Enabled(w, Settle(i, counter))
    ensures Own(Apply(w, Settle(i, counter)))
  {
    var w2 := Apply(w, Settle(i, counter));
    hide NextAfterLanded;
    assert w2.spends == w.spends && w2.batch == w.batch && w2.base == w.base;
    assert forall j: nat :: j < |w.rows| && j != i ==> w2.rows[j] == w.rows[j];
    assert w.rows[i].status == Sent;
    if w2.rows[i].status == Queued {
      SettledBehind(w, i);
    }
    hide Settled, RowOk, SpendOk, Enabled;
    forall j: nat | j < |w2.rows| && w2.rows[j].status == Queued ensures Last(w2, j) {
      assert Last(w, j);
    }
  }

  /** A row queued again comes after every row that ran. */
  lemma SettledBehind(w: World, i: nat)
    requires Inv(w) && Own(w) && i < |w.rows| && w.rows[i].status == Sent && w.rows[i].Signed()
    requires w.rows[i].Last().Dead()
    ensures Last(w, i)
  {
    assert RowOk(w, i);
    var k := w.rows[i].nonce.value - w.base;
    DeadUnspent(w, i, k);
    assert w.batch[k] == i;
  }

  lemma KeepsOwn(w: World, act: Act)
    requires Inv(w) && Own(w) && Enabled(w, act) && !act.Elsewhere?
    ensures Own(Apply(w, act))
  {
    match act
    case Sign(counter, limit) => SignKeepsOwn(w, counter, limit);
    case Execute(i) => ExecuteKeepsOwn(w, i);
    case Settle(i, counter) => SettleKeepsOwn(w, i, counter);
    case Submit(count) => SubmitKeepsOwn(w, count);
    case Cancel(i) => CancelKeepsOwn(w, i);
    case Tell(i, report) => TellKeepsOwn(w, i, report);
  }

  lemma SubmitKeepsOwn(w: World, count: nat)
    requires Inv(w) && Own(w)
    ensures Own(Apply(w, Submit(count)))
  {
    hide RowOk, SpendOk, NextAfterLanded;
    var w2 := Apply(w, Submit(count));
    forall j: nat | j < |w2.rows| && w2.rows[j].status == Queued ensures Last(w2, j) {
      assert j < |w.rows| ==> Last(w, j);
    }
  }

  lemma CancelKeepsOwn(w: World, i: nat)
    requires Own(w) && Enabled(w, Cancel(i))
    ensures Own(Apply(w, Cancel(i)))
  {
    var w2 := Apply(w, Cancel(i));
    forall j: nat | j < |w2.rows| && w2.rows[j].status == Queued ensures Last(w2, j) {
      assert Last(w, j);
    }
  }

  lemma TellKeepsOwn(w: World, i: nat, report: Report)
    requires Own(w) && Enabled(w, Tell(i, report))
    ensures Own(Apply(w, Tell(i, report)))
  {
    var w2 := Apply(w, Tell(i, report));
    forall j: nat | j < |w2.rows| && w2.rows[j].status == Queued ensures Last(w2, j) {
      assert Last(w, j);
    }
  }

  ghost predicate Alone(acts: seq<Act>) {
    forall act <- acts :: !act.Elsewhere?
  }

  lemma {:induction false} OwnRun(w: World, acts: seq<Act>)
    requires Inv(w) && Own(w) && Allowed(w, acts) && Alone(acts)
    ensures Own(Run(w, acts))
  {
    if acts != [] {
      var front := acts[..|acts| - 1];
      OwnRun(w, front);
      InvRun(w, front);
      KeepsOwn(Run(w, front), acts[|acts| - 1]);
    }
  }

  /** Rows run in id order, each at its own place. */
  lemma RunsInIdOrder(acts: seq<Act>, n: nat, m: nat)
    requires var empty := World([], [], [], 0);
             Allowed(empty, acts) && Alone(acts) && n < m < |Run(empty, acts).spends|
    ensures var spends := Run(World([], [], [], 0), acts).spends;
            spends[n].Ours? && spends[m].Ours? && spends[n].row < spends[m].row
  {
    var empty := World([], [], [], 0);
    OwnRun(empty, acts);
    InvRun(empty, acts);
    RanInOrder(Run(empty, acts), n, m);
  }

  /** A row fails only as the head of its batch, on its own simulation, or
      cancelled: never for the failure of one before it. */
  lemma FailsOnlyAtHead(w: World, i: nat, counter: nat)
    requires Inv(w) && Own(w) && Enabled(w, Settle(i, counter))
    requires Settled(w.rows[i], counter).status == Failed
    ensures w.batch != [] && i == w.batch[0] && w.rows[i].nonce == Some(w.base) && w.rows[i].Last().simulate
    ensures counter == w.base == |w.spends| && w.rows[i].Last().report != GasRefused
  {
    assert RowOk(w, i);
    DeadUnspent(w, i, w.rows[i].nonce.value - w.base);
  }

  // ---- n rows within n batches ----

  /** No one else spends, settling reads the true count, and gas is never refused. */
  ghost predicate Clean(w: World, act: Act)
    requires Enabled(w, act)
  {
    match act
    case Elsewhere(_) => false
    case Tell(_, report) => report != GasRefused
    case Settle(_, counter) => counter == |w.spends|
    case _ => true
  }

  ghost predicate NoGasRefusal(w: World) {
    forall i: nat :: i < |w.rows| && w.rows[i].status == Sent && w.rows[i].Signed() ==>
      w.rows[i].Last().report != GasRefused
  }

  predicate Finished(r: Row) {
    r.status in {Landed, Failed}
  }

  function CountFinished(rows: seq<Row>): nat {
    if rows == [] then 0 else CountFinished(rows[..|rows| - 1]) + if Finished(rows[|rows| - 1]) then 1 else 0
  }

  /** 1 while the head of the last batch is out. */
  function HeadOut(w: World): nat {
    if w.batch != [] && w.batch[0] < |w.rows| && w.rows[w.batch[0]].status == Sent then 1 else 0
  }

  function Signings(acts: seq<Act>): nat {
    if acts == [] then 0 else Signings(acts[..|acts| - 1]) + if acts[|acts| - 1].Sign? then 1 else 0
  }

  lemma {:induction false} CountMonotone(a: seq<Row>, b: seq<Row>)
    requires |a| == |b| && forall i :: 0 <= i < |a| && Finished(a[i]) ==> Finished(b[i])
    ensures CountFinished(a) <= CountFinished(b)
    ensures (exists i :: 0 <= i < |a| && Finished(b[i]) && !Finished(a[i])) ==> CountFinished(a) < CountFinished(b)
  {
    if a != [] {
      CountMonotone(a[..|a| - 1], b[..|b| - 1]);
      if i :| 0 <= i < |a| && Finished(b[i]) && !Finished(a[i]) {
        if i < |a| - 1 {
          assert Finished(b[..|b| - 1][i]) && !Finished(a[..|a| - 1][i]);
        }
      }
    }
  }

  lemma {:induction false} CountAppend(rows: seq<Row>, count: nat)
    ensures CountFinished(rows + seq(count, _ => Fresh())) == CountFinished(rows)
    decreases count
  {
    var all := rows + seq(count, _ => Fresh());
    if count == 0 {
      assert all == rows;
    } else {
      CountAppend(rows, count - 1);
      assert all[..|all| - 1] == rows + seq(count - 1, _ => Fresh());
    }
  }

  /** Settled on the true count, the head of a batch is done: landed, or failed on its own. */
  lemma HeadFinishes(w: World, i: nat)
    requires Inv(w) && Own(w) && Enabled(w, Settle(i, |w.spends|))
    requires w.batch != [] && w.batch[0] == i && w.rows[i].Last().report !in {Waiting, GasRefused}
    ensures Finished(Settled(w.rows[i], |w.spends|))
  {
    assert RowOk(w, i);
    var k := w.rows[i].nonce.value - w.base;
    assert w.batch[k] == i && k == 0;
    if w.rows[i].Last().Dead() {
      DeadUnspent(w, i, 0);
    }
  }

  /** What was finished, plus a head out, grows with every signing. */
  lemma ProgressStep(w: World, act: Act)
    requires Inv(w) && Own(w) && NoGasRefusal(w) && Enabled(w, act) && Clean(w, act)
    ensures var w2 := Apply(w, act);
            CountFinished(w.rows) + HeadOut(w) + (if act.Sign? then 1 else 0) <= CountFinished(w2.rows) + HeadOut(w2)
  {
    var w2 := Apply(w, act);
    match act
    case Submit(count) => CountAppend(w.rows, count);
    case Sign(counter, limit) => SignProgress(w, act);
    case Settle(i, counter) => SettleProgress(w, i);
    case Tell(i, report) => CountMonotone(w.rows, w2.rows);
    case Cancel(i) => CountMonotone(w.rows, w2.rows);
    case Execute(_) =>
    hide NextAfterLanded, Batch, Inv, Own, RowOk, SpendOk;
  }

  lemma SignProgress(w: World, act: Act)
    requires Enabled(w, act) && act.Sign?
    ensures var w2 := Apply(w, act);
            CountFinished(w.rows) + HeadOut(w) + 1 <= CountFinished(w2.rows) + HeadOut(w2)
  {
    var w2 := Apply(w, act);
    SignRows(w, act);
    hide Apply, Enabled, Batch, SignedAs;
    CountSigned(w.rows, w2.batch, act.counter, w2.rows);
    HeadSigned(w, w2);
  }

  lemma HeadSigned(w: World, w2: World)
    requires SignedAs(w.rows, w2.batch, w2.base, w2.rows) && w2.batch != [] && forall r <- w.rows :: r.status != Sent
    ensures HeadOut(w) == 0 && HeadOut(w2) == 1
  {
    assert w2.rows[w2.batch[0]] == Signed(w.rows[w2.batch[0]], w2.base, true);
    if w.batch != [] && w.batch[0] < |w.rows| {
      assert w.rows[w.batch[0]] in w.rows;
    }
  }

  lemma SettleProgress(w: World, i: nat)
    requires Inv(w) && Own(w) && NoGasRefusal(w) && Enabled(w, Settle(i, |w.spends|))
    ensures var w2 := Apply(w, Settle(i, |w.spends|));
            CountFinished(w.rows) + HeadOut(w) <= CountFinished(w2.rows) + HeadOut(w2)
  {
    var w2 := Apply(w, Settle(i, |w.spends|));
    CountMonotone(w.rows, w2.rows);
    if w.batch != [] && w.batch[0] == i && w.rows[i].Last().report != Waiting {
      HeadFinishes(w, i);
      hide Settled, Inv, Own, NextAfterLanded;
      assert Finished(w2.rows[i]) && !Finished(w.rows[i]);
    }
    hide Inv, Own, NextAfterLanded;
  }

  lemma CountSigned(rows: seq<Row>, ids: seq<nat>, counter: nat, out: seq<Row>)
    requires SignedAs(rows, ids, counter, out)
    ensures CountFinished(rows) <= CountFinished(out)
  {
    forall i: nat | i < |rows| && Finished(rows[i]) ensures out[i] == rows[i] {
      assert i !in ids;
    }
    CountMonotone(rows, out);
  }

  lemma SignedNoGas(rows: seq<Row>, w2: World)
    requires SignedAs(rows, w2.batch, w2.base, w2.rows) && forall r <- rows :: r.status != Sent
    ensures NoGasRefusal(w2)
  {
    forall i: nat | i < |w2.rows| && w2.rows[i].status == Sent
      ensures w2.rows[i].Signed() && w2.rows[i].Last().report == Waiting
    {
      assert rows[i] in rows;
      assert i in w2.batch;
      var k :| 0 <= k < |w2.batch| && w2.batch[k] == i;
      assert w2.rows[i] == Signed(rows[i], w2.base + k, k == 0);
    }
  }

  lemma KeepsNoGasRefusal(w: World, act: Act)
    requires NoGasRefusal(w) && Enabled(w, act) && Clean(w, act)
    ensures NoGasRefusal(Apply(w, act))
  {
    hide NextAfterLanded;
    if act.Sign? {
      SignRows(w, act);
      SignedNoGas(w.rows, Apply(w, act));
    } else {
      OthersNoGas(w, act);
    }
  }

  lemma OthersNoGas(w: World, act: Act)
    requires NoGasRefusal(w) && Enabled(w, act) && Clean(w, act) && !act.Sign?
    ensures NoGasRefusal(Apply(w, act))
  {
    hide NextAfterLanded;
  }

  ghost predicate CleanRun(w: World, acts: seq<Act>)
    requires Allowed(w, acts)
  {
    acts == [] || (CleanRun(w, acts[..|acts| - 1]) && Clean(Run(w, acts[..|acts| - 1]), acts[|acts| - 1]))
  }

  lemma {:induction false} Progress(w: World, acts: seq<Act>)
    requires Inv(w) && Own(w) && NoGasRefusal(w) && Allowed(w, acts) && CleanRun(w, acts)
    ensures var end := Run(w, acts);
            && Inv(end) && Own(end) && NoGasRefusal(end)
            && CountFinished(w.rows) + HeadOut(w) + Signings(acts) <= CountFinished(end.rows) + HeadOut(end)
  {
    if acts != [] {
      var front, act := acts[..|acts| - 1], acts[|acts| - 1];
      Progress(w, front);
      var before := Run(w, front);
      hide Own, Inv, NoGasRefusal, Enabled, Apply;
      KeepsInv(before, act);
      KeepsOwn(before, act);
      KeepsNoGasRefusal(before, act);
      ProgressStep(before, act);
    }
  }

  lemma {:induction false} CountAtMost(rows: seq<Row>)
    ensures CountFinished(rows) <= |rows|
    ensures CountFinished(rows) == |rows| ==> forall r <- rows :: Finished(r)
  {
    if rows != [] {
      CountAtMost(rows[..|rows| - 1]);
    }
  }

  /** However rows fail, `n` unfinished rows are all finished once `n` batches were signed and settled. */
  lemma WithinNBatches(w: World, acts: seq<Act>)
    requires Inv(w) && Own(w) && NoGasRefusal(w) && Allowed(w, acts) && CleanRun(w, acts)
    requires HeadOut(Run(w, acts)) == 0 && |Run(w, acts).rows| == |w.rows|
    requires Signings(acts) >= |w.rows| - CountFinished(w.rows)
    ensures forall r <- Run(w, acts).rows :: Finished(r)
  {
    Progress(w, acts);
    CountAtMost(Run(w, acts).rows);
  }
}
