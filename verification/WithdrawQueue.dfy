/** The withdraw lane of src/clients/privana_lanes.py: its rows, the requests that
    may still land, and the signer's withdrawal nonces on chain. */
module WithdrawQueue {
  import opened Tables

  const RESEND_SEC := 120
  const MAX_SENDS := 15

  datatype Status = Queued | Sent | Landed | Failed

  datatype Error = NoError | Refusal | GivenUp | Cancelled

  /** `sentAt` is the row's `updated_at`. */
  datatype Row = Row(status: Status, nonce: Option<nat>, attempts: nat, error: Error, sentAt: int)

  datatype Spend = Ours(row: nat) | Foreign

  /** `pending` are the rows whose request may reach the chain, `landings` the rows
      in the order they were found landed. */
  datatype World = World(rows: seq<Row>, spends: seq<Spend>, pending: set<nat>, landings: seq<nat>, clock: int)

  datatype Act =
    | Submit
    | Cancel(row: nat)
    | Tick(span: nat)
    | Land(row: nat)
    | Elsewhere
    | Sign(row: nat, counter: nat)
    | Post(row: nat)
    | Refuse(row: nat)
    | Settle(row: nat, counter: nat)
    | Fail(row: nat, counter: nat)
    | GiveUp(row: nat, counter: nat)
    | Resend(row: nat, counter: nat)

  predicate IsSent(r: Row) {
    r.status == Sent && r.nonce.Some?
  }

  predicate IsQueued(r: Row) {
    r.status == Queued
  }

  function LandedNonce(r: Row): Option<nat> {
    if r.status == Landed then r.nonce else None
  }

  function NextAfterLanded(rows: seq<Row>): nat {
    NextAfter(rows, LandedNonce)
  }

  /** Sent once, refused, and given RESEND_SEC: trusted never to land from then on. */
  predicate Gone(r: Row, clock: int) {
    r.error == Refusal && r.attempts == 1 && (r.status == Failed || r.sentAt + RESEND_SEC <= clock)
  }

  /** A count the lane may use: not below what landed here, and trusted to show a
      landing of a row that is `Gone`; otherwise it may lag. */
  predicate Readable(w: World, counter: nat) {
    && NextAfterLanded(w.rows) <= counter <= |w.spends|
    && forall i: nat :: i < |w.rows| && IsSent(w.rows[i]) && Gone(w.rows[i], w.clock) && Landing(w, i) ==>
         w.rows[i].nonce.value < counter
  }

  /** Whether row `i`'s withdrawal landed. */
  predicate Landing(w: World, i: nat)
    requires i < |w.rows|
  {
    var n := w.rows[i].nonce;
    n.Some? && n.value < |w.spends| && w.spends[n.value] == Ours(i)
  }

  predicate NoneSent(rows: seq<Row>) {
    forall r <- rows :: r.status != Sent
  }

  /** A sent row whose nonce reads unused and whose last send had RESEND_SEC. */
  predicate Overdue(w: World, i: nat, counter: nat) {
    && i < |w.rows| && IsSent(w.rows[i]) && Readable(w, counter)
    && counter <= w.rows[i].nonce.value && w.rows[i].sentAt + RESEND_SEC <= w.clock
  }

  predicate Refused(r: Row) {
    r.error != NoError && r.attempts == 1
  }

  predicate Enabled(w: World, act: Act) {
    match act
    case Submit => true
    case Cancel(i) => i < |w.rows| && w.rows[i].status == Queued
    case Tick(_) => true
    case Land(i) =>
      i in w.pending && i < |w.rows| && w.rows[i].nonce == Some(|w.spends|) && !Gone(w.rows[i], w.clock)
    case Elsewhere => true
    case Sign(i, counter) => i < |w.rows| && w.rows[i].status == Queued && NoneSent(w.rows) && Readable(w, counter)
    case Post(i) => i < |w.rows| && IsSent(w.rows[i])
    case Refuse(i) => i < |w.rows| && IsSent(w.rows[i]) && w.rows[i].attempts == 1
    case Settle(i, counter) =>
      i < |w.rows| && IsSent(w.rows[i]) && Readable(w, counter) && w.rows[i].nonce.value < counter
    case Fail(i, counter) => Overdue(w, i, counter) && Refused(w.rows[i])
    case GiveUp(i, counter) => Overdue(w, i, counter) && !Refused(w.rows[i]) && w.rows[i].attempts >= MAX_SENDS
    case Resend(i, counter) => Overdue(w, i, counter) && !Refused(w.rows[i]) && w.rows[i].attempts < MAX_SENDS
  }

  function Apply(w: World, act: Act): World
    requires Enabled(w, act)
  {
    match act
    case Submit => w.(rows := w.rows + [Row(Queued, None, 0, NoError, w.clock)])
    case Cancel(i) => w.(rows := w.rows[i := w.rows[i].(status := Failed, error := Cancelled, sentAt := w.clock)])
    case Tick(span) => w.(clock := w.clock + span)
    case Land(i) => w.(spends := w.spends + [Ours(i)])
    case Elsewhere => w.(spends := w.spends + [Foreign])
    case Sign(i, counter) =>
      w.(rows := w.rows[i := w.rows[i].(status := Sent, nonce := Some(counter), attempts := w.rows[i].attempts + 1,
                                        sentAt := w.clock)])
    case Post(i) => w.(pending := w.pending + {i})
    case Refuse(i) => w.(rows := w.rows[i := w.rows[i].(error := Refusal)])
    case Settle(i, counter) =>
      w.(rows := w.rows[i := w.rows[i].(status := Landed, error := NoError, sentAt := w.clock)],
          landings := w.landings + [i])
    case Fail(i, counter) => w.(rows := w.rows[i := w.rows[i].(status := Failed, sentAt := w.clock)])
    case GiveUp(i, counter) => w.(rows := w.rows[i := w.rows[i].(error := GivenUp, sentAt := w.clock)])
    case Resend(i, counter) =>
      w.(rows := w.rows[i := w.rows[i].(attempts := w.rows[i].attempts + 1, sentAt := w.clock)])
  }

  // ---- What every state keeps ----

  /** Every landed row landed below `nonce`. */
  ghost predicate Above(rows: seq<Row>, nonce: nat) {
    forall r <- rows :: LandedNonce(r).Some? ==> LandedNonce(r).value < nonce
  }

  ghost predicate RowOk(w: World, i: nat)
    requires i < |w.rows|
  {
    var r := w.rows[i];
    && r.attempts <= MAX_SENDS
    && (i in w.pending ==> r.attempts > 0)
    && match r.status
       case Queued => r.nonce == None && r.attempts == 0 && r.error == NoError
       case Sent =>
         && r.nonce.Some? && r.attempts > 0 && r.error != Cancelled
         && (r.error == GivenUp ==> r.attempts > 1) && Above(w.rows, r.nonce.value)
       case Landed => r.nonce.Some? && r.nonce.value < |w.spends| && r.attempts > 0
       case Failed =>
         && !Landing(w, i)
         && (if r.attempts == 0 then r.nonce == None else r.attempts == 1 && r.error == Refusal)
  }

  ghost predicate SpendOk(w: World, n: nat)
    requires n < |w.spends|
  {
    w.spends[n].Ours? ==> w.spends[n].row < |w.rows| && w.rows[w.spends[n].row].nonce == Some(n)
  }

  /** Rows in landing order, at rising nonces, before any still sent. */
  ghost predicate InOrder(w: World) {
    && (forall k :: 0 <= k < |w.landings| ==>
          w.landings[k] < |w.rows| && LandedNonce(w.rows[w.landings[k]]).Some?)
    && forall k, m :: 0 <= k < m < |w.landings| ==>
         w.rows[w.landings[k]].nonce.value < w.rows[w.landings[m]].nonce.value
  }

  ghost predicate OneSent(rows: seq<Row>) {
    forall i, j :: 0 <= i < |rows| && 0 <= j < |rows| && rows[i].status == Sent && rows[j].status == Sent ==> i == j
  }

  ghost predicate Inv(w: World) {
    && OneSent(w.rows) && (forall i <- w.pending :: i < |w.rows|)
    && (forall i: nat :: i < |w.rows| ==> RowOk(w, i))
    && (forall n: nat :: n < |w.spends| ==> SpendOk(w, n))
    && InOrder(w)
  }

  lemma AboveNext(rows: seq<Row>, counter: nat)
    requires NextAfterLanded(rows) <= counter
    ensures Above(rows, counter)
  {
  }

  lemma KeepsRow(w: World, act: Act, i: nat)
    requires Inv(w) && Enabled(w, act) && i < |w.rows| && !act.Settle? && !act.Sign?
    ensures RowOk(Apply(w, act), i)
  {
    assert RowOk(w, i);
    hide NextAfterLanded;
    if act.Land? {
      assert RowOk(w, act.row);
    }
  }

  lemma SettleKeepsRow(w: World, act: Act, i: nat)
    requires Inv(w) && Enabled(w, act) && i < |w.rows| && act.Settle?
    ensures RowOk(Apply(w, act), i)
  {
    assert RowOk(w, i);
  }

  lemma SignKeepsRow(w: World, act: Act, i: nat)
    requires Inv(w) && Enabled(w, act) && i < |w.rows| && act.Sign?
    ensures RowOk(Apply(w, act), i)
  {
    assert RowOk(w, i) && w.rows[i] in w.rows;
    AboveNext(w.rows, act.counter);
    hide NextAfterLanded;
  }

  lemma KeepsSpends(w: World, act: Act, n: nat)
    requires Inv(w) && Enabled(w, act) && n < |Apply(w, act).spends|
    ensures SpendOk(Apply(w, act), n)
  {
    hide NextAfterLanded;
    if n < |w.spends| {
      assert SpendOk(w, n);
      if act.Sign? {
        assert RowOk(w, act.row);
      }
    }
  }

  lemma KeepsInOrder(w: World, act: Act)
    requires Inv(w) && Enabled(w, act)
    ensures InOrder(Apply(w, act))
  {
    hide NextAfterLanded;
    if act.Settle? {
      assert RowOk(w, act.row);
      forall k | 0 <= k < |w.landings| ensures w.rows[w.landings[k]].nonce.value < w.rows[act.row].nonce.value {
        assert w.rows[w.landings[k]] in w.rows;
      }
    }
  }

  lemma KeepsOneSent(w: World, act: Act)
    requires Inv(w) && Enabled(w, act)
    ensures OneSent(Apply(w, act).rows)
  {
    hide NextAfterLanded;
    if act.Sign? {
      assert forall j :: 0 <= j < |w.rows| ==> w.rows[j] in w.rows;
    }
  }

  lemma KeepsInv(w: World, act: Act)
    requires Inv(w) && Enabled(w, act)
    ensures Inv(Apply(w, act))
  {
    var w2 := Apply(w, act);
    KeepsOneSent(w, act);
    KeepsInOrder(w, act);
    forall n: nat | n < |w2.spends| ensures SpendOk(w2, n) {
      KeepsSpends(w, act, n);
    }
    forall i: nat | i < |w2.rows| ensures RowOk(w2, i) {
      KeepsAnyRow(w, act, i);
    }
  }

  lemma KeepsAnyRow(w: World, act: Act, i: nat)
    requires Inv(w) && Enabled(w, act) && i < |Apply(w, act).rows|
    ensures RowOk(Apply(w, act), i)
  {
    if i < |w.rows| {
      if act.Settle? {
        SettleKeepsRow(w, act, i);
      } else if act.Sign? {
        SignKeepsRow(w, act, i);
      } else {
        KeepsRow(w, act, i);
      }
    }
  }

  // ---- Runs ----

  ghost predicate Allowed(w: World, acts: seq<Act>)
    decreases |acts|, 0
  {
    acts == [] || (Allowed(w, acts[..|acts| - 1]) && Enabled(Run(w, acts[..|acts| - 1]), acts[|acts| - 1]))
  }

  ghost function Run(w: World, acts: seq<Act>): World
    requires Allowed(w, acts)
    decreases |acts|, 1
  {
    if acts == [] then w else Apply(Run(w, acts[..|acts| - 1]), acts[|acts| - 1])
  }

  lemma {:induction false} InvRun(w: World, acts: seq<Act>)
    requires Inv(w) && Allowed(w, acts)
    ensures Inv(Run(w, acts))
  {
    if acts != [] {
      InvRun(w, acts[..|acts| - 1]);
      KeepsInv(Run(w, acts[..|acts| - 1]), acts[|acts| - 1]);
    }
  }

  lemma {:induction false} RunOne(w: World, acts: seq<Act>, act: Act)
    requires Allowed(w, acts) && Enabled(Run(w, acts), act)
    ensures Allowed(w, acts + [act]) && Run(w, acts + [act]) == Apply(Run(w, acts), act)
  {
    assert (acts + [act])[..|acts|] == acts;
  }

  predicate LandedAt(w: World, n: nat, i: nat) {
    n < |w.spends| && w.spends[n] == Ours(i)
  }

  /** In every run at most one withdrawal is out; each was sent at most MAX_SENDS
      times, landed at most once and only at its nonce; one sent more than once is
      never FAILED, and a FAILED one never landed. */
  lemma Safe(w: World, acts: seq<Act>, i: nat)
    requires Inv(w) && Allowed(w, acts) && i < |Run(w, acts).rows|
    ensures var end := Run(w, acts);
            var r := end.rows[i];
            && (forall j: nat :: j < |end.rows| && end.rows[j].status == Sent && r.status == Sent ==> i == j)
            && r.attempts <= MAX_SENDS
            && (r.attempts > 1 ==> r.status in {Sent, Landed})
            && (forall n: nat :: LandedAt(end, n, i) ==> r.nonce == Some(n))
            && (r.status in {Queued, Failed} ==> forall n: nat :: !LandedAt(end, n, i))
  {
    InvRun(w, acts);
    var end := Run(w, acts);
    assert RowOk(end, i);
    forall n: nat | LandedAt(end, n, i) ensures end.rows[i].nonce == Some(n) {
      assert SpendOk(end, n);
    }
  }

  /** Landed nonces rise in landing order. */
  lemma LandsInOrder(w: World, acts: seq<Act>, k: nat, m: nat)
    requires Inv(w) && Allowed(w, acts) && k < m < |Run(w, acts).landings|
    ensures var end := Run(w, acts);
            var x, y := end.landings[k], end.landings[m];
            && x < |end.rows| && y < |end.rows| && end.rows[x].status == end.rows[y].status == Landed
            && end.rows[x].nonce.Some? && end.rows[y].nonce.Some?
            && end.rows[x].nonce.value < end.rows[y].nonce.value
  {
    InvRun(w, acts);
  }

  lemma SignedOnceStep(w: World, act: Act, i: nat)
    requires Enabled(w, act) && i < |w.rows| && w.rows[i].status != Queued
    ensures i < |Apply(w, act).rows| && Apply(w, act).rows[i].nonce == w.rows[i].nonce
    ensures Apply(w, act).rows[i].status != Queued
  {
    hide NextAfterLanded;
  }

  /** A withdrawal is signed once: from then on it keeps its nonce, and with it its request. */
  lemma {:induction false} SignedOnce(w: World, acts: seq<Act>, i: nat)
    requires Inv(w) && Allowed(w, acts) && i < |w.rows| && w.rows[i].status != Queued
    ensures i < |Run(w, acts).rows| && Run(w, acts).rows[i].nonce == w.rows[i].nonce
    ensures Run(w, acts).rows[i].status != Queued
  {
    if acts != [] {
      SignedOnce(w, acts[..|acts| - 1], i);
      SignedOnceStep(Run(w, acts[..|acts| - 1]), acts[|acts| - 1], i);
    }
  }

  // ---- A signer no one else withdraws for ----

  /** Every nonce was spent by a row that landed, or by the one that is out. */
  ghost predicate Own(w: World) {
    && (forall n: nat :: n < |w.spends| ==> SpentByRow(w, n))
    && (forall i: nat :: i < |w.rows| ==> Backed(w, i))
  }

  ghost predicate SpentByRow(w: World, n: nat)
    requires n < |w.spends|
  {
    var s := w.spends[n];
    s.Ours? && s.row < |w.rows| && w.rows[s.row].status in {Sent, Landed}
  }

  ghost predicate Backed(w: World, i: nat)
    requires i < |w.rows|
  {
    var r := w.rows[i];
    && (r.status in {Sent, Landed} && r.nonce.Some? && r.nonce.value < |w.spends| ==> Landing(w, i))
    && (IsSent(r) ==> |w.spends| <= r.nonce.value + 1)
  }

  lemma KeepsBacked(w: World, act: Act, i: nat)
    requires Inv(w) && Own(w) && Enabled(w, act) && !act.Elsewhere? && i < |w.rows|
    ensures Backed(Apply(w, act), i)
  {
    assert Backed(w, i) && RowOk(w, i);
    if act.Sign? {
      SignsAtTheCount(w, act.row, act.counter);
    } else if act.Land? {
      assert RowOk(w, act.row);
    }
  }

  lemma KeepsSpentByRow(w: World, act: Act, n: nat)
    requires Inv(w) && Own(w) && Enabled(w, act) && !act.Elsewhere? && n < |Apply(w, act).spends|
    ensures SpentByRow(Apply(w, act), n)
  {
    hide NextAfterLanded;
    if n < |w.spends| {
      assert SpentByRow(w, n) && SpendOk(w, n);
      if act.Fail? {
        assert RowOk(w, act.row) && Gone(w.rows[act.row], w.clock);
      }
    } else {
      assert RowOk(w, act.row);
    }
  }

  lemma KeepsOwn(w: World, act: Act)
    requires Inv(w) && Own(w) && Enabled(w, act) && !act.Elsewhere?
    ensures Own(Apply(w, act))
  {
    var w2 := Apply(w, act);
    forall n: nat | n < |w2.spends| ensures SpentByRow(w2, n) {
      KeepsSpentByRow(w, act, n);
    }
    forall i: nat | i < |w2.rows| ensures Backed(w2, i) {
      if i < |w.rows| {
        KeepsBacked(w, act, i);
      }
    }
  }

  /** Alone, a withdrawal is signed at the true count, however late the read. */
  lemma SignsAtTheCount(w: World, i: nat, counter: nat)
    requires Inv(w) && Own(w) && Enabled(w, Sign(i, counter))
    ensures counter == |w.spends|
  {
    if |w.spends| > 0 {
      var n := |w.spends| - 1;
      assert SpendOk(w, n) && SpentByRow(w, n);
      var j := w.spends[n].row;
      assert w.rows[j] in w.rows;
      assert LandedNonce(w.rows[j]) == Some(n);
    }
  }

  ghost predicate Alone(acts: seq<Act>) {
    forall act <- acts :: !act.Elsewhere?
  }

  lemma {:induction false} OwnRun(w: World, acts: seq<Act>)
    requires Inv(w) && Own(w) && Allowed(w, acts) && Alone(acts)
    ensures Own(Run(w, acts))
  {
    if acts != [] {
      var front := acts[..|acts| - 1];
      OwnRun(w, front);
      InvRun(w, front);
      KeepsOwn(Run(w, front), acts[|acts| - 1]);
    }
  }

  /** Alone, LANDED means the withdrawal landed, exactly once. */
  lemma LandedIsTrue(w: World, acts: seq<Act>, i: nat)
    requires Inv(w) && Own(w) && Allowed(w, acts) && Alone(acts)
    requires i < |Run(w, acts).rows| && Run(w, acts).rows[i].status == Landed
    ensures var end := Run(w, acts);
            && end.rows[i].nonce.Some? && LandedAt(end, end.rows[i].nonce.value, i)
            && forall n: nat :: LandedAt(end, n, i) ==> n == end.rows[i].nonce.value
  {
    OwnRun(w, acts);
    Safe(w, acts, i);
    InvRun(w, acts);
    assert RowOk(Run(w, acts), i) && Backed(Run(w, acts), i);
  }
}
