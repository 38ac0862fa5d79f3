/** The evm_transactions table of one sending account and the chain it sends to,
    as src/clients/evm_batcher.py uses them: every atomic write and every chain
    event is an `Act`, and a run is any sequence of them. Interleavings, lost
    replies and crashes are runs: a crash loses only memory, and no act depends
    on memory. */
module EvmQueue {
  import opened Tables

  /** What a tx pays: its gas price, or its fee cap and tip. */
  datatype Fees = Fees(price: nat, tip: nat)

  /** A signed tx: the row it was signed for, the nonce it spends and its fees.
      It stands for the tx hash. */
  datatype Version = Version(row: nat, nonce: nat, fees: Fees)

  /** What a caller submits: the owner names what the tx is for. */
  datatype Intent = Intent(owner: nat, simulate: bool)

  /** How long an attempt gets to show a receipt before the row is signed again. */
  const RECEIPT_TIMEOUT_SEC := 120

  datatype Status = Queued | Mined | Reverted | Failed

  datatype Error = NoError | GasRefused | OtherError

  /** A row; its id is its position in the table. */
  datatype Row = Row(owner: nat, simulate: bool, status: Status, attempts: seq<Version>, nonce: Option<nat>,
                     txHash: Option<Version>, error: Error, updatedAt: int)
  {
    predicate Signed() { attempts != [] }

    /** The nonce its attempts hold. */
    function Held(): nat
      requires Signed()
    {
      attempts[0].nonce
    }
  }

  /** What the chain mined at a nonce: one of our versions, by receipt status, or someone else's tx. */
  datatype Entry = Ours(version: Version, ok: bool) | Foreign

  /** `reached` holds the versions a node may have taken; only they can be mined. */
  datatype World = World(rows: seq<Row>, mined: seq<Entry>, reached: set<Version>)

  datatype Act =
    | Mine(entry: Entry)
    | Submit(intents: seq<Intent>, at: int)
    | Requeue(ids: set<nat>, at: int)
    | Attempt(row: nat, version: Version, at: int)
    | Reach(version: Version)
    | Erase(row: nat)
    | Seen(row: nat, version: Version, ok: bool, at: int)
    | Unsent(row: nat, error: Error, at: int)
    | Taken(row: nat, at: int)

  predicate Waits(w: World, i: nat) {
    i < |w.rows| && w.rows[i].status == Queued
  }

  predicate Requeueable(r: Row) {
    r.status == Failed && !r.Signed()
  }

  /** Whether the chain mined a version of row `i` at nonce `n`. */
  predicate MinedFor(w: World, n: nat, i: nat) {
    n < |w.mined| && w.mined[n].Ours? && w.mined[n].version.row == i
  }

  /** What each act needs; the code's own guards and the chain's rules. */
  predicate Enabled(w: World, act: Act) {
    match act
    case Mine(e) => e.Ours? ==> e.version in w.reached && e.version.nonce == |w.mined|
    case Submit(_, _) => true
    case Requeue(ids, _) => forall i <- ids :: i < |w.rows| && Requeueable(w.rows[i])
    case Attempt(i, v, at) =>
      && Waits(w, i) && v.row == i
      && (w.rows[i].Signed() ==> v.nonce == w.rows[i].Held() && w.rows[i].updatedAt + RECEIPT_TIMEOUT_SEC <= at)
    case Reach(v) => v.row < |w.rows| && v in w.rows[v.row].attempts
    case Erase(i) => Waits(w, i) && |w.rows[i].attempts| == 1 && w.rows[i].attempts[0] !in w.reached
    case Seen(i, v, ok, _) =>
      Waits(w, i) && v in w.rows[i].attempts && v.nonce < |w.mined| && w.mined[v.nonce] == Ours(v, ok)
    case Unsent(i, _, _) => Waits(w, i) && !w.rows[i].Signed()
    case Taken(i, _) =>
      Waits(w, i) && w.rows[i].Signed() && w.rows[i].Held() < |w.mined| && !MinedFor(w, w.rows[i].Held(), i)
  }

  function Fresh(intent: Intent, at: int): Row {
    Row(intent.owner, intent.simulate, Queued, [], None, None, NoError, at)
  }

  predicate HasOwner(rows: seq<Row>, owner: nat) {
    exists r <- rows :: r.owner == owner
  }

  /** The rows after an insert that skips owners already there. */
  function Enqueue(rows: seq<Row>, intents: seq<Intent>, at: int): (out: seq<Row>)
    ensures rows <= out
    ensures forall k :: |rows| <= k < |out| ==> out[k] == Fresh(Intent(out[k].owner, out[k].simulate), at)
    decreases |intents|
  {
    if intents == [] then rows
    else if HasOwner(rows, intents[0].owner) then Enqueue(rows, intents[1..], at)
    else Enqueue(rows + [Fresh(intents[0], at)], intents[1..], at)
  }

  function Again(r: Row, at: int): Row {
    r.(status := Queued, error := NoError, txHash := None, nonce := None, updatedAt := at)
  }

  function Finish(r: Row, status: Status, txHash: Option<Version>, nonce: Option<nat>, error: Error, at: int): Row {
    r.(status := status, txHash := txHash, nonce := nonce, error := error, updatedAt := at)
  }

  function Apply(w: World, act: Act): World
    requires Enabled(w, act)
  {
    match act
    case Mine(e) => w.(mined := w.mined + [e])
    case Submit(intents, at) => w.(rows := Enqueue(w.rows, intents, at))
    case Requeue(ids, at) =>
      w.(rows := seq(|w.rows|, k requires 0 <= k < |w.rows| => if k in ids then Again(w.rows[k], at) else w.rows[k]))
    case Attempt(i, v, at) =>
      w.(rows := w.rows[i := w.rows[i].(attempts := w.rows[i].attempts + [v], updatedAt := at)])
    case Reach(v) => w.(reached := w.reached + {v})
    case Erase(i) => w.(rows := w.rows[i := w.rows[i].(attempts := [])])
    case Seen(i, v, ok, at) =>
      w.(rows := w.rows[i := Finish(w.rows[i], if ok then Mined else Reverted, Some(v), Some(v.nonce), NoError, at)])
    case Unsent(i, error, at) =>
      w.(rows := w.rows[i := Finish(w.rows[i], Failed, None, None, error, at)])
    case Taken(i, at) =>
      w.(rows := w.rows[i := Finish(w.rows[i], Failed, None, Some(w.rows[i].Held()), OtherError, at)])
  }

  // ---- One row per owner ----

  ghost predicate OneRowEach(rows: seq<Row>) {
    forall i, j :: 0 <= i < |rows| && 0 <= j < |rows| && rows[i].owner == rows[j].owner ==> i == j
  }

  lemma {:induction false} EnqueueKeepsOneEach(rows: seq<Row>, intents: seq<Intent>, at: int)
    requires OneRowEach(rows)
    ensures OneRowEach(Enqueue(rows, intents, at))
    decreases |intents|
  {
    if intents != [] {
      if HasOwner(rows, intents[0].owner) {
        EnqueueKeepsOneEach(rows, intents[1..], at);
      } else {
        EnqueueKeepsOneEach(rows + [Fresh(intents[0], at)], intents[1..], at);
      }
    }
  }

  lemma {:induction false} EnqueueOwns(rows: seq<Row>, intents: seq<Intent>, at: int)
    ensures forall x <- intents :: HasOwner(Enqueue(rows, intents, at), x.owner)
    ensures forall r <- rows :: HasOwner(Enqueue(rows, intents, at), r.owner)
    decreases |intents|
  {
    var out := Enqueue(rows, intents, at);
    forall r | r in rows ensures HasOwner(out, r.owner) {
      assert r in out;
    }
    if intents != [] {
      if HasOwner(rows, intents[0].owner) {
        EnqueueOwns(rows, intents[1..], at);
      } else {
        var more := rows + [Fresh(intents[0], at)];
        EnqueueOwns(more, intents[1..], at);
        assert Fresh(intents[0], at) == more[|rows|];
      }
      forall x | x in intents ensures HasOwner(out, x.owner) {
        assert x == intents[0] || x in intents[1..];
      }
    }
  }

  lemma {:induction false} EnqueueKnown(rows: seq<Row>, intents: seq<Intent>, at: int)
    requires forall x <- intents :: HasOwner(rows, x.owner)
    ensures Enqueue(rows, intents, at) == rows
    decreases |intents|
  {
    if intents != [] {
      assert intents[0] in intents;
      EnqueueKnown(rows, intents[1..], at);
    }
  }

  /** Submitting again changes nothing, whatever was queued before. */
  lemma SubmitTwice(rows: seq<Row>, intents: seq<Intent>, at: int, later: int)
    ensures Enqueue(Enqueue(rows, intents, at), intents, later) == Enqueue(rows, intents, at)
  {
    EnqueueOwns(rows, intents, at);
    EnqueueKnown(Enqueue(rows, intents, at), intents, later);
  }

  // ---- What every state keeps ----

  /** All attempts of a row are its own and hold one nonce. */
  ghost predicate OneNonce(w: World) {
    forall i, k :: 0 <= i < |w.rows| && 0 <= k < |w.rows[i].attempts| ==>
      && w.rows[i].attempts[k].row == i
      && w.rows[i].attempts[k].nonce == w.rows[i].Held()
  }

  /** Only recorded versions reach a node, and only those are mined, each at its nonce. */
  ghost predicate Recorded(w: World) {
    && (forall v <- w.reached :: v.row < |w.rows| && v in w.rows[v.row].attempts)
    && forall n :: 0 <= n < |w.mined| && w.mined[n].Ours? ==>
         w.mined[n].version in w.reached && w.mined[n].version.nonce == n
  }

  /** A settled row says what became of it on chain. */
  ghost predicate Truthful(w: World, i: nat)
    requires i < |w.rows|
  {
    var r := w.rows[i];
    match r.status
    case Queued => r.nonce == None && r.txHash == None
    case Failed =>
      if r.Signed() then r.nonce == Some(r.Held()) && r.Held() < |w.mined| && !MinedFor(w, r.Held(), i)
      else r.nonce == None
    case _ =>
      && r.txHash.Some? && r.txHash.value in r.attempts && r.nonce == Some(r.txHash.value.nonce)
      && r.nonce.value < |w.mined| && w.mined[r.nonce.value] == Ours(r.txHash.value, r.status == Mined)
  }

  ghost predicate Inv(w: World) {
    OneRowEach(w.rows) && OneNonce(w) && Recorded(w) && forall i :: 0 <= i < |w.rows| ==> Truthful(w, i)
  }

  lemma KeepsOneNonce(w: World, act: Act)
    requires OneNonce(w) && Enabled(w, act)
    ensures OneNonce(Apply(w, act))
  {
  }

  lemma KeepsRecorded(w: World, act: Act)
    requires OneNonce(w) && Recorded(w) && Enabled(w, act)
    ensures Recorded(Apply(w, act))
  {
    var w' := Apply(w, act);
    forall v | v in w'.reached ensures v.row < |w'.rows| && v in w'.rows[v.row].attempts {
      if v in w.reached {
        assert v in w.rows[v.row].attempts;
      }
    }
  }

  lemma KeepsTruthful(w: World, act: Act, i: nat)
    requires Inv(w) && Enabled(w, act) && i < |Apply(w, act).rows|
    ensures Truthful(Apply(w, act), i)
  {
    var w' := Apply(w, act);
    if i < |w.rows| {
      assert Truthful(w, i);
    }
  }

  lemma KeepsInv(w: World, act: Act)
    requires Inv(w) && Enabled(w, act)
    ensures Inv(Apply(w, act))
  {
    if act.Submit? {
      EnqueueKeepsOneEach(w.rows, act.intents, act.at);
    }
    KeepsOneNonce(w, act);
    KeepsRecorded(w, act);
    forall i | 0 <= i < |Apply(w, act).rows| ensures Truthful(Apply(w, act), i) {
      KeepsTruthful(w, act, i);
    }
  }

  // ---- Runs ----

  ghost predicate Allowed(w: World, acts: seq<Act>)
    decreases |acts|, 0
  {
    acts == [] || (Allowed(w, acts[..|acts| - 1]) && Enabled(Run(w, acts[..|acts| - 1]), acts[|acts| - 1]))
  }

  ghost function Run(w: World, acts: seq<Act>): World
    requires Allowed(w, acts)
    decreases |acts|, 1
  {
    if acts == [] then w else Apply(Run(w, acts[..|acts| - 1]), acts[|acts| - 1])
  }

  lemma {:induction false} InvRun(w: World, acts: seq<Act>)
    requires Inv(w) && Allowed(w, acts)
    ensures Inv(Run(w, acts))
  {
    if acts != [] {
      InvRun(w, acts[..|acts| - 1]);
      KeepsInv(Run(w, acts[..|acts| - 1]), acts[|acts| - 1]);
    }
  }

  /** One more act. */
  lemma {:induction false} RunOne(w: World, acts: seq<Act>, act: Act)
    requires Allowed(w, acts) && Enabled(Run(w, acts), act)
    ensures Allowed(w, acts + [act]) && Run(w, acts + [act]) == Apply(Run(w, acts), act)
  {
    assert (acts + [act])[..|acts|] == acts;
  }

  /** In every reachable state at most one version of a row is mined, and a
      settled row names it: MINED and REVERTED say which version and with what
      receipt, and FAILED says none. */
  lemma AtMostOnceOnChain(w: World, acts: seq<Act>, i: nat)
    requires Inv(w) && Allowed(w, acts) && i < |Run(w, acts).rows|
    ensures var end := Run(w, acts);
            var r := end.rows[i];
            && (forall n: nat :: MinedFor(end, n, i) ==> r.Signed() && n == r.Held())
            && (r.status in {Mined, Reverted} ==>
                  forall n: nat :: MinedFor(end, n, i) <==> r.nonce == Some(n))
            && (r.status in {Mined, Reverted} ==>
                  && r.nonce.Some? && r.txHash.Some? && r.nonce.value < |end.mined|
                  && end.mined[r.nonce.value] == Ours(r.txHash.value, r.status == Mined))
            && (r.status == Failed ==> forall n: nat :: !MinedFor(end, n, i))
  {
    InvRun(w, acts);
    var end := Run(w, acts);
    assert Truthful(end, i);
    forall n: nat | MinedFor(end, n, i) ensures end.rows[i].Signed() && n == end.rows[i].Held() {
      assert end.mined[n].version in end.rows[i].attempts;
    }
  }

  /** A row that settled after a signed attempt. */
  predicate Settled(r: Row) {
    r.status != Queued && r.Signed()
  }

  lemma SettledStep(w: World, act: Act, i: nat)
    requires Enabled(w, act) && i < |w.rows| && Settled(w.rows[i])
    ensures i < |Apply(w, act).rows| && Apply(w, act).rows[i] == w.rows[i]
  {
  }

  /** Settled is final: whatever happens later the row stays as it is, so with
      `AtMostOnceOnChain` a row FAILED after a signed attempt is never mined. */
  lemma {:induction false} SettledForGood(w: World, acts: seq<Act>, i: nat)
    requires Inv(w) && Allowed(w, acts) && i < |w.rows| && Settled(w.rows[i])
    ensures i < |Run(w, acts).rows| && Run(w, acts).rows[i] == w.rows[i]
    ensures w.rows[i].status == Failed ==> forall n: nat :: !MinedFor(Run(w, acts), n, i)
  {
    AtMostOnceIfAny(w, acts, i);
    if acts != [] {
      SettledForGood(w, acts[..|acts| - 1], i);
      SettledStep(Run(w, acts[..|acts| - 1]), acts[|acts| - 1], i);
    }
  }

  lemma AtMostOnceIfAny(w: World, acts: seq<Act>, i: nat)
    requires Inv(w) && Allowed(w, acts)
    ensures i < |Run(w, acts).rows| && Run(w, acts).rows[i].status == Failed ==>
              forall n: nat :: !MinedFor(Run(w, acts), n, i)
  {
    if i < |Run(w, acts).rows| {
      AtMostOnceOnChain(w, acts, i);
    }
  }

  // ---- The nonce order across rows ----

  /** Of two rows, the later one waits signed only behind a row signed at a
      lower nonce or no longer waiting, and they never hold the same nonce. */
  ghost predicate InOrder(w: World, i: nat, j: nat)
    requires i < j < |w.rows|
  {
    && (Waits(w, i) && Waits(w, j) && w.rows[j].Signed() ==>
          w.rows[i].Signed() && w.rows[i].Held() < w.rows[j].Held())
    && (w.rows[i].Signed() && w.rows[j].Signed() ==> w.rows[i].Held() != w.rows[j].Held())
  }

  /** Signed queued rows are a prefix of the queue with increasing nonces, and
      no two rows ever held the same nonce. */
  ghost predicate Ordered(w: World) {
    forall i: nat, j: nat :: i < j < |w.rows| ==> InOrder(w, i, j)
  }

  /** A nonce past every nonce held or finished on, for a row with no unsigned row before it. */
  ghost predicate NextInLine(w: World, i: nat, nonce: nat) {
    && (forall j :: 0 <= j < |w.rows| && w.rows[j].Signed() ==> w.rows[j].Held() < nonce)
    && forall j :: 0 <= j < i && Waits(w, j) ==> w.rows[j].Signed()
  }

  predicate HeldBy(rows: seq<Row>, n: int) {
    exists r <- rows :: r.Signed() && r.Held() == n
  }

  /** The nonce before `nonce` is used or held, so nothing at `nonce` waits for a missing one. */
  predicate NoGap(rows: seq<Row>, used: nat, nonce: nat) {
    nonce <= used || HeldBy(rows, nonce - 1)
  }

  /** The nonce a row is first signed at. */
  ghost predicate Fits(w: World, i: nat, nonce: nat) {
    NextInLine(w, i, nonce) && NoGap(w.rows, |w.mined|, nonce)
  }

  /** No row waiting behind one of `ids` holds a signed attempt. */
  ghost predicate NoneSignedBehind(w: World, ids: set<nat>) {
    forall i <- ids, j: nat :: i < j && Waits(w, j) ==> !w.rows[j].Signed()
  }

  /** The acts that keep the order. */
  ghost predicate Orderly(w: World, act: Act)
    requires Enabled(w, act)
  {
    match act
    case Attempt(i, v, _) => w.rows[i].Signed() || Fits(w, i, v.nonce)
    case Requeue(ids, _) => NoneSignedBehind(w, ids)
    case Erase(i) => NoneSignedBehind(w, {i})
    case _ => true
  }

  lemma KeepsInOrder(w: World, act: Act, i: nat, j: nat)
    requires Ordered(w) && Enabled(w, act) && Orderly(w, act)
    requires i < j < |Apply(w, act).rows|
    ensures InOrder(Apply(w, act), i, j)
  {
    if j < |w.rows| {
      assert InOrder(w, i, j);
    }
  }

  lemma KeepsOrdered(w: World, act: Act)
    requires Ordered(w) && Enabled(w, act) && Orderly(w, act)
    ensures Ordered(Apply(w, act))
  {
    forall i: nat, j: nat | i < j < |Apply(w, act).rows| ensures InOrder(Apply(w, act), i, j) {
      KeepsInOrder(w, act, i, j);
    }
  }

  /** Requeueing keeps the order exactly when no row behind a requeued one holds a signed attempt. */
  lemma RequeueKeepsOrderIff(w: World, ids: set<nat>, at: int)
    requires Ordered(w) && Enabled(w, Requeue(ids, at))
    ensures Ordered(Apply(w, Requeue(ids, at))) <==> NoneSignedBehind(w, ids)
  {
    var act := Requeue(ids, at);
    var w' := Apply(w, act);
    if NoneSignedBehind(w, ids) {
      KeepsOrdered(w, act);
    } else {
      var i, j: nat :| i in ids && i < j && Waits(w, j) && w.rows[j].Signed();
      assert !InOrder(w', i, j);
    }
  }

  ghost predicate OrderlyRun(w: World, acts: seq<Act>)
    requires Allowed(w, acts)
  {
    acts == [] || (OrderlyRun(w, acts[..|acts| - 1]) && Orderly(Run(w, acts[..|acts| - 1]), acts[|acts| - 1]))
  }

  lemma {:induction false} OrderedRun(w: World, acts: seq<Act>)
    requires Inv(w) && Ordered(w) && Allowed(w, acts) && OrderlyRun(w, acts)
    ensures Ordered(Run(w, acts))
  {
    if acts != [] {
      var front := acts[..|acts| - 1];
      OrderedRun(w, front);
      InvRun(w, front);
      KeepsOrdered(Run(w, front), acts[|acts| - 1]);
    }
  }

  // ---- No gaps ----

  /** Every nonce below one that is out is used or out as well. */
  ghost predicate Dense(w: World) {
    forall i: nat :: Waits(w, i) && w.rows[i].Signed() ==> NoGap(w.rows, |w.mined|, w.rows[i].Held())
  }

  /** A nonce stays held, but for that of an erased attempt. */
  lemma StaysHeld(w: World, act: Act, n: int)
    requires Enabled(w, act) && HeldBy(w.rows, n) && (act.Erase? ==> w.rows[act.row].Held() != n)
    ensures HeldBy(Apply(w, act).rows, n)
  {
    var r :| r in w.rows && r.Signed() && r.Held() == n;
    var j: nat :| j < |w.rows| && w.rows[j] == r;
    var r' := Apply(w, act).rows[j];
    assert r'.Signed() && r'.Held() == n && r' in Apply(w, act).rows;
  }

  lemma KeepsDense(w: World, act: Act)
    requires Ordered(w) && Dense(w) && Enabled(w, act) && Orderly(w, act)
    ensures Dense(Apply(w, act))
  {
    var w2 := Apply(w, act);
    forall i: nat | Waits(w2, i) && w2.rows[i].Signed() ensures NoGap(w2.rows, |w2.mined|, w2.rows[i].Held()) {
      KeepsNoGap(w, act, i);
    }
  }

  lemma KeepsNoGap(w: World, act: Act, i: nat)
    requires Ordered(w) && Dense(w) && Enabled(w, act) && Orderly(w, act)
    requires Waits(Apply(w, act), i) && Apply(w, act).rows[i].Signed()
    ensures NoGap(Apply(w, act).rows, |Apply(w, act).mined|, Apply(w, act).rows[i].Held())
  {
    SignedBefore(w, act, i);
    var h := Apply(w, act).rows[i].Held();
    assert NoGap(w.rows, |w.mined|, h);
    if h > |w.mined| {
      if act.Erase? {
        ErasesTheLast(w, act.row, i);
      }
      StaysHeld(w, act, h - 1);
    }
    hide Ordered, Orderly, Dense;
  }

  /** The row was signed at that nonce before, or is just now, where it fits. */
  lemma SignedBefore(w: World, act: Act, i: nat)
    requires Enabled(w, act) && Orderly(w, act) && Dense(w) && Waits(Apply(w, act), i) && Apply(w, act).rows[i].Signed()
    ensures NoGap(w.rows, |w.mined|, Apply(w, act).rows[i].Held())
    ensures act.Erase? ==> Waits(w, i) && w.rows[i].Signed() && i != act.row && Apply(w, act).rows[i] == w.rows[i]
    ensures |w.mined| <= |Apply(w, act).mined|
  {
    if i < |w.rows| && Waits(w, i) && w.rows[i].Signed() {
      assert NoGap(w.rows, |w.mined|, w.rows[i].Held());
    }
  }

  lemma ErasesTheLast(w: World, e: nat, i: nat)
    requires Ordered(w) && Waits(w, e) && w.rows[e].Signed() && NoneSignedBehind(w, {e})
    requires Waits(w, i) && w.rows[i].Signed() && i != e
    ensures w.rows[i].Held() < w.rows[e].Held()
  {
    assert e in {e};
    assert InOrder(w, i, e);
  }

  lemma {:induction false} DenseRun(w: World, acts: seq<Act>)
    requires Inv(w) && Ordered(w) && Dense(w) && Allowed(w, acts) && OrderlyRun(w, acts)
    ensures Dense(Run(w, acts))
  {
    if acts != [] {
      var front := acts[..|acts| - 1];
      DenseRun(w, front);
      OrderedRun(w, front);
      KeepsDense(Run(w, front), acts[|acts| - 1]);
    }
  }

  /** In order, what is out is consecutive from the next nonce of the chain: every
      nonce between that and a signed queued row's is held by a queued row. */
  lemma {:induction false} OutIsConsecutive(w: World, acts: seq<Act>, i: nat, n: nat)
    requires Inv(w) && Ordered(w) && Dense(w) && Allowed(w, acts) && OrderlyRun(w, acts)
    requires Waits(Run(w, acts), i) && Run(w, acts).rows[i].Signed()
    requires |Run(w, acts).mined| <= n <= Run(w, acts).rows[i].Held()
    ensures exists j: nat :: Waits(Run(w, acts), j) && Run(w, acts).rows[j].Signed() && Run(w, acts).rows[j].Held() == n
    decreases Run(w, acts).rows[i].Held()
  {
    DenseRun(w, acts);
    InvRun(w, acts);
    var end := Run(w, acts);
    var h := end.rows[i].Held();
    if n < h {
      var r :| r in end.rows && r.Signed() && r.Held() == h - 1;
      var j: nat :| j < |end.rows| && end.rows[j] == r;
      if !Waits(end, j) {
        SettledIsUsed(end, j);
      }
      OutIsConsecutive(w, acts, j, n);
    }
  }

  lemma SettledIsUsed(w: World, j: nat)
    requires Inv(w) && j < |w.rows| && Settled(w.rows[j])
    ensures w.rows[j].Held() < |w.mined|
  {
    assert Truthful(w, j);
    if w.rows[j].status != Failed {
      assert w.rows[j].txHash.value in w.rows[j].attempts;
    }
  }

  lemma HeldOnce(w: World, i: nat, j: nat)
    requires Ordered(w) && i < |w.rows| && j < |w.rows|
    requires w.rows[i].Signed() && w.rows[j].Signed() && w.rows[i].Held() == w.rows[j].Held()
    ensures i == j
  {
    assert i < j ==> InOrder(w, i, j);
    assert j < i ==> InOrder(w, j, i);
  }

  lemma MinedHolds(w: World, n: nat)
    requires Inv(w) && n < |w.mined| && w.mined[n].Ours?
    ensures var i := w.mined[n].version.row;
            i < |w.rows| && w.rows[i].Signed() && w.rows[i].Held() == n
  {
    var v := w.mined[n].version;
    assert v in w.rows[v.row].attempts;
  }

  /** In order, a row loses its nonce only to a tx this account did not send
      through the queue. */
  lemma LostOnlyToForeign(w: World, acts: seq<Act>, i: nat)
    requires Inv(w) && Ordered(w) && Allowed(w, acts) && OrderlyRun(w, acts)
    requires i < |Run(w, acts).rows|
    requires var r := Run(w, acts).rows[i]; r.status == Failed && r.Signed()
    ensures var end := Run(w, acts);
            end.rows[i].Held() < |end.mined| && end.mined[end.rows[i].Held()] == Foreign
  {
    OrderedRun(w, acts);
    InvRun(w, acts);
    var end := Run(w, acts);
    assert Truthful(end, i);
    var n := end.rows[i].Held();
    if end.mined[n].Ours? {
      MinedHolds(end, n);
      HeldOnce(end, i, end.mined[n].version.row);
    }
  }
}
