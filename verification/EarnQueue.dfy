/** The earn queue of src/services/earn/worker.py and vault_service.py: its rows,
    where its one worker is, and what reached the chain. A crash loses only where
    the worker was. */
module EarnQueue {
  import opened Tables

  datatype Status = Scheduled | Executing | Pending | Awaiting | Completed | Failed | Undeployed

  /** `authNonce` and `authSignature` are what the row is signed with, `inputNonce`
      and `inputSignature` what its caller sent. `sent` counts its broadcasts and
      `landed` is its receipt, once the chain has one. */
  datatype Row = Row(deposit: bool, amount: nat, inputNonce: nat, inputSignature: nat, authNonce: nat,
                     authSignature: nat,
                     status: Status, hash: bool, settled: bool, sent: nat, landed: Option<bool>)
  {
    predicate Callers() {
      authNonce == inputNonce && authSignature == inputSignature
    }
  }

  /** Where the worker is with the row it took: taken, recorded as pending, broadcast, hash recorded. */
  datatype Stage = Taken | Recorded | Broadcast | Hashed

  datatype Work = Idle | At(row: nat, stage: Stage)

  datatype World = World(rows: seq<Row>, work: Work)

  datatype Act =
    | Schedule(request: Row)
    | Crash
    | Land(row: nat, ok: bool)
    | Take(row: nat)
    | Record(row: nat, nonce: nat, signature: nat)
    | Send(row: nat)
    | SaveHash(row: nat)
    | Await(row: nat)
    | Release(row: nat)
    | Fail(row: nat)
    | Finish(row: nat)
    | Leave(row: nat)
    | Requeue(row: nat)
    | GiveUp(row: nat)
    | Settle(row: nat)
    | Mark(row: nat)
    | Redeployed(row: nat)

  predicate IsNew(r: Row) {
    r.status == Scheduled && r.Callers() && !r.hash && !r.settled && r.sent == 0 && r.landed == None
  }

  predicate IsAt(w: World, i: nat, stage: Stage) {
    i < |w.rows| && w.work == At(i, stage)
  }

  predicate Resting(w: World, i: nat) {
    i < |w.rows| && w.work == Idle
  }

  predicate Enabled(w: World, act: Act) {
    match act
    case Schedule(r) => IsNew(r)
    case Crash => true
    case Land(i, _) => i < |w.rows| && w.rows[i].sent > 0 && w.rows[i].landed == None
    case Take(i) => Resting(w, i) && w.rows[i].status == Scheduled
    // A deposit is recorded with the caller's own nonce and signature, a withdrawal with the pool's.
    case Record(i, nonce, signature) =>
      IsAt(w, i, Taken) && (w.rows[i].deposit ==> nonce == w.rows[i].authNonce && signature == w.rows[i].authSignature)
    case Send(i) => IsAt(w, i, Recorded)
    case SaveHash(i) => IsAt(w, i, Broadcast)
    case Await(i) => IsAt(w, i, Taken) && w.rows[i].status == Executing && !w.rows[i].deposit
    case Release(i) => Resting(w, i) && w.rows[i].status == Awaiting
    case Fail(i) =>
      || (IsAt(w, i, Taken) && w.rows[i].status == Executing)
      || IsAt(w, i, Recorded) || IsAt(w, i, Broadcast)
      || (IsAt(w, i, Hashed) && w.rows[i].landed == Some(false))
    case Finish(i) => IsAt(w, i, Hashed) && w.rows[i].landed == Some(true)
    case Leave(i) => IsAt(w, i, Hashed)
    case Requeue(i) => Resting(w, i) && w.rows[i].status == Executing && !w.rows[i].hash
    case GiveUp(i) => Resting(w, i) && w.rows[i].status == Pending && !w.rows[i].hash
    case Settle(i) => Resting(w, i) && w.rows[i].hash && w.rows[i].landed.Some?
    case Mark(i) => Resting(w, i) && w.rows[i].hash && w.rows[i].landed.Some?
    case Redeployed(i) => i < |w.rows| && w.rows[i].status == Undeployed
  }

  function WithStatus(w: World, i: nat, status: Status, work: Work): World
    requires i < |w.rows|
  {
    World(w.rows[i := w.rows[i].(status := status)], work)
  }

  /** What a receipt makes of a row: a deposit found landed later is not deployed yet. */
  function Outcome(r: Row): Status
    requires r.landed.Some?
  {
    if !r.landed.value then Failed
    else if r.status in {Completed, Undeployed} then r.status
    else if r.deposit then Undeployed
    else Completed
  }

  function Apply(w: World, act: Act): World
    requires Enabled(w, act)
  {
    match act
    case Schedule(r) => w.(rows := w.rows + [r])
    case Crash => w.(work := Idle)
    case Land(i, ok) => w.(rows := w.rows[i := w.rows[i].(landed := Some(ok))])
    case Take(i) => WithStatus(w, i, Executing, At(i, Taken))
    case Record(i, nonce, signature) =>
      World(w.rows[i := w.rows[i].(status := Pending, authNonce := nonce, authSignature := signature)], At(i, Recorded))
    case Send(i) => World(w.rows[i := w.rows[i].(sent := w.rows[i].sent + 1)], At(i, Broadcast))
    case SaveHash(i) => World(w.rows[i := w.rows[i].(hash := true)], At(i, Hashed))
    case Await(i) => WithStatus(w, i, Awaiting, Idle)
    case Release(i) => WithStatus(w, i, Scheduled, Idle)
    case Fail(i) => WithStatus(w, i, Failed, Idle)
    case Finish(i) => WithStatus(w, i, Completed, Idle)
    case Leave(i) => w.(work := Idle)
    case Requeue(i) => WithStatus(w, i, Scheduled, Idle)
    case GiveUp(i) => WithStatus(w, i, Failed, Idle)
    case Settle(i) => WithStatus(w, i, Outcome(w.rows[i]), Idle)
    case Mark(i) => w.(rows := w.rows[i := w.rows[i].(settled := true)])
    case Redeployed(i) => WithStatus(w, i, Completed, w.work)
  }

  // ---- What every state keeps ----

  predicate Before(s: Status) {
    s in {Scheduled, Executing, Awaiting}
  }

  /** Nothing went out before the pending write, and one broadcast at most after it. */
  ghost predicate RowOk(w: World, i: nat)
    requires i < |w.rows|
  {
    var r := w.rows[i];
    && r.sent <= 1
    && (Before(r.status) ==> r.sent == 0 && r.Callers() && !r.hash)
    && (r.deposit ==> r.Callers())
    && (r.status == Awaiting ==> !r.deposit)
    && (r.hash || r.landed.Some? ==> r.sent == 1)
    && (r.status in {Completed, Undeployed} ==> r.hash && r.landed == Some(true))
    && (r.status == Undeployed ==> r.deposit)
    && (w.work == At(i, Taken) ==> r.status == Executing)
    && (w.work == At(i, Recorded) ==> r.status == Pending && r.sent == 0 && !r.hash)
    && (w.work == At(i, Broadcast) ==> r.status == Pending && r.sent == 1 && !r.hash)
    && (w.work == At(i, Hashed) ==> r.status == Pending && r.sent == 1 && r.hash)
  }

  ghost predicate Inv(w: World) {
    (w.work.At? ==> w.work.row < |w.rows|) && forall i: nat :: i < |w.rows| ==> RowOk(w, i)
  }

  lemma KeepsRow(w: World, act: Act, i: nat)
    requires Enabled(w, act) && i < |w.rows| && RowOk(w, i)
    requires (w.work.At? && w.work.row < |w.rows| ==> RowOk(w, w.work.row))
    ensures i < |Apply(w, act).rows| && RowOk(Apply(w, act), i)
  {
  }

  lemma KeepsInv(w: World, act: Act)
    requires Inv(w) && Enabled(w, act)
    ensures Inv(Apply(w, act))
  {
    var w2 := Apply(w, act);
    forall i: nat | i < |w2.rows| ensures RowOk(w2, i) {
      if i < |w.rows| {
        KeepsRow(w, act, i);
      } else {
        NewRow(w, act);
      }
    }
  }

  lemma NewRow(w: World, act: Act)
    requires Inv(w) && Enabled(w, act) && act.Schedule?
    ensures RowOk(Apply(w, act), |w.rows|)
  {
  }

  // ---- Runs ----

  ghost predicate Allowed(w: World, acts: seq<Act>)
    decreases |acts|, 0
  {
    acts == [] || (Allowed(w, acts[..|acts| - 1]) && Enabled(Run(w, acts[..|acts| - 1]), acts[|acts| - 1]))
  }

  ghost function Run(w: World, acts: seq<Act>): World
    requires Allowed(w, acts)
    decreases |acts|, 1
  {
    if acts == [] then w else Apply(Run(w, acts[..|acts| - 1]), acts[|acts| - 1])
  }

  lemma {:induction false} InvRun(w: World, acts: seq<Act>)
    requires Inv(w) && Allowed(w, acts)
    ensures Inv(Run(w, acts))
  {
    if acts != [] {
      InvRun(w, acts[..|acts| - 1]);
      KeepsInv(Run(w, acts[..|acts| - 1]), acts[|acts| - 1]);
    }
  }

  lemma {:induction false} RunOne(w: World, acts: seq<Act>, act: Act)
    requires Allowed(w, acts) && Enabled(Run(w, acts), act)
    ensures Allowed(w, acts + [act]) && Run(w, acts + [act]) == Apply(Run(w, acts), act)
  {
    assert (acts + [act])[..|acts|] == acts;
  }

  const EMPTY := World([], Idle)

  /** Wherever crashes fall: an operation is broadcast at most once; a row in the
      queue, taken or waiting still carries its caller's own nonce and signature
      and never went out; and completed or undeployed means its tx landed. */
  lemma BroadcastOnce(acts: seq<Act>, i: nat)
    requires Allowed(EMPTY, acts) && i < |Run(EMPTY, acts).rows|
    ensures var r := Run(EMPTY, acts).rows[i];
            && r.sent <= 1
            && (r.status in {Scheduled, Executing, Awaiting} ==> r.sent == 0 && r.Callers())
            && (r.status in {Completed, Undeployed} ==> r.sent == 1 && r.landed == Some(true))
  {
    InvRun(EMPTY, acts);
    assert RowOk(Run(EMPTY, acts), i);
  }

  /** Once recorded as pending a row never goes back to its queue. */
  lemma PastStep(w: World, act: Act, i: nat)
    requires Inv(w) && Enabled(w, act) && i < |w.rows| && !Before(w.rows[i].status)
    ensures i < |Apply(w, act).rows| && !Before(Apply(w, act).rows[i].status)
  {
    assert RowOk(w, i);
    if w.work.At? {
      assert RowOk(w, w.work.row);
    }
  }

  lemma {:induction false} NeverReplayed(w: World, acts: seq<Act>, i: nat)
    requires Inv(w) && Allowed(w, acts) && i < |w.rows| && !Before(w.rows[i].status)
    ensures i < |Run(w, acts).rows| && !Before(Run(w, acts).rows[i].status)
  {
    if acts != [] {
      NeverReplayed(w, acts[..|acts| - 1], i);
      InvRun(w, acts[..|acts| - 1]);
      PastStep(Run(w, acts[..|acts| - 1]), acts[|acts| - 1], i);
    }
  }
}
