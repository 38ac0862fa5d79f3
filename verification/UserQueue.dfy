/** One user's operations across the swap and the earn queue:
    src/services/user_queue.py, the admission of src/services/swap/executor.py and
    vault_service.py, and the claims of stage.py and worker.py. Both tables are
    one list in creation order; each query reads its own kind. */
module UserQueue {
  import opened Tables

  datatype Kind = Swap(lifi: bool) | Deposit | Withdraw

  datatype Status = Scheduled | Executing | Pending | Awaiting | Refunding | Ended

  /** `request` names the signed request: its quote or pool, and its signature. */
  datatype Op = Op(kind: Kind, user: nat, nonce: nat, request: nat, pool: nat, status: Status)

  datatype Act =
    | Admit(op: Op)
    | Claim(row: nat)
    | Advance(row: nat, status: Status)

  /** Taken off its queue and not done with the user's nonce. */
  predicate InFlight(o: Op) {
    o.status == Executing || (!o.kind.Swap? && o.status == Pending)
  }

  /** It spends the transfer nonce it was signed with, and has not yet. */
  predicate Holds(o: Op) {
    !o.kind.Withdraw? && (o.status == Scheduled || InFlight(o))
  }

  predicate Busy(ops: seq<Op>, user: nat) {
    exists o <- ops :: InFlight(o) && o.user == user
  }

  predicate NonceHeld(ops: seq<Op>, user: nat, nonce: nat) {
    exists o <- ops :: Holds(o) && o.user == user && o.nonce == nonce
  }

  predicate Waiting(o: Op) {
    o.kind.Swap? && o.status == Scheduled
  }

  /** Row `i` is its user's oldest scheduled swap. */
  predicate Oldest(ops: seq<Op>, i: nat)
    requires i < |ops|
  {
    forall j :: 0 <= j < i && Waiting(ops[j]) ==> ops[j].user != ops[i].user
  }

  /** A swap goes on to refund or end; an earn row goes back to its queue before its
      broadcast, to waiting if it is a withdrawal, to pending, or to its end. */
  predicate CanAdvance(o: Op, s: Status) {
    if o.kind.Swap? then
      (o.status == Executing && s in {Refunding, Ended}) || (o.status == Refunding && s == Ended)
    else
      || (o.status == Executing && s in {Scheduled, Pending, Ended})
      || (o.status == Executing && s == Awaiting && o.kind.Withdraw?)
      || (o.status == Pending && s == Ended)
      || (o.status == Awaiting && s == Scheduled)
  }

  predicate Enabled(ops: seq<Op>, act: Act) {
    match act
    case Admit(o) => o.status == Scheduled && (Holds(o) ==> !NonceHeld(ops, o.user, o.nonce))
    case Claim(i) =>
      i < |ops| && ops[i].status == Scheduled && !Busy(ops, ops[i].user) && (ops[i].kind.Swap? ==> Oldest(ops, i))
    case Advance(i, s) => i < |ops| && CanAdvance(ops[i], s)
  }

  function Apply(ops: seq<Op>, act: Act): seq<Op>
    requires Enabled(ops, act)
  {
    match act
    case Admit(o) => ops + [o]
    case Claim(i) => ops[i := ops[i].(status := Executing)]
    case Advance(i, s) => ops[i := ops[i].(status := s)]
  }

  // ---- What every state keeps ----

  ghost predicate OneInFlight(ops: seq<Op>) {
    forall i, j :: 0 <= i < |ops| && 0 <= j < |ops| && InFlight(ops[i]) && InFlight(ops[j]) ==>
      (ops[i].user == ops[j].user ==> i == j)
  }

  predicate BothHold(a: Op, b: Op) {
    Holds(a) && Holds(b) && a.user == b.user && a.nonce == b.nonce
  }

  ghost predicate OneHolder(ops: seq<Op>) {
    forall i, j :: 0 <= i < |ops| && 0 <= j < |ops| && BothHold(ops[i], ops[j]) ==> i == j
  }

  ghost predicate Inv(ops: seq<Op>) {
    OneInFlight(ops) && OneHolder(ops) && forall o <- ops :: o.status == Awaiting ==> o.kind.Withdraw?
  }

  lemma KeepsInv(ops: seq<Op>, act: Act)
    requires Inv(ops) && Enabled(ops, act)
    ensures Inv(Apply(ops, act))
  {
  }

  ghost predicate Allowed(ops: seq<Op>, acts: seq<Act>)
    decreases |acts|, 0
  {
    acts == [] || (Allowed(ops, acts[..|acts| - 1]) && Enabled(Run(ops, acts[..|acts| - 1]), acts[|acts| - 1]))
  }

  ghost function Run(ops: seq<Op>, acts: seq<Act>): seq<Op>
    requires Allowed(ops, acts)
    decreases |acts|, 1
  {
    if acts == [] then ops else Apply(Run(ops, acts[..|acts| - 1]), acts[|acts| - 1])
  }

  lemma {:induction false} InvRun(ops: seq<Op>, acts: seq<Act>)
    requires Inv(ops) && Allowed(ops, acts)
    ensures Inv(Run(ops, acts))
  {
    if acts != [] {
      InvRun(ops, acts[..|acts| - 1]);
      KeepsInv(Run(ops, acts[..|acts| - 1]), acts[|acts| - 1]);
    }
  }

  lemma {:induction false} RunOne(ops: seq<Op>, acts: seq<Act>, act: Act)
    requires Allowed(ops, acts) && Enabled(Run(ops, acts), act)
    ensures Allowed(ops, acts + [act]) && Run(ops, acts + [act]) == Apply(Run(ops, acts), act)
  {
    assert (acts + [act])[..|acts|] == acts;
  }

  /** Over every run of both queues from empty tables: each user has at most one
      operation in flight, and no two queued or in-flight swaps and deposits of a
      user hold one transfer nonce. */
  lemma OnePerUser(acts: seq<Act>, i: nat, j: nat)
    requires Allowed([], acts) && i < |Run([], acts)| && j < |Run([], acts)| && i != j
    requires Run([], acts)[i].user == Run([], acts)[j].user
    ensures !(InFlight(Run([], acts)[i]) && InFlight(Run([], acts)[j]))
    ensures !(Holds(Run([], acts)[i]) && Holds(Run([], acts)[j]) && Run([], acts)[i].nonce == Run([], acts)[j].nonce)
  {
    InvRun([], acts);
  }

  /** A swap still scheduled has every younger swap of its user scheduled behind it:
      swaps leave the queue oldest first, whatever their venue. */
  ghost predicate InOrder(ops: seq<Op>) {
    forall i, j :: 0 <= i < j < |ops| && Waiting(ops[i]) && ops[j].kind.Swap? && ops[j].user == ops[i].user ==>
      Waiting(ops[j])
  }

  lemma KeepsInOrder(ops: seq<Op>, act: Act)
    requires InOrder(ops) && Enabled(ops, act)
    ensures InOrder(Apply(ops, act))
  {
  }

  lemma {:induction false} OldestFirst(acts: seq<Act>)
    requires Allowed([], acts)
    ensures InOrder(Run([], acts))
  {
    if acts != [] {
      OldestFirst(acts[..|acts| - 1]);
      KeepsInOrder(Run([], acts[..|acts| - 1]), acts[|acts| - 1]);
    }
  }

  datatype Result = Queued(id: nat) | Known(id: nat) | NonceTaken(id: nat) | Refused

  function Same(a: Op, b: Op): bool {
    a.kind == b.kind && a.user == b.user && a.nonce == b.nonce && a.request == b.request && a.pool == b.pool
  }

  /** Row `i` may be claimed: its user's oldest scheduled swap, with nothing of theirs in flight. */
  predicate Next(ops: seq<Op>, i: nat, lifi: bool)
    requires i < |ops|
  {
    ops[i].kind == Swap(lifi) && ops[i].status == Scheduled && !Busy(ops, ops[i].user) && Oldest(ops, i)
  }

  /** A request not made before, at a nonce no queued swap or deposit holds. */
  ghost predicate Fresh(ops: seq<Op>, o: Op) {
    (forall p <- ops :: !Same(p, o)) && (Holds(o) ==> !NonceHeld(ops, o.user, o.nonce))
  }

  predicate Ready(o: Op, busyPools: set<nat>) {
    !o.kind.Swap? && o.status == Scheduled && o.pool !in busyPools
  }

  /** The oldest earn rows a pass looks at. */
  function ReadyRows(ops: seq<Op>, busyPools: set<nat>, limit: nat): (ids: seq<nat>)
    ensures forall k :: 0 <= k < |ids| ==> ids[k] < |ops| && Ready(ops[ids[k]], busyPools)
    ensures forall k, m :: 0 <= k < m < |ids| ==> ids[k] < ids[m]
  {
    FirstWhere(ops, (o: Op) => Ready(o, busyPools), 0, limit)
  }

  class UserQueue {
    var ops: seq<Op>
    ghost const start: seq<Op>
    ghost var trace: seq<Act>

    ghost predicate Valid()
      reads this
    {
      Inv(start) && Allowed(start, trace) && ops == Run(start, trace)
    }

    constructor (ops: seq<Op>)
      requires Inv(ops)
      ensures Valid() && this.ops == ops && trace == []
    {
      this.ops, start, trace := ops, ops, [];
    }

    method Do(act: Act)
      requires Valid() && Enabled(ops, act)
      modifies this
      ensures Valid() && ops == Apply(old(ops), act) && trace == old(trace) + [act]
    {
      RunOne(start, trace, act);
      hide Allowed, Run, Inv;
      ops := Apply(ops, act);
      trace := trace + [act];
    }

    /** `users_with_inflight_work`. */
    method UsersInFlight() returns (users: set<nat>)
      ensures forall u :: u in users <==> Busy(ops, u)
    {
      users := set o | o in ops && InFlight(o) :: o.user;
    }

    /** `schedule_swap` and `_schedule`: the same signed request returns the row it
        made, and a nonce a queued swap or deposit holds is refused. */
    method Schedule(o: Op, acceptable: bool) returns (r: Result)
      requires Valid() && o.status == Scheduled
      modifies this
      ensures Valid() && old(trace) <= trace
      ensures r.Queued? ==> ops == old(ops) + [o]
      ensures r.Queued? <==> acceptable && Fresh(old(ops), o)
      ensures !r.Queued? ==> ops == old(ops)
      ensures r.Known? ==> r.id < |ops| && Same(ops[r.id], o)
      ensures r.NonceTaken? ==> r.id < |ops| && BothHold(ops[r.id], o)
      ensures (exists p <- old(ops) :: Same(p, o)) ==> r.Known?
    {
      for i := 0 to |ops|
        invariant Valid() && ops == old(ops) && trace == old(trace)
        invariant forall j :: 0 <= j < i ==> !Same(ops[j], o)
      {
        if Same(ops[i], o) {
          return Known(i);
        }
      }
      if !acceptable {
        return Refused;
      }
      if Holds(o) {
        for i := 0 to |ops|
          invariant Valid() && ops == old(ops) && trace == old(trace)
          invariant forall j :: 0 <= j < i ==> !BothHold(ops[j], o)
        {
          if BothHold(ops[i], o) {
            return NonceTaken(i);
          }
        }
      }
      r := Queued(|ops|);
      Do(Admit(o));
    }

    /** `claim`: up to `limit` of the oldest scheduled swaps of a venue, each its
        user's oldest, with nothing of theirs in flight. */
    method ClaimSwaps(lifi: bool, limit: nat) returns (claimed: seq<nat>)
      requires Valid()
      modifies this
      ensures Valid() && old(trace) <= trace && |claimed| <= limit
      ensures Took(old(ops), |old(ops)|, claimed, lifi)
                || (|claimed| == limit && exists n :: 0 <= n <= |old(ops)| && Took(old(ops), n, claimed, lifi))
      ensures Marked(old(ops), ops, claimed)
    {
      claimed := [];
      if limit == 0 {
        assert Took(ops, 0, claimed, lifi);
        return;
      }
      var users := UsersInFlight();
      assert Took(ops, 0, claimed, lifi) && Marked(ops, ops, claimed) && Seen(ops, 0, users);
      hide Allowed, Run, Inv, Next, Took, Marked, Seen, Enabled;
      ghost var n := |ops|;
      for i := 0 to |ops|
        invariant Valid() && old(trace) <= trace && |claimed| < limit && |ops| == n
        invariant Took(old(ops), i, claimed, lifi) && Marked(old(ops), ops, claimed)
        invariant Seen(old(ops), i, users)
      {
        var swap := ops[i];
        NextIs(old(ops), i, users, lifi);
        TookNext(old(ops), i, claimed, lifi);
        MarkedNext(old(ops), ops, claimed, i);
        if swap.kind.Swap? && swap.status == Scheduled && swap.user !in users {
          users := users + {swap.user};
          if swap.kind == Swap(lifi) {
            StillFree(old(ops), ops, claimed, i, lifi);
            ClaimNext(i);
            claimed := claimed + [i];
            if |claimed| == limit {
              return;
            }
          }
        }
      }
    }

    /** The earn worker's `_claim`: of the oldest `limit` scheduled rows outside
        `busyPools`, those whose users have nothing in flight, one each. */
    method ClaimEarn(busyPools: set<nat>, limit: nat) returns (claimed: seq<nat>)
      requires Valid()
      modifies this
      ensures Valid() && old(trace) <= trace && |ops| == |old(ops)|
      ensures forall i <- claimed :: i in ReadyRows(old(ops), busyPools, limit) && !Busy(old(ops), old(ops)[i].user)
      ensures forall i <- ReadyRows(old(ops), busyPools, limit) ::
                || i in claimed || Busy(old(ops), old(ops)[i].user)
                || exists c <- claimed :: old(ops)[c].user == old(ops)[i].user
      ensures Marked(old(ops), ops, claimed)
    {
      var ids := ReadyRows(ops, busyPools, limit);
      claimed := [];
      var seen := UsersInFlight();
      assert Marked(ops, ops, claimed) && OneEach(ops, ids, 0, claimed, seen);
      hide Busy, Allowed, Run, Inv, Enabled, OneEach, Marked;
      ghost var n := |ops|;
      for k := 0 to |ids|
        invariant Valid() && old(trace) <= trace && |ops| == n
        invariant OneEach(old(ops), ids, k, claimed, seen) && Marked(old(ops), ops, claimed)
      {
        var i := ids[k];
        OneMoreEach(old(ops), ids, k, claimed, seen);
        MarkedNext(old(ops), ops, claimed, i);
        EarnFree(old(ops), ops, ids, k, claimed, seen, busyPools);
        if ops[i].user !in seen {
          ClaimNext(i);
          claimed := claimed + [i];
          seen := seen + {ops[i].user};
        }
      }
      OneEachIs(old(ops), ids, claimed, seen);
    }

    method ClaimNext(i: nat)
      requires Valid() && Enabled(ops, Claim(i))
      modifies this
      ensures Valid() && trace == old(trace) + [Claim(i)] && ops == old(ops)[i := old(ops)[i].(status := Executing)]
    {
      Do(Claim(i));
    }
  }

  /** What a claim of the first `k` of `ids` has taken, one row per user seen. */
  ghost predicate OneEach(ops: seq<Op>, ids: seq<nat>, k: nat, claimed: seq<nat>, seen: set<nat>)
    requires k <= |ids|
  {
    && (forall i <- claimed :: i < |ops| && i in ids[..k] && !Busy(ops, ops[i].user))
    && (forall u :: u in seen <==> Busy(ops, u) || exists c <- claimed :: ops[c].user == u)
    && (forall j :: 0 <= j < k ==> ids[j] < |ops| && ops[ids[j]].user in seen)
  }

  lemma OneMoreEach(ops: seq<Op>, ids: seq<nat>, k: nat, claimed: seq<nat>, seen: set<nat>)
    requires k < |ids| && ids[k] < |ops| && OneEach(ops, ids, k, claimed, seen)
    ensures var i := ids[k];
            if ops[i].user in seen then OneEach(ops, ids, k + 1, claimed, seen)
            else OneEach(ops, ids, k + 1, claimed + [i], seen + {ops[i].user})
  {
    hide Busy;
    var i := ids[k];
    assert i in ids && ids[..k + 1] == ids[..k] + [i];
    if ops[i].user !in seen {
      var more := claimed + [i];
      forall u ensures u in seen + {ops[i].user} <==> Busy(ops, u) || exists c <- more :: ops[c].user == u {
        if u == ops[i].user {
          assert i in more;
        } else if c :| c in claimed && ops[c].user == u {
          assert c in more;
        }
      }
    }
  }

  /** Claiming others' rows leaves the next one as it was, and free unless its user was seen. */
  lemma EarnFree(before: seq<Op>, after: seq<Op>, ids: seq<nat>, k: nat, claimed: seq<nat>, seen: set<nat>,
                 busyPools: set<nat>)
    requires k < |ids| && ids[k] < |before| == |after| && Ready(before[ids[k]], busyPools)
    requires forall j :: 0 <= j < k ==> ids[j] < ids[k]
    requires OneEach(before, ids, k, claimed, seen) && Marked(before, after, claimed)
    ensures var i := ids[k];
            && after[i].user == before[i].user
            && (after[i].user !in seen ==> Enabled(after, Claim(i)))
  {
    var i := ids[k];
    assert i !in claimed;
    if before[i].user !in seen {
      forall j: nat | j < |after| && InFlight(after[j]) ensures after[j].user != before[i].user {
        assert before[j] in before;
      }
    }
  }

  lemma OneEachIs(ops: seq<Op>, ids: seq<nat>, claimed: seq<nat>, seen: set<nat>)
    requires OneEach(ops, ids, |ids|, claimed, seen)
    ensures forall i <- claimed :: i in ids && i < |ops| && !Busy(ops, ops[i].user)
    ensures forall i <- ids :: i < |ops| &&
              (i in claimed || Busy(ops, ops[i].user) || exists c <- claimed :: ops[c].user == ops[i].user)
  {
    hide Busy;
    assert ids[..|ids|] == ids;
  }

  /** The users a claim passes over from row `i` on. */
  ghost predicate Seen(ops: seq<Op>, i: nat, users: set<nat>)
    requires i <= |ops|
  {
    forall u :: u in users <==> Busy(ops, u) || exists j :: 0 <= j < i && Waiting(ops[j]) && ops[j].user == u
  }

  /** A claim of a venue took exactly the rows it may take among the first `n`, oldest first. */
  ghost predicate Took(ops: seq<Op>, n: nat, claimed: seq<nat>, lifi: bool)
    requires n <= |ops|
  {
    && (forall k, m :: 0 <= k < m < |claimed| ==> claimed[k] < claimed[m])
    && (forall c <- claimed :: c < n)
    && forall i: nat :: i < n ==> (i in claimed <==> Next(ops, i, lifi))
  }

  ghost predicate Marked(before: seq<Op>, after: seq<Op>, claimed: seq<nat>) {
    && |after| == |before|
    && forall i: nat :: i < |before| ==> after[i] == if i in claimed then before[i].(status := Executing) else before[i]
  }

  lemma NextIs(ops: seq<Op>, i: nat, users: set<nat>, lifi: bool)
    requires i < |ops| && Seen(ops, i, users)
    ensures Next(ops, i, lifi) <==> ops[i].kind == Swap(lifi) && ops[i].status == Scheduled && ops[i].user !in users
    ensures Seen(ops, i + 1, if Waiting(ops[i]) then users + {ops[i].user} else users)
    ensures ops[i].user in users ==> users + {ops[i].user} == users
  {
  }

  lemma TookNext(ops: seq<Op>, i: nat, claimed: seq<nat>, lifi: bool)
    requires i < |ops| && Took(ops, i, claimed, lifi)
    ensures Took(ops, i + 1, if Next(ops, i, lifi) then claimed + [i] else claimed, lifi)
    ensures i !in claimed
  {
    hide Next;
    var more := claimed + [i];
    forall k, m | 0 <= k < m < |more| ensures more[k] < more[m] {
      assert more[k] == claimed[k] && claimed[k] in claimed;
    }
    assert forall j: nat :: j in more <==> j in claimed || j == i;
  }

  lemma MarkedNext(before: seq<Op>, after: seq<Op>, claimed: seq<nat>, i: nat)
    requires i < |before| && Marked(before, after, claimed)
    ensures i < |after| && (i !in claimed ==> after[i] == before[i])
    ensures Marked(before, after[i := after[i].(status := Executing)], claimed + [i])
  {
    assert forall j: nat :: j in claimed + [i] <==> j in claimed || j == i;
  }

  /** Claiming others' swaps takes nothing from the next one. */
  lemma StillFree(before: seq<Op>, after: seq<Op>, claimed: seq<nat>, i: nat, lifi: bool)
    requires i < |before| && Next(before, i, lifi) && Took(before, i, claimed, lifi) && Marked(before, after, claimed)
    ensures Enabled(after, Claim(i))
  {
    forall j: nat | j < |after| && InFlight(after[j]) ensures after[j].user != after[i].user {
      if j in claimed {
        assert Next(before, j, lifi);
      }
      assert before[j] in before;
    }
    assert Oldest(after, i);
  }
}
