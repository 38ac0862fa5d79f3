/** Balances replayed from a user's history and read back as step functions:
    src/services/portfolio/reconstruction.py and the StepSeries of
    src/services/portfolio/valuation.py. */
module PortfolioReplay {
  import opened Tables
  import opened TimeSeries

  type TokenId = nat

  datatype Kind =
    | Deposit | Withdraw
    | TransferBalanceIn | TransferBalanceOut
    | TransferFromLockIn | TransferFromLockOut
    | CreateLock | ModifyLock | UnlockLock
    | Unhandled

  /** `toSelf` says whether the entry's counterparty is the history's owner. */
  datatype Entry = Entry(kind: Kind, at: int, token: Option<TokenId>, amount: Option<int>, toSelf: bool)

  datatype Buckets = Buckets(available: int, locked: int)

  const ZERO := Buckets(0, 0)

  function Plus(a: Buckets, b: Buckets): Buckets {
    Buckets(a.available + b.available, a.locked + b.locked)
  }

  /** `_effect`: the multipliers of an entry's amount on the two buckets. */
  function Effect(e: Entry): Option<Buckets> {
    match e.kind
    case Deposit => Some(Buckets(1, 0))
    case Withdraw => Some(if e.toSelf then Buckets(-1, 0) else Buckets(0, -1))
    case TransferBalanceIn => Some(Buckets(1, 0))
    case TransferBalanceOut => Some(Buckets(-1, 0))
    case TransferFromLockIn => Some(Buckets(1, 0))
    case TransferFromLockOut => Some(if e.toSelf then Buckets(1, -1) else Buckets(0, -1))
    case CreateLock => Some(Buckets(-1, 1))
    case ModifyLock => Some(Buckets(-1, 1))
    case UnlockLock => Some(Buckets(1, -1))
    case Unhandled => None
  }

  predicate Replayed(e: Entry) {
    Effect(e).Some? && e.token.Some? && e.amount.Some?
  }

  function Move(e: Entry): Stamped<Buckets>
    requires Replayed(e)
  {
    var m := Effect(e).value;
    Stamped(e.at, Buckets(m.available * e.amount.value, m.locked * e.amount.value))
  }

  /** What the entries of `token` at or before `ts` add up to, in whatever order they come. */
  function SumEffects(entries: seq<Entry>, token: TokenId, ts: int): Buckets {
    if entries == [] then ZERO
    else
      var e, rest := entries[|entries| - 1], SumEffects(entries[..|entries| - 1], token, ts);
      if Replayed(e) && e.token.value == token && e.at <= ts then Plus(rest, Move(e).value) else rest
  }

  function SumMoves(moves: seq<Stamped<Buckets>>, ts: int): Buckets {
    if moves == [] then ZERO
    else
      var m, rest := moves[|moves| - 1], SumMoves(moves[..|moves| - 1], ts);
      if m.at <= ts then Plus(rest, m.value) else rest
  }

  /** The step value of a series: nothing before its first point. */
  function StepAt(points: seq<Stamped<Buckets>>, ts: int): Buckets {
    var n := UpTo(points, ts);
    if n == 0 then ZERO else points[n - 1].value
  }

  // ---- Sorting does not change a sum ----

  lemma {:induction false} InsertSum(moves: seq<Stamped<Buckets>>, x: Stamped<Buckets>, ts: int)
    ensures SumMoves(Insert(moves, x), ts) == SumMoves(moves + [x], ts)
  {
    var all := moves + [x];
    assert all[..|all| - 1] == moves;
    if moves != [] && moves[|moves| - 1].at > x.at {
      var front, last := moves[..|moves| - 1], moves[|moves| - 1];
      InsertSum(front, x, ts);
      var placed := Insert(front, x);
      assert (placed + [last])[..|placed|] == placed;
      assert (front + [x])[..|front|] == front;
    }
  }

  lemma {:induction false} SortSum(moves: seq<Stamped<Buckets>>, ts: int)
    ensures SumMoves(SortByTime(moves), ts) == SumMoves(moves, ts)
  {
    if moves != [] {
      var front, last := moves[..|moves| - 1], moves[|moves| - 1];
      SortSum(front, ts);
      InsertSum(SortByTime(front), last, ts);
      var sorted := SortByTime(front);
      assert (sorted + [last])[..|sorted|] == sorted;
    }
  }

  /** A stable sort leaves an ordered series alone. */
  lemma {:induction false} SortOrdered<T>(s: seq<Stamped<T>>)
    requires Ordered(s)
    ensures SortByTime(s) == s
  {
    if s != [] {
      SortOrdered(s[..|s| - 1]);
      assert s == s[..|s| - 1] + [s[|s| - 1]];
    }
  }

  // ---- The replay ----

  /** One token's replay: a running total with one point per distinct time. */
  method ReplayToken(moves: seq<Stamped<Buckets>>) returns (points: seq<Stamped<Buckets>>)
    requires Ordered(moves)
    ensures StrictlyOrdered(points)
    ensures forall ts :: StepAt(points, ts) == SumMoves(moves, ts)
  {
    points := [];
    var available, locked := 0, 0;
    for i := 0 to |moves|
      invariant Running(moves, i, points, Buckets(available, locked))
    {
      var m := moves[i];
      ghost var was, before := points, Buckets(available, locked);
      available := available + m.value.available;
      locked := locked + m.value.locked;
      var point := Stamped(m.at, Buckets(available, locked));
      if points != [] && points[|points| - 1].at == m.at {
        points := points[|points| - 1 := point];
      } else {
        points := points + [point];
      }
      RunningStep(moves, i, was, before, points);
    }
    assert moves[..|moves|] == moves;
    forall ts ensures StepAt(points, ts) == SumMoves(moves, ts) {
      RunningAt(moves, |moves|, points, Buckets(available, locked), ts);
    }
  }

  /** After the first `i` moves: `total` is their sum, and the points read it back at any time. */
  ghost predicate Running(moves: seq<Stamped<Buckets>>, i: nat, points: seq<Stamped<Buckets>>, total: Buckets) {
    && i <= |moves| && StrictlyOrdered(points)
    && (i == 0 <==> points == []) && (i == 0 ==> total == ZERO)
    && (i > 0 ==> points[|points| - 1] == Stamped(moves[i - 1].at, total))
    && forall ts :: StepAt(points, ts) == SumMoves(moves[..i], ts)
  }

  lemma {:induction false} RunningAt(moves: seq<Stamped<Buckets>>, i: nat, points: seq<Stamped<Buckets>>,
                                     total: Buckets, ts: int)
    requires Running(moves, i, points, total)
    ensures StepAt(points, ts) == SumMoves(moves[..i], ts)
  {
  }

  lemma {:induction false} AllCounted(moves: seq<Stamped<Buckets>>, ts: int, later: int)
    requires ts <= later && forall m <- moves :: m.at <= ts
    ensures SumMoves(moves, ts) == SumMoves(moves, later)
  {
    if moves != [] {
      assert moves[|moves| - 1] in moves;
      assert forall m <- moves[..|moves| - 1] :: m in moves;
      AllCounted(moves[..|moves| - 1], ts, later);
    }
  }

  lemma {:induction false} RunningStep(moves: seq<Stamped<Buckets>>, i: nat, was: seq<Stamped<Buckets>>,
                                       before: Buckets, points: seq<Stamped<Buckets>>)
    requires Ordered(moves) && i < |moves| && Running(moves, i, was, before)
    requires var point := Stamped(moves[i].at, Plus(before, moves[i].value));
             points == if was != [] && was[|was| - 1].at == moves[i].at then was[|was| - 1 := point] else was + [point]
    ensures Running(moves, i + 1, points, Plus(before, moves[i].value))
  {
    hide StepAt, SumMoves;
    forall ts ensures StepAt(points, ts) == SumMoves(moves[..i + 1], ts) {
      if ts < moves[i].at {
        StepBefore(moves, i, was, before, points, ts);
      } else {
        StepFrom(moves, i, was, before, points, ts);
      }
    }
  }

  lemma {:induction false} StepBefore(moves: seq<Stamped<Buckets>>, i: nat, was: seq<Stamped<Buckets>>,
                                      before: Buckets, points: seq<Stamped<Buckets>>, ts: int)
    requires i < |moves| && Running(moves, i, was, before) && ts < moves[i].at
    requires |was| <= |points| && StrictlyOrdered(points) && points != [] && points[|points| - 1].at == moves[i].at
    requires forall k :: 0 <= k < |was| ==>
               points[k].at == was[k].at && (was[k].at < moves[i].at ==> points[k] == was[k])
    requires |was| < |points| ==> |points| == |was| + 1
    ensures StepAt(points, ts) == SumMoves(moves[..i + 1], ts)
  {
    assert moves[..i + 1][..i] == moves[..i];
    RunningAt(moves, i, was, before, ts);
    var n := UpTo(was, ts);
    assert forall k :: 0 <= k < n ==> was[k].at < moves[i].at;
    UpToUnique(points, ts, n);
  }

  lemma {:induction false} StepFrom(moves: seq<Stamped<Buckets>>, i: nat, was: seq<Stamped<Buckets>>,
                                    before: Buckets, points: seq<Stamped<Buckets>>, ts: int)
    requires Ordered(moves) && i < |moves| && Running(moves, i, was, before) && ts >= moves[i].at
    requires StrictlyOrdered(points) && points != []
    requires points[|points| - 1] == Stamped(moves[i].at, Plus(before, moves[i].value))
    ensures StepAt(points, ts) == SumMoves(moves[..i + 1], ts)
  {
    assert moves[..i + 1][..i] == moves[..i];
    RunningAt(moves, i, was, before, ts);
    UpToUnique(points, ts, |points|);
    UpToUnique(was, ts, |was|);
  }

  /** The moves of one token, in entry order. */
  function MovesOf(entries: seq<Entry>, token: TokenId): seq<Stamped<Buckets>> {
    if entries == [] then []
    else
      var e, rest := entries[|entries| - 1], MovesOf(entries[..|entries| - 1], token);
      if Replayed(e) && e.token.value == token then rest + [Move(e)] else rest
  }

  lemma {:induction false} MovesSum(entries: seq<Entry>, token: TokenId, ts: int)
    ensures SumMoves(MovesOf(entries, token), ts) == SumEffects(entries, token, ts)
  {
    if entries != [] {
      var front := entries[..|entries| - 1];
      MovesSum(front, token, ts);
      var e, rest := entries[|entries| - 1], MovesOf(front, token);
      if Replayed(e) && e.token.value == token {
        assert (rest + [Move(e)])[..|rest|] == rest;
      }
    }
  }

  function TokensOf(entries: seq<Entry>): set<TokenId> {
    set e <- entries | Replayed(e) :: e.token.value
  }

  lemma {:induction false} NoMoves(entries: seq<Entry>, token: TokenId)
    requires token !in TokensOf(entries)
    ensures MovesOf(entries, token) == []
  {
    if entries != [] {
      assert entries[|entries| - 1] in entries;
      assert forall e <- entries[..|entries| - 1] :: e in entries;
      NoMoves(entries[..|entries| - 1], token);
    }
  }

  /** The grouping loop of `replay_history`. */
  method GroupByToken(entries: seq<Entry>) returns (byToken: map<TokenId, seq<Stamped<Buckets>>>)
    ensures byToken.Keys == TokensOf(entries)
    ensures forall token <- byToken :: byToken[token] == MovesOf(entries, token)
  {
    byToken := map[];
    for i := 0 to |entries|
      invariant byToken.Keys == TokensOf(entries[..i])
      invariant forall token <- byToken :: byToken[token] == MovesOf(entries[..i], token)
    {
      var e := entries[i];
      assert entries[..i + 1] == entries[..i] + [e];
      assert entries[..i + 1][..i] == entries[..i];
      if !Replayed(e) {
        assert TokensOf(entries[..i + 1]) == TokensOf(entries[..i]);
        continue;
      }
      var token := e.token.value;
      assert TokensOf(entries[..i + 1]) == TokensOf(entries[..i]) + {token};
      if token !in byToken {
        NoMoves(entries[..i], token);
        byToken := byToken[token := []];
      }
      byToken := byToken[token := byToken[token] + [Move(e)]];
    }
    assert entries[..|entries|] == entries;
  }

  /** `replay_history`. */
  method ReplayHistory(entries: seq<Entry>) returns (series: map<TokenId, seq<Stamped<Buckets>>>)
    ensures series.Keys == TokensOf(entries)
    ensures forall token <- series :: StrictlyOrdered(series[token])
    ensures forall token <- series, ts :: StepAt(series[token], ts) == SumEffects(entries, token, ts)
  {
    var byToken := GroupByToken(entries);
    series := map[];
    var rest := byToken.Keys;
    while rest != {}
      invariant rest <= byToken.Keys && series.Keys == byToken.Keys - rest
      invariant forall token <- series :: StrictlyOrdered(series[token])
      invariant forall token <- series, ts :: StepAt(series[token], ts) == SumEffects(entries, token, ts)
      decreases |rest|
    {
      var token :| token in rest;
      rest := rest - {token};
      var points := ReplayToken(SortByTime(byToken[token]));
      forall ts ensures StepAt(points, ts) == SumEffects(entries, token, ts) {
        SortSum(byToken[token], ts);
        MovesSum(entries, token, ts);
      }
      series := series[token := points];
    }
  }

  // ---- Reading a series back ----

  datatype StepSeries = StepSeries(points: seq<Stamped<int>>, extendBackward: bool)

  /** `StepSeries.from_points`. */
  function FromPoints(points: seq<Stamped<int>>, extendBackward: bool): StepSeries {
    StepSeries(SortByTime(points), extendBackward)
  }

  /** What `value_at` reads; the method below finds it by bisection. */
  function Reading(s: StepSeries, ts: int): int {
    var n := UpTo(s.points, ts);
    if n == 0 then if s.extendBackward && s.points != [] then s.points[0].value else 0
    else s.points[n - 1].value
  }

  /** `StepSeries.value_at`. */
  method ValueAt(s: StepSeries, ts: int) returns (value: int)
    requires Ordered(s.points)
    ensures value == Reading(s, ts)
  {
    var index := BisectRight(s.points, ts);
    if index == 0 {
      if s.extendBackward && s.points != [] {
        return s.points[0].value;
      }
      return 0;
    }
    return s.points[index - 1].value;
  }

  /** `_price_e8_at`: a scan, flat before the first sample, None without any. */
  method PriceE8At(points: seq<Stamped<int>>, ts: int) returns (price: Option<int>)
    ensures price == None <==> points == []
    ensures price.Some? && Ordered(points) ==> price.value == Reading(FromPoints(points, true), ts)
  {
    if points == [] {
      return None;
    }
    if Ordered(points) {
      SortOrdered(points);
    }
    var n := Scan(points, ts);
    return Some(points[if n == 0 then 0 else n - 1].value);
  }

  function Available(points: seq<Stamped<Buckets>>): seq<Stamped<int>> {
    seq(|points|, i requires 0 <= i < |points| => Stamped(points[i].at, points[i].value.available))
  }

  function Locked(points: seq<Stamped<Buckets>>): seq<Stamped<int>> {
    seq(|points|, i requires 0 <= i < |points| => Stamped(points[i].at, points[i].value.locked))
  }

  /** The two balance series that valuation builds from a replay read, at any
      time, what the history's entries up to then add up to. */
  lemma {:induction false} ReadBack(entries: seq<Entry>, token: TokenId, points: seq<Stamped<Buckets>>, ts: int)
    requires StrictlyOrdered(points)
    requires StepAt(points, ts) == SumEffects(entries, token, ts)
    ensures Reading(FromPoints(Available(points), false), ts) == SumEffects(entries, token, ts).available
    ensures Reading(FromPoints(Locked(points), false), ts) == SumEffects(entries, token, ts).locked
  {
    ReadOne(points, Available(points), ts);
    ReadOne(points, Locked(points), ts);
  }

  lemma {:induction false} ReadOne(points: seq<Stamped<Buckets>>, balances: seq<Stamped<int>>, ts: int)
    requires StrictlyOrdered(points) && |balances| == |points|
    requires forall i :: 0 <= i < |points| ==> balances[i].at == points[i].at
    ensures UpTo(points, ts) == 0 ==> Reading(FromPoints(balances, false), ts) == 0
    ensures UpTo(points, ts) > 0 ==> Reading(FromPoints(balances, false), ts) == balances[UpTo(points, ts) - 1].value
  {
    SortOrdered(balances);
    UpToUnique(balances, ts, UpTo(points, ts));
  }

  /** Moves between the two buckets of the same user. */
  predicate LockMove(e: Entry) {
    e.kind in {CreateLock, ModifyLock, UnlockLock} || (e.kind == TransferFromLockOut && e.toSelf)
  }

  function WithoutLockMoves(entries: seq<Entry>): seq<Entry> {
    if entries == [] then []
    else
      var e, rest := entries[|entries| - 1], WithoutLockMoves(entries[..|entries| - 1]);
      if LockMove(e) then rest else rest + [e]
  }

  /** Lock moves never change what a user has in all. */
  lemma {:induction false} LockMovesConserve(entries: seq<Entry>, token: TokenId, ts: int)
    ensures var with, without := SumEffects(entries, token, ts), SumEffects(WithoutLockMoves(entries), token, ts);
            with.available + with.locked == without.available + without.locked
  {
    if entries != [] {
      var front, e := entries[..|entries| - 1], entries[|entries| - 1];
      LockMovesConserve(front, token, ts);
      var rest := WithoutLockMoves(front);
      assert (rest + [e])[..|rest|] == rest;
    }
  }
}
