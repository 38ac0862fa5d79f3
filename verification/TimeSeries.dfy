/** Series indexed by time: the stable sort and the step lookups shared by the
    rate, price and balance histories. */
module TimeSeries {

  /** A value observed at a time. */
  datatype Stamped<+T> = Stamped(at: int, value: T)

  ghost predicate Ordered<T>(s: seq<Stamped<T>>) {
    forall i, j :: 0 <= i < j < |s| ==> s[i].at <= s[j].at
  }

  ghost predicate StrictlyOrdered<T>(s: seq<Stamped<T>>) {
    forall i, j :: 0 <= i < j < |s| ==> s[i].at < s[j].at
  }

  /** `x` behind everything in `s` that is not later than it. */
  function Insert<T>(s: seq<Stamped<T>>, x: Stamped<T>): seq<Stamped<T>> {
    if s == [] || s[|s| - 1].at <= x.at then s + [x]
    else Insert(s[..|s| - 1], x) + [s[|s| - 1]]
  }

  lemma {:induction false} InsertKeeps<T>(s: seq<Stamped<T>>, x: Stamped<T>)
    ensures multiset(Insert(s, x)) == multiset(s) + multiset{x}
    ensures forall y <- Insert(s, x) :: y == x || y in s
  {
    if s != [] && s[|s| - 1].at > x.at {
      InsertKeeps(s[..|s| - 1], x);
      assert s == s[..|s| - 1] + [s[|s| - 1]];
    }
  }

  lemma {:induction false} InsertOrders<T>(s: seq<Stamped<T>>, x: Stamped<T>)
    requires Ordered(s)
    ensures Ordered(Insert(s, x))
  {
    if s != [] && s[|s| - 1].at > x.at {
      var front := s[..|s| - 1];
      InsertOrders(front, x);
      InsertKeeps(front, x);
      forall y <- Insert(front, x) ensures y.at <= s[|s| - 1].at {
        assert y == x || y in front;
      }
      var placed := Insert(front, x);
      assert forall i :: 0 <= i < |placed| ==> placed[i] in placed;
    }
  }

  /** The stable sort by time. */
  function SortByTime<T>(s: seq<Stamped<T>>): (r: seq<Stamped<T>>)
    ensures multiset(r) == multiset(s) && Ordered(r)
  {
    if s == [] then []
    else
      assert s == s[..|s| - 1] + [s[|s| - 1]];
      InsertKeeps(SortByTime(s[..|s| - 1]), s[|s| - 1]);
      InsertOrders(SortByTime(s[..|s| - 1]), s[|s| - 1]);
      Insert(SortByTime(s[..|s| - 1]), s[|s| - 1])
  }

  /** How many leading entries are at or before `ts`. */
  function UpTo<T>(s: seq<Stamped<T>>, ts: int): (n: nat)
    ensures n <= |s|
    ensures forall i :: 0 <= i < n ==> s[i].at <= ts
    ensures n < |s| ==> s[n].at > ts
  {
    if s == [] || s[0].at > ts then 0 else 1 + UpTo(s[1..], ts)
  }

  /** In an ordered series the leading entries at or before `ts` are all of them. */
  lemma UpToIsAll<T>(s: seq<Stamped<T>>, ts: int, i: nat)
    requires Ordered(s) && i < |s|
    ensures i < UpTo(s, ts) <==> s[i].at <= ts
  {
  }

  lemma UpToUnique<T>(s: seq<Stamped<T>>, ts: int, n: nat)
    requires Ordered(s) && n <= |s|
    requires forall i :: 0 <= i < n ==> s[i].at <= ts
    requires n < |s| ==> s[n].at > ts
    ensures UpTo(s, ts) == n
  {
    if UpTo(s, ts) < n {
      UpToIsAll(s, ts, UpTo(s, ts));
    } else if n < UpTo(s, ts) {
      UpToIsAll(s, ts, n);
    }
  }

  /** The scan shared by `_rate_at`, `_apy_at` and `_price_e8_at`: it stops at
      the first entry later than `ts`. */
  method Scan<T>(s: seq<Stamped<T>>, ts: int) returns (n: nat)
    ensures n == UpTo(s, ts)
  {
    n := 0;
    while n < |s| && s[n].at <= ts
      invariant n <= |s| && UpTo(s, ts) == n + UpTo(s[n..], ts)
    {
      assert s[n..][1..] == s[n + 1..];
      n := n + 1;
    }
  }

  /** `bisect_right` over the times of an ordered series. */
  method BisectRight<T>(s: seq<Stamped<T>>, ts: int) returns (n: nat)
    requires Ordered(s)
    ensures n == UpTo(s, ts)
  {
    var low, high := 0, |s|;
    while low < high
      invariant 0 <= low <= high <= |s|
      invariant forall i :: 0 <= i < low ==> s[i].at <= ts
      invariant forall i :: high <= i < |s| ==> ts < s[i].at
    {
      var mid := (low + high) / 2;
      if ts < s[mid].at {
        high := mid;
      } else {
        low := mid + 1;
      }
    }
    UpToUnique(s, ts, low);
    return low;
  }
}
