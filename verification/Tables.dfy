/** What the queues' tables share. */
module Tables {

  datatype Option<T> = None | Some(value: T)

  /** Ids from `first` on of the oldest rows that satisfy `p`, at most `limit`. */
  function FirstWhere<T>(rows: seq<T>, p: T -> bool, first: nat, limit: nat): (ids: seq<nat>)
    requires first <= |rows|
    ensures forall k :: 0 <= k < |ids| ==> first <= ids[k] < |rows| && p(rows[ids[k]])
    ensures forall k, m :: 0 <= k < m < |ids| ==> ids[k] < ids[m]
    ensures forall k :: 0 <= k < |ids| ==> first + k <= ids[k]
    ensures |ids| <= limit
    decreases |rows| - first
  {
    if first == |rows| || limit == 0 then []
    else if p(rows[first]) then [first] + FirstWhere(rows, p, first + 1, limit - 1)
    else FirstWhere(rows, p, first + 1, limit)
  }

  /** None is passed over: a row that satisfies `p` is taken, or behind a full batch. */
  lemma {:induction false} FirstWhereSkipsNone<T>(rows: seq<T>, p: T -> bool, first: nat, limit: nat, j: nat)
    requires first <= j < |rows| && p(rows[j])
    ensures var ids := FirstWhere(rows, p, first, limit);
            j in ids || (|ids| == limit && forall i <- ids :: i < j)
    decreases |rows| - first
  {
    if limit > 0 {
      if !p(rows[first]) {
        FirstWhereSkipsNone(rows, p, first + 1, limit, j);
      } else if j != first {
        FirstWhereSkipsNone(rows, p, first + 1, limit - 1, j);
      }
    }
  }

  /** All the rows that satisfy `p`. */
  function AllWhere<T>(rows: seq<T>, p: T -> bool): (ids: seq<nat>)
    ensures forall k :: 0 <= k < |ids| ==> ids[k] < |rows| && p(rows[ids[k]])
    ensures forall k, m :: 0 <= k < m < |ids| ==> ids[k] < ids[m]
  {
    FirstWhere(rows, p, 0, |rows|)
  }

  lemma AllWhereSkipsNone<T>(rows: seq<T>, p: T -> bool, j: nat)
    requires j < |rows| && p(rows[j])
    ensures j in AllWhere(rows, p)
  {
    FirstWhereSkipsNone(rows, p, 0, |rows|, j);
    var ids := AllWhere(rows, p);
    assert ids != [] ==> ids[|ids| - 1] in ids;
  }

  /** One past the highest nonce among the rows that have one. */
  function NextAfter<T(!new)>(rows: seq<T>, nonce: T -> Option<nat>): (next: nat)
    ensures forall r <- rows :: nonce(r).Some? ==> nonce(r).value < next
    ensures next == 0 || exists i: nat :: i < |rows| && nonce(rows[i]) == Some((next - 1) as nat)
  {
    if rows == [] then 0
    else
      var front, last := rows[..|rows| - 1], rows[|rows| - 1];
      var before := NextAfter(front, nonce);
      assert forall i: nat :: i < |front| ==> front[i] == rows[i];
      assert forall r <- rows :: r == last || r in front;
      if nonce(last).Some? && before <= nonce(last).value then nonce(last).value + 1 else before
  }
}
