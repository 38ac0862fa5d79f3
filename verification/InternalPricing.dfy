/** The fill loop of src/services/swap/internal_pipeline.py's `_price`: swaps priced
    in one round are filled from the LP's balance in each output token, oldest
    first, as long as it lasts. */
module InternalPricing {
  import opened Tables

  datatype Candidate = Candidate(token: nat, price: nat)

  datatype Outcome = Filled | Short | Deferred

  /** What is left of `token` before candidate `n`: nothing is known until a balance
      read succeeds, at the first candidate that needs it. */
  function Left(cands: seq<Candidate>, replies: seq<Option<int>>, n: nat, token: nat): Option<int>
    requires n <= |cands| == |replies|
  {
    if n == 0 then None
    else
      var before := Left(cands, replies, n - 1, token);
      var c := cands[n - 1];
      if c.token != token then before
      else
        var known := if before == None then replies[n - 1] else before;
        if known.Some? && known.value >= c.price then Some(known.value - c.price) else known
  }

  /** What becomes of candidate `i`. */
  function Decided(cands: seq<Candidate>, replies: seq<Option<int>>, i: nat): Outcome
    requires i < |cands| == |replies|
  {
    var before := Left(cands, replies, i, cands[i].token);
    var known := if before == None then replies[i] else before;
    if known == None then Deferred else if known.value < cands[i].price then Short else Filled
  }

  /** The loop, with its map of what each token has left. */
  method Price(cands: seq<Candidate>, replies: seq<Option<int>>) returns (outcomes: seq<Outcome>)
    requires |replies| == |cands|
    ensures |outcomes| == |cands|
    ensures forall i :: 0 <= i < |cands| ==> outcomes[i] == Decided(cands, replies, i)
  {
    var available: map<nat, int> := map[];
    outcomes := [];
    for i := 0 to |cands|
      invariant |outcomes| == i
      invariant forall j :: 0 <= j < i ==> outcomes[j] == Decided(cands, replies, j)
      invariant forall t: nat :: Left(cands, replies, i, t) == if t in available then Some(available[t]) else None
    {
      var token, price := cands[i].token, cands[i].price;
      if token !in available {
        if replies[i] == None {
          outcomes := outcomes + [Deferred];
          continue;
        }
        available := available[token := replies[i].value];
      }
      if available[token] < price {
        outcomes := outcomes + [Short];
        continue;
      }
      available := available[token := available[token] - price];
      outcomes := outcomes + [Filled];
    }
  }

  /** What the first `n` candidates take of `token`. */
  function Taken(cands: seq<Candidate>, replies: seq<Option<int>>, n: nat, token: nat): nat
    requires n <= |cands| == |replies|
  {
    if n == 0 then 0
    else
      Taken(cands, replies, n - 1, token)
      + if cands[n - 1].token == token && Decided(cands, replies, n - 1) == Filled then cands[n - 1].price else 0
  }

  /** The balance a round works from: the first read of the token that succeeds. */
  function Read(cands: seq<Candidate>, replies: seq<Option<int>>, n: nat, token: nat): Option<int>
    requires n <= |cands| == |replies|
  {
    if n == 0 then None
    else if Read(cands, replies, n - 1, token).Some? || cands[n - 1].token != token then
      Read(cands, replies, n - 1, token)
    else replies[n - 1]
  }

  /** A round never fills more of a token than the LP's balance in it, and what it
      fills plus what is left is exactly that balance. */
  lemma {:induction false} NeverOversells(cands: seq<Candidate>, replies: seq<Option<int>>, n: nat, token: nat)
    requires n <= |cands| == |replies|
    ensures Left(cands, replies, n, token).Some? <==> Read(cands, replies, n, token).Some?
    ensures match Read(cands, replies, n, token)
            case None => Taken(cands, replies, n, token) == 0
            case Some(balance) =>
              && Taken(cands, replies, n, token) + Left(cands, replies, n, token).value == balance
              && (Taken(cands, replies, n, token) == 0 || Left(cands, replies, n, token).value >= 0)
  {
    if n > 0 {
      NeverOversells(cands, replies, n - 1, token);
    }
  }
}
