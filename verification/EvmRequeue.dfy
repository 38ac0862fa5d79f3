/** Two runs in which requeueing a tx breaks the nonce order of `EvmQueue`. */
module EvmRequeue {
  import opened Tables
  import opened EvmQueue

  function Ask(owner: nat, status: Status, attempts: seq<Version>, nonce: Option<nat>, error: Error, at: int): Row {
    Row(owner, true, status, attempts, nonce, None, error, at)
  }

  function First(): Version {
    Version(0, 0, Fees(1, 1))
  }

  function Second(): Version {
    Version(1, 0, Fees(1, 1))
  }

  /** The first row was refused for gas, the second is signed at nonce 0 and out. */
  function RefusedThenSigned(): World {
    World([Ask(7, Failed, [], None, GasRefused, 0), Ask(8, Queued, [Second()], None, NoError, 0)], [], {Second()})
  }

  function FirstRequeued(): World {
    World([Ask(7, Queued, [], None, NoError, 1), Ask(8, Queued, [Second()], None, NoError, 0)], [], {Second()})
  }

  function BothSigned(reached: set<Version>, mined: seq<Entry>): World {
    World([Ask(7, Queued, [First()], None, NoError, 1), Ask(8, Queued, [Second()], None, NoError, 0)], mined, reached)
  }

  function SecondLost(): World {
    World([Ask(7, Queued, [First()], None, NoError, 1), Ask(8, Failed, [Second()], Some(0), OtherError, 1000)],
          [Ours(First(), true)], {First(), Second()})
  }

  lemma StartIsOrdered()
    ensures Inv(RefusedThenSigned()) && Ordered(RefusedThenSigned())
  {
  }

  lemma RequeueFirst()
    ensures Enabled(RefusedThenSigned(), Requeue({0}, 1))
    ensures Apply(RefusedThenSigned(), Requeue({0}, 1)) == FirstRequeued()
  {
    assert Apply(RefusedThenSigned(), Requeue({0}, 1)).rows == FirstRequeued().rows;
  }

  lemma SignFirst()
    ensures var act := Attempt(0, First(), 1);
            Enabled(FirstRequeued(), act) && Apply(FirstRequeued(), act) == BothSigned({Second()}, [])
  {
    assert FirstRequeued().rows[0].attempts + [First()] == [First()];
    assert Apply(FirstRequeued(), Attempt(0, First(), 1)).rows == BothSigned({Second()}, []).rows;
  }

  lemma MineFirst()
    ensures var w, act := BothSigned({Second()}, []), Reach(First());
            Enabled(w, act) && Apply(w, act) == BothSigned({First(), Second()}, [])
    ensures var w, act := BothSigned({First(), Second()}, []), Mine(Ours(First(), true));
            Enabled(w, act) && Apply(w, act) == BothSigned({First(), Second()}, [Ours(First(), true)])
  {
    assert {Second()} + {First()} == {First(), Second()};
    assert [] + [Ours(First(), true)] == [Ours(First(), true)];
  }

  lemma LoseSecond()
    ensures var w, act := BothSigned({First(), Second()}, [Ours(First(), true)]), Taken(1, 1000);
            Enabled(w, act) && Apply(w, act) == SecondLost()
  {
    var w, act := BothSigned({First(), Second()}, [Ours(First(), true)]), Taken(1, 1000);
    assert Apply(w, act).rows == SecondLost().rows;
  }

  /** An older row requeued ahead of a signed one takes the nonce it holds, and
      the later row loses it to this account's own tx. */
  lemma RequeueAheadReusesNonce() returns (w: World, acts: seq<Act>)
    ensures Inv(w) && Ordered(w) && Allowed(w, acts) && |Run(w, acts).rows| == 2
    ensures var end := Run(w, acts);
            && end.rows[1].status == Failed && end.rows[1].Signed()
            && MinedFor(end, end.rows[1].Held(), 0)
  {
    w, acts := RefusedThenSigned(), [];
    assert Allowed(w, acts) && Run(w, acts) == w;
    StartIsOrdered();
    RequeueFirst();
    SignFirst();
    MineFirst();
    LoseSecond();
    hide Inv, Ordered, Allowed, Run, Enabled, Apply, RefusedThenSigned, FirstRequeued, BothSigned;
    acts := Then(w, acts, Requeue({0}, 1));
    acts := Then(w, acts, Attempt(0, First(), 1));
    acts := Then(w, acts, Reach(First()));
    acts := Then(w, acts, Mine(Ours(First(), true)));
    acts := Then(w, acts, Taken(1, 1000));
  }

  lemma Then(w: World, acts: seq<Act>, act: Act) returns (more: seq<Act>)
    requires Allowed(w, acts) && Enabled(Run(w, acts), act)
    ensures more == acts + [act] && Allowed(w, more) && Run(w, more) == Apply(Run(w, acts), act)
  {
    RunOne(w, acts, act);
    more := acts + [act];
  }

  /** The second row is queued, and nothing is signed. */
  function RefusedThenQueued(): World {
    World([Ask(7, Failed, [], None, GasRefused, 0), Ask(8, Queued, [], None, NoError, 0)], [], {})
  }

  function BothQueued(): World {
    World([Ask(7, Queued, [], None, NoError, 1), Ask(8, Queued, [], None, NoError, 0)], [], {})
  }

  function SecondSigned(): World {
    World([Ask(7, Queued, [], None, NoError, 1), Ask(8, Queued, [Second()], None, NoError, 1)], [], {})
  }

  function SameNonce(): World {
    World([Ask(7, Queued, [First()], None, NoError, 121), Ask(8, Queued, [Second()], None, NoError, 1)], [], {})
  }

  lemma QueuedIsOrdered()
    ensures Inv(RefusedThenQueued()) && Ordered(RefusedThenQueued()) && NoneSignedBehind(RefusedThenQueued(), {0})
  {
  }

  lemma RequeueOnly()
    ensures Enabled(RefusedThenQueued(), Requeue({0}, 1)) && Apply(RefusedThenQueued(), Requeue({0}, 1)) == BothQueued()
  {
    assert Apply(RefusedThenQueued(), Requeue({0}, 1)).rows == BothQueued().rows;
  }

  lemma SignSecondThenFirst()
    ensures var act := Attempt(1, Second(), 1); Enabled(BothQueued(), act) && Apply(BothQueued(), act) == SecondSigned()
    ensures var act := Attempt(0, First(), 121);
            Enabled(SecondSigned(), act) && Apply(SecondSigned(), act) == SameNonce()
  {
    assert BothQueued().rows[1].attempts + [Second()] == [Second()];
    assert SecondSigned().rows[0].attempts + [First()] == [First()];
    assert Apply(BothQueued(), Attempt(1, Second(), 1)).rows == SecondSigned().rows;
    assert Apply(SecondSigned(), Attempt(0, First(), 121)).rows == SameNonce().rows;
  }

  /** The same happens when the requeue comes while the later row is picked but
      not yet signed, though no row behind holds a signed attempt then. */
  lemma RequeueMidBatchReusesNonce() returns (w: World, acts: seq<Act>)
    ensures Inv(w) && Ordered(w) && Allowed(w, acts) && |acts| == 3 && |Run(w, acts).rows| == 2
    ensures acts[0].Requeue? && NoneSignedBehind(w, acts[0].ids)
    ensures var end := Run(w, acts);
            end.rows[0].Signed() && end.rows[1].Signed() && end.rows[0].Held() == end.rows[1].Held()
  {
    w, acts := RefusedThenQueued(), [];
    assert Allowed(w, acts) && Run(w, acts) == w;
    QueuedIsOrdered();
    RequeueOnly();
    SignSecondThenFirst();
    hide Inv, Ordered, Allowed, Run, Enabled, Apply, RefusedThenQueued, BothQueued, SecondSigned, NoneSignedBehind;
    acts := Then(w, acts, Requeue({0}, 1));
    acts := Then(w, acts, Attempt(1, Second(), 1));
    acts := Then(w, acts, Attempt(0, First(), 121));
  }
}
