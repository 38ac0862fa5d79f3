/** One pool's money, as deploy_reclaim and the payouts of
    src/services/earn/vault_service.py move it between the pool account, a bridge,
    the earn account and the strategy. */
module DeployReclaim {
  import opened Tables

  /** `idle` is on the pool account, `transit` in a bridge, `stranded` raw on the
      earn account, `supplied` in the protocol. `waiting` is owed to withdrawals not
      paid yet, `paying` to the one submitted. `asked` holds the bridge requests
      accounting may still debit; they share the account's withdrawal nonce, so it
      debits one at most. `held` is the process's memory of what it asked for, and
      the one field a restart loses. */
  datatype Pool = Pool(idle: nat, transit: nat, stranded: nat, supplied: nat, held: Option<nat>, asked: set<nat>,
                       waiting: nat, paying: Option<nat>)
  {
    function Deployed(): nat {
      supplied + stranded
    }

    function Assets(): nat {
      idle + transit + Deployed()
    }

    function Held(): nat {
      if held.Some? then held.value else 0
    }

    function Paying(): nat {
      if paying.Some? then paying.value else 0
    }
  }

  datatype Buffer = Buffer(min: nat, bps: nat)

  /** `_buffer_target`: the larger of a floor and a share of the pool's assets. */
  function Target(b: Buffer, assets: nat): nat {
    if b.min > assets * b.bps / 10_000 then b.min else assets * b.bps / 10_000
  }

  /** `Lapse` is a request refused or never sent, `Restart` the loss of memory. */
  datatype Act =
    | Arrive(amount: nat)
    | Request(amount: nat)
    | Drop(amount: nat)
    | Admit(amount: nat)
    | Pay
    | Revert
    | Deploy(spare: nat)
    | Debit(amount: nat)
    | Land
    | Lapse
    | Supply
    | EndDeploy
    | Restart
    | Reclaim(amount: nat)

  /** What a round may decide on: nothing unread, nothing seen in a bridge. */
  predicate Settled(p: Pool) {
    p.paying == None && p.transit == 0
  }

  function Spare(p: Pool, b: Buffer): int {
    p.idle - p.waiting - Target(b, p.Deployed() + p.idle)
  }

  /** What a reclaim takes out: what withdrawals are short of, if the strategy has it. */
  function Shortfall(p: Pool): int {
    if p.waiting - p.idle < p.Deployed() then p.waiting - p.idle else p.Deployed()
  }

  predicate Enabled(p: Pool, b: Buffer, act: Act) {
    match act
    case Arrive(_) => true
    case Request(_) => true
    case Drop(x) => x <= p.waiting
    // `payout_capacity` leaves the held amount alone.
    case Admit(x) => p.paying == None && x <= p.waiting && x <= p.idle - p.Held()
    case Pay => p.paying.Some? && p.paying.value <= p.idle
    case Revert => p.paying.Some?
    case Deploy(spare) => Settled(p) && p.held == None && spare == Spare(p, b)
    case Debit(x) => x in p.asked && x <= p.idle
    case Land => p.transit > 0
    case Lapse => true
    case Supply => p.stranded > 0
    case EndDeploy => p.held.Some?
    case Restart => true
    case Reclaim(x) => Settled(p) && Spare(p, b) < 0 && 0 < x == Shortfall(p)
  }

  function Apply(p: Pool, b: Buffer, act: Act): Pool
    requires Enabled(p, b, act)
  {
    match act
    case Arrive(x) => p.(idle := p.idle + x)
    case Request(x) => p.(waiting := p.waiting + x)
    case Drop(x) => p.(waiting := p.waiting - x)
    case Admit(x) => p.(waiting := p.waiting - x, paying := Some(x))
    case Pay => p.(idle := p.idle - p.paying.value, paying := None)
    case Revert => p.(paying := None)
    case Deploy(spare) => p.(held := Some(spare), asked := p.asked + {spare})
    case Debit(x) => p.(idle := p.idle - x, transit := p.transit + x, asked := {})
    case Land => p.(stranded := p.stranded + p.transit, transit := 0)
    case Lapse => p.(asked := {})
    case Supply => p.(supplied := p.supplied + p.stranded, stranded := 0)
    case EndDeploy => p.(held := None)
    case Restart => p.(held := None)
    case Reclaim(x) =>
      p.(idle := p.idle + x,
         stranded := if x <= p.stranded then p.stranded - x else 0,
         supplied := if x <= p.stranded then p.supplied else p.supplied - (x - p.stranded))
  }

  ghost predicate Allowed(p: Pool, b: Buffer, acts: seq<Act>)
    decreases |acts|, 0
  {
    acts == [] || (Allowed(p, b, acts[..|acts| - 1]) && Enabled(Run(p, b, acts[..|acts| - 1]), b, acts[|acts| - 1]))
  }

  ghost function Run(p: Pool, b: Buffer, acts: seq<Act>): Pool
    requires Allowed(p, b, acts)
    decreases |acts|, 1
  {
    if acts == [] then p else Apply(Run(p, b, acts[..|acts| - 1]), b, acts[|acts| - 1])
  }

  lemma {:induction false} RunOne(p: Pool, b: Buffer, acts: seq<Act>, act: Act)
    requires Allowed(p, b, acts) && Enabled(Run(p, b, acts), b, act)
    ensures Allowed(p, b, acts + [act]) && Run(p, b, acts + [act]) == Apply(Run(p, b, acts), b, act)
  {
    assert (acts + [act])[..|acts|] == acts;
  }

  // ---- When the bridge stays funded ----

  /** The account covers the payout submitted and, with it, any request still out. */
  ghost predicate Funded(p: Pool) {
    p.idle >= p.Paying() && forall y <- p.asked :: p.idle >= y + p.Paying()
  }

  /** A payout is admitted within the balance less the bridge still out. */
  ghost predicate Careful(p: Pool, act: Act) {
    act.Admit? ==> forall y <- p.asked :: act.amount <= p.idle - y
  }

  lemma KeepsFundedIff(p: Pool, b: Buffer, act: Act)
    requires Funded(p) && Enabled(p, b, act)
    ensures Funded(Apply(p, b, act)) <==> Careful(p, act)
  {
    hide Target;
    var q := Apply(p, b, act);
    if act.Admit? {
      assert q.asked == p.asked && q.idle == p.idle && q.Paying() == act.amount;
    }
  }

  ghost predicate CarefulRun(p: Pool, b: Buffer, acts: seq<Act>)
    requires Allowed(p, b, acts)
  {
    acts == [] || (CarefulRun(p, b, acts[..|acts| - 1]) && Careful(Run(p, b, acts[..|acts| - 1]), acts[|acts| - 1]))
  }

  ghost predicate FundedRun(p: Pool, b: Buffer, acts: seq<Act>)
    requires Allowed(p, b, acts)
  {
    Funded(Run(p, b, acts)) && (acts == [] || FundedRun(p, b, acts[..|acts| - 1]))
  }

  /** The account stays funded through a run, restarts included, exactly when
      every payout in it is admitted within the balance less the bridge still out. */
  lemma {:induction false} FundedIff(p: Pool, b: Buffer, acts: seq<Act>)
    requires Funded(p) && Allowed(p, b, acts)
    ensures FundedRun(p, b, acts) <==> CarefulRun(p, b, acts)
  {
    if acts != [] {
      var front := acts[..|acts| - 1];
      FundedIff(p, b, front);
      if FundedRun(p, b, front) {
        KeepsFundedIff(Run(p, b, front), b, acts[|acts| - 1]);
      }
    }
  }

  /** The hold covers every request still out. */
  ghost predicate Covered(p: Pool) {
    forall y <- p.asked :: p.held.Some? && y <= p.held.value
  }

  /** The hold is given up only once no request is out. */
  ghost predicate Patient(p: Pool, act: Act) {
    act.Restart? || act.EndDeploy? ==> p.asked == {}
  }

  ghost predicate PatientRun(p: Pool, b: Buffer, acts: seq<Act>)
    requires Allowed(p, b, acts)
  {
    acts == [] || (PatientRun(p, b, acts[..|acts| - 1]) && Patient(Run(p, b, acts[..|acts| - 1]), acts[|acts| - 1]))
  }

  lemma KeepsCovered(p: Pool, b: Buffer, act: Act)
    requires Covered(p) && Enabled(p, b, act) && Patient(p, act)
    ensures Covered(Apply(p, b, act)) && Careful(p, act)
  {
    hide Target;
  }

  /** While no restart, and no round that finds nothing in a bridge, drops a hold
      whose request is still out, the account is always funded. */
  lemma {:induction false} AlwaysFunded(p: Pool, b: Buffer, acts: seq<Act>)
    requires Funded(p) && Covered(p) && Allowed(p, b, acts) && PatientRun(p, b, acts)
    ensures Funded(Run(p, b, acts)) && Covered(Run(p, b, acts)) && CarefulRun(p, b, acts)
  {
    if acts != [] {
      var front, act := acts[..|acts| - 1], acts[|acts| - 1];
      AlwaysFunded(p, b, front);
      KeepsCovered(Run(p, b, front), b, act);
      KeepsFundedIff(Run(p, b, front), b, act);
    }
  }

  /** Otherwise not: with the hold of an undebited bridge lost, the same balance is
      promised twice, whatever it is. */
  lemma HoldLost(lost: Act, n: nat) returns (p: Pool, b: Buffer, before: seq<Act>)
    requires lost in {Restart, EndDeploy} && n > 0
    ensures Funded(p) && before == [Deploy(n), Request(n)] && Allowed(p, b, before)
    ensures !Enabled(Run(p, b, before), b, Admit(n))
    ensures Allowed(p, b, before + [lost] + [Admit(n)])
    ensures Run(p, b, before + [lost] + [Admit(n)]) == Pool(n, 0, 0, 0, None, {n}, 0, Some(n))
    ensures !Funded(Run(p, b, before + [lost] + [Admit(n)]))
  {
    p, b := Pool(n, 0, 0, 0, None, {}, 0, None), Buffer(0, 0);
    var q, r := Pool(n, 0, 0, 0, Some(n), {n}, 0, None), Pool(n, 0, 0, 0, Some(n), {n}, n, None);
    AskStep(n, p, q, b);
    OweStep(n, q, r, b);
    LoseStep(n, r, b, lost);
    PromiseStep(n, b);
    hide Allowed, Run, Enabled, Apply, Target, Settled, Spare, Shortfall;
    before := LoseRun(n, p, q, r, b, lost);
    NotFunded(n);
  }

  lemma LoseRun(n: nat, p: Pool, q: Pool, r: Pool, b: Buffer, lost: Act) returns (before: seq<Act>)
    requires Enabled(p, b, Deploy(n)) && Apply(p, b, Deploy(n)) == q
    requires Enabled(q, b, Request(n)) && Apply(q, b, Request(n)) == r && Enabled(r, b, lost)
    requires Enabled(Apply(r, b, lost), b, Admit(n))
    ensures before == [Deploy(n), Request(n)] && Allowed(p, b, before) && Run(p, b, before) == r
    ensures Allowed(p, b, before + [lost] + [Admit(n)])
    ensures Run(p, b, before + [lost] + [Admit(n)]) == Apply(Apply(r, b, lost), b, Admit(n))
  {
    hide Allowed, Run, Bridged, Enabled, Apply, Target;
    NoActs(p, b);
    before := [];
    before := OneMore(p, b, before, Deploy(n));
    before := OneMore(p, b, before, Request(n));
    var after := OneMore(p, b, before, lost);
    after := OneMore(p, b, after, Admit(n));
  }

  lemma AskStep(n: nat, p: Pool, q: Pool, b: Buffer)
    requires p == Pool(n, 0, 0, 0, None, {}, 0, None) && q == Pool(n, 0, 0, 0, Some(n), {n}, 0, None)
    requires b == Buffer(0, 0)
    ensures Enabled(p, b, Deploy(n)) && Apply(p, b, Deploy(n)) == q
  {
    hide Target;
    SpareWithoutBuffer(p, b);
    hide Spare;
    assert p.asked + {n} == q.asked;
  }

  lemma SpareWithoutBuffer(p: Pool, b: Buffer)
    requires b.min == 0 && b.bps == 0
    ensures Spare(p, b) == p.idle - p.waiting
  {
    hide Target;
    NoBuffer(b, p.Deployed() + p.idle);
  }

  lemma OweStep(n: nat, q: Pool, r: Pool, b: Buffer)
    requires q == Pool(n, 0, 0, 0, Some(n), {n}, 0, None) && r == Pool(n, 0, 0, 0, Some(n), {n}, n, None)
    ensures Enabled(q, b, Request(n)) && Apply(q, b, Request(n)) == r && (n > 0 ==> !Enabled(r, b, Admit(n)))
  {
    hide Target;
  }

  lemma LoseStep(n: nat, r: Pool, b: Buffer, lost: Act)
    requires r == Pool(n, 0, 0, 0, Some(n), {n}, n, None) && lost in {Restart, EndDeploy}
    ensures Enabled(r, b, lost) && Apply(r, b, lost) == Pool(n, 0, 0, 0, None, {n}, n, None)
  {
    hide Target;
  }

  lemma PromiseStep(n: nat, b: Buffer)
    ensures var s := Pool(n, 0, 0, 0, None, {n}, n, None);
            Enabled(s, b, Admit(n)) && Apply(s, b, Admit(n)) == Pool(n, 0, 0, 0, None, {n}, 0, Some(n))
  {
    hide Target;
  }

  lemma NotFunded(n: nat)
    requires n > 0
    ensures !Funded(Pool(n, 0, 0, 0, None, {n}, 0, Some(n)))
  {
    assert n in Pool(n, 0, 0, 0, None, {n}, 0, Some(n)).asked;
  }

  // ---- What a decision leaves ----

  /** What a request of `spare` will still take from the account. */
  function Out(p: Pool, spare: nat): nat {
    if spare in p.asked then spare else 0
  }

  /** After a deploy of `spare`: the account less the bridge still out is what is
      owed plus `left`, and the pool's assets are `assets`. */
  ghost predicate Leaves(p: Pool, spare: nat, left: int, assets: int) {
    p.asked <= {spare} && p.idle - Out(p, spare) == p.waiting + p.Paying() + left && p.Assets() == assets
  }

  /** How an act changes what is left beyond what is owed. */
  function DriftBy(p: Pool, spare: nat, act: Act): int {
    match act
    case Arrive(x) => x
    case Request(x) => 0 - x
    case Drop(x) => x
    case Revert => p.Paying()
    case Lapse => Out(p, spare)
    case _ => 0
  }

  /** What an act brings into the pool, or takes out of it. */
  function InBy(p: Pool, act: Act): int {
    match act
    case Arrive(x) => x
    case Pay => 0 - p.Paying()
    case _ => 0
  }

  ghost function Drift(p: Pool, b: Buffer, spare: nat, acts: seq<Act>): int
    requires Allowed(p, b, acts)
  {
    if acts == [] then 0
    else Drift(p, b, spare, acts[..|acts| - 1]) + DriftBy(Run(p, b, acts[..|acts| - 1]), spare, acts[|acts| - 1])
  }

  ghost function In(p: Pool, b: Buffer, acts: seq<Act>): int
    requires Allowed(p, b, acts)
  {
    if acts == [] then 0
    else In(p, b, acts[..|acts| - 1]) + InBy(Run(p, b, acts[..|acts| - 1]), acts[|acts| - 1])
  }

  /** No decision of a round: everything else may interleave with its moves. */
  ghost predicate Undecided(acts: seq<Act>) {
    forall act <- acts :: !act.Deploy? && !act.Reclaim?
  }

  lemma KeepsLeaves(p: Pool, b: Buffer, spare: nat, act: Act, left: int, assets: int)
    requires Leaves(p, spare, left, assets) && Enabled(p, b, act) && !act.Deploy? && !act.Reclaim?
    ensures Leaves(Apply(p, b, act), spare, left + DriftBy(p, spare, act), assets + InBy(p, act))
  {
    hide Target, Spare;
  }

  lemma {:induction false} LeavesRun(p: Pool, b: Buffer, spare: nat, acts: seq<Act>, left: int, assets: int)
    requires Leaves(p, spare, left, assets) && Allowed(p, b, acts) && Undecided(acts)
    ensures Leaves(Run(p, b, acts), spare, left + Drift(p, b, spare, acts), assets + In(p, b, acts))
  {
    if acts != [] {
      var front, act := acts[..|acts| - 1], acts[|acts| - 1];
      LeavesRun(p, b, spare, front, left, assets);
      hide Leaves, Enabled, Apply;
      KeepsLeaves(Run(p, b, front), b, spare, act, left + Drift(p, b, spare, front), assets + In(p, b, front));
    }
  }

  lemma DeployStarts(p: Pool, b: Buffer, spare: nat)
    requires p.asked == {} && Enabled(p, b, Deploy(spare))
    ensures Leaves(Apply(p, b, Deploy(spare)), spare, Target(b, p.Assets()), p.Assets())
  {
    hide Target;
  }

  /** Once a deploy's bridge is through, whatever came in, was asked for, paid out
      or failed meanwhile, the account holds what is owed, the buffer of the
      decision, and the drift since; so a next round would move the drift and
      the change of the buffer, and nothing when both are nil. */
  lemma DeployLeaves(p: Pool, b: Buffer, spare: nat, acts: seq<Act>)
    requires p.asked == {} && Enabled(p, b, Deploy(spare))
    requires Allowed(Apply(p, b, Deploy(spare)), b, acts) && Undecided(acts)
    ensures var q := Apply(p, b, Deploy(spare));
            var end, drift, came := Run(q, b, acts), Drift(q, b, spare, acts), In(q, b, acts);
            && p.Assets() + came == end.Assets()
            && (end.asked == {} ==> end.idle == end.waiting + end.Paying() + Target(b, p.Assets()) + drift)
            && (end.asked == {} && Settled(end) ==>
                 Spare(end, b) == drift + Target(b, p.Assets()) - Target(b, end.Assets()))
            && (end.asked == {} && Settled(end) && drift == 0 == came ==>
                  && Spare(end, b) == 0 && end.idle == end.waiting + Target(b, end.Deployed() + end.idle)
                  && forall x: nat :: !Enabled(end, b, Reclaim(x)) && (Enabled(end, b, Deploy(x)) ==> x == 0))
  {
    var q := Apply(p, b, Deploy(spare));
    DeployStarts(p, b, spare);
    LeavesRun(q, b, spare, acts, Target(b, p.Assets()), p.Assets());
    var end, drift, came := Run(q, b, acts), Drift(q, b, spare, acts), In(q, b, acts);
    hide Run, Allowed, Drift, In, Target, Apply;
    if end.asked == {} && Settled(end) {
      assert end.Deployed() + end.idle == end.Assets();
    }
  }

  /** A reclaim leaves the account with just what withdrawals wait for, or the strategy
      empty, and the next round with nothing to move. */
  lemma ReclaimLeaves(p: Pool, b: Buffer, x: nat)
    requires Enabled(p, b, Reclaim(x))
    ensures var q := Apply(p, b, Reclaim(x));
            && q.Assets() == p.Assets() && q.waiting == p.waiting && q.idle <= q.waiting
            && (q.idle == q.waiting || q.Deployed() == 0)
            && forall y: nat :: !Enabled(q, b, Reclaim(y)) && (Enabled(q, b, Deploy(y)) ==> y == 0)
  {
    hide Target;
  }

  // ---- Deploys and reclaims do not chase each other ----

  /** No new money and no new request: payouts, failures and the deployer's own moves. */
  predicate Quiet(act: Act) {
    !act.Arrive? && !act.Request?
  }

  ghost predicate AllQuiet(acts: seq<Act>) {
    forall act <- acts :: Quiet(act)
  }

  /** The account covers everything owed, with any request still out. */
  ghost predicate Ample(p: Pool) {
    p.idle >= p.waiting + p.Paying() && forall y <- p.asked :: p.idle >= p.waiting + p.Paying() + y
  }

  lemma KeepsAmple(p: Pool, b: Buffer, act: Act)
    requires Ample(p) && Enabled(p, b, act) && Quiet(act)
    ensures Ample(Apply(p, b, act)) && !act.Reclaim?
  {
    hide Target;
  }

  /** A deploy is never followed by a reclaim, until something new comes in. */
  lemma {:induction false} NoReclaimAfterDeploy(p: Pool, b: Buffer, spare: nat, acts: seq<Act>)
    requires Ample(p) && Enabled(p, b, Deploy(spare)) && Allowed(Apply(p, b, Deploy(spare)), b, acts) && AllQuiet(acts)
    ensures Ample(Run(Apply(p, b, Deploy(spare)), b, acts))
    ensures forall act <- acts :: !act.Reclaim?
  {
    hide Target;
    if acts == [] {
      KeepsAmple(p, b, Deploy(spare));
    } else {
      var front, last := acts[..|acts| - 1], acts[|acts| - 1];
      NoReclaimAfterDeploy(p, b, spare, front);
      KeepsAmple(Run(Apply(p, b, Deploy(spare)), b, front), b, last);
    }
  }

  /** What a failing withdrawal had been owed. */
  function FailedBy(p: Pool, act: Act): nat {
    match act
    case Drop(x) => x
    case Revert => p.Paying()
    case _ => 0
  }

  /** What a bridge takes from the account. */
  function BridgedBy(act: Act): nat {
    if act.Debit? then act.amount else 0
  }

  ghost function Failed(p: Pool, b: Buffer, acts: seq<Act>): nat
    requires Allowed(p, b, acts)
  {
    if acts == [] then 0
    else Failed(p, b, acts[..|acts| - 1]) + FailedBy(Run(p, b, acts[..|acts| - 1]), acts[|acts| - 1])
  }

  ghost function Bridged(acts: seq<Act>): nat {
    if acts == [] then 0 else Bridged(acts[..|acts| - 1]) + BridgedBy(acts[|acts| - 1])
  }

  /** No more is left over, or promised to a bridge, than withdrawals that failed were owed. */
  ghost predicate OnlyFailed(p: Pool, bridged: nat, failed: nat) {
    && p.idle + bridged <= p.waiting + p.Paying() + failed && bridged <= failed
    && forall y <- p.asked :: y + bridged <= failed
  }

  lemma KeepsOnlyFailed(p: Pool, b: Buffer, act: Act, bridged: nat, failed: nat)
    requires OnlyFailed(p, bridged, failed) && Enabled(p, b, act) && Quiet(act)
    ensures OnlyFailed(Apply(p, b, act), bridged + BridgedBy(act), failed + FailedBy(p, act))
  {
    hide Target;
  }

  lemma {:induction false} BridgesOnlyFailed(q: Pool, b: Buffer, acts: seq<Act>)
    requires OnlyFailed(q, 0, 0) && Allowed(q, b, acts) && AllQuiet(acts)
    ensures OnlyFailed(Run(q, b, acts), Bridged(acts), Failed(q, b, acts))
  {
    if acts != [] {
      var front, last := acts[..|acts| - 1], acts[|acts| - 1];
      BridgesOnlyFailed(q, b, front);
      hide OnlyFailed, Enabled, Apply;
      KeepsOnlyFailed(Run(q, b, front), b, last, Bridged(front), Failed(q, b, front));
    }
  }

  /** Reclaimed money is bridged back only as far as withdrawals have failed since:
      while none does, never. */
  lemma ReclaimStays(p: Pool, b: Buffer, x: nat, acts: seq<Act>)
    requires Enabled(p, b, Reclaim(x)) && p.asked == {} && Allowed(Apply(p, b, Reclaim(x)), b, acts) && AllQuiet(acts)
    ensures Bridged(acts) <= Failed(Apply(p, b, Reclaim(x)), b, acts)
  {
    hide Target;
    BridgesOnlyFailed(Apply(p, b, Reclaim(x)), b, acts);
  }

  /** When one does fail, what was reclaimed for it goes back. */
  lemma FailureBridgesBack(n: nat) returns (p: Pool, b: Buffer, acts: seq<Act>)
    requires n > 0
    ensures Enabled(p, b, Reclaim(n)) && p.asked == {} && Allowed(Apply(p, b, Reclaim(n)), b, acts) && AllQuiet(acts)
    ensures Bridged(acts) == n
  {
    p, b := Pool(0, 0, 0, n + n, None, {}, n, None), Buffer(0, 0);
    var q, r := Pool(n, 0, 0, n, None, {}, n, None), Pool(n, 0, 0, n, None, {}, 0, None);
    var s := Pool(n, 0, 0, n, Some(n), {n}, 0, None);
    ReclaimStep(n, p, q, b);
    DropStep(n, q, r, b);
    DeployStep(n, r, s, b);
    DebitStep(n, s, b);
    hide Allowed, Run, Bridged, Enabled, Apply, Target, Settled, Spare, Shortfall;
    acts := BackRun(n, q, r, s, b);
  }

  lemma BackRun(n: nat, q: Pool, r: Pool, s: Pool, b: Buffer) returns (acts: seq<Act>)
    requires Enabled(q, b, Drop(n)) && Apply(q, b, Drop(n)) == r && Enabled(r, b, Deploy(n))
    requires Apply(r, b, Deploy(n)) == s
    requires Enabled(s, b, Debit(n))
    ensures Allowed(q, b, acts) && AllQuiet(acts) && Bridged(acts) == n
  {
    hide Allowed, Run, Bridged, Enabled, Apply, Target;
    NoActs(q, b);
    acts := [];
    acts := OneMore(q, b, acts, Drop(n));
    acts := OneMore(q, b, acts, Deploy(n));
    acts := OneMore(q, b, acts, Debit(n));
  }

  lemma ReclaimStep(n: nat, p: Pool, q: Pool, b: Buffer)
    requires n > 0
    requires p == Pool(0, 0, 0, n + n, None, {}, n, None) && q == Pool(n, 0, 0, n, None, {}, n, None)
    requires b == Buffer(0, 0)
    ensures Enabled(p, b, Reclaim(n)) && Apply(p, b, Reclaim(n)) == q
  {
    hide Target;
    SpareWithoutBuffer(p, b);
  }

  lemma DropStep(n: nat, q: Pool, r: Pool, b: Buffer)
    requires q == Pool(n, 0, 0, n, None, {}, n, None) && r == Pool(n, 0, 0, n, None, {}, 0, None)
    ensures Enabled(q, b, Drop(n)) && Apply(q, b, Drop(n)) == r
  {
    hide Target;
  }

  lemma DeployStep(n: nat, r: Pool, s: Pool, b: Buffer)
    requires r == Pool(n, 0, 0, n, None, {}, 0, None) && s == Pool(n, 0, 0, n, Some(n), {n}, 0, None)
    requires b == Buffer(0, 0)
    ensures Enabled(r, b, Deploy(n)) && Apply(r, b, Deploy(n)) == s
  {
    hide Target;
    SpareWithoutBuffer(r, b);
    hide Spare;
    assert r.asked + {n} == s.asked;
  }

  lemma DebitStep(n: nat, s: Pool, b: Buffer)
    requires s == Pool(n, 0, 0, n, Some(n), {n}, 0, None)
    ensures Enabled(s, b, Debit(n))
  {
    hide Target;
  }

  lemma NoActs(p: Pool, b: Buffer)
    ensures Allowed(p, b, []) && Run(p, b, []) == p && Bridged([]) == 0
  {
  }

  lemma StandsStill(p: Pool, b: Buffer)
    ensures Allowed(p, b, []) && Run(p, b, []) == p
  {
  }

  lemma NoBuffer(b: Buffer, assets: nat)
    requires b.min == 0 && b.bps == 0
    ensures Target(b, assets) == 0
  {
  }

  lemma OneMore(p: Pool, b: Buffer, acts: seq<Act>, act: Act) returns (more: seq<Act>)
    requires Allowed(p, b, acts) && Enabled(Run(p, b, acts), b, act)
    ensures more == acts + [act] && Allowed(p, b, more) && Run(p, b, more) == Apply(Run(p, b, acts), b, act)
    ensures Bridged(more) == Bridged(acts) + BridgedBy(act)
  {
    RunOne(p, b, acts, act);
    more := acts + [act];
    assert more[..|acts|] == acts;
  }

  /** A round that should reclaim: waiting withdrawals are short and the strategy has money. */
  predicate WantsReclaim(p: Pool, b: Buffer) {
    Settled(p) && Spare(p, b) < 0 && p.waiting > p.idle && p.Deployed() > 0
  }

  /** One that should deploy: spare and stranded money together reach the minimum. */
  predicate WantsDeploy(p: Pool, b: Buffer, minimum: nat) {
    Settled(p) && Spare(p, b) >= 0 && Spare(p, b) + p.stranded > 0 && Spare(p, b) + p.stranded >= minimum
  }

  /** What other tasks and accounting may do while a deploy runs. */
  predicate Outside(act: Act) {
    !act.Deploy? && !act.Reclaim? && !act.Supply? && !act.EndDeploy? && !act.Restart?
  }

  /** While a request of `spare` is the only one that may be out, no more than it and
      the `raw` money there reaches the earn account, and it only once debited. */
  ghost predicate Bridging(p: Pool, spare: nat, raw: nat) {
    && p.asked <= {spare} && p.stranded + p.transit <= raw + spare
    && (spare in p.asked ==> p.stranded + p.transit <= raw)
  }

  lemma OutsideKeeps(p: Pool, b: Buffer, act: Act, spare: nat, raw: nat)
    requires Enabled(p, b, act) && Outside(act)
    ensures Apply(p, b, act).held == p.held
    ensures Bridging(p, spare, raw) ==> Bridging(Apply(p, b, act), spare, raw)
  {
    hide Target;
  }

  /** What a deploy decided at `p` left behind at `end`, `acts` later: the bridge and the
      earn account empty, and the account at what is owed, the buffer and the drift. */
  ghost predicate Left(p: Pool, end: Pool, b: Buffer, acts: seq<Act>) {
    var decided, spare := p.(held := None), Spare(p, b);
    && spare >= 0 && Enabled(decided, b, Deploy(spare))
    && var q := Apply(decided, b, Deploy(spare));
    && Allowed(q, b, acts) && Undecided(acts) && end == Run(q, b, acts)
    && end.transit == 0 == end.stranded && end.held == None
    && end.idle == end.waiting + end.Paying() + Target(b, p.Assets()) + Drift(q, b, spare, acts)
    && end.Assets() == p.Assets() + In(q, b, acts)
  }

  lemma RouteLeaves(p: Pool, b: Buffer, spare: nat, acts: seq<Act>, end: Pool)
    requires p.asked == {} && Enabled(p.(held := None), b, Deploy(spare)) && end.held == None && Bridging(end, 0, 0)
    requires Allowed(Apply(p.(held := None), b, Deploy(spare)), b, acts) && Undecided(acts)
    requires end == Run(Apply(p.(held := None), b, Deploy(spare)), b, acts)
    ensures Left(p, end, b, acts)
  {
    var decided := p.(held := None);
    var q := Apply(decided, b, Deploy(spare));
    DeployStarts(decided, b, spare);
    LeavesRun(q, b, spare, acts, Target(b, decided.Assets()), decided.Assets());
    assert Out(end, spare) == 0;
    hide Run, Allowed, Drift, In, Target;
    assert Spare(p, b) == Spare(decided, b);
  }

  class VaultPool {
    const buffer: Buffer
    var p: Pool
    ghost const start: Pool
    ghost var trace: seq<Act>

    ghost predicate Valid()
      reads this
    {
      Allowed(start, buffer, trace) && p == Run(start, buffer, trace)
    }

    /** A process starts, or restarts, on any pool; of a bridge it remembers nothing. */
    constructor (buffer: Buffer, p: Pool)
      ensures Valid() && this.p == Apply(p, buffer, Restart) && this.buffer == buffer && trace == []
    {
      this.buffer, this.p, start, trace := buffer, p.(held := None), p.(held := None), [];
    }

    method Do(act: Act)
      requires Valid() && Enabled(p, buffer, act)
      modifies this
      ensures Valid() && p == Apply(old(p), buffer, act) && trace == old(trace) + [act]
    {
      RunOne(start, buffer, trace, act);
      hide Allowed, Run;
      p := Apply(p, buffer, act);
      trace := trace + [act];
    }

    /** One act, after those done since the pool was at `q`. */
    method Step(act: Act, ghost q: Pool, ghost done: seq<Act>) returns (ghost acts: seq<Act>)
      requires Valid() && Enabled(p, buffer, act) && !act.Deploy? && !act.Reclaim?
      requires Allowed(q, buffer, done) && Undecided(done) && p == Run(q, buffer, done)
      modifies this
      ensures Valid() && p == Apply(old(p), buffer, act) && trace == old(trace) + [act]
      ensures Allowed(q, buffer, acts) && Undecided(acts) && p == Run(q, buffer, acts)
    {
      RunOne(q, buffer, done, act);
      hide Allowed, Run, Enabled, Apply;
      Do(act);
      acts := done + [act];
    }

    /** Deposits, requests, payouts and accounting, while a deploy runs outside the lock. */
    method Others(ghost q: Pool, ghost done: seq<Act>, ghost spare: nat, ghost raw: nat) returns (ghost acts: seq<Act>)
      requires Valid() && Allowed(q, buffer, done) && Undecided(done) && p == Run(q, buffer, done)
      modifies this
      ensures Valid() && old(trace) <= trace && p.held == old(p).held
      ensures Allowed(q, buffer, acts) && Undecided(acts) && p == Run(q, buffer, acts)
      ensures Bridging(old(p), spare, raw) ==> Bridging(p, spare, raw)
    {
      acts := done;
      hide Allowed, Run, Enabled, Apply, Bridging;
      var times: nat := *;
      while times > 0
        invariant Valid() && old(trace) <= trace && p.held == old(p).held
        invariant Allowed(q, buffer, acts) && Undecided(acts) && p == Run(q, buffer, acts)
        invariant Bridging(old(p), spare, raw) ==> Bridging(p, spare, raw)
      {
        var act: Act := *;
        if Outside(act) && Enabled(p, buffer, act) {
          OutsideKeeps(p, buffer, act, spare, raw);
          acts := Step(act, q, acts);
        }
        times := times - 1;
      }
    }

    /** The payout part of `withdraw`: admitted only if the account can pay it
        beyond what is held, then paid or reverted. */
    method Withdraw(amount: nat) returns (admitted: bool)
      requires Valid() && p.paying == None && amount <= p.waiting
      modifies this
      ensures Valid() && old(trace) <= trace
      ensures admitted <==> amount <= old(p).idle - old(p).Held()
      ensures !admitted ==> p == old(p)
      ensures admitted ==> p.idle in {old(p).idle, old(p).idle - amount} && p.waiting == old(p).waiting - amount
    {
      hide Allowed, Run, Target;
      var capacity := p.idle - p.Held();
      admitted := amount <= capacity;
      if admitted {
        Do(Admit(amount));
        var reverted: bool := *;
        if reverted {
          Do(Revert);
        } else {
          Do(Pay);
        }
      }
    }

    /** `deploy_reclaim`: one netting decision, and its move. `acts` is what
        happened after a decision to deploy. */
    method DeployReclaim(allowDeploy: bool, minimum: nat, ready: bool, healthy: bool)
      returns (moved: int, ghost acts: seq<Act>)
      requires Valid()
      modifies this
      ensures Valid() && old(trace) <= trace
      ensures moved < 0 <==> WantsReclaim(old(p), buffer) && ready
      ensures moved < 0 ==> p.idle == old(p).idle - moved && p.waiting == old(p).waiting
      ensures moved < 0 ==> p.idle == p.waiting || (p.idle < p.waiting && p.Deployed() == 0)
      ensures moved > 0 ==> WantsDeploy(old(p), buffer, minimum) && healthy && allowDeploy
      ensures moved > 0 ==> moved == Spare(old(p), buffer) + old(p).stranded
      ensures moved > 0 && old(p).asked == {} ==> Left(old(p), p, buffer, acts)
      ensures allowDeploy && healthy && WantsDeploy(old(p), buffer, minimum) ==> moved != 0 || p.held.Some?
    {
      moved, acts := 0, [];
      hide Allowed, Run, Target, Left;
      if p.paying.Some? || p.transit > 0 {
        return;
      }
      if p.held.Some? {
        Do(EndDeploy);
      }
      var spare := Spare(p, buffer);
      if spare < 0 {
        var amount := Shortfall(p);
        if amount <= 0 || !ready {
          return;
        }
        Do(Reclaim(amount));
        moved := -amount;
        return;
      }
      var amount := spare + p.stranded;
      if !allowDeploy || amount <= 0 || amount < minimum || !healthy {
        return;
      }
      ghost var before := p;
      Do(Deploy(spare));
      var arrived;
      arrived, acts := Route(amount, spare, before.stranded);
      if arrived {
        moved := amount;
        if before.asked == {} {
          RouteLeaves(old(p), buffer, spare, acts, p);
        }
      }
    }

    /** The bridge and the protocol's side of a deploy: it waits for `amount` on the
        earn account and supplies all there is; one that raises keeps its hold. */
    method Route(amount: nat, ghost spare: nat, ghost raw: nat) returns (arrived: bool, ghost acts: seq<Act>)
      requires Valid() && p.held.Some?
      modifies this
      ensures Valid() && old(trace) <= trace
      ensures Allowed(old(p), buffer, acts) && Undecided(acts) && p == Run(old(p), buffer, acts)
      ensures arrived && amount == spare + raw && Bridging(old(p), spare, raw) ==> Bridging(p, 0, 0)
      ensures if arrived then p.held == None else p.held == old(p).held
    {
      hide Allowed, Run, Target;
      StandsStill(p, buffer);
      acts := Others(p, [], spare, raw);
      var raised: bool := *;
      if raised || p.stranded < amount {
        return false, acts;
      }
      if p.stranded > 0 {
        acts := Step(Supply, old(p), acts);
      }
      acts := Others(old(p), acts, 0, 0);
      acts := Step(EndDeploy, old(p), acts);
      arrived := true;
    }
  }
}
