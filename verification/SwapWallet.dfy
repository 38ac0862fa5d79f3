/** The shared wallet: with each balance check, submit and move of a swap taken as
    one step, its balance covers every wallet tx not mined yet. */
module SwapWallet {
  import opened SwapCase
  import opened SwapLedger
  import opened Tables

  /** The tx an act newly queues on the wallet, if any. */
  predicate Queues(c: Case, act: Act, kind: EvmKind) {
    kind !in c.evm && ((act == SendLifi && kind == Lifi) || act == Submit(kind))
  }

  /** What the handler checked before it queued a wallet tx of token `k`. */
  ghost predicate Checked(w: World, e: Event, k: nat)
    requires EnabledAt(w, e)
  {
    e.Step? ==>
      var s := w.swaps[e.swap];
      var counted := Total(Counted, w.swaps, k);
      && e.act != Submit(Lifi)
      && (Queues(s.c, e.act, Lifi) && k == s.terms.source ==> w.wallet >= s.terms.amount + counted)
      && (Queues(s.c, e.act, Refund) && k == s.terms.source ==> w.wallet >= s.terms.amount + counted)
      // The output is already among the counted spends.
      && (Queues(s.c, e.act, Deposit) && k == s.terms.dest ==> w.wallet >= counted)
  }

  /** The LiFi tx was recorded with its move: no crash fell between. */
  ghost predicate Prompt(c: Case) {
    Lifi in c.evm ==> ExecuteSent in c.been
  }

  ghost predicate AllPrompt(w: World) {
    forall i :: 0 <= i < |w.swaps| ==> Prompt(w.swaps[i].c)
  }

  lemma KeepsPrompt(c: Case, act: Act)
    requires Prompt(c) && Enabled(c, act) && act != Submit(Lifi)
    ensures Prompt(Apply(c, act))
  {
    TxChange(c, act, Lifi);
    SendsOnly(c, act);
    hide Apply, Enabled;
  }

  lemma SendsOnly(c: Case, act: Act)
    requires Enabled(c, act) && act != Submit(Lifi)
    ensures Lifi in Apply(c, act).evm && Lifi !in c.evm ==> ExecuteSent in Apply(c, act).been
  {
    hide CanMove, CanTx, CanRow, NextTx, NextRow;
  }

  // ---- The query counts every claim ----

  lemma LiveIsListed(c: Case, kind: EvmKind)
    requires Inv(c) && Prompt(c) && Live(c, kind) && kind != Input
    ensures Listed(c, kind)
  {
    assert Attended(c, kind);
  }

  lemma CountsClaims(s: Swap, k: nat)
    requires Inv(s.c) && Prompt(s.c)
    ensures Of(Unmined, s, k) <= Of(Claim, s, k) <= Of(Counted, s, k)
  {
    if Live(s.c, Lifi) {
      LiveIsListed(s.c, Lifi);
    }
    if Live(s.c, Refund) {
      LiveIsListed(s.c, Refund);
    }
    if Live(s.c, Deposit) {
      LiveIsListed(s.c, Deposit);
    }
    hide Inv, Live, Listed, AwaitsDeposit;
  }

  lemma {:induction false} CountsAllClaims(swaps: seq<Swap>, k: nat)
    requires forall i :: 0 <= i < |swaps| ==> Inv(swaps[i].c) && Prompt(swaps[i].c)
    ensures Total(Unmined, swaps, k) <= Total(Claim, swaps, k) <= Total(Counted, swaps, k)
  {
    if swaps != [] {
      CountsAllClaims(swaps[..|swaps| - 1], k);
      CountsClaims(swaps[|swaps| - 1], k);
      hide Of, Inv, Prompt;
    }
  }

  // ---- What an act does to the claims ----

  lemma LiveAfter(c: Case, act: Act, kind: EvmKind)
    requires Inv(c) && Enabled(c, act)
    ensures act == OnEvm(kind, Execute) ==> Live(c, kind) && !Live(Apply(c, act), kind)
    ensures Live(Apply(c, act), kind) ==> Live(c, kind) || Queues(c, act, kind)
    ensures Queues(c, act, kind) ==> !Live(c, kind)
  {
    assert kind in c.evm ==> TxOk(c.evm[kind]);
    hide *;
    TxChange(c, act, kind);
    NewTxQueues(c, act, kind);
    QueuesNew(c, act, kind);
    LiveTx(c, act, Apply(c, act), kind);
  }

  lemma QueuesNew(c: Case, act: Act, kind: EvmKind)
    ensures Queues(c, act, kind) ==> !Live(c, kind)
  {
  }

  lemma LiveTx(c: Case, act: Act, d: Case, kind: EvmKind)
    requires TxAfter(c, act, d, kind) && (kind in c.evm ==> TxOk(c.evm[kind]))
    ensures act == OnEvm(kind, Execute) ==> Live(c, kind) && !Live(d, kind)
    ensures Live(d, kind) ==> Live(c, kind) || (kind in d.evm && kind !in c.evm)
  {
    hide SubmittedAt;
  }

  lemma NewTxQueues(c: Case, act: Act, kind: EvmKind)
    requires Enabled(c, act)
    ensures kind in Apply(c, act).evm && kind !in c.evm ==> Queues(c, act, kind)
  {
    hide CanMove, CanTx, CanRow, NextTx, NextRow;
  }

  lemma LiveDelta(c: Case, act: Act, kind: EvmKind, x: nat)
    requires Inv(c) && Enabled(c, act)
    ensures If(Live(Apply(c, act), kind), x) <=
              If(Live(c, kind), x) - If(act == OnEvm(kind, Execute), x) + If(Queues(c, act, kind), x)
  {
    LiveAfter(c, act, kind);
    hide Inv, Apply, Enabled, Live, Queues;
  }

  lemma WalletFlow(t: Terms, act: Act)
    ensures FlowIn(t, act).wallet >= -If(act == OnEvm(Lifi, Execute), t.amount) -
              If(act == OnEvm(Refund, Execute), t.amount)
    ensures FlowOut(t, act).wallet >= -If(act == OnEvm(Deposit, Execute), t.received)
  {
  }

  /** Outside queueing, unmined spends never rise by more than the wallet. */
  lemma UnminedAfter(s: Swap, act: Act, k: nat)
    requires Inv(s.c) && Enabled(s.c, act)
    ensures var t := s.terms;
            Of(Unmined, s.(c := Apply(s.c, act)), k) <=
              Of(Unmined, s, k) + FlowOf(t, act, k).wallet
              + If(k == t.source, If(Queues(s.c, act, Lifi), t.amount) + If(Queues(s.c, act, Refund), t.amount))
              + If(k == t.dest, If(Queues(s.c, act, Deposit), t.received))
  {
    hide Inv, Apply, Enabled, Live, Queues, FlowIn, FlowOut;
    LiveDelta(s.c, act, Lifi, s.terms.amount);
    LiveDelta(s.c, act, Refund, s.terms.amount);
    LiveDelta(s.c, act, Deposit, s.terms.received);
    WalletFlow(s.terms, act);
  }

  // ---- Coverage ----

  ghost predicate Covered(w: World, k: nat) {
    w.wallet >= Total(Unmined, w.swaps, k)
  }

  lemma AtMostOneQueued(c: Case, act: Act)
    ensures !(Queues(c, act, Lifi) && Queues(c, act, Refund)) && !(Queues(c, act, Lifi) && Queues(c, act, Deposit))
    ensures !(Queues(c, act, Refund) && Queues(c, act, Deposit))
  {
  }

  /** A deposit being queued was counted as an output awaiting its deposit. */
  lemma DepositWasClaimed(w: World, i: nat, act: Act, k: nat)
    requires AllOk(w) && AllPrompt(w) && i < |w.swaps| && Enabled(w.swaps[i].c, act)
    requires Queues(w.swaps[i].c, act, Deposit)
    requires k == w.swaps[i].terms.dest
    ensures Total(Unmined, w.swaps, k) + w.swaps[i].terms.received <= Total(Counted, w.swaps, k)
  {
    CountsAllClaims(w.swaps, k);
    ClaimsAwaiting(w.swaps, i, k);
  }

  lemma {:induction false} ClaimsAwaiting(swaps: seq<Swap>, i: nat, k: nat)
    requires i < |swaps| && AwaitsDeposit(swaps[i].c) && k == swaps[i].terms.dest
    ensures Total(Unmined, swaps, k) + swaps[i].terms.received <= Total(Claim, swaps, k)
  {
    var last := |swaps| - 1;
    if i < last {
      ClaimsAwaiting(swaps[..last], i, k);
    } else {
      UnminedIsClaimed(swaps[..last], k);
    }
  }

  lemma {:induction false} UnminedIsClaimed(swaps: seq<Swap>, k: nat)
    ensures Total(Unmined, swaps, k) <= Total(Claim, swaps, k)
  {
    if swaps != [] {
      UnminedIsClaimed(swaps[..|swaps| - 1], k);
    }
  }

  lemma StepKeepsCovered(w: World, i: nat, act: Act, k: nat)
    requires AllOk(w) && AllPrompt(w) && Covered(w, k)
    requires EnabledAt(w, Step(i, act)) && Checked(w, Step(i, act), k)
    ensures Covered(Next(w, Step(i, act), k), k)
  {
    var s := w.swaps[i];
    CountsAllClaims(w.swaps, k);
    UnminedAfter(s, act, k);
    TotalUpdate(Unmined, w.swaps, i, s.(c := Apply(s.c, act)), k);
    AtMostOneQueued(s.c, act);
    if Queues(s.c, act, Deposit) && k == s.terms.dest {
      DepositWasClaimed(w, i, act, k);
    }
    hide Inv, Apply, Enabled, Of, Queues, FlowIn, FlowOut, AllOk, AllPrompt;
  }

  lemma EventKeepsCovered(w: World, e: Event, k: nat)
    requires AllOk(w) && AllPrompt(w) && Covered(w, k) && EnabledAt(w, e) && Checked(w, e, k)
    ensures Covered(Next(w, e, k), k) && AllPrompt(Next(w, e, k))
  {
    match e
    case Open(terms, internal) => OpenKeepsCovered(w, terms, internal, k);
    case Step(i, act) =>
      StepKeepsCovered(w, i, act, k);
      StepKeepsPrompt(w, i, act, k);
      hide *;
  }

  lemma OpenKeepsCovered(w: World, terms: Terms, internal: bool, k: nat)
    requires Covered(w, k) && AllPrompt(w)
    ensures Covered(Next(w, Open(terms, internal), k), k) && AllPrompt(Next(w, Open(terms, internal), k))
  {
    TotalAppend(Unmined, w.swaps, Swap(terms, New(internal)), k);
    hide Total;
  }

  lemma StepKeepsPrompt(w: World, i: nat, act: Act, k: nat)
    requires AllPrompt(w) && EnabledAt(w, Step(i, act)) && act != Submit(Lifi)
    ensures AllPrompt(Next(w, Step(i, act), k))
  {
    KeepsPrompt(w.swaps[i].c, act);
    hide Prompt, Apply, Enabled, FlowOf;
  }

  ghost predicate AllChecked(w: World, events: seq<Event>, k: nat)
    requires Happens(w, events, k)
  {
    events == [] ||
    (AllChecked(w, events[..|events| - 1], k) && Checked(After(w, events[..|events| - 1], k), events[|events| - 1], k))
  }

  /** In every run the wallet covers every swap, redeposit and deposit tx not mined
      yet, those refused for gas and waiting included. */
  lemma {:induction false} AlwaysCovered(w: World, events: seq<Event>, k: nat)
    requires w.swaps == [] && w.wallet >= 0 && Happens(w, events, k) && AllChecked(w, events, k)
    ensures AllPrompt(After(w, events, k)) && Covered(After(w, events, k), k)
  {
    if events != [] {
      var front := events[..|events| - 1];
      AlwaysCovered(w, front, k);
      Conservation(w, front, k);
      EventKeepsCovered(After(w, front, k), events[|events| - 1], k);
    }
  }

  // ---- The two reads of `_holds` ----

  /** What `_holds` reads: the queued spends before and after the balance, and the gas of a
      native-coin tx at the fee cap. */
  datatype Reads = Reads(spend: int, balance: Option<int>, again: int, gas: nat)

  predicate Holds(r: Reads, amount: nat) {
    r.balance.Some? && r.balance.value >= amount + r.gas + (if r.spend < r.again then r.again else r.spend)
  }

  /** A wallet tx is queued, or an output waits for its deposit from now on: a further claim. */
  predicate Claims(e: Event) {
    e.Step? && (e.act in {SendLifi, Submit(Lifi), Submit(Refund)} || e.act == Move(DepositSent))
  }

  /** A tx mined that takes from the wallet. */
  predicate Spends(e: Event) {
    e.Step? && e.act in {OnEvm(Lifi, Execute), OnEvm(Refund, Execute), OnEvm(Deposit, Execute)}
  }

  /** A LiFi tx is queued with its move. */
  predicate Whole(e: Event) {
    e.Step? ==> e.act != Submit(Lifi)
  }

  /** Any other act takes from the wallet at most what it takes off the claims, and adds none. */
  lemma ClaimsFall(s: Swap, act: Act, k: nat)
    requires Inv(s.c) && Enabled(s.c, act) && !Claims(Step(0, act))
    ensures var s2 := s.(c := Apply(s.c, act));
            && Of(Claim, s2, k) <= Of(Claim, s, k) + FlowOf(s.terms, act, k).wallet
            && Of(Claim, s2, k) <= Of(Claim, s, k)
  {
    var t := s.terms;
    LiveFalls(s.c, act, Lifi, t.amount);
    LiveFalls(s.c, act, Refund, t.amount);
    DepositFalls(s.c, act, t.received);
    WalletFlow(t, act);
    hide Inv, Apply, Enabled, Live, AwaitsDeposit, FlowIn, FlowOut, Claims;
  }

  lemma LiveFalls(c: Case, act: Act, kind: EvmKind, x: nat)
    requires Inv(c) && Enabled(c, act) && !Claims(Step(0, act)) && kind in {Lifi, Refund}
    ensures If(Live(Apply(c, act), kind), x) <= If(Live(c, kind), x) - If(act == OnEvm(kind, Execute), x)
  {
    LiveDelta(c, act, kind, x);
    hide Inv, Apply, Enabled, Live;
  }

  /** A deposit being queued was waited for. */
  lemma DepositFalls(c: Case, act: Act, x: nat)
    requires Inv(c) && Enabled(c, act) && !Claims(Step(0, act))
    ensures var d := Apply(c, act);
            If(Live(d, Deposit), x) + If(AwaitsDeposit(d), x) <=
              If(Live(c, Deposit), x) + If(AwaitsDeposit(c), x) - If(act == OnEvm(Deposit, Execute), x)
  {
    LiveDelta(c, act, Deposit, x);
    AwaitsAfter(c, act);
    hide Inv, Apply, Enabled, Live, AwaitsDeposit;
  }

  lemma AwaitsAfter(c: Case, act: Act)
    requires Enabled(c, act) && !Claims(Step(0, act))
    ensures AwaitsDeposit(Apply(c, act)) ==> AwaitsDeposit(c) && !Queues(c, act, Deposit)
    ensures Queues(c, act, Deposit) ==> AwaitsDeposit(c)
  {
    TxChange(c, act, Deposit);
    if act.Move? {
      hide Enabled, NextTx, NextRow;
    } else if !act.SendLifi? {
      PlaceStays(c, act);
      if Queues(c, act, Deposit) {
        DepositQueued(c, act);
      }
      hide Apply, Enabled;
    }
  }

  lemma DepositQueued(c: Case, act: Act)
    requires Enabled(c, act) && Queues(c, act, Deposit)
    ensures c.place == DepositSent && Deposit in Apply(c, act).evm
  {
    hide CanMove, CanTx, CanRow, NextTx, NextRow;
  }

  lemma {:induction false} ClaimsFallMeanwhile(w: World, events: seq<Event>, k: nat)
    requires AllOk(w) && Happens(w, events, k) && forall e <- events :: !Claims(e)
    ensures var w2 := After(w, events, k);
            && AllOk(w2)
            && w2.wallet - Total(Claim, w2.swaps, k) >= w.wallet - Total(Claim, w.swaps, k)
            && Total(Claim, w2.swaps, k) <= Total(Claim, w.swaps, k)
  {
    if events != [] {
      var front, e := events[..|events| - 1], events[|events| - 1];
      ClaimsFallMeanwhile(w, front, k);
      assert e in events;
      hide AllOk, Claims, EnabledAt, Next;
      EventClaims(After(w, front, k), e, k);
    }
  }

  lemma EventClaims(w: World, e: Event, k: nat)
    requires AllOk(w) && EnabledAt(w, e) && !Claims(e)
    ensures var w2 := Next(w, e, k);
            && AllOk(w2)
            && w2.wallet - Total(Claim, w2.swaps, k) >= w.wallet - Total(Claim, w.swaps, k)
            && Total(Claim, w2.swaps, k) <= Total(Claim, w.swaps, k)
  {
    EventKeepsOk(w, e, k);
    match e
    case Open(terms, internal) =>
      TotalAppend(Claim, w.swaps, Swap(terms, New(internal)), k);
      hide Total;
    case Step(i, act) =>
      var s := w.swaps[i];
      ClaimsFall(s, act, k);
      TotalUpdate(Claim, w.swaps, i, s.(c := Apply(s.c, act)), k);
      hide Inv, Apply, Enabled, Of, FlowIn, FlowOut;
  }

  lemma {:induction false} KeepsCounting(w: World, events: seq<Event>, k: nat)
    requires AllOk(w) && AllPrompt(w) && Happens(w, events, k) && forall e <- events :: Whole(e)
    ensures var w2 := After(w, events, k);
            && AllOk(w2) && AllPrompt(w2)
            && ((forall e <- events :: !Spends(e)) ==> w2.wallet >= w.wallet)
  {
    if events != [] {
      var front, e := events[..|events| - 1], events[|events| - 1];
      KeepsCounting(w, front, k);
      assert e in events && forall x <- front :: x in events;
      EventCounts(After(w, front, k), e, k);
      hide AllOk, AllPrompt, Next, EnabledAt;
    }
  }

  lemma EventCounts(w: World, e: Event, k: nat)
    requires AllOk(w) && AllPrompt(w) && EnabledAt(w, e) && Whole(e)
    ensures AllOk(Next(w, e, k)) && AllPrompt(Next(w, e, k))
    ensures !Spends(e) ==> Next(w, e, k).wallet >= w.wallet
  {
    EventKeepsOk(w, e, k);
    if e.Step? {
      KeepsPrompt(w.swaps[e.swap].c, e.act);
      WalletFlow(w.swaps[e.swap].terms, e.act);
    }
    hide Inv, Apply, Enabled, FlowIn, FlowOut, Prompt;
  }

  /** `_holds` reads the queued spends at `w`, the balance after `before`, and the
      queued spends again after `after`. Unless a tx mined after the balance read takes
      from the wallet and a claim is added as well, passing its check means that the
      wallet still holds the amount beyond every claim. */
  lemma HoldsIsSound(w: World, before: seq<Event>, after: seq<Event>, amount: nat, k: nat)
    requires AllOk(w) && AllPrompt(w) && Happens(w, before, k) && Happens(After(w, before, k), after, k)
    requires forall e <- before + after :: Whole(e)
    requires (forall e <- after :: !Spends(e)) || (forall e <- before + after :: !Claims(e))
    requires var mid := After(w, before, k);
             var end := After(mid, after, k);
             Holds(Reads(Total(Counted, w.swaps, k), Some(mid.wallet), Total(Counted, end.swaps, k), 0), amount)
    ensures var end := After(After(w, before, k), after, k);
            end.wallet >= amount + Total(Claim, end.swaps, k)
  {
    var mid := After(w, before, k);
    var end := After(mid, after, k);
    assert forall e <- before :: e in before + after;
    assert forall e <- after :: e in before + after;
    CountsAllClaims(w.swaps, k);
    hide Total, Happens, After, Claims, Spends, Whole;
    if forall e <- after :: !Spends(e) {
      KeepsCounting(w, before, k);
      KeepsCounting(mid, after, k);
      CountsAllClaims(end.swaps, k);
    } else {
      ClaimsFallMeanwhile(w, before, k);
      ClaimsFallMeanwhile(mid, after, k);
    }
  }

  /** A swap with its LiFi tx signed. */
  function Spending(): Case {
    Case(false, ExecuteSent, {Scheduled, InputSent, WithdrawSent, ExecuteFunding, ExecuteSent},
         map[Input := Tx(Queued, true, true, false).(status := EvmStatus.Mined),
             Lifi := Tx(Queued, true, false, false)],
         map[Withdraw := Row(Landed, true, NoError)], true, false, false, false, false, false)
  }

  /** And one whose input has just arrived. */
  function Funding(): Case {
    Spending().(place := ExecuteFunding, been := {Scheduled, InputSent, WithdrawSent, ExecuteFunding},
                evm := map[Input := Tx(EvmStatus.Mined, true, true, false)])
  }

  lemma SpendingOk()
    ensures Inv(Spending()) && Prompt(Spending())
  {
  }

  lemma FundingOk()
    ensures Inv(Funding()) && Prompt(Funding())
  {
  }

  /** With both between the reads, one swap's tx mined and another's queued after
      the balance read, the check can pass on a wallet that is short. */
  lemma HoldsMissesBoth() returns (w: World, after: seq<Event>, amount: nat)
    ensures AllOk(w) && AllPrompt(w) && Happens(w, after, 0)
    ensures var end := After(w, after, 0);
            && Holds(Reads(Total(Counted, w.swaps, 0), Some(w.wallet), Total(Counted, end.swaps, 0), 0), amount)
            && end.wallet < amount + Total(Claim, end.swaps, 0)
  {
    var t := Terms(0, 1, 5, 5, 5, 0, 0);
    var x, y := Swap(t, Spending()), Swap(t, Funding());
    var x2, x3, y2 := x.(c := Executed()), x.(c := Settled()), y.(c := Apply(y.c, SendLifi));
    w, after, amount := World([x, y], 0, 10, 0), [], 5;
    StartOk(x, y);
    Sums(x, x3, y, y2);
    hide Happens, After, AllOk, AllPrompt, Total, Apply, Enabled, Spending, Funding, Executed, Settled, FlowOf, Next;
    hide EnabledAt;
    Nexts(x, x2, x3, y, y2);
    HoldsFive();
    hide Holds;
    after := OneMore(w, after, Step(0, OnEvm(Lifi, Execute)), 0);
    after := OneMore(w, after, Step(0, OnEvm(Lifi, Mine)), 0);
    after := OneMore(w, after, Step(1, SendLifi), 0);
  }

  lemma HoldsFive()
    ensures Holds(Reads(5, Some(10), 5, 0), 5)
  {
  }

  lemma Nexts(x: Swap, x2: Swap, x3: Swap, y: Swap, y2: Swap)
    requires var t := Terms(0, 1, 5, 5, 5, 0, 0); x == Swap(t, Spending()) && y == Swap(t, Funding())
    requires x2 == x.(c := Executed()) && x3 == x.(c := Settled()) && y2 == y.(c := Apply(y.c, SendLifi))
    ensures var w, e := World([x, y], 0, 10, 0), Step(0, OnEvm(Lifi, Execute));
            EnabledAt(w, e) && Next(w, e, 0) == World([x2, y], 0, 5, 0)
    ensures var w, e := World([x2, y], 0, 5, 0), Step(0, OnEvm(Lifi, Mine));
            EnabledAt(w, e) && Next(w, e, 0) == World([x3, y], 0, 5, 0)
    ensures var w, e := World([x3, y], 0, 5, 0), Step(1, SendLifi);
            EnabledAt(w, e) && Next(w, e, 0) == World([x3, y2], 0, 5, 0)
  {
    Steps(x.terms);
    hide Apply, Enabled, Spending, Funding, Executed, Settled, FlowOf;
    assert [x, y][0 := x2] == [x2, y] && [x2, y][0 := x3] == [x3, y] && [x3, y][1 := y2] == [x3, y2];
  }

  function Executed(): Case {
    Spending().(evm := Spending().evm[Lifi := Tx(Queued, true, true, false)])
  }

  function Settled(): Case {
    Spending().(evm := Spending().evm[Lifi := Tx(EvmStatus.Mined, true, true, false)])
  }

  lemma Steps(t: Terms)
    requires t == Terms(0, 1, 5, 5, 5, 0, 0)
    ensures Enabled(Spending(), OnEvm(Lifi, Execute)) && Apply(Spending(), OnEvm(Lifi, Execute)) == Executed()
    ensures Enabled(Executed(), OnEvm(Lifi, Mine)) && Apply(Executed(), OnEvm(Lifi, Mine)) == Settled()
    ensures Enabled(Funding(), SendLifi)
    ensures FlowOf(t, OnEvm(Lifi, Execute), 0) == Flow(0, -5, 0)
    ensures FlowOf(t, OnEvm(Lifi, Mine), 0) == FlowOf(t, SendLifi, 0) == NONE
  {
    assert Executed().evm[Lifi := Tx(EvmStatus.Mined, true, true, false)] == Settled().evm;
  }

  lemma StartOk(x: Swap, y: Swap)
    requires x.c == Spending() && y.c == Funding()
    ensures var w := World([x, y], 0, 10, 0);
            AllOk(w) && AllPrompt(w) && Happens(w, [], 0) && After(w, [], 0) == w
  {
    hide Inv, Prompt, Spending, Funding;
    SpendingOk();
    FundingOk();
  }

  lemma Sums(x: Swap, x3: Swap, y: Swap, y2: Swap)
    requires var t := Terms(0, 1, 5, 5, 5, 0, 0); x == Swap(t, Spending()) && y == Swap(t, Funding())
    requires x3 == x.(c := Settled())
    requires y2 == y.(c := Apply(y.c, SendLifi))
    ensures Total(Counted, [x, y], 0) == 5 && Total(Counted, [x3, y2], 0) == 5 && Total(Claim, [x3, y2], 0) == 5
  {
    Pair(Counted, x, y);
    Pair(Counted, x3, y2);
    Pair(Claim, x3, y2);
    hide Total;
  }
}
