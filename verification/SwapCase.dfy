/** One swap, as src/services/swap/stage.py, lifi_pipeline.py and
    internal_pipeline.py move it: its row, its writes on the batchers and lanes,
    and what those did on chain. Handlers may be stale, and a crash may fall
    between any two acts. */
module SwapCase {
  import opened Tables

  datatype Place =
    | Scheduled
    | Pricing | InternalSent
    | InputSent | WithdrawSent | ExecuteFunding | ExecuteSent | ExecuteBridging
    | DepositSent | DepositCrediting | CreditSent
    | Redeposit | RefundCrediting | RefundPayout
    | Completed | Refunded | Parked | NoFundsMoved

  datatype EvmKind = Input | Lifi | Deposit | Refund

  datatype LaneKind = Internal | Withdraw | Credit | Payout

  datatype EvmStatus = Queued | Mined | Reverted | Failed

  /** A queued tx: `signed` says an attempt may be out, `ran` that it took effect,
      `gas` that it, or the approval before it, was refused for gas. */
  datatype Tx = Tx(status: EvmStatus, signed: bool, ran: bool, gas: bool) {
    /** It reverted, or failed before any attempt was signed. */
    predicate Unspent() {
      status == Reverted || (status == Failed && !signed)
    }

    /** Refused for gas: it is queued again. */
    predicate Held() {
      status == Failed && !signed && gas
    }
  }

  datatype LaneStatus = Waiting | Sent | Landed | Lost

  datatype LaneError = NoError | Foreign | GivenUp | Other

  datatype Row = Row(status: LaneStatus, moved: bool, error: LaneError)

  /** `been` are the places the swap has been at; `arrived`, `delivered`,
      `credited` and `returned` that its input reached the wallet, its output did,
      and that the deposit of either was credited; `givenBack` that LiFi ended by giving
      the input back instead, `copied` that someone else sent the user's signed input. */
  datatype Case = Case(internal: bool, place: Place, been: set<Place>, evm: map<EvmKind, Tx>, lanes: map<LaneKind, Row>,
                       arrived: bool, delivered: bool, credited: bool, returned: bool,
                       givenBack: bool, copied: bool)

  datatype EvmEvent = Sign | Execute | Mine | Revert | Refuse(gas: bool) | Lose

  datatype LaneEvent = Signed | Moved | Land | Again | Fail(error: LaneError) | GiveUp

  datatype Act =
    | Move(place: Place)
    | Submit(kind: EvmKind)
    | SendLifi
    | Queue(lane: LaneKind)
    | Retry(kind: EvmKind)
    | OnEvm(kind: EvmKind, evm: EvmEvent)
    | OnLane(lane: LaneKind, event: LaneEvent)
    | Arrive
    | Deliver
    | GiveBack
    | CopyInput
    | CreditDeposit
    | CreditRefund

  // ---- Where each write is made ----

  function SubmittedAt(kind: EvmKind): Place {
    match kind
    case Input => InputSent
    case Lifi => ExecuteFunding
    case Deposit => DepositSent
    case Refund => Redeposit
  }

  /** Where the swap waits while its tx is out: a tx refused for gas is queued again only there. */
  function SentAt(kind: EvmKind): Place {
    match kind
    case Input => InputSent
    case Lifi => ExecuteSent
    case Deposit => DepositSent
    case Refund => Redeposit
  }

  function QueuedAt(lane: LaneKind): Place {
    match lane
    case Internal => InternalSent
    case Withdraw => WithdrawSent
    case Credit => CreditSent
    case Payout => RefundPayout
  }

  predicate IsAt(c: Case, kind: EvmKind, status: EvmStatus) {
    kind in c.evm && c.evm[kind].status == status
  }

  predicate LaneAt(c: Case, lane: LaneKind, status: LaneStatus) {
    lane in c.lanes && c.lanes[lane].status == status
  }

  /** It settled without being mined, and is not queued again. */
  predicate Over(c: Case, kind: EvmKind) {
    kind in c.evm && c.evm[kind].status in {Reverted, Failed} && !c.evm[kind].Held()
  }

  /** It provably spent nothing, and never will. */
  predicate Dead(c: Case, kind: EvmKind) {
    Over(c, kind) && c.evm[kind].Unspent()
  }

  // ---- Moves ----

  /** When a handler of the place the swap is at may move it to `p`. */
  predicate CanMove(c: Case, p: Place) {
    match c.place
    case Scheduled => p == if c.internal then Pricing else InputSent
    case Pricing => p == InternalSent || p == NoFundsMoved
    case InternalSent =>
      || (p == Completed && LaneAt(c, Internal, Landed))
      || (p == Parked && LaneAt(c, Internal, Lost) && c.lanes[Internal].error == Foreign)
      || (p == NoFundsMoved && LaneAt(c, Internal, Lost) && c.lanes[Internal].error != Foreign)
    case InputSent =>
      || (p == WithdrawSent && IsAt(c, Input, Mined))
      || (p == Parked && Over(c, Input))
      // The user's nonce, read then, is not past the input's.
      || (p == NoFundsMoved && Dead(c, Input) && !c.copied)
    case WithdrawSent =>
      || (p == ExecuteFunding && LaneAt(c, Withdraw, Landed))
      || (p == RefundPayout && LaneAt(c, Withdraw, Lost))
      || (p == Parked && Withdraw in c.lanes && c.lanes[Withdraw].error == GivenUp)
    case ExecuteFunding => (p == ExecuteSent && Lifi in c.evm) || (p == Redeposit && Lifi !in c.evm)
    case ExecuteSent =>
      || ((p == ExecuteBridging || p == Parked) && IsAt(c, Lifi, Mined))
      || (p == DepositSent && IsAt(c, Lifi, Mined) && c.delivered)
      || (p == Redeposit && Dead(c, Lifi))
      || (p == Parked && Over(c, Lifi) && !Dead(c, Lifi))
    case ExecuteBridging => (p == DepositSent && c.delivered) || p == Parked
    case DepositSent =>
      || (p == DepositCrediting && IsAt(c, Deposit, Mined))
      || (p == Parked && (Deposit !in c.evm || Over(c, Deposit)))
    case DepositCrediting => (p == CreditSent && c.credited) || p == Parked
    case CreditSent => (p == Completed && LaneAt(c, Credit, Landed)) || (p == Parked && LaneAt(c, Credit, Lost))
    case Redeposit =>
      || (p == RefundCrediting && IsAt(c, Refund, Mined))
      || (p == Parked && (Refund !in c.evm || Over(c, Refund)))
    case RefundCrediting => (p == RefundPayout && c.returned) || p == Parked
    case RefundPayout => (p == Refunded && LaneAt(c, Payout, Landed)) || (p == Parked && LaneAt(c, Payout, Lost))
    case _ => false
  }

  // ---- What happens to a write ----

  /** The batcher's own guarantees, from `EvmQueue`: MINED means it ran, REVERTED
      and FAILED that it never does. */
  predicate CanTx(t: Tx, e: EvmEvent) {
    match e
    case Sign => t.status == Queued
    case Execute => t.status == Queued && t.signed && !t.ran
    case Mine => t.status == Queued && t.ran
    case Revert => t.status == Queued && t.signed && !t.ran
    case Refuse(_) => t.status == Queued && !t.signed
    case Lose => t.status == Queued && t.signed && !t.ran
  }

  function NextTx(t: Tx, e: EvmEvent): Tx
    requires CanTx(t, e)
  {
    match e
    case Sign => t.(signed := true)
    case Execute => t.(ran := true)
    case Mine => t.(status := Mined)
    case Revert => t.(status := Reverted)
    case Refuse(gas) => t.(status := Failed, gas := gas)
    case Lose => t.(status := Failed, gas := false)
  }

  /** The lanes' own guarantees: LANDED means it moved, FAILED with any error but
      FOREIGN_SPEND that it never did. Only a withdrawal is cancelled unsigned or given up on. */
  predicate CanRow(r: Row, lane: LaneKind, e: LaneEvent) {
    match e
    case Signed => r.status == Waiting
    case Moved => r.status == Sent && !r.moved
    case Land => r.status == Sent && r.moved
    case Again => r.status == Sent && !r.moved && lane != Withdraw
    case Fail(error) =>
      && r.status in {Waiting, Sent} && (r.status == Waiting ==> lane == Withdraw) && error in {Foreign, Other}
      && r.error != GivenUp
      && (if lane == Withdraw then !r.moved && error == Other else error == Other ==> !r.moved)
    case GiveUp => r.status == Sent && lane == Withdraw
  }

  function NextRow(r: Row, lane: LaneKind, e: LaneEvent): Row
    requires CanRow(r, lane, e)
  {
    match e
    case Signed => r.(status := Sent)
    case Moved => r.(moved := true)
    case Land => r.(status := Landed, error := NoError)
    case Again => r.(status := Waiting, error := Other)
    case Fail(error) => r.(status := Lost, error := error)
    case GiveUp => r.(error := GivenUp)
  }

  // ---- Acts ----

  predicate LifiRan(c: Case) {
    Lifi in c.evm && c.evm[Lifi].ran
  }

  /** Whether a tx of ours moved the user's input. */
  predicate InputMoved(c: Case) {
    (Input in c.evm && c.evm[Input].ran) || (Internal in c.lanes && c.lanes[Internal].moved)
  }

  predicate Enabled(c: Case, act: Act) {
    match act
    case Move(p) => CanMove(c, p)
    // A stale handler may still submit an input tx; the others check the place first.
    case Submit(kind) => if kind == Input then InputSent in c.been else c.place == SubmittedAt(kind)
    case SendLifi => c.place == ExecuteFunding
    case Queue(lane) => QueuedAt(lane) in c.been
    case Retry(kind) => c.place == SentAt(kind) && IsAt(c, kind, Failed) && !c.evm[kind].signed && c.evm[kind].gas
    // The user's nonce is spent once: by our tx, or by a copy of it.
    case OnEvm(kind, e) => kind in c.evm && CanTx(c.evm[kind], e) && (c.copied ==> kind != Input || e != Execute)
    case OnLane(lane, e) =>
      lane in c.lanes && CanRow(c.lanes[lane], lane, e) && (c.copied ==> lane != Internal || e != Moved)
    case Arrive => Withdraw in c.lanes && c.lanes[Withdraw].moved && !c.arrived
    case Deliver => LifiRan(c) && !c.delivered && !c.givenBack
    case GiveBack => LifiRan(c) && !c.delivered && !c.givenBack
    case CopyInput => !InputMoved(c) && !c.copied
    case CreditDeposit => Deposit in c.evm && c.evm[Deposit].ran && !c.credited
    case CreditRefund => Refund in c.evm && c.evm[Refund].ran && !c.returned
  }

  const FRESH_TX := Tx(Queued, false, false, false)
  const FRESH_ROW := Row(Waiting, false, NoError)

  /** An insert that keeps what its owner already has. */
  function WithTx(c: Case, kind: EvmKind): Case {
    c.(evm := if kind in c.evm then c.evm else c.evm[kind := FRESH_TX])
  }

  function At(c: Case, p: Place): Case {
    c.(place := p, been := c.been + {p})
  }

  /** Money that came in by itself. */
  function Noted(c: Case, act: Act): Case {
    c.(arrived := c.arrived || act.Arrive?, delivered := c.delivered || act.Deliver?,
       credited := c.credited || act.CreditDeposit?, returned := c.returned || act.CreditRefund?,
       givenBack := c.givenBack || act.GiveBack?, copied := c.copied || act.CopyInput?)
  }

  function Apply(c: Case, act: Act): Case
    requires Enabled(c, act)
  {
    match act
    case Move(p) => At(c, p)
    case Submit(kind) => WithTx(c, kind)
    case SendLifi => At(WithTx(c, Lifi), ExecuteSent)
    case Queue(lane) => c.(lanes := if lane in c.lanes then c.lanes else c.lanes[lane := FRESH_ROW])
    case Retry(kind) => c.(evm := c.evm[kind := FRESH_TX])
    case OnEvm(kind, e) => c.(evm := c.evm[kind := NextTx(c.evm[kind], e)])
    case OnLane(lane, e) => c.(lanes := c.lanes[lane := NextRow(c.lanes[lane], lane, e)])
    case _ => Noted(c, act)
  }

  function New(internal: bool): Case {
    Case(internal, Scheduled, {Scheduled}, map[], map[], false, false, false, false, false, false)
  }

  // ---- What every state keeps ----

  ghost predicate TxOk(t: Tx) {
    && (t.status == Mined ==> t.ran)
    && (t.status in {Reverted, Failed} ==> !t.ran)
    && (t.ran ==> t.signed)
  }

  ghost predicate RowOk(r: Row) {
    && (r.status == Landed ==> r.moved)
    && (r.status == Lost && r.error != Foreign ==> !r.moved)
    && (r.status == Waiting ==> !r.moved)
  }

  function Rank(p: Place): nat {
    match p
    case Scheduled => 0
    case Pricing => 1
    case InternalSent => 2
    case InputSent => 1
    case WithdrawSent => 2
    case ExecuteFunding => 3
    case ExecuteSent => 4
    case ExecuteBridging => 5
    case DepositSent => 6
    case DepositCrediting => 7
    case CreditSent => 8
    case Redeposit => 5
    case RefundCrediting => 6
    case RefundPayout => 7
    case _ => 9
  }

  predicate Finished(p: Place) {
    p in {Completed, Refunded, Parked, NoFundsMoved}
  }

  /** What having been at `p` proves about the swap's writes, for good. */
  ghost predicate Proves(c: Case, p: Place) {
    match p
    case Pricing => c.internal
    case InternalSent => c.internal
    case InputSent => !c.internal
    case WithdrawSent => IsAt(c, Input, Mined) && InputSent in c.been
    case ExecuteFunding => LaneAt(c, Withdraw, Landed) && WithdrawSent in c.been
    case ExecuteSent => Lifi in c.evm && ExecuteFunding in c.been
    case ExecuteBridging => IsAt(c, Lifi, Mined) && ExecuteSent in c.been
    case DepositSent => IsAt(c, Lifi, Mined) && ExecuteSent in c.been && c.delivered
    case DepositCrediting => IsAt(c, Deposit, Mined) && DepositSent in c.been
    case CreditSent => c.credited && DepositCrediting in c.been
    case Redeposit => ExecuteFunding in c.been && (Lifi !in c.evm || Dead(c, Lifi)) && Rank(c.place) >= 5
    case RefundCrediting => IsAt(c, Refund, Mined) && Redeposit in c.been
    case RefundPayout =>
      || (LaneAt(c, Withdraw, Lost) && WithdrawSent in c.been)
      || (c.returned && RefundCrediting in c.been)
    case Completed => c.place == Completed && (LaneAt(c, Credit, Landed) || LaneAt(c, Internal, Landed))
    case Refunded => c.place == Refunded && LaneAt(c, Payout, Landed)
    case Parked => c.place == Parked
    case NoFundsMoved =>
      && c.place == NoFundsMoved
      && if c.internal then InternalSent !in c.been || (LaneAt(c, Internal, Lost) && c.lanes[Internal].error != Foreign)
         else Dead(c, Input)
    case Scheduled => true
  }

  ghost predicate Inv(c: Case) {
    && c.place in c.been
    && (forall p <- c.been :: Proves(c, p))
    && (forall k <- c.evm :: TxOk(c.evm[k]) && SubmittedAt(k) in c.been)
    && (forall l <- c.lanes :: RowOk(c.lanes[l]) && QueuedAt(l) in c.been)
    && (forall p <- c.been :: Rank(p) <= Rank(c.place))
    && (forall k :: Attended(c, k))
    && (forall l :: Written(c, l))
    && Caused(c)
  }

  /** Nothing is delivered or credited that was not sent. */
  ghost predicate Caused(c: Case) {
    && (c.delivered ==> Lifi in c.evm && c.evm[Lifi].ran)
    && (c.credited ==> Deposit in c.evm && c.evm[Deposit].ran)
    && (c.returned ==> Refund in c.evm && c.evm[Refund].ran)
    && (c.arrived ==> Withdraw in c.lanes && c.lanes[Withdraw].moved)
    && Apart(c)
  }

  /** What LiFi gave back it did not deliver, and an input a copy moved we did not. */
  predicate Apart(c: Case) {
    (c.givenBack ==> LifiRan(c) && !c.delivered) && (c.copied ==> !InputMoved(c))
  }

  /** A tx that is not final holds its swap where it was sent from, so only there is it ever queued again. */
  ghost predicate Attended(c: Case, k: EvmKind) {
    && (k in c.evm && (c.evm[k].status == Queued || c.evm[k].Held()) ==>
         c.place == SubmittedAt(k) || c.place == SentAt(k))
    && (k == Input && InputSent in c.been && c.place != InputSent ==> Input in c.evm)
  }

  /** A swap leaves the place a lane write is made at only once it was made. */
  ghost predicate Written(c: Case, l: LaneKind) {
    QueuedAt(l) in c.been && c.place != QueuedAt(l) ==> l in c.lanes
  }

  ghost predicate LaterTx(c: Case, d: Case, k: EvmKind) {
    k in c.evm ==> k in d.evm && (IsAt(c, k, Mined) ==> IsAt(d, k, Mined)) && (Dead(c, k) ==> Dead(d, k))
  }

  ghost predicate LaterRow(c: Case, d: Case, l: LaneKind) {
    l in c.lanes ==>
      && l in d.lanes
      && (c.lanes[l].status in {Landed, Lost} ==>
           d.lanes[l].status == c.lanes[l].status && d.lanes[l].error == c.lanes[l].error)
  }

  ghost predicate LaterPlace(c: Case, d: Case) {
    && c.internal == d.internal && c.been <= d.been
    && (d.place == c.place ==> d.been == c.been)
    && (d.place == c.place || (Rank(c.place) < Rank(d.place) && !Finished(c.place)))
    && (c.delivered ==> d.delivered) && (c.credited ==> d.credited) && (c.returned ==> d.returned)
    && (Lifi in d.evm ==> Lifi in c.evm || Rank(c.place) < 5)
  }

  /** Evidence only grows: `d` is later than `c`. */
  ghost predicate Later(c: Case, d: Case) {
    LaterPlace(c, d) && (forall k :: LaterTx(c, d, k)) && forall l :: LaterRow(c, d, l)
  }

  /** Every move goes up a fixed rank, so steps never cycle, and finished places are left by none. */
  lemma MovesUp(c: Case, p: Place)
    requires CanMove(c, p)
    ensures Rank(c.place) < Rank(p) && !Finished(c.place)
  {
  }

  lemma StepLaterPlace(c: Case, act: Act)
    requires Enabled(c, act)
    ensures LaterPlace(c, Apply(c, act))
  {
    if act.Move? {
      MovesUp(c, act.place);
    } else if act.Submit? || act.SendLifi? {
      InsertLater(c, act);
    } else {
      StaysLater(c, act);
    }
    hide CanMove, CanTx, CanRow, NextTx, NextRow, SubmittedAt, SentAt, QueuedAt, InputMoved, LifiRan;
  }

  lemma InsertLater(c: Case, act: Act)
    requires Enabled(c, act) && (act.Submit? || act.SendLifi?)
    ensures LaterPlace(c, Apply(c, act))
  {
    match act
    case Submit(kind) => SubmitLater(c, kind);
    case SendLifi => SendLater(c);
    hide *;
  }

  lemma SubmitLater(c: Case, kind: EvmKind)
    requires Enabled(c, Submit(kind))
    ensures LaterPlace(c, Apply(c, Submit(kind)))
  {
    hide CanMove, CanTx, CanRow, NextTx, NextRow, SentAt, QueuedAt, InputMoved, LifiRan;
  }

  lemma SendLater(c: Case)
    requires Enabled(c, SendLifi)
    ensures LaterPlace(c, Apply(c, SendLifi))
  {
    hide CanMove, CanTx, CanRow, NextTx, NextRow, SubmittedAt, SentAt, QueuedAt, InputMoved, LifiRan;
  }

  lemma StaysLater(c: Case, act: Act)
    requires Enabled(c, act) && !act.Move? && !act.Submit? && !act.SendLifi?
    ensures LaterPlace(c, Apply(c, act))
  {
    hide CanMove, CanTx, CanRow, NextTx, NextRow, SubmittedAt, SentAt, QueuedAt, InputMoved, LifiRan, Rank;
  }

  /** What an act does to the tx of `k`. */
  ghost predicate TxAfter(c: Case, act: Act, d: Case, k: EvmKind) {
    if act.OnEvm? && act.kind == k then
      k in c.evm && k in d.evm && CanTx(c.evm[k], act.evm) && d.evm[k] == NextTx(c.evm[k], act.evm)
    else
      || (k in c.evm && k in d.evm && d.evm[k] == c.evm[k])
      || (k !in c.evm && k !in d.evm)
      || (k !in c.evm && k in d.evm && d.evm[k] == FRESH_TX && SubmittedAt(k) in c.been + {c.place})
      || (k in c.evm && k in d.evm && d.evm[k] == FRESH_TX && c.evm[k].Held())
  }

  /** What an act does to the lane row of `l`. */
  ghost predicate RowAfter(c: Case, act: Act, d: Case, l: LaneKind) {
    if act.OnLane? && act.lane == l then
      && l in c.lanes && l in d.lanes && CanRow(c.lanes[l], l, act.event)
      && d.lanes[l] == NextRow(c.lanes[l], l, act.event)
    else
      || (l in c.lanes && l in d.lanes && d.lanes[l] == c.lanes[l])
      || (l !in c.lanes && l !in d.lanes)
      || (l !in c.lanes && l in d.lanes && d.lanes[l] == FRESH_ROW && QueuedAt(l) in c.been)
  }

  lemma TxChange(c: Case, act: Act, k: EvmKind)
    requires Enabled(c, act)
    ensures TxAfter(c, act, Apply(c, act), k) && c.been <= Apply(c, act).been
  {
    if act.OnEvm? || act.Retry? {
      TxRewritten(c, act, k);
    } else {
      TxKept(c, act, k);
    }
  }

  lemma TxRewritten(c: Case, act: Act, k: EvmKind)
    requires Enabled(c, act) && (act.OnEvm? || act.Retry?)
    ensures TxAfter(c, act, Apply(c, act), k) && c.been <= Apply(c, act).been
  {
    hide CanMove, CanRow, CanTx, NextTx, NextRow;
  }

  lemma TxKept(c: Case, act: Act, k: EvmKind)
    requires Enabled(c, act) && !act.OnEvm? && !act.Retry?
    ensures TxAfter(c, act, Apply(c, act), k) && c.been <= Apply(c, act).been
  {
    if act.Submit? || act.SendLifi? {
      TxInserted(c, act, k);
    } else {
      TxUntouched(c, act, k);
    }
  }

  lemma TxInserted(c: Case, act: Act, k: EvmKind)
    requires Enabled(c, act) && (act.Submit? || act.SendLifi?)
    ensures TxAfter(c, act, Apply(c, act), k) && c.been <= Apply(c, act).been
  {
    if act.Submit? {
      TxSubmitted(c, act.kind, k);
    } else {
      LifiSent(c, k);
    }
    hide *;
  }

  lemma TxSubmitted(c: Case, kind: EvmKind, k: EvmKind)
    requires Enabled(c, Submit(kind))
    ensures TxAfter(c, Submit(kind), Apply(c, Submit(kind)), k) && c.been <= Apply(c, Submit(kind)).been
  {
    hide CanMove, CanRow, CanTx, NextTx, NextRow, Rank, QueuedAt, SentAt, LaneAt;
  }

  lemma LifiSent(c: Case, k: EvmKind)
    requires Enabled(c, SendLifi)
    ensures TxAfter(c, SendLifi, Apply(c, SendLifi), k) && c.been <= Apply(c, SendLifi).been
  {
    hide CanMove, CanRow, CanTx, NextTx, NextRow, Rank, QueuedAt, SentAt, LaneAt;
  }

  lemma TxUntouched(c: Case, act: Act, k: EvmKind)
    requires Enabled(c, act) && !act.OnEvm? && !act.Retry? && !act.Submit? && !act.SendLifi?
    ensures TxAfter(c, act, Apply(c, act), k) && c.been <= Apply(c, act).been
  {
    hide CanMove, CanRow, CanTx, NextTx, NextRow, Rank, QueuedAt, SentAt, LaneAt;
  }

  lemma RowChange(c: Case, act: Act, l: LaneKind)
    requires Enabled(c, act)
    ensures RowAfter(c, act, Apply(c, act), l) && c.been <= Apply(c, act).been
  {
    hide CanMove, CanRow, CanTx, NextTx, NextRow;
  }

  lemma StepLaterTx(c: Case, act: Act, k: EvmKind)
    requires Enabled(c, act)
    ensures LaterTx(c, Apply(c, act), k)
  {
    TxChange(c, act, k);
    hide Enabled, Apply;
  }

  lemma StepLaterRow(c: Case, act: Act, l: LaneKind)
    requires Enabled(c, act)
    ensures LaterRow(c, Apply(c, act), l)
  {
    RowChange(c, act, l);
    hide Enabled, Apply;
  }

  lemma StepIsLater(c: Case, act: Act)
    requires Enabled(c, act)
    ensures Later(c, Apply(c, act))
  {
    hide Enabled, Apply, LaterTx, LaterRow, LaterPlace;
    StepLaterPlace(c, act);
    forall k ensures LaterTx(c, Apply(c, act), k) {
      StepLaterTx(c, act, k);
    }
    forall l ensures LaterRow(c, Apply(c, act), l) {
      StepLaterRow(c, act, l);
    }
  }

  lemma KeepsProof(c: Case, d: Case, p: Place)
    requires Later(c, d) && p in c.been && Proves(c, p)
    ensures Proves(d, p)
  {
    assert LaterTx(c, d, Input) && LaterTx(c, d, Lifi) && LaterTx(c, d, Deposit) && LaterTx(c, d, Refund);
    assert LaterRow(c, d, Internal) && LaterRow(c, d, Withdraw) && LaterRow(c, d, Credit) && LaterRow(c, d, Payout);
  }

  /** A move proves what its place stands for. */
  lemma MoveProves(c: Case, p: Place)
    requires CanMove(c, p) && Proves(c, c.place) && c.place in c.been
    requires InternalSent in c.been ==> Rank(InternalSent) <= Rank(c.place)
    ensures Proves(At(c, p), p)
  {
  }

  lemma SendProves(c: Case)
    requires Inv(c) && c.place == ExecuteFunding
    ensures Proves(Apply(c, SendLifi), ExecuteSent)
  {
    hide CanTx, CanRow, NextTx, NextRow;
  }

  lemma ActProves(c: Case, act: Act)
    requires Inv(c) && Enabled(c, act) && (act.Move? || act.SendLifi?)
    ensures Proves(Apply(c, act), Apply(c, act).place)
  {
    if act.SendLifi? {
      SendProves(c);
    } else {
      assert Proves(c, c.place);
      MoveProves(c, act.place);
    }
    hide CanMove, Proves, CanTx, CanRow;
  }

  lemma TxStepOk(t: Tx, e: EvmEvent)
    requires TxOk(t) && CanTx(t, e)
    ensures TxOk(NextTx(t, e))
  {
  }

  lemma RowStepOk(r: Row, lane: LaneKind, e: LaneEvent)
    requires RowOk(r) && CanRow(r, lane, e)
    ensures RowOk(NextRow(r, lane, e))
  {
  }

  lemma KeepsTx(c: Case, act: Act, k: EvmKind)
    requires Inv(c) && Enabled(c, act) && k in Apply(c, act).evm
    ensures TxOk(Apply(c, act).evm[k]) && SubmittedAt(k) in Apply(c, act).been
  {
    hide Enabled, Apply, Proves, NextTx, CanTx, Rank;
    TxChange(c, act, k);
    if act.OnEvm? && act.kind == k {
      TxStepOk(c.evm[k], act.evm);
    }
  }

  lemma KeepsLane(c: Case, act: Act, l: LaneKind)
    requires Inv(c) && Enabled(c, act) && l in Apply(c, act).lanes
    ensures RowOk(Apply(c, act).lanes[l]) && QueuedAt(l) in Apply(c, act).been
  {
    hide Enabled, Apply, Proves, NextRow, CanRow, Rank;
    RowChange(c, act, l);
    if act.OnLane? && act.lane == l {
      RowStepOk(c.lanes[l], l, act.event);
    }
  }

  lemma KeepsAttended(c: Case, act: Act, k: EvmKind)
    requires Enabled(c, act) && Attended(c, k)
    ensures Attended(Apply(c, act), k)
  {
    if act.Move? {
      MoveAttended(c, act.place, k);
    } else {
      StillAttended(c, act, k);
    }
  }

  lemma MoveAttended(c: Case, p: Place, k: EvmKind)
    requires CanMove(c, p) && Attended(c, k)
    ensures Attended(At(c, p), k)
  {
  }

  lemma StillAttended(c: Case, act: Act, k: EvmKind)
    requires !act.Move? && Enabled(c, act) && Attended(c, k)
    ensures Attended(Apply(c, act), k)
  {
    if act.OnEvm? {
      EvmAttended(c, act, k);
    } else {
      OtherAttended(c, act, k);
    }
  }

  lemma EvmAttended(c: Case, act: Act, k: EvmKind)
    requires act.OnEvm? && Enabled(c, act) && Attended(c, k)
    ensures Attended(Apply(c, act), k)
  {
    hide CanMove, CanRow, NextRow;
  }

  lemma OtherAttended(c: Case, act: Act, k: EvmKind)
    requires !act.Move? && !act.OnEvm? && Enabled(c, act) && Attended(c, k)
    ensures Attended(Apply(c, act), k)
  {
    if act.Submit? || act.SendLifi? || act.Retry? {
      WriteAttended(c, act, k);
    } else {
      RestAttended(c, act, k);
    }
  }

  lemma WriteAttended(c: Case, act: Act, k: EvmKind)
    requires (act.Submit? || act.SendLifi? || act.Retry?) && Enabled(c, act) && Attended(c, k)
    ensures Attended(Apply(c, act), k)
  {
    match act
    case Submit(kind) => SubmitAttended(c, kind, k);
    case SendLifi => SendAttended(c, k);
    case Retry(kind) => RetryAttended(c, kind, k);
    hide *;
  }

  lemma SubmitAttended(c: Case, kind: EvmKind, k: EvmKind)
    requires Enabled(c, Submit(kind)) && Attended(c, k)
    ensures Attended(Apply(c, Submit(kind)), k)
  {
    hide CanMove, CanRow, NextRow, CanTx, NextTx, InputMoved, LifiRan, QueuedAt, LaneAt;
  }

  lemma SendAttended(c: Case, k: EvmKind)
    requires Enabled(c, SendLifi) && Attended(c, k)
    ensures Attended(Apply(c, SendLifi), k)
  {
    SendIs(c);
    hide Apply, Enabled, CanMove, CanRow, NextRow, CanTx, NextTx, InputMoved, LifiRan, QueuedAt, LaneAt;
  }

  lemma SendIs(c: Case)
    requires Enabled(c, SendLifi)
    ensures var d := Apply(c, SendLifi);
            && c.place == ExecuteFunding && d.place == ExecuteSent && d.been == c.been + {ExecuteSent}
            && d.evm == if Lifi in c.evm then c.evm else c.evm[Lifi := FRESH_TX]
  {
    hide CanMove, CanRow, NextRow, CanTx, NextTx, InputMoved, LifiRan, QueuedAt, LaneAt, SubmittedAt, SentAt;
  }

  lemma RetryAttended(c: Case, kind: EvmKind, k: EvmKind)
    requires Enabled(c, Retry(kind)) && Attended(c, k)
    ensures Attended(Apply(c, Retry(kind)), k)
  {
    hide CanMove, CanRow, NextRow, CanTx, NextTx, InputMoved, LifiRan, QueuedAt, LaneAt;
  }

  lemma RestAttended(c: Case, act: Act, k: EvmKind)
    requires !act.Move? && !act.OnEvm? && !act.Submit? && !act.SendLifi? && !act.Retry?
    requires Enabled(c, act) && Attended(c, k)
    ensures Attended(Apply(c, act), k)
  {
    hide CanMove, CanRow, NextRow, CanTx, NextTx, SubmittedAt, SentAt;
  }

  lemma KeepsWritten(c: Case, act: Act, l: LaneKind)
    requires Enabled(c, act) && Written(c, l)
    ensures Written(Apply(c, act), l)
  {
    if act.Move? {
      MoveWritten(c, act.place, l);
    }
    hide CanMove, CanTx, CanRow, NextTx;
  }

  lemma MoveWritten(c: Case, p: Place, l: LaneKind)
    requires CanMove(c, p) && Written(c, l)
    ensures Written(At(c, p), l)
  {
  }

  lemma KeepsCaused(c: Case, act: Act)
    requires Inv(c) && Enabled(c, act)
    ensures Caused(Apply(c, act))
  {
    var d := Apply(c, act);
    assert forall k <- c.evm :: TxOk(c.evm[k]);
    TxChange(c, act, Lifi);
    TxChange(c, act, Deposit);
    TxChange(c, act, Refund);
    RowChange(c, act, Withdraw);
    FlagsChange(c, act);
    KeepsApart(c, act);
    hide Apply, Enabled, Inv, Proves, Attended, Written, Apart;
  }

  lemma KeepsApart(c: Case, act: Act)
    requires Apart(c) && Enabled(c, act) && (Lifi in c.evm ==> TxOk(c.evm[Lifi]))
    ensures Apart(Apply(c, act))
  {
    TxChange(c, act, Lifi);
    TxChange(c, act, Input);
    RowChange(c, act, Internal);
    FlagsChange(c, act);
    hide Apply, Enabled, Inv, Proves, Attended, Written, QueuedAt, SubmittedAt;
  }

  /** Money that came in, by itself. */
  predicate Comes(act: Act) {
    || act.Arrive? || act.Deliver? || act.GiveBack? || act.CopyInput? || act.CreditDeposit? || act.CreditRefund?
  }

  predicate SameMoney(c: Case, d: Case) {
    && d.arrived == c.arrived && d.delivered == c.delivered && d.credited == c.credited && d.returned == c.returned
    && d.givenBack == c.givenBack && d.copied == c.copied
  }

  lemma MoneyStays(c: Case, act: Act)
    requires Enabled(c, act) && !Comes(act)
    ensures SameMoney(c, Apply(c, act))
  {
    hide Enabled, NextTx, NextRow;
  }

  predicate SamePlace(c: Case, d: Case) {
    d.place == c.place
  }

  lemma PlaceStays(c: Case, act: Act)
    requires Enabled(c, act) && !act.Move? && !act.SendLifi?
    ensures SamePlace(c, Apply(c, act))
  {
    hide Enabled, NextTx, NextRow, At;
  }

  lemma FlagsChange(c: Case, act: Act)
    requires Enabled(c, act)
    ensures Apply(c, act).delivered ==> c.delivered || (Lifi in c.evm && c.evm[Lifi].ran && Apply(c, act).evm == c.evm)
    ensures Apply(c, act).credited && !c.credited ==>
              Deposit in c.evm && c.evm[Deposit].ran && Apply(c, act).evm == c.evm
    ensures Apply(c, act).returned && !c.returned ==>
              Refund in c.evm && c.evm[Refund].ran && Apply(c, act).evm == c.evm
    ensures Apply(c, act).arrived && !c.arrived ==>
              Withdraw in c.lanes && c.lanes[Withdraw].moved && Apply(c, act).lanes == c.lanes
    ensures Apply(c, act).givenBack ==> (c.givenBack && Apply(c, act).delivered == c.delivered)
                                        || (LifiRan(c) && !c.delivered && Apply(c, act) == c.(givenBack := true))
    ensures Apply(c, act).copied ==>
              || (c.copied && act != OnEvm(Input, Execute) && act != OnLane(Internal, Moved))
              || (!InputMoved(c) && Apply(c, act) == c.(copied := true))
  {
    hide CanMove, CanTx, CanRow, NextTx, NextRow;
  }

  lemma OnlyMovesVisit(c: Case, act: Act, p: Place)
    requires Enabled(c, act) && p in Apply(c, act).been && p !in c.been
    ensures (act.Move? || act.SendLifi?) && p == Apply(c, act).place
  {
    hide CanMove, CanTx, CanRow;
  }

  lemma KeepsRanks(c: Case, act: Act)
    requires Inv(c) && Enabled(c, act)
    ensures var d := Apply(c, act); d.place in d.been && forall p <- d.been :: Rank(p) <= Rank(d.place)
  {
    if act.Move? {
      MovesUp(c, act.place);
    }
    hide CanMove, CanTx, CanRow;
  }

  lemma KeepsInv(c: Case, act: Act)
    requires Inv(c) && Enabled(c, act)
    ensures Inv(Apply(c, act))
  {
    var d := Apply(c, act);
    hide Apply, Enabled, Proves;
    StepIsLater(c, act);
    KeepsRanks(c, act);
    forall p | p in d.been ensures Proves(d, p) {
      if p in c.been {
        assert Proves(c, p);
        KeepsProof(c, d, p);
      } else {
        OnlyMovesVisit(c, act, p);
        ActProves(c, act);
      }
    }
    forall k | k in d.evm ensures TxOk(d.evm[k]) && SubmittedAt(k) in d.been {
      KeepsTx(c, act, k);
    }
    forall l | l in d.lanes ensures RowOk(d.lanes[l]) && QueuedAt(l) in d.been {
      KeepsLane(c, act, l);
    }
    KeepsCaused(c, act);
    forall k ensures Attended(d, k) {
      KeepsAttended(c, act, k);
    }
    forall l ensures Written(d, l) {
      KeepsWritten(c, act, l);
    }
  }

  // ---- Runs ----

  /** Finished is for good. */
  lemma {:induction false} FinishedForGood(c: Case, acts: seq<Act>)
    requires Finished(c.place) && Allowed(c, acts)
    ensures Run(c, acts).place == c.place && Run(c, acts).been == c.been
  {
    if acts != [] {
      FinishedForGood(c, acts[..|acts| - 1]);
      StepLaterPlace(Run(c, acts[..|acts| - 1]), acts[|acts| - 1]);
    }
  }

  ghost predicate Allowed(c: Case, acts: seq<Act>)
    decreases |acts|, 0
  {
    acts == [] || (Allowed(c, acts[..|acts| - 1]) && Enabled(Run(c, acts[..|acts| - 1]), acts[|acts| - 1]))
  }

  ghost function Run(c: Case, acts: seq<Act>): Case
    requires Allowed(c, acts)
    decreases |acts|, 1
  {
    if acts == [] then c else Apply(Run(c, acts[..|acts| - 1]), acts[|acts| - 1])
  }

  lemma {:induction false} InvRun(c: Case, acts: seq<Act>)
    requires Inv(c) && Allowed(c, acts)
    ensures Inv(Run(c, acts))
  {
    if acts != [] {
      InvRun(c, acts[..|acts| - 1]);
      KeepsInv(Run(c, acts[..|acts| - 1]), acts[|acts| - 1]);
    }
  }

  lemma {:induction false} RunOne(c: Case, acts: seq<Act>, act: Act)
    requires Allowed(c, acts) && Enabled(Run(c, acts), act)
    ensures Allowed(c, acts + [act]) && Run(c, acts + [act]) == Apply(Run(c, acts), act)
  {
    assert (acts + [act])[..|acts|] == acts;
  }

  lemma NewIsOk(internal: bool)
    ensures Inv(New(internal))
  {
  }

  /** Whether the user was paid by this write. */
  predicate Paid(c: Case, lane: LaneKind) {
    lane in {Internal, Credit, Payout} && lane in c.lanes && c.lanes[lane].moved
  }

  /** The user is paid at most once: never both the output and the input back,
      not even by writes still queued. */
  lemma PaysOnce(internal: bool, acts: seq<Act>, a: LaneKind, b: LaneKind)
    requires Allowed(New(internal), acts) && a in {Internal, Credit, Payout} && b in {Internal, Credit, Payout}
    requires a in Run(New(internal), acts).lanes && b in Run(New(internal), acts).lanes
    ensures a == b
  {
    NewIsOk(internal);
    InvRun(New(internal), acts);
    WritesExclude(Run(New(internal), acts));
  }

  lemma WritesExclude(c: Case)
    requires Inv(c)
    ensures !(Credit in c.lanes && Payout in c.lanes)
    ensures Internal in c.lanes ==> Credit !in c.lanes && Payout !in c.lanes
  {
    LifiHistory(c);
    if Internal in c.lanes {
      assert Proves(c, InternalSent) && Proves(c, Pricing);
    }
  }

  /** The way to the output. */
  lemma OutputPath(c: Case)
    requires Inv(c)
    ensures CreditSent in c.been ==> DepositSent in c.been
    ensures DepositSent in c.been ==> IsAt(c, Lifi, Mined) && ExecuteFunding in c.been
    ensures ExecuteFunding in c.been ==> LaneAt(c, Withdraw, Landed) && !c.internal
  {
    if CreditSent in c.been {
      assert Proves(c, CreditSent) && Proves(c, DepositCrediting);
    }
    if DepositSent in c.been {
      assert Proves(c, DepositSent) && Proves(c, ExecuteSent);
    }
    if ExecuteFunding in c.been {
      assert Proves(c, ExecuteFunding) && Proves(c, WithdrawSent) && Proves(c, InputSent);
    }
  }

  /** The ways to the refund: the withdrawal failed, or the LiFi tx never took effect. */
  lemma RefundPath(c: Case)
    requires Inv(c)
    ensures Redeposit in c.been ==> ExecuteFunding in c.been && (Lifi !in c.evm || Dead(c, Lifi))
    ensures RefundPayout in c.been ==> !c.internal && (LaneAt(c, Withdraw, Lost) || Redeposit in c.been)
  {
    if Redeposit in c.been {
      assert Proves(c, Redeposit);
    }
    if RefundPayout in c.been {
      assert Proves(c, RefundPayout);
      if RefundCrediting in c.been {
        assert Proves(c, RefundCrediting) && Proves(c, Redeposit) && Proves(c, ExecuteFunding);
      }
      assert Proves(c, WithdrawSent) && Proves(c, InputSent);
    }
  }

  /** The output and the refund branches never meet. */
  lemma LifiHistory(c: Case)
    requires Inv(c)
    ensures CreditSent in c.been ==> DepositSent in c.been
    ensures DepositSent in c.been ==> Redeposit !in c.been && RefundPayout !in c.been && !c.internal
    ensures RefundPayout in c.been ==> !c.internal
  {
    hide Inv, Proves;
    OutputPath(c);
    RefundPath(c);
  }

  lemma CompletedIsPaid(c: Case)
    requires Inv(c) && c.place == Completed
    ensures exists l :: l in {Credit, Internal} && LaneAt(c, l, Landed) && Paid(c, l)
  {
    assert Proves(c, Completed);
    var l := if LaneAt(c, Credit, Landed) then Credit else Internal;
    assert RowOk(c.lanes[l]) && LaneAt(c, l, Landed);
  }

  lemma RefundedIsPaid(c: Case)
    requires Inv(c) && c.place == Refunded
    ensures LaneAt(c, Payout, Landed) && Paid(c, Payout) && !LifiRan(c)
  {
    assert Proves(c, Refunded) && RowOk(c.lanes[Payout]);
    RefundsKeptInput(c);
  }

  lemma NoFundsIsTrue(c: Case)
    requires Inv(c) && c.place == NoFundsMoved
    ensures !InputMoved(c)
  {
    assert Proves(c, NoFundsMoved);
    assert Input in c.evm ==> TxOk(c.evm[Input]) && Proves(c, InputSent);
    assert Internal in c.lanes ==> RowOk(c.lanes[Internal]) && Proves(c, InternalSent);
  }

  /** When a swap is recorded as NO_FUNDS_MOVED its input has not moved, by our tx or by a
      copy of it, unless the swap is internal: that venue never reads the user's nonce. */
  lemma NoFundsMovedIff(c: Case)
    requires Inv(c) && Enabled(c, Move(NoFundsMoved))
    ensures InputMoved(c) || c.copied <==> c.internal && c.copied
  {
    KeepsInv(c, Move(NoFundsMoved));
    NoFundsIsTrue(At(c, NoFundsMoved));
    if !c.internal {
      LifiReadsNonce(c);
    }
    hide Inv, CanMove, InputMoved, Enabled;
    SameInput(c, NoFundsMoved);
  }

  lemma SameInput(c: Case, p: Place)
    ensures InputMoved(At(c, p)) <==> InputMoved(c)
  {
  }

  lemma LifiReadsNonce(c: Case)
    requires Inv(c) && CanMove(c, NoFundsMoved) && !c.internal
    ensures !c.copied
  {
    assert Proves(c, c.place);
    hide Inv, LaneAt;
  }

  /** An internal swap whose input a copy moved before it was priced: the simulated
      transfer reverts, and it ends as if nothing had moved. */
  lemma CopiedUnseen() returns (acts: seq<Act>)
    ensures Allowed(New(true), acts)
    ensures Run(New(true), acts).place == NoFundsMoved && Run(New(true), acts).copied
  {
    var c := New(true);
    CopiedSteps(c);
    hide Apply, Enabled, New;
    acts := [];
    RunOne(c, acts, CopyInput);
    acts := acts + [CopyInput];
    RunOne(c, acts, Move(Pricing));
    acts := acts + [Move(Pricing)];
    RunOne(c, acts, Move(NoFundsMoved));
    acts := acts + [Move(NoFundsMoved)];
  }

  lemma CopiedSteps(c: Case)
    requires c == New(true)
    ensures Enabled(c, CopyInput)
    ensures var d := Apply(c, CopyInput);
            Enabled(d, Move(Pricing)) && Enabled(Apply(d, Move(Pricing)), Move(NoFundsMoved))
    ensures var end := Apply(Apply(Apply(c, CopyInput), Move(Pricing)), Move(NoFundsMoved));
            end.place == NoFundsMoved && end.copied
  {
  }

  /** What a finished swap's status says is so. */
  lemma FinishedIsTrue(internal: bool, acts: seq<Act>)
    requires Allowed(New(internal), acts)
    ensures var c := Run(New(internal), acts);
            && (c.place == Completed ==> exists l :: l in {Credit, Internal} && LaneAt(c, l, Landed) && Paid(c, l))
            && (c.place == Refunded ==> LaneAt(c, Payout, Landed) && Paid(c, Payout) && !LifiRan(c))
            && (c.place == NoFundsMoved ==> !InputMoved(c))
  {
    NewIsOk(internal);
    InvRun(New(internal), acts);
    hide Inv;
    var c := Run(New(internal), acts);
    if c.place == Completed {
      CompletedIsPaid(c);
    } else if c.place == Refunded {
      RefundedIsPaid(c);
    } else if c.place == NoFundsMoved {
      NoFundsIsTrue(c);
    }
  }

  lemma RefundsKeptInput(c: Case)
    requires Inv(c) && RefundPayout in c.been
    ensures !LifiRan(c)
  {
  }
}
