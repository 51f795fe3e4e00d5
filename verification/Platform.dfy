/** Every operation of the platform as a step, and what every run of steps keeps. */
module Platform {
  import opened Wrappers
  import opened Totals
  import opened Ledger
  import opened Tables
  import opened Memberships
  import opened Contributions
  import opened Loans
  import opened Payouts
  import opened Circles
  import A = Audit
  import Sorter
  import P = Positions

  /** External money moves a user's wallet through the provider-facing writers; Invites stands for any
      change of the invite table. */
  datatype Step =
    | OpenWallet(user: nat)
    | External(user: nat, op: A.Op)
    | Create(users: set<nat>, circle: nat, row: CircleRow)
    | Update(circle: nat, admin: nat, change: Change)
    | Configure(circle: nat, admin: nat, logic: Option<Sorter.PayoutLogic>, asns: seq<P.Assignment>, listing: seq<nat>)
    | Invites(invites: map<nat, InviteRow>)
    | Join(now: int, user: nat, circle: nat)
    | JoinInvited(now: int, user: nat, token: nat)
    | Leave(user: nat, circle: nat)
    | Cancel(user: nat, circle: nat)
    | Approve(circle: nat, admin: nat, user: nat)
    | Reject(circle: nat, admin: nat, user: nat)
    | Activate(a: Activation)
    | Contribute(now: int, user: nat, circle: nat, cycle: int)
    | Payout(circle: nat, cycle: int)
    | Reverse(payout: nat, recipient: nat, amount: int, schedule: (nat, int))
    | Retry(payout: nat)
    | Borrow(user: nat, circle: nat, score: int, seen: Tables)

  ghost function OpenedWallet(t: Tables, user: nat): Result<Tables, Error> {
    if Of(user) in t.wallets then Failure(UniqueViolation)
    else Success(t.(wallets := t.wallets[Of(user) := Wallet([], map[])]))
  }

  /** The writers that bypass the ledger service never use a UUID drawn inside a circle's transaction. */
  predicate Provider(op: A.Op) {
    !op.Managed? && !op.Reverse? && !op.ref.Drawn?
  }

  ghost function Moved(t: Tables, user: nat, op: A.Op): Result<Tables, Error>
    requires Provider(op)
  {
    if Of(user) !in t.wallets then Failure(WalletNotFound)
    else
      match A.Attempt(t.wallets[Of(user)], op)
      case Failure(e) => Failure(LedgerRefused(e))
      case Success(w) => Success(t.(wallets := t.wallets[Of(user) := w]))
  }

  /** What earlier tables may say of a circle and a member of it: if the circle was active then, it has started since,
      at the same amount; and if the membership was active too, it is still there, and not as a mere request. */
  predicate Earlier(seen: Tables, t: Tables, circle: nat, user: nat) {
    circle in seen.circles && seen.circles[circle].status.Active? ==>
      && circle in t.circles && !t.circles[circle].status.Draft?
      && t.circles[circle].amount == seen.circles[circle].amount
      && ((circle, user) in seen.members && seen.members[(circle, user)].status.Active? ==>
           && (circle, user) in t.members && !t.members[(circle, user)].status.Pending?
           && t.members[(circle, user)].id == seen.members[(circle, user)].id)
  }

  /** What the environment may offer: query results that are what the query says. */
  ghost predicate Enabled(t: Tables, step: Step) {
    match step
    case External(_, op) => Provider(op)
    case Configure(circle, _, _, _, listing) => Listing(t, circle, listing)
    case Activate(a) => Ready(t, a)
    case Borrow(user, circle, _, seen) => Earlier(seen, t, circle, user)
    case _ => true
  }

  ghost function Attempt(t: Tables, step: Step): Result<Tables, Error>
    requires Enabled(t, step)
  {
    match step
    case OpenWallet(user) => OpenedWallet(t, user)
    case External(user, op) => Moved(t, user, op)
    case Create(users, circle, row) => CreateCircle(t, users, circle, row)
    case Update(circle, admin, change) => UpdateCircle(t, circle, admin, change)
    case Configure(circle, admin, logic, asns, listing) => ConfigurePayout(t, circle, admin, logic, asns, listing)
    case Invites(invites) => Success(t.(invites := invites))
    case Join(now, user, circle) => RequestToJoin(t, now, user, circle)
    case JoinInvited(now, user, token) => JoinByInvite(t, now, user, token)
    case Leave(user, circle) => LeaveCircle(t, user, circle)
    case Cancel(user, circle) => CancelJoinRequest(t, user, circle)
    case Approve(circle, admin, user) => ApproveMember(t, circle, admin, user)
    case Reject(circle, admin, user) => RejectMember(t, circle, admin, user)
    case Activate(a) => ActivateCircle(t, a)
    case Contribute(now, user, circle, cycle) => MakeContribution(t, now, user, circle, cycle)
    case Payout(circle, cycle) => ProcessPayout(t, circle, cycle)
    case Reverse(payout, recipient, amount, schedule) => ReversePayout(t, payout, recipient, amount, schedule)
    case Retry(payout) => RetryPayout(t, payout)
    case Borrow(user, circle, score, seen) => ApplyLoan(t, seen, user, circle, score)
  }

  ghost predicate Accepted(t: Tables, step: Step) {
    Enabled(t, step) && Attempt(t, step).Success?
  }

  /** The step may be taken, goes through, and makes t' of t. */
  ghost predicate Does(t: Tables, step: Step, t': Tables) {
    Enabled(t, step) && Attempt(t, step) == Success(t')
  }

  /** What a run has to be remembered for: the net money the provider moved, and the collateral that
      rejections gave back. */
  datatype History = History(external: int, refunds: map<SourceId, int>)

  function ExternalAmount(op: A.Op): int
    requires Provider(op)
  {
    match op
    case SnapshotCredit(amount, _, _, _) => amount
    case HistoryCredit(amount, _, _) => amount
    case HistoryDebit(amount, _, _) => -(amount as int)
  }

  ghost function Track(t: Tables, h: History, step: Step): History
    requires Accepted(t, step)
  {
    match step
    case External(_, op) => h.(external := h.external + ExternalAmount(op))
    case Reject(circle, _, user) =>
      var m := t.members[(circle, user)];
      h.(refunds := h.refunds[m.id := m.collateral])
    case _ => h
  }

  datatype World = World(tables: Tables, history: History)

  /** A failed or impossible step changes nothing. */
  ghost function Apply(w: World, step: Step): World {
    if Accepted(w.tables, step) then
      World(Attempt(w.tables, step).value, Track(w.tables, w.history, step))
    else w
  }

  ghost function Run(w: World, steps: seq<Step>): World
    decreases |steps|
  {
    if |steps| == 0 then w else Run(Apply(w, steps[0]), steps[1..])
  }

  function Genesis(): World {
    World(Tables(map[Pool := Wallet([], map[])], map[], map[], map[], map[], [], [], [], 0), History(0, map[]))
  }

  // ----- The invariant, part by part --------------------------------------------------------------------

  /** UUIDs in the ledger were drawn by earlier transactions. */
  predicate FreshEntries(es: seq<Entry>, draws: nat) {
    forall i :: 0 <= i < |es| && es[i].ref.Drawn? ==> es[i].ref.draw < draws
  }

  ghost predicate GoodWallet(w: Wallet, draws: nat) {
    Sound(w) && Available(w) >= 0 && FreshEntries(w.entries, draws)
  }

  ghost predicate WalletsInv(ws: Wallets, draws: nat) {
    && (forall id :: id in ws ==> GoodWallet(ws[id], draws))
    && Pool in ws
    && ws[Pool].buckets == map[]
  }

  /** Collateral a membership identifier still locks. */
  function Locked(members: map<(nat, nat), MembershipRow>, id: SourceId): int {
    if id.Member? && (id.circle, id.user) in members
       && members[(id.circle, id.user)].id == id && !members[(id.circle, id.user)].released
    then members[(id.circle, id.user)].collateral else 0
  }

  function Refunded(h: History, id: SourceId): int {
    if id in h.refunds then h.refunds[id] else 0
  }

  /** A membership's identifier, lock and flags are consistent with its circle and its owner's wallet. */
  predicate GoodMember(t: Tables, h: History, k: (nat, nat))
    requires k in t.members
  {
    var m := t.members[k];
    && m.id.Member? && m.id.circle == k.0 && m.id.user == k.1 && m.id.nonce < t.draws
    && m.collateral > 0
    && k.0 in t.circles
    && Of(k.1) in t.wallets
    && Key(Rosca, m.id) in t.wallets[Of(k.1)].buckets
    && (m.status.Pending? ==> !m.released && m.id !in h.refunds)
    && (m.released <==> t.circles[k.0].status.Completed?)
  }

  /** A bucket holds what its membership locks, less what a rejection already gave back. */
  predicate GoodBucket(t: Tables, h: History, u: nat, key: BucketKey)
    requires Of(u) in t.wallets && key in t.wallets[Of(u)].buckets
  {
    && key.bucket == Rosca
    && key.source.Member? && key.source.user == u && key.source.nonce < t.draws
    && t.wallets[Of(u)].buckets[key] == Locked(t.members, key.source) - Refunded(h, key.source)
  }

  /** A refund stays on record, and so does the bucket it came out of. */
  predicate GoodRefund(t: Tables, h: History, id: SourceId)
    requires id in h.refunds
  {
    && id.Member? && id.nonce < t.draws && h.refunds[id] > 0
    && Of(id.user) in t.wallets && Key(Rosca, id) in t.wallets[Of(id.user)].buckets
  }

  ghost predicate CollateralInv(t: Tables, h: History) {
    && (forall k :: k in t.members ==> GoodMember(t, h, k))
    && (forall u: nat, key :: Of(u) in t.wallets && key in t.wallets[Of(u)].buckets ==> GoodBucket(t, h, u, key))
    && (forall id :: id in h.refunds ==> GoodRefund(t, h, id))
    && (forall c :: c in t.circles ==> t.circles[c].amount > 0)
  }

  /** Everything contributed to cycles no payout row exists for. */
  function Owed(rows: seq<ContributionRow>, payouts: seq<PayoutRow>): int {
    if |rows| == 0 then 0
    else
      var row := rows[|rows| - 1];
      Owed(rows[..|rows| - 1], payouts) + if HasPayout(payouts, row.circle, row.cycle) then 0 else Paid(row)
  }

  ghost predicate PoolInv(t: Tables) {
    && Pool in t.wallets
    && Owed(t.contributions, t.payouts) <= Balance(t.wallets[Pool])
    && (forall i :: 0 <= i < |t.contributions| ==> Paid(t.contributions[i]) > 0)
    && (forall i, j :: 0 <= i < j < |t.payouts| ==> !IsFor(t.payouts[j], t.payouts[i].circle, t.payouts[i].cycle))
    && (forall k :: k in t.schedules && t.schedules[k].recipient.Some? ==>
         Of(t.schedules[k].recipient.value) in t.wallets)
  }

  /** The borrower keeps at least 40% of the expected payout, and the parts add up to it. */
  predicate FairTerms(loan: LoanRow) {
    && loan.loanAmount > 0 && loan.companyFee >= 0
    && Deduction(loan) + loan.finalPayout == loan.payoutAmount
    && 10 * Deduction(loan) <= 6 * loan.payoutAmount
  }

  /** At most one active loan per user, and one active or repaid loan per user and circle. */
  ghost predicate LoansInv(loans: seq<LoanRow>) {
    && (forall i :: 0 <= i < |loans| ==> FairTerms(loans[i]))
    && (forall i, j :: 0 <= i < j < |loans| && loans[i].status.Active? ==> !Owes(loans[j], loans[i].user))
    && (forall i, j :: 0 <= i < j < |loans| && Taken(loans[i], loans[i].user, loans[i].circle) ==>
          !Taken(loans[j], loans[i].user, loans[i].circle))
  }

  ghost predicate Conserved(t: Tables, h: History) {
    Total(t.wallets, Balance) == h.external + FloatSum(t.loans)
  }

  ghost predicate Inv(w: World) {
    && WalletsInv(w.tables.wallets, w.tables.draws)
    && CollateralInv(w.tables, w.history)
    && PoolInv(w.tables)
    && LoansInv(w.tables.loans)
    && Conserved(w.tables, w.history)
  }
}
