/** The rows of the database the savings circles live in, as values, and the database that holds them. */
module Tables {
  import opened Wrappers
  import opened Ledger
  import opened LedgerServices
  import Calendar
  import Sorter

  datatype CircleStatus = Draft | Active | Completed | Cancelled

  datatype MembershipStatus = Pending | Active | Rejected | Completed | Exited | Defaulted

  datatype ScheduleStatus = Upcoming | Completed | Skipped | Cancelled

  datatype PayoutStatus = Pending | Processing | Completed | Failed

  datatype LoanStatus = Active | Repaid | Defaulted | Cancelled

  datatype CircleRow = CircleRow(
    admin: nat, amount: int, frequency: Calendar.Frequency, durationCycles: int, maxSlots: int,
    filledSlots: int, isPrivate: bool, logic: Sorter.PayoutLogic, status: CircleStatus)

  datatype MembershipRow = MembershipRow(
    id: SourceId, status: MembershipStatus, position: Option<int>, collateral: int, released: bool,
    joinedAt: Option<int>, completedCycles: nat, latePayments: nat, penaltiesPaid: int)

  datatype ScheduleRow = ScheduleRow(deadline: int, payoutDate: int, recipient: Option<nat>, status: ScheduleStatus)

  datatype InviteRow = InviteRow(circle: nat, invitee: nat, expiresAt: int, used: bool)

  datatype ContributionRow = ContributionRow(
    circle: nat, user: nat, member: SourceId, cycle: int, amount: int, penalty: int)

  datatype PayoutRow = PayoutRow(circle: nat, cycle: int, recipient: nat, amount: int, status: PayoutStatus)

  datatype LoanRow = LoanRow(
    user: nat, circle: nat, payoutAmount: int, loanAmount: int, companyFee: int, finalPayout: int, status: LoanStatus)

  /** Members are keyed by (circle, user) and schedules by (circle, cycle), their unique indexes.
      Contributions, payouts and loans are never deleted, so their rows are numbered as created.
      draws counts the committed transactions that drew UUIDs. */
  datatype Tables = Tables(
    wallets: Wallets,
    circles: map<nat, CircleRow>,
    members: map<(nat, nat), MembershipRow>,
    schedules: map<(nat, int), ScheduleRow>,
    invites: map<nat, InviteRow>,
    contributions: seq<ContributionRow>,
    payouts: seq<PayoutRow>,
    loans: seq<LoanRow>,
    draws: nat)

  datatype Error =
    | CircleNotFound | CircleNotActive | CircleNotDraft | CircleClosed | CircleFull | CirclePrivate
    | UserNotFound | NotAMember | AlreadyAMember | NotPending | NotAdmin | WalletNotFound | PoolNotConfigured
    | InvalidInvite | SlotsInconsistent | NoSchedule | NoRecipient | AlreadyContributed | WindowClosed
    | AlreadyPaid | NothingToPay | UniqueViolation | ReleaseFailed | PayoutNotFound | PayoutNotFailed
    | AlreadyFailed | LoanAlreadyActive | LoanAlreadyTaken | NotEligible | LoanTooLarge
    | DeadlineInPast | PositionsMissing | PositionsRepeated | BadPositions | BadAmount
    | LedgerRefused(reason: LedgerError)

  /** A ledger write made by another service inside its own transaction. */
  ghost function Pay(ws: Wallets, id: WalletId, p: Params): Result<Wallets, Error> {
    match Post(ws, id, p)
    case Success(ws') => Success(ws')
    case Failure(e) => Failure(LedgerRefused(e))
  }

  class Database {
    const ledger: LedgerService
    var circles: map<nat, CircleRow>
    var members: map<(nat, nat), MembershipRow>
    var schedules: map<(nat, int), ScheduleRow>
    var invites: map<nat, InviteRow>
    var contributions: seq<ContributionRow>
    var payouts: seq<PayoutRow>
    var loans: seq<LoanRow>
    var draws: nat

    constructor (t: Tables)
      ensures fresh(ledger) && Snapshot() == t
    {
      ledger := new LedgerService(t.wallets);
      circles, members, schedules, invites := t.circles, t.members, t.schedules, t.invites;
      contributions, payouts, loans, draws := t.contributions, t.payouts, t.loans, t.draws;
    }

    function Snapshot(): Tables
      reads this, ledger
    {
      Tables(ledger.wallets, circles, members, schedules, invites, contributions, payouts, loans, draws)
    }

    /** What a rolled back transaction does. */
    method Restore(t: Tables)
      modifies this, ledger
      ensures Snapshot() == t
    {
      ledger.wallets := t.wallets;
      circles, members, schedules, invites := t.circles, t.members, t.schedules, t.invites;
      contributions, payouts, loans, draws := t.contributions, t.payouts, t.loans, t.draws;
    }

    /** A ledger write inside the caller's transaction. */
    method WriteEntry(id: WalletId, p: Params) returns (r: Result<Entry, Error>)
      modifies ledger
      ensures match Pay(old(ledger.wallets), id, p)
        case Failure(e) => r == Failure(e) && ledger.wallets == old(ledger.wallets)
        case Success(ws) => r.Success? && ledger.wallets == ws
    {
      var written := ledger.WriteEntry(id, p);
      match written
      case Failure(e) => return Failure(LedgerRefused(e));
      case Success(entry) => return Success(entry);
    }
  }
}
