/** Every step keeps the invariant, so every run does. */
module Runs {
  import opened Wrappers
  import opened Totals
  import opened Ledger
  import opened Tables
  import opened Memberships
  import opened Contributions
  import opened Loans
  import opened Payouts
  import opened Circles
  import opened Platform
  import opened Preservation
  import P = Positions
  import Sorter

  // ----- Membership steps as enrolments and unlockings ---------------------------------------------------

  lemma {:induction false} JoinKeeps(t: Tables, h: History, now: int, user: nat, circle: nat, t': Tables)
    requires Inv(World(t, h)) && RequestToJoin(t, now, user, circle) == Success(t')
    ensures Inv(World(t', h))
  {
    hide Inv, Pay;
    EnrolledKeeps(t, h, (circle, user), t'.members[(circle, user)], t');
  }

  lemma {:induction false} JoinInvitedKeeps(t: Tables, h: History, now: int, user: nat, token: nat, t': Tables)
    requires Inv(World(t, h)) && JoinByInvite(t, now, user, token) == Success(t')
    ensures Inv(World(t', h))
  {
    hide Inv, Pay;
    var circle := t.invites[token].circle;
    EnrolledKeeps(t, h, (circle, user), t'.members[(circle, user)], t');
  }

  lemma {:induction false} MemberLocks(t: Tables, h: History, k: (nat, nat))
    requires Inv(World(t, h)) && k in t.members
    ensures GoodMember(t, h, k)
  {
    hide WalletsInv, PoolInv, LoansInv, Conserved, GoodMember, GoodBucket;
  }

  lemma {:induction false} LeaveKeeps(t: Tables, h: History, user: nat, circle: nat, t': Tables)
    requires Inv(World(t, h)) && LeaveCircle(t, user, circle) == Success(t')
    ensures Inv(World(t', h))
  {
    hide Inv, Pay;
    MemberLocks(t, h, (circle, user));
    UnlockedKeeps(t, h, (circle, user), t', h);
  }

  lemma {:induction false} CancelKeeps(t: Tables, h: History, user: nat, circle: nat, t': Tables)
    requires Inv(World(t, h)) && CancelJoinRequest(t, user, circle) == Success(t')
    ensures Inv(World(t', h))
  {
    hide Inv, Pay;
    MemberLocks(t, h, (circle, user));
    UnlockedKeeps(t, h, (circle, user), t', h);
  }

  lemma {:induction false} RejectKeeps(t: Tables, h: History, circle: nat, admin: nat, user: nat, t': Tables)
    requires Inv(World(t, h)) && RejectMember(t, circle, admin, user) == Success(t')
    ensures var m := t.members[(circle, user)];
      Inv(World(t', h.(refunds := h.refunds[m.id := m.collateral])))
  {
    hide Inv, Pay;
    MemberLocks(t, h, (circle, user));
    var m := t.members[(circle, user)];
    UnlockedKeeps(t, h, (circle, user), t', h.(refunds := h.refunds[m.id := m.collateral]));
  }

  // ----- Steps that move no money ------------------------------------------------------------------------

  lemma {:induction false} RecipientsHaveWallets(t: Tables, h: History)
    requires Inv(World(t, h))
    ensures forall k :: k in t.schedules && t.schedules[k].recipient.Some? ==>
      Of(t.schedules[k].recipient.value) in t.wallets
    ensures forall c :: c in t.circles ==> t.circles[c].amount > 0
  {
    hide WalletsInv, LoansInv, Conserved, Owed, GoodMember, GoodBucket;
  }

  lemma {:induction false} CreateKeeps(t: Tables, h: History, users: set<nat>, circle: nat, row: CircleRow, t': Tables)
    requires Inv(World(t, h)) && CreateCircle(t, users, circle, row) == Success(t')
    ensures Inv(World(t', h))
  {
    hide Inv;
    RecipientsHaveWallets(t, h);
    QuietKeeps(t, h, t');
  }

  lemma {:induction false} UpdateKeeps(t: Tables, h: History, circle: nat, admin: nat, change: Change, t': Tables)
    requires Inv(World(t, h)) && UpdateCircle(t, circle, admin, change) == Success(t')
    ensures Inv(World(t', h))
  {
    hide Inv;
    RecipientsHaveWallets(t, h);
    QuietKeeps(t, h, t');
  }

  lemma {:induction false} ConfigureKeeps(t: Tables, h: History, circle: nat, admin: nat,
      logic: Option<Sorter.PayoutLogic>,
                                          asns: seq<P.Assignment>, listing: seq<nat>, t': Tables)
    requires Inv(World(t, h)) && Listing(t, circle, listing)
    requires ConfigurePayout(t, circle, admin, logic, asns, listing) == Success(t')
    ensures Inv(World(t', h))
  {
    hide Inv, P.Writes, P.Incoming;
    RecipientsHaveWallets(t, h);
    QuietKeeps(t, h, t');
  }

  lemma {:induction false} ApproveKeeps(t: Tables, h: History, circle: nat, admin: nat, user: nat, t': Tables)
    requires Inv(World(t, h)) && ApproveMember(t, circle, admin, user) == Success(t')
    ensures Inv(World(t', h))
  {
    hide Inv;
    RecipientsHaveWallets(t, h);
    QuietKeeps(t, h, t');
  }

  lemma {:induction false} InvitesKeep(t: Tables, h: History, invites: map<nat, InviteRow>)
    requires Inv(World(t, h))
    ensures Inv(World(t.(invites := invites), h))
  {
    hide Inv;
    RecipientsHaveWallets(t, h);
    QuietKeeps(t, h, t.(invites := invites));
  }

  // ----- Every step, every run ---------------------------------------------------------------------------

  lemma {:induction false} SuccessKeeps(t: Tables, h: History, step: Step, t': Tables)
    requires Inv(World(t, h)) && Does(t, step, t')
    ensures Inv(World(t', Track(t, h, step)))
  {
    hide Inv, OpenedWallet, Moved, CreateCircle, UpdateCircle, ConfigurePayout, RequestToJoin, JoinByInvite,
         LeaveCircle,
         CancelJoinRequest, ApproveMember, ActivateCircle, MakeContribution, ProcessPayout,
         ReversePayout, RetryPayout, ApplyLoan, Ready, Listing, Earlier, Provider, ExternalAmount;
    match step
    case OpenWallet(user) => OpenedKeeps(t, h, user, t');
    case External(user, op) => MovedKeeps(t, h, user, op, t');
    case Create(users, circle, row) => CreateKeeps(t, h, users, circle, row, t');
    case Update(circle, admin, change) => UpdateKeeps(t, h, circle, admin, change, t');
    case Configure(circle, admin, logic, asns, listing) => ConfigureKeeps(t, h, circle, admin, logic, asns, listing,
      t');
    case Invites(invites) => InvitesKeep(t, h, invites);
    case Join(now, user, circle) => JoinKeeps(t, h, now, user, circle, t');
    case JoinInvited(now, user, token) => JoinInvitedKeeps(t, h, now, user, token, t');
    case Leave(user, circle) => LeaveKeeps(t, h, user, circle, t');
    case Cancel(user, circle) => CancelKeeps(t, h, user, circle, t');
    case Approve(circle, admin, user) => ApproveKeeps(t, h, circle, admin, user, t');
    case Reject(circle, admin, user) => RejectKeeps(t, h, circle, admin, user, t');
    case Activate(a) => ActivateKeeps(t, h, a, t');
    case Contribute(now, user, circle, cycle) => ContributeKeeps(t, h, now, user, circle, cycle, t');
    case Payout(circle, cycle) => PayoutKeeps(t, h, circle, cycle, t');
    case Reverse(payout, recipient, amount, schedule) => ReverseKeeps(t, h, payout, recipient, amount, schedule, t');
    case Retry(payout) => RetryNeverSucceeds(t, payout);
    case Borrow(user, circle, score, seen) => BorrowKeeps(t, h, seen, user, circle, score, t');
  }

  lemma {:induction false} StepKeeps(w: World, step: Step)
    requires Inv(w)
    ensures Inv(Platform.Apply(w, step))
  {
    hide Inv, Track;
    if Accepted(w.tables, step) {
      SuccessKeeps(w.tables, w.history, step, Platform.Attempt(w.tables, step).value);
    }
  }

  lemma {:induction false} RunKeeps(w: World, steps: seq<Step>)
    requires Inv(w)
    ensures Inv(Platform.Run(w, steps))
    decreases |steps|
  {
    hide Inv;
    if |steps| > 0 {
      StepKeeps(w, steps[0]);
      RunKeeps(Platform.Apply(w, steps[0]), steps[1..]);
    }
  }

  lemma {:induction false} RunConcat(w: World, a: seq<Step>, b: seq<Step>)
    ensures Platform.Run(w, a + b) == Platform.Run(Platform.Run(w, a), b)
    decreases |a|
  {
    hide Platform.Apply;
    if |a| == 0 {
      assert a + b == b;
    } else {
      assert (a + b)[0] == a[0] && (a + b)[1..] == a[1..] + b;
      RunConcat(Platform.Apply(w, a[0]), a[1..], b);
    }
  }

  lemma {:induction false} RunOne(w: World, s: Step)
    ensures Platform.Run(w, [s]) == Platform.Apply(w, s)
  {
    hide Platform.Apply;
    assert [s][1..] == [];
  }

  lemma {:induction false} GenesisInv()
    ensures Inv(Genesis())
  {
    var pool := Wallet([], map[]);
    var ws := map[Pool := pool];
    EmptyWalletGood(0);
    hide GoodWallet;
    TotalSplit(ws, Balance, Pool);
    assert ws - {Pool} == map[];
  }

  /** What a run leads to from nothing but an empty pool. */
  ghost function Reached(steps: seq<Step>): World {
    Platform.Run(Genesis(), steps)
  }

  lemma {:induction false} ReachedInv(steps: seq<Step>)
    ensures Inv(Reached(steps))
  {
    hide Inv;
    GenesisInv();
    RunKeeps(Genesis(), steps);
  }
}
