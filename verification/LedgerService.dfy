/** The ledger service as a class that updates its wallets in place, and the from-scratch audit. */
module LedgerServices {
  import opened Wrappers
  import opened Totals
  import opened Ledger

  /** The compensating entry for an earlier one. */
  function ReversalParams(e: Entry): Params {
    Params(if e.kind.Credit? then Debit else Credit, Some(e.bucket), e.amount,
           ReversalOf(e.ref), e.source, e.sourceId)
  }

  method SumBuckets(buckets: map<BucketKey, int>) returns (sum: int)
    ensures sum == Total(buckets, Same)
  {
    sum := 0;
    var rest := buckets;
    while rest != map[]
      invariant sum + Total(rest, Same) == Total(buckets, Same)
      decreases |rest|
    {
      var k :| k in rest;
      TotalSplit(rest, Same, k);
      sum := sum + rest[k];
      rest := rest - {k};
    }
  }

  lemma {:induction false} BucketsUntouched(buckets: map<BucketKey, int>, p: Params)
    ensures !Holds(p.kind) ==> BucketsAfter(buckets, p) == buckets
  {
  }

  class LedgerService {
    var wallets: Wallets

    constructor (ws: Wallets)
      ensures wallets == ws
    {
      wallets := ws;
    }

    /** The upsert of a reserve bucket. */
    method UpsertBucket(id: WalletId, p: Params)
      requires id in wallets && Holds(p.kind) && p.bucket.Some?
      modifies this
      ensures wallets == old(wallets)[id := old(wallets)[id].(buckets := BucketsAfter(old(wallets)[id].buckets, p))]
    {
      var key := Key(p.bucket.value, p.sourceId);
      var change := if p.kind.Reserve? then p.amount else -p.amount;
      var buckets := wallets[id].buckets;
      buckets := if key in buckets then buckets[key := buckets[key] + change] else buckets[key := p.amount];
      wallets := wallets[id := wallets[id].(buckets := buckets)];
    }

    /** Every check is made before the bucket and the entry are written, and a failed write leaves
        nothing behind. */
    method WriteEntry(id: WalletId, p: Params) returns (r: Result<Entry, LedgerError>)
      modifies this
      ensures match Post(old(wallets), id, p)
        case Failure(e) => r == Failure(e) && wallets == old(wallets)
        case Success(ws) => r == Success(EntryFor(Balance(old(wallets)[id]), p)) && wallets == ws
    {
      hide HasKey, Balance, Total, BucketsAfter;
      if id !in wallets {
        return Failure(UnknownWallet);
      }
      if p.amount <= 0 {
        return Failure(AmountNotPositive);
      }
      if Holds(p.kind) {
        if p.bucket.None? || p.bucket.value.Main? {
          return Failure(BucketRequired);
        }
      } else if p.bucket.Some? && !p.bucket.value.Main? {
        return Failure(MustTargetMain);
      }

      var currentTotal := Balance(wallets[id]);
      var totalReserved := SumBuckets(wallets[id].buckets);
      var currentAvailable := currentTotal - totalReserved;
      if (p.kind.Debit? || p.kind.Reserve?) && p.amount > currentAvailable {
        return Failure(InsufficientFunds);
      }

      var saved := wallets;
      if Holds(p.kind) {
        UpsertBucket(id, p);
      }
      BucketsUntouched(saved[id].buckets, p);

      var balanceAfter := currentTotal;
      if p.kind.Credit? {
        balanceAfter := balanceAfter + p.amount;
      }
      if p.kind.Debit? {
        balanceAfter := balanceAfter - p.amount;
      }

      if HasKey(wallets[id].entries, p.ref, p.source, p.sourceId) {
        wallets := saved;
        return Failure(DuplicateEntry);
      }
      var entry := Entry(p.ref, p.kind, if p.bucket.Some? then p.bucket.value else Main, p.amount,
                         currentTotal, balanceAfter, p.source, p.sourceId);
      wallets := wallets[id := wallets[id].(entries := wallets[id].entries + [entry])];
      return Success(entry);
    }

    method CreateReversalEntry(id: WalletId, i: nat) returns (r: Result<Entry, LedgerError>)
      requires id in wallets && i < |wallets[id].entries|
      modifies this
      ensures match Post(old(wallets), id, ReversalParams(old(wallets)[id].entries[i]))
        case Failure(e) => r == Failure(e) && wallets == old(wallets)
        case Success(ws) => r.Success? && wallets == ws
    {
      r := WriteEntry(id, ReversalParams(wallets[id].entries[i]));
    }

    /** The balance shown to the user: on a sound wallet the snapshot is the whole history's sum. */
    method GetDetailedBalance(id: WalletId) returns (total: int, reserved: int, available: int)
      requires id in wallets
      ensures reserved == Reserved(wallets[id])
      ensures available == total - reserved
      ensures Chained(wallets[id].entries) ==> total == Net(wallets[id].entries)
    {
      total := Balance(wallets[id]);
      reserved := SumBuckets(wallets[id].buckets);
      available := total - reserved;
      if Chained(wallets[id].entries) {
        BalanceIsNet(wallets[id]);
      }
    }
  }

  /** A reversal succeeds exactly for a credit or debit that has not been reversed, with the funds
      still there when a credit is taken back; it then undoes the entry, and the same entry can
      never be reversed again. */
  lemma {:induction false} ReversalExactlyOnce(w: Wallet, i: nat)
    requires i < |w.entries| && w.entries[i].amount > 0
    requires Holds(w.entries[i].kind) <==> !w.entries[i].bucket.Main?
    ensures var e := w.entries[i];
      && (Write(w, ReversalParams(e)).Success? <==>
           && !Holds(e.kind)
           && !HasKey(w.entries, ReversalOf(e.ref), e.source, e.sourceId)
           && (e.kind.Credit? ==> e.amount <= Available(w)))
      && (Write(w, ReversalParams(e)).Success? ==>
           var w' := Write(w, ReversalParams(e)).value;
           && Balance(w') == Balance(w) - Delta(e.kind, e.amount)
           && Write(w', ReversalParams(e)).Failure?)
  {
    var p := ReversalParams(w.entries[i]);
    if Write(w, p).Success? {
      WriteEffect(w, p);
      var w' := Write(w, p).value;
      assert w'.entries[|w.entries|].ref == p.ref;
      assert HasKey(w'.entries, p.ref, p.source, p.sourceId);
    }
  }

  // ----- computeFullBalance and verifyWalletIntegrity ---------------------------------------------

  method ComputeFullBalance(w: Wallet) returns (credit: int, debit: int, reserved: int)
    ensures credit - debit == Net(w.entries)
    ensures reserved == Reserved(w)
  {
    credit, debit := 0, 0;
    for i := 0 to |w.entries|
      invariant credit == Sum(w.entries[..i], Credit)
      invariant debit == Sum(w.entries[..i], Debit)
    {
      var entry := w.entries[i];
      if entry.kind.Credit? {
        credit := credit + entry.amount;
      } else if entry.kind.Debit? {
        debit := debit + entry.amount;
      }
      assert w.entries[..i + 1] == w.entries[..i] + [entry];
      SumAppend(w.entries[..i], entry, Credit);
      SumAppend(w.entries[..i], entry, Debit);
    }
    assert w.entries[..|w.entries|] == w.entries;
    reserved := SumBuckets(w.buckets);
  }

  /** The groupBy query: a row for each entry type that occurs, with the sum of its amounts. */
  predicate Grouped(groups: map<EntryType, int>, es: seq<Entry>) {
    && (forall k :: k in groups ==> groups[k] == Sum(es, k))
    && (forall k :: k !in groups ==> Sum(es, k) == 0)
  }

  method GroupByType(es: seq<Entry>) returns (groups: map<EntryType, int>)
    ensures Grouped(groups, es)
  {
    groups := map[];
    for i := 0 to |es|
      invariant Grouped(groups, es[..i])
    {
      var e := es[i];
      forall k {
        SumAppend(es[..i], e, k);
      }
      assert es[..i + 1] == es[..i] + [e];
      groups := groups[e.kind := e.amount + if e.kind in groups then groups[e.kind] else 0];
    }
    assert es[..|es|] == es;
  }

  datatype Report = Report(ledgerValid: bool, ledgerDrift: int, bucketsValid: bool, bucketDrift: int)

  /** What the rows not yet visited still contribute to a signed sum. */
  function Pending(rest: map<EntryType, int>, plus: EntryType, minus: EntryType): int {
    (if plus in rest then rest[plus] else 0) - if minus in rest then rest[minus] else 0
  }

  lemma {:induction false} PendingRow(rest: map<EntryType, int>, kind: EntryType, plus: EntryType, minus: EntryType)
    requires kind in rest && plus != minus
    ensures Pending(rest, plus, minus) == Pending(rest - {kind}, plus, minus)
      + if kind == plus then rest[kind] else if kind == minus then -rest[kind] else 0
  {
  }

  /** Two accumulators over the groups, in whatever order the query returns them. */
  method VerifyWalletIntegrity(w: Wallet) returns (report: Report)
    ensures report.ledgerDrift == Balance(w) - Net(w.entries)
    ensures report.bucketDrift == Held(w.entries) - Reserved(w)
    ensures report.ledgerValid <==> Balance(w) == Net(w.entries)
    ensures report.bucketsValid <==> Held(w.entries) == Reserved(w)
    ensures Sound(w) ==> report == Report(true, 0, true, 0)
  {
    var snapshot := Balance(w);
    var aggregates := GroupByType(w.entries);
    var calculated, ledgerReserved := 0, 0;
    var rest := aggregates;
    AllPending(aggregates, w.entries);
    hide Grouped, Pending, Net, Held, Sound, Balance, Reserved;
    while rest != map[]
      invariant calculated + Pending(rest, Credit, Debit) == Net(w.entries)
      invariant ledgerReserved + Pending(rest, Reserve, Release) == Held(w.entries)
      decreases |rest|
    {
      var kind :| kind in rest;
      PendingRow(rest, kind, Credit, Debit);
      PendingRow(rest, kind, Reserve, Release);
      if kind.Credit? {
        calculated := calculated + rest[kind];
      } else if kind.Debit? {
        calculated := calculated - rest[kind];
      }
      if kind.Reserve? {
        ledgerReserved := ledgerReserved + rest[kind];
      } else if kind.Release? {
        ledgerReserved := ledgerReserved - rest[kind];
      }
      rest := rest - {kind};
    }
    NothingPending();
    var bucketSum := SumBuckets(w.buckets);
    BucketSumIs(w);
    report := Report(snapshot - calculated == 0, snapshot - calculated,
                     ledgerReserved - bucketSum == 0, ledgerReserved - bucketSum);
    if Sound(w) {
      SoundAudit(w);
    }
  }

  lemma {:induction false} AllPending(groups: map<EntryType, int>, es: seq<Entry>)
    requires Grouped(groups, es)
    ensures Pending(groups, Credit, Debit) == Net(es) && Pending(groups, Reserve, Release) == Held(es)
  {
    hide Sum;
  }

  lemma {:induction false} NothingPending()
    ensures Pending(map[], Credit, Debit) == 0 && Pending(map[], Reserve, Release) == 0
  {
  }

  lemma {:induction false} BucketSumIs(w: Wallet)
    ensures Reserved(w) == Total(w.buckets, Same)
  {
  }

  lemma {:induction false} SoundAudit(w: Wallet)
    requires Sound(w)
    ensures Balance(w) == Net(w.entries) && Held(w.entries) == Reserved(w)
  {
    BalanceIsNet(w);
  }
}
