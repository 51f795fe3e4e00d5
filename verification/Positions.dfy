/** Manual payout positions: incoming assignments, and what happens to the members they displace. */
module Positions {
  import opened Wrappers

  datatype Holding = Holding(user: nat, position: Option<int>)

  datatype Assignment = Assignment(user: nat, position: int)

  /** A Map built from rows keeps the last row with a key. */
  function Holder(rows: seq<Holding>, position: int): Option<nat> {
    if |rows| == 0 then None
    else if rows[|rows| - 1].position == Some(position) then Some(rows[|rows| - 1].user)
    else Holder(rows[..|rows| - 1], position)
  }

  function OldPosition(rows: seq<Holding>, user: nat): Option<int> {
    if |rows| == 0 then None
    else if rows[|rows| - 1].user == user then rows[|rows| - 1].position
    else OldPosition(rows[..|rows| - 1], user)
  }

  function Incoming(asns: seq<Assignment>): set<nat> {
    set i | 0 <= i < |asns| :: asns[i].user
  }

  function Requested(asns: seq<Assignment>): set<int> {
    set i | 0 <= i < |asns| :: asns[i].position
  }

  /** The outsider whose position an assignment takes. */
  function Displaced(rows: seq<Holding>, incoming: set<nat>, asn: Assignment): Option<nat> {
    match Holder(rows, asn.position)
    case Some(holder) => if holder in incoming then None else Some(holder)
    case None => None
  }

  function WriteOne(rows: seq<Holding>, incoming: set<nat>, writes: map<nat, int>, asn: Assignment): map<nat, int> {
    var displaced := Displaced(rows, incoming, asn);
    var previous := OldPosition(rows, asn.user);
    var moved := if displaced.Some? && previous.Some? then writes[displaced.value := previous.value] else writes;
    moved[asn.user := asn.position]
  }

  function Writes(rows: seq<Holding>, incoming: set<nat>, asns: seq<Assignment>): map<nat, int> {
    if |asns| == 0 then map[]
    else WriteOne(rows, incoming, Writes(rows, incoming, asns[..|asns| - 1]), asns[|asns| - 1])
  }

  method ComputeWrites(rows: seq<Holding>, assignments: seq<Assignment>) returns (writes: map<nat, int>)
    ensures writes == Writes(rows, Incoming(assignments), assignments)
  {
    var incomingUserIds := Incoming(assignments);
    writes := map[];
    for i := 0 to |assignments|
      invariant writes == Writes(rows, incomingUserIds, assignments[..i])
    {
      var asn := assignments[i];
      var displacedUserId := Holder(rows, asn.position);
      if displacedUserId.Some? && displacedUserId.value !in incomingUserIds {
        var incomingOldPos := OldPosition(rows, asn.user);
        if incomingOldPos.Some? {
          writes := writes[displacedUserId.value := incomingOldPos.value];
        }
      }
      writes := writes[asn.user := asn.position];
      assert assignments[..i + 1][..i] == assignments[..i];
    }
    assert assignments[..|assignments|] == assignments;
  }

  /** Where each row ends up. */
  function After(rows: seq<Holding>, asns: seq<Assignment>, user: nat): Option<int> {
    var writes := Writes(rows, Incoming(asns), asns);
    if user in writes then Some(writes[user]) else OldPosition(rows, user)
  }

  // ----- When the result is again a valid assignment ------------------------------------------------

  ghost predicate DistinctUsers(rows: seq<Holding>) {
    forall i, j :: 0 <= i < j < |rows| ==> rows[i].user != rows[j].user
  }

  ghost predicate DistinctPositions(rows: seq<Holding>) {
    forall i, j :: 0 <= i < j < |rows| && rows[i].position.Some? ==> rows[i].position != rows[j].position
  }

  ghost predicate DistinctAfter(rows: seq<Holding>, asns: seq<Assignment>) {
    forall i, j :: 0 <= i < j < |rows| && After(rows, asns, rows[i].user).Some? ==>
      After(rows, asns, rows[i].user) != After(rows, asns, rows[j].user)
  }

  ghost predicate ValidRequest(rows: seq<Holding>, asns: seq<Assignment>) {
    && (forall i, j :: 0 <= i < j < |asns| ==> asns[i].user != asns[j].user && asns[i].position != asns[j].position)
    && (forall i :: 0 <= i < |asns| ==> exists k :: 0 <= k < |rows| && rows[k].user == asns[i].user)
  }

  /** An assignment that displaces nobody, or leaves behind a position nobody asked for. */
  predicate Harmless(rows: seq<Holding>, asns: seq<Assignment>, asn: Assignment) {
    Displaced(rows, Incoming(asns), asn).Some? ==>
      OldPosition(rows, asn.user).Some? && OldPosition(rows, asn.user).value !in Requested(asns)
  }

  lemma {:induction false} OldPositionOfRow(rows: seq<Holding>, k: nat)
    requires DistinctUsers(rows) && k < |rows|
    ensures OldPosition(rows, rows[k].user) == rows[k].position
    decreases |rows|
  {
    if k < |rows| - 1 {
      OldPositionOfRow(rows[..|rows| - 1], k);
    }
  }

  lemma {:induction false} HolderIsRow(rows: seq<Holding>, position: int) returns (k: nat)
    requires Holder(rows, position).Some?
    ensures k < |rows| && rows[k].position == Some(position) && rows[k].user == Holder(rows, position).value
    decreases |rows|
  {
    if rows[|rows| - 1].position == Some(position) {
      k := |rows| - 1;
    } else {
      k := HolderIsRow(rows[..|rows| - 1], position);
    }
  }

  lemma {:induction false} HolderOfRow(rows: seq<Holding>, k: nat)
    requires DistinctPositions(rows) && k < |rows| && rows[k].position.Some?
    ensures Holder(rows, rows[k].position.value) == Some(rows[k].user)
  {
    HolderExists(rows, k);
    var h := HolderIsRow(rows, rows[k].position.value);
  }

  lemma {:induction false} HolderExists(rows: seq<Holding>, k: nat)
    requires k < |rows| && rows[k].position.Some?
    ensures Holder(rows, rows[k].position.value).Some?
    decreases |rows|
  {
    if k < |rows| - 1 {
      HolderExists(rows[..|rows| - 1], k);
    }
  }

  /** What the writes say about one user, given requests that do not clash. */
  lemma {:induction false} WritesMeaning(rows: seq<Holding>, incoming: set<nat>, asns: seq<Assignment>, u: nat)
    requires forall i, j :: 0 <= i < j < |asns| ==> asns[i].user != asns[j].user
    requires forall i, j :: 0 <= i < j < |asns| ==> asns[i].position != asns[j].position
    requires forall i :: 0 <= i < |asns| ==> asns[i].user in incoming
    ensures var w := Writes(rows, incoming, asns);
      && (forall i :: 0 <= i < |asns| && asns[i].user == u ==> u in w && w[u] == asns[i].position)
      && (u !in incoming ==>
           (u in w <==> exists i :: 0 <= i < |asns| && Displaced(rows, incoming, asns[i]) == Some(u)
                                    && OldPosition(rows, asns[i].user).Some?))
      && (u !in incoming && u in w ==>
           exists i :: 0 <= i < |asns| && Displaced(rows, incoming, asns[i]) == Some(u)
                       && OldPosition(rows, asns[i].user) == Some(w[u]))
    decreases |asns|
  {
    if |asns| > 0 {
      var front := asns[..|asns| - 1];
      WritesMeaning(rows, incoming, front, u);
      hide Holder, OldPosition;
    }
  }

  /** Whose position is written, even when a user is assigned twice: everybody assigned one, and of the others only
      some who are displaced. */
  lemma {:induction false} WrittenUsers(rows: seq<Holding>, incoming: set<nat>, asns: seq<Assignment>, u: nat)
    ensures var w := Writes(rows, incoming, asns);
      && (forall i :: 0 <= i < |asns| && asns[i].user == u ==> u in w)
      && (u in w ==>
            exists i :: 0 <= i < |asns| && (asns[i].user == u || Displaced(rows, incoming, asns[i]) == Some(u)))
    decreases |asns|
  {
    if |asns| > 0 {
      hide Holder, OldPosition;
      WrittenUsers(rows, incoming, asns[..|asns| - 1], u);
    }
  }

  /** Row k belongs to the user of assignment i, who gets the requested position. */
  predicate Moves(rows: seq<Holding>, asns: seq<Assignment>, k: nat, i: int)
    requires k < |rows|
  {
    0 <= i < |asns| && asns[i].user == rows[k].user && After(rows, asns, rows[k].user) == Some(asns[i].position)
  }

  /** Row k belongs to an outsider, who gets the position the user of assignment i leaves behind. */
  predicate Swapped(rows: seq<Holding>, asns: seq<Assignment>, k: nat, i: int)
    requires k < |rows|
  {
    && 0 <= i < |asns|
    && Displaced(rows, Incoming(asns), asns[i]) == Some(rows[k].user)
    && After(rows, asns, rows[k].user).Some?
    && OldPosition(rows, asns[i].user) == After(rows, asns, rows[k].user)
  }

  /** Row k belongs to an outsider nobody displaces, or whose displacer had no position to give. */
  predicate Stays(rows: seq<Holding>, asns: seq<Assignment>, k: nat)
    requires k < |rows|
  {
    && rows[k].user !in Incoming(asns)
    && After(rows, asns, rows[k].user) == rows[k].position
    && forall i :: 0 <= i < |asns| && Displaced(rows, Incoming(asns), asns[i]) == Some(rows[k].user)
        ==> OldPosition(rows, asns[i].user).None?
  }

  lemma {:induction false} AfterMeaning(rows: seq<Holding>, asns: seq<Assignment>, k: nat) returns (i: int)
    requires DistinctUsers(rows) && ValidRequest(rows, asns) && k < |rows|
    ensures Moves(rows, asns, k, i) || Swapped(rows, asns, k, i) || Stays(rows, asns, k)
    ensures rows[k].user in Incoming(asns) ==> Moves(rows, asns, k, i)
  {
    var u := rows[k].user;
    WritesMeaning(rows, Incoming(asns), asns, u);
    OldPositionOfRow(rows, k);
    hide Holder, Writes, OldPosition, Displaced;
    i := 0;
    if u in Incoming(asns) {
      i :| 0 <= i < |asns| && asns[i].user == u;
    } else if u in Writes(rows, Incoming(asns), asns) {
      i :| 0 <= i < |asns| && Displaced(rows, Incoming(asns), asns[i]) == Some(u)
           && OldPosition(rows, asns[i].user) == After(rows, asns, u);
    }
  }

  lemma {:induction false} RowOf(rows: seq<Holding>, asns: seq<Assignment>, i: nat) returns (k: nat)
    requires DistinctUsers(rows) && ValidRequest(rows, asns) && i < |asns|
    ensures k < |rows| && rows[k].user == asns[i].user && OldPosition(rows, asns[i].user) == rows[k].position
    ensures After(rows, asns, rows[k].user) == Some(asns[i].position)
  {
    var user := asns[i].user;
    k :| 0 <= k < |rows| && rows[k].user == user;
    OldPositionOfRow(rows, k);
    WritesMeaning(rows, Incoming(asns), asns, rows[k].user);
    hide Holder, Writes, OldPosition, Displaced;
    assert asns[i].user in Incoming(asns);
  }

  /** Harmless assignments leave no two rows on one position. */
  lemma {:induction false} NoClash(rows: seq<Holding>, asns: seq<Assignment>, k: nat, m: nat)
    requires DistinctUsers(rows) && DistinctPositions(rows) && ValidRequest(rows, asns)
    requires forall i :: 0 <= i < |asns| ==> Harmless(rows, asns, asns[i])
    requires k < |rows| && m < |rows| && k != m
    ensures After(rows, asns, rows[k].user).Some? ==> After(rows, asns, rows[k].user) != After(rows, asns, rows[m].user)
  {
    var i := AfterMeaning(rows, asns, k);
    var j := AfterMeaning(rows, asns, m);
    if Swapped(rows, asns, k, i) {
      SwappedApart(rows, asns, k, i, m, j);
    } else if Swapped(rows, asns, m, j) {
      SwappedApart(rows, asns, m, j, k, i);
    } else if Moves(rows, asns, k, i) {
      if Stays(rows, asns, m) {
        StaysApart(rows, asns, k, i, m);
      } else {
        assert Moves(rows, asns, m, j);
      }
    } else if Moves(rows, asns, m, j) {
      StaysApart(rows, asns, m, j, k);
    }
  }

  /** A requested position is never one that somebody else keeps. */
  lemma {:induction false} StaysApart(rows: seq<Holding>, asns: seq<Assignment>, k: nat, i: nat, m: nat)
    requires DistinctUsers(rows) && DistinctPositions(rows) && ValidRequest(rows, asns)
    requires forall i :: 0 <= i < |asns| ==> Harmless(rows, asns, asns[i])
    requires k < |rows| && m < |rows| && Moves(rows, asns, k, i) && Stays(rows, asns, m)
    ensures After(rows, asns, rows[k].user) != After(rows, asns, rows[m].user)
  {
    hide Writes, OldPosition;
    assert Harmless(rows, asns, asns[i]);
    if rows[m].position.Some? {
      HolderOfRow(rows, m);
    }
  }

  /** A position left behind by a harmless assignment goes to nobody else. */
  lemma {:induction false} SwappedApart(rows: seq<Holding>, asns: seq<Assignment>, k: nat, i: nat, m: nat, j: int)
    requires DistinctUsers(rows) && DistinctPositions(rows) && ValidRequest(rows, asns)
    requires forall i :: 0 <= i < |asns| ==> Harmless(rows, asns, asns[i])
    requires k < |rows| && m < |rows| && k != m && Swapped(rows, asns, k, i)
    requires Moves(rows, asns, m, j) || Swapped(rows, asns, m, j) || Stays(rows, asns, m)
    ensures After(rows, asns, rows[k].user) != After(rows, asns, rows[m].user)
  {
    assert Harmless(rows, asns, asns[i]);
    var from := RowOf(rows, asns, i);
    assert rows[from].position == After(rows, asns, rows[k].user);
    if Moves(rows, asns, m, j) {
      assert asns[j].position in Requested(asns);
    } else if Swapped(rows, asns, m, j) {
      var other := RowOf(rows, asns, j);
      hide After, OldPosition, Holder, Displaced;
      assert i != j;
      assert from != other;
    } else {
      hide Holder, OldPosition, Writes;
      assert asns[i].user in Incoming(asns);
      assert from != m;
    }
  }

  /** An outsider is displaced by at most one assignment: the one that asks for what they hold. */
  lemma {:induction false} OneDisplacer(rows: seq<Holding>, asns: seq<Assignment>, k: nat, i: nat, j: nat)
    requires DistinctUsers(rows) && ValidRequest(rows, asns) && k < |rows| && i < |asns| && j < |asns|
    requires Displaced(rows, Incoming(asns), asns[i]) == Some(rows[k].user)
    requires Displaced(rows, Incoming(asns), asns[j]) == Some(rows[k].user)
    ensures i == j && rows[k].position == Some(asns[i].position)
  {
    var a := HolderIsRow(rows, asns[i].position);
    var b := HolderIsRow(rows, asns[j].position);
    hide Holder;
    assert a == k && b == k;
  }

  /** A harmful assignment leaves the member it displaces on an occupied position. */
  lemma {:induction false} HarmClashes(rows: seq<Holding>, asns: seq<Assignment>, i: nat)
    requires DistinctUsers(rows) && DistinctPositions(rows) && ValidRequest(rows, asns)
    requires i < |asns| && !Harmless(rows, asns, asns[i])
    ensures !DistinctAfter(rows, asns)
  {
    var v := HolderIsRow(rows, asns[i].position);
    var mine := RowOf(rows, asns, i);
    hide Holder, OldPosition, Writes;
    var d := AfterMeaning(rows, asns, v);
    assert Displaced(rows, Incoming(asns), asns[i]) == Some(rows[v].user);
    if Swapped(rows, asns, v, d) {
      OneDisplacer(rows, asns, v, i, d);
      hide Displaced;
      var j :| 0 <= j < |asns| && asns[j].position == OldPosition(rows, asns[i].user).value;
      var taker := RowOf(rows, asns, j);
      Together(rows, asns, v, taker);
    } else {
      hide Displaced;
      Together(rows, asns, v, mine);
    }
  }

  lemma {:induction false} Together(rows: seq<Holding>, asns: seq<Assignment>, k: nat, m: nat)
    requires k < |rows| && m < |rows| && rows[k].user != rows[m].user
    requires After(rows, asns, rows[k].user).Some?
    requires After(rows, asns, rows[k].user) == After(rows, asns, rows[m].user)
    ensures !DistinctAfter(rows, asns)
  {
    hide After;
    var lo, hi := if k < m then k else m, if k < m then m else k;
    assert lo < hi && After(rows, asns, rows[lo].user) == After(rows, asns, rows[hi].user);
  }

  /** Reassigning distinct positions gives distinct positions exactly when every incoming member who
      displaces an outsider leaves behind a position that no incoming member asks for. */
  lemma {:induction false} ReassignmentDistinct(rows: seq<Holding>, asns: seq<Assignment>)
    requires DistinctUsers(rows) && DistinctPositions(rows) && ValidRequest(rows, asns)
    ensures DistinctAfter(rows, asns) <==> forall i :: 0 <= i < |asns| ==> Harmless(rows, asns, asns[i])
  {
    hide After, Harmless;
    if forall i :: 0 <= i < |asns| ==> Harmless(rows, asns, asns[i]) {
      forall k, m | 0 <= k < m < |rows| && After(rows, asns, rows[k].user).Some?
        ensures After(rows, asns, rows[k].user) != After(rows, asns, rows[m].user)
      {
        NoClash(rows, asns, k, m);
      }
    } else {
      var i :| 0 <= i < |asns| && !Harmless(rows, asns, asns[i]);
      HarmClashes(rows, asns, i);
    }
  }

  /** One assignment to a placed member is a swap with whoever holds the position, and always safe. */
  lemma {:induction false} SingleAssignmentSwaps(rows: seq<Holding>, k: nat, position: int)
    requires DistinctUsers(rows) && DistinctPositions(rows) && k < |rows| && rows[k].position.Some?
    ensures var asns := [Assignment(rows[k].user, position)];
      && DistinctAfter(rows, asns)
      && After(rows, asns, rows[k].user) == Some(position)
      && (forall m :: 0 <= m < |rows| && m != k ==>
           After(rows, asns, rows[m].user)
             == if rows[m].position == Some(position) then rows[k].position else rows[m].position)
  {
    var asns := [Assignment(rows[k].user, position)];
    assert ValidRequest(rows, asns) by {
      assert rows[k].user == asns[0].user;
    }
    OldPositionOfRow(rows, k);
    assert asns[0].user in Incoming(asns);
    forall i | 0 <= i < |asns| ensures Harmless(rows, asns, asns[i]) {
      if Displaced(rows, Incoming(asns), asns[0]).Some? {
        var v := HolderIsRow(rows, position);
        assert v != k;
      }
    }
    ReassignmentDistinct(rows, asns);
    var mine := RowOf(rows, asns, 0);
    forall m | 0 <= m < |rows| && m != k
      ensures After(rows, asns, rows[m].user) ==
        if rows[m].position == Some(position) then rows[k].position else rows[m].position
    {
      SwapOthers(rows, k, position, m);
    }
  }

  lemma {:induction false} SwapOthers(rows: seq<Holding>, k: nat, position: int, m: nat)
    requires DistinctUsers(rows) && DistinctPositions(rows) && k < |rows| && rows[k].position.Some?
    requires m < |rows| && m != k
    ensures var asns := [Assignment(rows[k].user, position)];
      After(rows, asns, rows[m].user) ==
        if rows[m].position == Some(position) then rows[k].position else rows[m].position
  {
    var asns := [Assignment(rows[k].user, position)];
    assert ValidRequest(rows, asns) by {
      assert rows[k].user == asns[0].user;
    }
    OldPositionOfRow(rows, k);
    var i := AfterMeaning(rows, asns, m);
    if rows[m].position == Some(position) {
      HolderOfRow(rows, m);
      hide Holder, OldPosition, Writes;
      assert rows[m].user !in Incoming(asns);
      assert Displaced(rows, Incoming(asns), asns[0]) == Some(rows[m].user);
    } else if Swapped(rows, asns, m, i) {
      var v := HolderIsRow(rows, position);
    }
  }

  /** Assigning everybody displaces nobody, so it is always safe. */
  lemma {:induction false} FullAssignmentSafe(rows: seq<Holding>, asns: seq<Assignment>)
    requires DistinctUsers(rows) && DistinctPositions(rows) && ValidRequest(rows, asns)
    requires forall k :: 0 <= k < |rows| ==> rows[k].user in Incoming(asns)
    ensures DistinctAfter(rows, asns)
  {
    forall i | 0 <= i < |asns| ensures Harmless(rows, asns, asns[i]) {
      if Holder(rows, asns[i].position).Some? {
        var v := HolderIsRow(rows, asns[i].position);
      }
    }
    ReassignmentDistinct(rows, asns);
  }

  /** Three members in a row, and a request that breaks: 0 takes 1's place while 2 takes 0's. */
  lemma {:induction false} ChainBreaks()
    ensures var rows := [Holding(0, Some(1)), Holding(1, Some(2)), Holding(2, Some(3))];
      var asns := [Assignment(0, 2), Assignment(2, 1)];
      DistinctUsers(rows) && DistinctPositions(rows) && ValidRequest(rows, asns) && !DistinctAfter(rows, asns)
  {
    var rows := [Holding(0, Some(1)), Holding(1, Some(2)), Holding(2, Some(3))];
    var asns := [Assignment(0, 2), Assignment(2, 1)];
    assert rows[0].user == asns[0].user && rows[2].user == asns[1].user;
    HolderOfRow(rows, 1);
    OldPositionOfRow(rows, 0);
    assert 1 !in Incoming(asns);
    assert asns[1].position in Requested(asns);
    HarmClashes(rows, asns, 0);
  }
}
