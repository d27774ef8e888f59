/** The sidebar's durable order account: explicit id lists per partition moved with DOM insertBefore
    semantics (DOM Standard, section 4.4), and their reconciliation against the live rows. */
module SidebarOrder {
  import opened Wrappers
  import opened Sorting
  import opened Lists

  datatype MoveInvalid = Source(id: string) | Anchor(id: string)

  datatype Row = Row(id: string, partition: string, pinned: bool, interactedAt: int)

  // ----- moves

  function Validate(list: seq<string>, id: string, before: Option<string>): Option<MoveInvalid> {
    if id !in list then Some(Source(id))
    else if before.Some? && before.value !in list then Some(Anchor(before.value))
    else None
  }

  /** A move is refused exactly for a row that is not listed or an anchor that is not, the row first. */
  lemma RefusedExactlyWhen(list: seq<string>, id: string, before: Option<string>)
    ensures Validate(list, id, before).None? <==> id in list && (before.None? || before.value in list)
    ensures id !in list ==> Validate(list, id, before) == Some(Source(id))
    ensures id in list && before.Some? && before.value !in list ==> Validate(list, id, before) == Some(Anchor(before.value))
  {
  }

  function Others(list: seq<string>, id: string): seq<string> {
    Filter(list, x => x != id)
  }

  /** The list after the move; the row is taken out wherever it is and put before the anchor, or last. */
  function Moved(list: seq<string>, id: string, before: Option<string>): seq<string> {
    if before == Some(id) then list else
    var rest := Others(list, id);
    var at := if before.None? then |rest| else IndexOf(rest, before.value);
    rest[..at] + [id] + rest[at..]
  }

  /** On a duplicate-free list a valid move permutes only the moved row: the others keep their order, no
      row is lost or doubled, and the row ends last or directly before its anchor; a self-anchored move
      leaves the list alone. */
  lemma MovePermutesOnlyTheRow(list: seq<string>, id: string, before: Option<string>)
    requires NoDup(list) && Validate(list, id, before).None?
    ensures var r := Moved(list, id, before);
            && Others(r, id) == Others(list, id)
            && NoDup(r) && multiset(r) == multiset(list)
            && (before.None? ==> r[|r| - 1] == id)
            && (before.Some? && before.value != id ==> IndexOf(r, before.value) == IndexOf(r, id) + 1)
            && (before == Some(id) ==> r == list)
  {
    var r := Moved(list, id, before);
    if before != Some(id) {
      var rest := Others(list, id);
      FilterMembers(list, x => x != id);
      FilterNoDup(list, x => x != id);
      var at := if before.None? then |rest| else IndexOf(rest, before.value);
      SpliceKeepsOthers(rest, id, at);
      assert forall x :: x in r <==> x in rest || x == id;
      SameSetSameBag(r, list);
      IndexIsUnique(r, id, at);
      if before.Some? { IndexIsUnique(r, before.value, at + 1); }
    }
  }

  lemma SpliceKeepsOthers(rest: seq<string>, id: string, at: nat)
    requires at <= |rest| && id !in rest && NoDup(rest)
    ensures var r := rest[..at] + [id] + rest[at..]; Others(r, id) == rest && NoDup(r)
  {
    var front, back := rest[..at], rest[at..];
    assert front + back == rest;
    FilterAroundId(front, id, back);
  }

  lemma FilterAroundId(front: seq<string>, id: string, back: seq<string>)
    requires id !in front && id !in back
    ensures Others(front + [id] + back, id) == front + back
  {
    FilterConcat(front + [id], back, x => x != id);
    FilterConcat(front, [id], x => x != id);
    FilterAll(front, x => x != id);
    FilterAll(back, x => x != id);
    FilterNone([id], x => x != id);
  }

  // ----- reconciliation

  function Ids(rows: seq<Row>): seq<string> {
    seq(|rows|, i requires 0 <= i < |rows| => rows[i].id)
  }

  predicate DistinctIds(rows: seq<Row>) {
    NoDup(Ids(rows))
  }

  function Partitions(rows: seq<Row>): set<string> {
    set r | r in rows :: r.partition
  }

  function Members(rows: seq<Row>, partition: string): seq<Row> {
    Filter(rows, (r: Row) => r.partition == partition)
  }

  /** Newest first, then by id. */
  predicate FreshLe(a: Row, b: Row) {
    a.interactedAt > b.interactedAt || (a.interactedAt == b.interactedAt && StringLe(a.id, b.id))
  }

  function Survivors(stored: seq<string>, members: seq<Row>): seq<string> {
    Filter(stored, id => id in Ids(members))
  }

  function Newcomers(stored: seq<string>, members: seq<Row>): seq<Row> {
    Filter(members, (m: Row) => m.id !in Survivors(stored, members))
  }

  /** Rows seen for the first time lead, newest first; the survivors follow in stored order. */
  function NewAccount(stored: seq<string>, members: seq<Row>): seq<string> {
    Ids(SortBy(Newcomers(stored, members), FreshLe)) + Survivors(stored, members)
  }

  predicate PinnedIn(members: seq<Row>, id: string) {
    exists i :: 0 <= i < |members| && members[i].pinned && members[i].id == id
  }

  /** The last stamp a row of this id carries. */
  function Stamp(members: seq<Row>, id: string): int {
    if members == [] then 0
    else if members[|members| - 1].id == id then members[|members| - 1].interactedAt
    else Stamp(members[..|members| - 1], id)
  }

  /** Pinned band first, then newest interaction, then id. */
  predicate KeyLe(members: seq<Row>, a: string, b: string) {
    var pa, pb := PinnedIn(members, a), PinnedIn(members, b);
    var sa, sb := Stamp(members, a), Stamp(members, b);
    if pa != pb then pa else if sa != sb then sa > sb else StringLe(a, b)
  }

  function ByKey(members: seq<Row>): (string, string) -> bool {
    (a, b) => KeyLe(members, a, b)
  }

  function Display(members: seq<Row>): seq<string> {
    SortBy(Ids(members), ByKey(members))
  }

  function Stored(accounts: map<string, seq<string>>, partition: string): seq<string> {
    if partition in accounts then accounts[partition] else []
  }

  function Reconciled(accounts: map<string, seq<string>>, rows: seq<Row>): map<string, seq<string>> {
    map p | p in Partitions(rows) :: NewAccount(Stored(accounts, p), Members(rows, p))
  }

  function Ordered(rows: seq<Row>): map<string, seq<string>> {
    map p | p in Partitions(rows) :: Display(Members(rows, p))
  }

  /** The folder list: uncommitted registered paths in given order, then the committed ones in theirs. */
  function ReconciledGroups(groups: seq<string>, registered: seq<string>): seq<string> {
    var committed := Filter(groups, p => p in registered);
    Filter(registered, p => p !in committed) + committed
  }

  lemma MembersOfAccount(stored: seq<string>, members: seq<Row>)
    ensures forall id :: id in NewAccount(stored, members) <==> id in Ids(members)
  {
    var keep := id => id in Ids(members);
    FilterMembers(stored, keep);
    FilterMembers(members, (m: Row) => m.id !in Survivors(stored, members));
    var sorted := SortBy(Newcomers(stored, members), FreshLe);
    SortPermutes(Newcomers(stored, members), FreshLe);
    SameElements(sorted, Newcomers(stored, members));
    IdsIn(sorted);
    IdsIn(members);
    IdsIn(Newcomers(stored, members));
    forall id ensures id in NewAccount(stored, members) <==> id in Ids(members) {
      if id in Ids(members) && id !in Survivors(stored, members) {
        var m :| m in members && m.id == id;
        assert m in Newcomers(stored, members);
      }
    }
  }

  lemma IdsIn(rows: seq<Row>)
    ensures forall id :: id in Ids(rows) <==> exists r :: r in rows && r.id == id
  {
    forall id ensures id in Ids(rows) <==> exists r :: r in rows && r.id == id {
      if id in Ids(rows) {
        var i :| 0 <= i < |rows| && Ids(rows)[i] == id;
        assert rows[i] in rows && rows[i].id == id;
      }
      if r :| r in rows && r.id == id {
        var i :| 0 <= i < |rows| && rows[i] == r;
        assert Ids(rows)[i] == id;
      }
    }
  }

  // ----- what reconciling keeps

  lemma SameIdSameRow(rows: seq<Row>)
    requires DistinctIds(rows)
    ensures NoDup(rows)
    ensures forall a, b :: a in rows && b in rows && a.id == b.id ==> a == b
  {
    forall i, j | 0 <= i < j < |rows| ensures rows[i].id != rows[j].id {
      assert Ids(rows)[i] != Ids(rows)[j];
    }
  }

  /** Rows drawn from a distinct set without repetition have distinct ids. */
  lemma DrawnDistinct(rows: seq<Row>, drawn: seq<Row>)
    requires DistinctIds(rows) && NoDup(drawn) && forall r :: r in drawn ==> r in rows
    ensures DistinctIds(drawn)
  {
    SameIdSameRow(rows);
    forall i, j | 0 <= i < j < |drawn| ensures Ids(drawn)[i] != Ids(drawn)[j] {
      assert drawn[i] in rows && drawn[j] in rows;
    }
  }

  lemma MembersDistinct(rows: seq<Row>, p: string)
    requires DistinctIds(rows)
    ensures DistinctIds(Members(rows, p))
    ensures forall r :: r in Members(rows, p) <==> r in rows && r.partition == p
  {
    var here := (r: Row) => r.partition == p;
    SameIdSameRow(rows);
    FilterMembers(rows, here);
    FilterNoDup(rows, here);
    DrawnDistinct(rows, Members(rows, p));
  }

  lemma FreshTotal()
    ensures TotalPreorder(FreshLe)
  {
    forall a: Row, b: Row ensures FreshLe(a, b) || FreshLe(b, a) { StringLeTotal(a.id, b.id); }
    forall a: Row, b: Row, c: Row | FreshLe(a, b) && FreshLe(b, c) ensures FreshLe(a, c) {
      if a.interactedAt == b.interactedAt && b.interactedAt == c.interactedAt { StringLeTransitive(a.id, b.id, c.id); }
    }
  }

  /** The new account is a permutation of the partition's live ids: the newcomers, sorted, and then the
      survivors in stored order. */
  lemma AccountIsPermutation(stored: seq<string>, members: seq<Row>)
    requires NoDup(stored) && DistinctIds(members)
    ensures NoDup(NewAccount(stored, members)) && multiset(NewAccount(stored, members)) == multiset(Ids(members))
    ensures Sorted(SortBy(Newcomers(stored, members), FreshLe), FreshLe)
  {
    var newcomers := Newcomers(stored, members);
    var sorted := SortBy(newcomers, FreshLe);
    var isNew := (m: Row) => m.id !in Survivors(stored, members);
    SameIdSameRow(members);
    FilterMembers(members, isNew);
    FilterNoDup(members, isNew);
    SortPermutes(newcomers, FreshLe);
    SameElements(sorted, newcomers);
    PermutedNoDup(newcomers, sorted);
    DrawnDistinct(members, sorted);
    FilterNoDup(stored, id => id in Ids(members));
    IdsIn(sorted);
    ConcatNoDup(Ids(sorted), Survivors(stored, members));
    MembersOfAccount(stored, members);
    SameSetSameBag(NewAccount(stored, members), Ids(members));
    FreshTotal();
    SortSorts(newcomers, FreshLe);
  }

  /** Once an element of `stored` appears only such elements follow, in their stored order. */
  predicate NewThenStored(b: seq<string>, stored: seq<string>) {
    forall i, j :: 0 <= i < j < |b| && b[i] in stored ==>
      b[j] in stored && IndexOf(stored, b[i]) < IndexOf(stored, b[j])
  }

  lemma NewThenFiltered(incoming: seq<string>, stored: seq<string>, p: string -> bool)
    requires NoDup(stored) && forall x :: x in incoming ==> x !in stored
    ensures NewThenStored(incoming + Filter(stored, p), stored)
  {
    FilterKeepsOrder(stored, p);
    FilterMembers(stored, p);
  }

  /** The rows of these ids stand newest first. */
  predicate Ranked(members: seq<Row>, x: string, y: string) {
    forall a, b :: a in members && b in members && a.id == x && b.id == y ==> FreshLe(a, b)
  }

  /** In a reconciled account every newcomer precedes every survivor, the survivors keep their stored
      order, and of two newcomers the one interacted with later, or with the smaller id, comes first. */
  lemma AccountOrder(stored: seq<string>, members: seq<Row>)
    requires NoDup(stored) && DistinctIds(members)
    ensures var account := NewAccount(stored, members);
            && NewThenStored(account, stored)
            && forall i, j :: 0 <= i < j < |account| && account[j] !in stored ==> Ranked(members, account[i], account[j])
  {
    var account := NewAccount(stored, members);
    var incoming := SortBy(Newcomers(stored, members), FreshLe);
    NewcomersAreNew(stored, members);
    NewThenFiltered(Ids(incoming), stored, id => id in Ids(members));
    FreshTotal();
    SortSorts(Newcomers(stored, members), FreshLe);
    SameIdSameRow(members);
    FilterMembers(stored, id => id in Ids(members));
    forall i, j | 0 <= i < j < |account| && account[j] !in stored ensures Ranked(members, account[i], account[j]) {
      assert j < |incoming|;
      assert account[i] == incoming[i].id && account[j] == incoming[j].id;
      assert incoming[i] in incoming && incoming[j] in incoming;
    }
  }

  lemma NewcomersAreNew(stored: seq<string>, members: seq<Row>)
    ensures var incoming := SortBy(Newcomers(stored, members), FreshLe);
            && (forall r :: r in incoming ==> r in members && r.id !in stored)
            && (forall x :: x in Ids(incoming) ==> x !in stored)
  {
    var newcomers := Newcomers(stored, members);
    var incoming := SortBy(newcomers, FreshLe);
    SortPermutes(newcomers, FreshLe);
    SameElements(incoming, newcomers);
    FilterMembers(members, (m: Row) => m.id !in Survivors(stored, members));
    FilterMembers(stored, id => id in Ids(members));
    IdsIn(members);
    IdsIn(incoming);
  }

  /** An account reconciled once is left alone by the next reconcile. */
  lemma NewAccountIdle(stored: seq<string>, members: seq<Row>)
    ensures var account := NewAccount(stored, members); NewAccount(account, members) == account
  {
    var account := NewAccount(stored, members);
    MembersOfAccount(stored, members);
    FilterAll(account, id => id in Ids(members));
    IdsIn(members);
    FilterNone(members, (m: Row) => m.id !in Survivors(account, members));
    assert Ids(SortBy(Newcomers(account, members), FreshLe)) == [];
  }

  /** A second reconcile against the same rows changes nothing. */
  lemma SecondReconcileIsIdle(accounts: map<string, seq<string>>, rows: seq<Row>)
    ensures Reconciled(Reconciled(accounts, rows), rows) == Reconciled(accounts, rows)
  {
    forall p | p in Partitions(rows)
      ensures NewAccount(Reconciled(accounts, rows)[p], Members(rows, p)) == Reconciled(accounts, rows)[p]
    {
      NewAccountIdle(Stored(accounts, p), Members(rows, p));
    }
  }

  /** Every row id lands once, in exactly its own partition's display list, and nothing else does; each
      account becomes a duplicate-free permutation of the same ids. */
  lemma ReconcilePartitionsTheRows(accounts: map<string, seq<string>>, rows: seq<Row>, p: string)
    requires DistinctIds(rows) && NoDup(Stored(accounts, p)) && p in Partitions(rows)
    ensures NoDup(Ordered(rows)[p])
    ensures forall id :: id in Ordered(rows)[p] <==> exists r :: r in rows && r.id == id && r.partition == p
    ensures NoDup(Reconciled(accounts, rows)[p])
    ensures multiset(Reconciled(accounts, rows)[p]) == multiset(Ordered(rows)[p])
  {
    var members := Members(rows, p);
    MembersDistinct(rows, p);
    SortPermutes(Ids(members), ByKey(members));
    SameElements(Display(members), Ids(members));
    PermutedNoDup(Ids(members), Display(members));
    IdsIn(members);
    AccountIsPermutation(Stored(accounts, p), members);
  }

  // ----- the display order is a function of the rows alone

  lemma KeyTotal(members: seq<Row>)
    ensures TotalPreorder(ByKey(members))
    ensures forall a, b :: ByKey(members)(a, b) && ByKey(members)(b, a) ==> a == b
  {
    forall a, b ensures (KeyLe(members, a, b) || KeyLe(members, b, a)) && (KeyLe(members, a, b) && KeyLe(members, b, a) ==> a == b) {
      StringLeTotal(a, b);
    }
    forall a, b, c | KeyLe(members, a, b) && KeyLe(members, b, c) ensures KeyLe(members, a, c) {
      if StringLe(a, b) && StringLe(b, c) { StringLeTransitive(a, b, c); }
    }
  }

  lemma {:induction false} StampOf(members: seq<Row>, id: string)
    requires DistinctIds(members)
    ensures forall r :: r in members && r.id == id ==> Stamp(members, id) == r.interactedAt
    ensures id !in Ids(members) ==> Stamp(members, id) == 0
  {
    SameIdSameRow(members);
    if members == [] {
    } else {
      var init, last := members[..|members| - 1], members[|members| - 1];
      assert Ids(init) == Ids(members)[..|members| - 1];
      assert Ids(members)[|members| - 1] == last.id;
      StampOf(init, id);
      assert members == init + [last];
    }
  }

  lemma SameRowsSameKeys(a: seq<Row>, b: seq<Row>, x: string)
    requires DistinctIds(a) && DistinctIds(b) && forall r :: r in a <==> r in b
    ensures PinnedIn(a, x) == PinnedIn(b, x) && Stamp(a, x) == Stamp(b, x)
  {
    StampOf(a, x);
    StampOf(b, x);
    IdsIn(a);
    IdsIn(b);
    assert PinnedIn(a, x) <==> exists r :: r in a && r.pinned && r.id == x;
    assert PinnedIn(b, x) <==> exists r :: r in b && r.pinned && r.id == x;
  }

  lemma SameRowsSameOrder(a: seq<Row>, b: seq<Row>)
    requires DistinctIds(a) && DistinctIds(b) && forall r :: r in a <==> r in b
    ensures forall x, y :: ByKey(a)(x, y) == ByKey(b)(x, y)
  {
    forall x, y ensures KeyLe(a, x, y) == KeyLe(b, x, y) {
      SameRowsSameKeys(a, b, x);
      SameRowsSameKeys(a, b, y);
    }
  }

  lemma SameRowsSameIds(a: seq<Row>, b: seq<Row>)
    requires DistinctIds(a) && DistinctIds(b) && forall r :: r in a <==> r in b
    ensures multiset(Ids(a)) == multiset(Ids(b))
  {
    IdsIn(a);
    IdsIn(b);
    SameSetSameBag(Ids(a), Ids(b));
  }

  lemma SameRowsSameDisplay(a: seq<Row>, b: seq<Row>)
    requires DistinctIds(a) && DistinctIds(b) && forall r :: r in a <==> r in b
    ensures Display(a) == Display(b)
  {
    SameRowsSameOrder(a, b);
    SortCongruent(Ids(b), ByKey(a), ByKey(b));
    SameRowsSameIds(a, b);
    KeyTotal(a);
    SortPermuted(Ids(a), Ids(b), ByKey(a));
  }

  /** The display order depends on nothing but each row's pin, stamp and id: not on the order the rows
      arrive in, and not on any account. */
  lemma DisplayDependsOnRowsOnly(rows: seq<Row>, shuffled: seq<Row>)
    requires DistinctIds(rows) && multiset(rows) == multiset(shuffled)
    ensures Ordered(rows) == Ordered(shuffled)
  {
    SameElements(rows, shuffled);
    SameIdSameRow(rows);
    PermutedNoDup(rows, shuffled);
    DrawnDistinct(rows, shuffled);
    forall p | p in Partitions(rows) ensures p in Partitions(shuffled) && Display(Members(rows, p)) == Display(Members(shuffled, p)) {
      MembersDistinct(rows, p);
      MembersDistinct(shuffled, p);
      SameRowsSameDisplay(Members(rows, p), Members(shuffled, p));
    }
    assert Partitions(rows) == Partitions(shuffled);
  }

  /** The display order itself: of two rows of a partition the pinned one comes first, else the one
      interacted with later, else the one with the smaller id. */
  lemma DisplayRanks(rows: seq<Row>, a: Row, b: Row, i: nat, j: nat)
    requires DistinctIds(rows) && a in rows && b in rows && a.partition == b.partition
    requires i < j < |Ordered(rows)[a.partition]|
    requires Ordered(rows)[a.partition][i] == a.id && Ordered(rows)[a.partition][j] == b.id
    ensures if a.pinned != b.pinned then a.pinned else FreshLe(a, b)
  {
    var members := Members(rows, a.partition);
    MembersDistinct(rows, a.partition);
    KeyTotal(members);
    SortSorts(Ids(members), ByKey(members));
    assert ByKey(members)(a.id, b.id);
    KeyOf(members, a);
    KeyOf(members, b);
  }

  lemma KeyOf(members: seq<Row>, r: Row)
    requires DistinctIds(members) && r in members
    ensures PinnedIn(members, r.id) == r.pinned && Stamp(members, r.id) == r.interactedAt
  {
    StampOf(members, r.id);
    SameIdSameRow(members);
    if PinnedIn(members, r.id) {
      var i :| 0 <= i < |members| && members[i].pinned && members[i].id == r.id;
      assert members[i] in members;
    }
  }

  /** Folder reconciliation: a permutation of the registered paths, new ones before the committed ones in
      their order, that a second pass leaves alone. */
  lemma GroupsReconcile(groups: seq<string>, registered: seq<string>)
    requires NoDup(groups) && NoDup(registered)
    ensures var next := ReconciledGroups(groups, registered);
            && NoDup(next) && multiset(next) == multiset(registered)
            && NewThenStored(next, groups)
            && ReconciledGroups(next, registered) == next
  {
    var committed := Filter(groups, p => p in registered);
    GroupMembers(groups, registered);
    FilterNoDup(groups, p => p in registered);
    FilterNoDup(registered, p => p !in committed);
    ConcatNoDup(Filter(registered, p => p !in committed), committed);
    SameSetSameBag(ReconciledGroups(groups, registered), registered);
    GroupsIdle(ReconciledGroups(groups, registered), registered);
    NewThenFiltered(Filter(registered, p => p !in committed), groups, p => p in registered);
  }

  lemma GroupMembers(groups: seq<string>, registered: seq<string>)
    ensures var committed := Filter(groups, p => p in registered);
            var incoming := Filter(registered, p => p !in committed);
            && (forall x :: x in committed <==> x in groups && x in registered)
            && (forall x :: x in incoming <==> x in registered && x !in groups)
            && (forall x :: x in ReconciledGroups(groups, registered) <==> x in registered)
  {
    var committed := Filter(groups, p => p in registered);
    FilterMembers(groups, p => p in registered);
    FilterMembers(registered, p => p !in committed);
  }

  /** A list of just the registered paths is left alone. */
  lemma GroupsIdle(next: seq<string>, registered: seq<string>)
    requires forall x :: x in next <==> x in registered
    ensures ReconciledGroups(next, registered) == next
  {
    FilterAll(next, p => p in registered);
    FilterNone(registered, p => p !in next);
  }

  // ----- the account object

  class Order {
    var groups: seq<string>
    var accounts: map<string, seq<string>>

    constructor ()
      ensures groups == [] && accounts == map[]
    {
      groups, accounts := [], map[];
    }

    /** Move one row inside its partition. A refused move changes nothing; an accepted one reports a
        change exactly when the list differs. */
    method MoveThread(partition: string, id: string, before: Option<string>) returns (r: Result<bool, MoveInvalid>)
      modifies this
      ensures groups == old(groups)
      ensures r.Ok? <==> partition in old(accounts) && Validate(old(accounts)[partition], id, before).None?
      ensures r.Err? ==> accounts == old(accounts)
                         && r.error == if partition in old(accounts) then Validate(old(accounts)[partition], id, before).value else Source(id)
      ensures r.Ok? ==> && accounts == old(accounts)[partition := Moved(old(accounts)[partition], id, before)]
                        && (r.value <==> accounts[partition] != old(accounts)[partition])
    {
      if partition !in accounts { return Err(Source(id)); }
      var list := accounts[partition];
      var fault := Validate(list, id, before);
      if fault.Some? { return Err(fault.value); }
      var next, changed := InsertBefore(list, id, before);
      if changed { accounts := accounts[partition := next]; }
      assert !changed ==> accounts == accounts[partition := next];
      return Ok(changed);
    }

    method MoveGroup(path: string, before: Option<string>) returns (r: Result<bool, MoveInvalid>)
      modifies this
      ensures accounts == old(accounts)
      ensures r.Ok? <==> Validate(old(groups), path, before).None?
      ensures r.Err? ==> groups == old(groups) && Some(r.error) == Validate(old(groups), path, before)
      ensures r.Ok? ==> groups == Moved(old(groups), path, before) && (r.value <==> groups != old(groups))
    {
      var fault := Validate(groups, path, before);
      if fault.Some? { return Err(fault.value); }
      var next, changed := InsertBefore(groups, path, before);
      if changed { groups := next; }
      return Ok(changed);
    }

    /** Pinning: an accounted row that is not first goes to the head, its fellows keep their order. */
    method FloatToHead(partition: string, id: string) returns (changed: bool)
      modifies this
      ensures groups == old(groups)
      ensures changed <==> partition in old(accounts) && id in old(accounts)[partition] && old(accounts)[partition][0] != id
      ensures accounts == if changed then old(accounts)[partition := [id] + Others(old(accounts)[partition], id)] else old(accounts)
    {
      if partition !in accounts { return false; }
      var account := accounts[partition];
      if id !in account || account[0] == id { return false; }
      accounts := accounts[partition := [id] + Others(account, id)];
      return true;
    }

    method ReconcileGroups(registered: seq<string>) returns (order: seq<string>)
      modifies this
      ensures accounts == old(accounts)
      ensures groups == ReconciledGroups(old(groups), registered) && order == groups
    {
      var committed := Filter(groups, p => p in registered);
      var next := Filter(registered, p => p !in committed);
      groups := next + committed;
      order := groups;
    }

    /** Rewrite every account against the live rows, drop the accounts of partitions without any, and
        return each partition's display order. The partitions are visited in any order. */
    method Reconcile(rows: seq<Row>) returns (ordered: map<string, seq<string>>)
      modifies this
      ensures groups == old(groups)
      ensures accounts == Reconciled(old(accounts), rows) && ordered == Ordered(rows)
    {
      var byPartition := GroupRows(rows);
      accounts, ordered := ReconcileAccounts(accounts, rows, byPartition);
    }
  }

  method ReconcileAccounts(accounts: map<string, seq<string>>, rows: seq<Row>, byPartition: map<string, seq<Row>>)
    returns (next: map<string, seq<string>>, ordered: map<string, seq<string>>)
    requires Grouped(byPartition, rows)
    ensures next == Reconciled(accounts, rows) && ordered == Ordered(rows)
  {
    next, ordered := ReconcileEach(accounts, byPartition);
    OrderedIs(rows, ordered);
    RetainedIs(accounts, rows, next, ordered.Keys);
    next := map p | p in next && next[p] != [] && p in ordered :: next[p];
  }

  lemma OrderedIs(rows: seq<Row>, ordered: map<string, seq<string>>)
    requires ordered.Keys == Partitions(rows) && forall p :: p in ordered ==> ordered[p] == Display(Members(rows, p))
    ensures ordered == Ordered(rows)
  {
  }

  lemma RetainedIs(accounts: map<string, seq<string>>, rows: seq<Row>, next: map<string, seq<string>>, keys: set<string>)
    requires keys == Partitions(rows)
    requires forall p :: p in keys ==> p in next && next[p] == NewAccount(Stored(accounts, p), Members(rows, p))
    ensures (map p | p in next && next[p] != [] && p in keys :: next[p]) == Reconciled(accounts, rows)
  {
    forall p | p in keys ensures next[p] != [] && next[p] == Reconciled(accounts, rows)[p] {
      AccountNonEmpty(Stored(accounts, p), rows, p);
    }
  }

  method ReconcileEach(accounts: map<string, seq<string>>, byPartition: map<string, seq<Row>>)
    returns (next: map<string, seq<string>>, ordered: map<string, seq<string>>)
    ensures ordered.Keys == byPartition.Keys
    ensures forall p :: p in ordered ==> ordered[p] == Display(byPartition[p])
    ensures forall p :: p in ordered ==> p in next && next[p] == NewAccount(Stored(accounts, p), byPartition[p])
  {
    next, ordered := accounts, map[];
    var todo := byPartition.Keys;
    while todo != {}
      invariant todo <= byPartition.Keys && ordered.Keys == byPartition.Keys - todo
      invariant forall p :: p in ordered ==> ordered[p] == Display(byPartition[p])
      invariant forall p :: p in ordered ==> p in next && next[p] == NewAccount(Stored(accounts, p), byPartition[p])
      invariant forall p :: p in todo ==> Stored(next, p) == Stored(accounts, p)
      decreases todo
    {
      var p :| p in todo;
      var account, display := ReconcileOne(Stored(next, p), byPartition[p]);
      next := next[p := account];
      ordered := ordered[p := display];
      todo := todo - {p};
    }
  }

  method ReconcileOne(stored: seq<string>, members: seq<Row>) returns (account: seq<string>, display: seq<string>)
    ensures account == NewAccount(stored, members) && display == Display(members)
  {
    var kept := Survivors(stored, members);
    var incoming := SortBy(Newcomers(stored, members), FreshLe);
    account := Ids(incoming) + kept;
    display := SortBy(Ids(members), ByKey(members));
  }

  lemma AccountNonEmpty(stored: seq<string>, rows: seq<Row>, p: string)
    requires p in Partitions(rows)
    ensures NewAccount(stored, Members(rows, p)) != []
  {
    var r :| r in rows && r.partition == p;
    FilterMembers(rows, (r: Row) => r.partition == p);
    MembersOfAccount(stored, Members(rows, p));
    IdsIn(Members(rows, p));
    assert r.id in NewAccount(stored, Members(rows, p));
  }

  method InsertBefore(list: seq<string>, id: string, before: Option<string>) returns (next: seq<string>, changed: bool)
    ensures next == Moved(list, id, before)
    ensures changed <==> next != list
  {
    if before == Some(id) { return list, false; }
    var without := Others(list, id);
    var at := if before.None? then |without| else IndexOf(without, before.value);
    next := without[..at] + [id] + without[at..];
    changed := next != list;
  }

  predicate Grouped(groups: map<string, seq<Row>>, rows: seq<Row>) {
    groups.Keys == Partitions(rows) && forall p :: p in groups ==> groups[p] == Members(rows, p)
  }

  method GroupRows(rows: seq<Row>) returns (groups: map<string, seq<Row>>)
    ensures Grouped(groups, rows)
  {
    groups := map[];
    for i := 0 to |rows|
      invariant Grouped(groups, rows[..i])
    {
      var p := rows[i].partition;
      GroupedStep(groups, rows[..i], rows[i]);
      groups := groups[p := (if p in groups then groups[p] else []) + [rows[i]]];
      assert rows[..i + 1] == rows[..i] + [rows[i]];
    }
    assert rows[..|rows|] == rows;
  }

  lemma GroupedStep(groups: map<string, seq<Row>>, rows: seq<Row>, r: Row)
    requires Grouped(groups, rows)
    ensures Grouped(groups[r.partition := (if r.partition in groups then groups[r.partition] else []) + [r]], rows + [r])
  {
    var grown := groups[r.partition := (if r.partition in groups then groups[r.partition] else []) + [r]];
    assert Partitions(rows + [r]) == Partitions(rows) + {r.partition};
    forall p | p in grown ensures grown[p] == Members(rows + [r], p) {
      MembersStep(rows, r, p);
    }
  }

  lemma MembersStep(rows: seq<Row>, r: Row, p: string)
    ensures Members(rows + [r], p) == if p == r.partition then Members(rows, p) + [r] else Members(rows, p)
    ensures p !in Partitions(rows) ==> Members(rows, p) == []
  {
    assert (rows + [r])[..|rows|] == rows;
    if p !in Partitions(rows) { FilterNone(rows, (r: Row) => r.partition == p); }
  }
}
