/** Routing of requests to external servers by action and priority (clients/rixi_client.py): the routing
    table built by insertion, the search with wildcards, and the attempts in order. */
module Routing {
  import opened Common

  const DEFAULT_PRIORITY := 10

  /** A server's configuration; what it says besides this is in config. */
  datatype Server = Server(name: Option<string>, actions: seq<string>, priority: Option<int>, config: string)

  /** {**server, "priority": priority} */
  datatype Entry = Entry(server: Server, priority: int)

  /** One row of the routing table, a dictionary that keeps the order of its keys. */
  datatype Row = Row(action: string, entries: seq<Entry>)

  function EntryOf(s: Server): Entry {
    Entry(s, s.priority.GetOr(DEFAULT_PRIORITY))
  }

  // ---- stable sorting by priority ---------------------------------------------------------------------

  ghost predicate Sorted(es: seq<Entry>) {
    forall i, j :: 0 <= i < j < |es| ==> es[i].priority <= es[j].priority
  }

  function WithPriority(es: seq<Entry>, p: int): seq<Entry>
    decreases |es|
  {
    if es == [] then [] else (if es[0].priority == p then [es[0]] else []) + WithPriority(es[1..], p)
  }

  /** In priority order, and among equal priorities in the order given. */
  ghost predicate IsStableSort(sorted: seq<Entry>, es: seq<Entry>) {
    Sorted(sorted) && forall p :: WithPriority(sorted, p) == WithPriority(es, p)
  }

  function Insert(row: seq<Entry>, e: Entry): seq<Entry>
    decreases |row|
  {
    if row == [] then [e]
    else if e.priority < row[0].priority then [e] + row
    else [row[0]] + Insert(row[1..], e)
  }

  /** sorted(es, key=priority) */
  function Sort(es: seq<Entry>): seq<Entry>
    decreases |es|
  {
    if es == [] then [] else Insert(Sort(es[..|es| - 1]), es[|es| - 1])
  }

  lemma Assoc(a: seq<Entry>, b: seq<Entry>, c: seq<Entry>)
    ensures (a + b) + c == a + (b + c)
  {
  }

  lemma {:induction false} WithPriorityOfBoth(a: seq<Entry>, b: seq<Entry>, p: int)
    ensures WithPriority(a + b, p) == WithPriority(a, p) + WithPriority(b, p)
    decreases |a|
  {
    if a == [] {
      assert a + b == b;
    } else {
      assert (a + b)[1..] == a[1..] + b && (a + b)[0] == a[0];
      WithPriorityOfBoth(a[1..], b, p);
      Assoc(if a[0].priority == p then [a[0]] else [], WithPriority(a[1..], p), WithPriority(b, p));
    }
  }

  lemma {:induction false} NoneWithLess(es: seq<Entry>, p: int)
    requires forall e :: e in es ==> p < e.priority
    ensures WithPriority(es, p) == []
    decreases |es|
  {
    if es != [] {
      NoneWithLess(es[1..], p);
    }
  }

  lemma {:induction false} InsertSorts(row: seq<Entry>, e: Entry)
    requires Sorted(row)
    ensures Sorted(Insert(row, e))
    ensures forall x :: x in Insert(row, e) <==> x in row || x == e
    decreases |row|
  {
    if row != [] && !(e.priority < row[0].priority) {
      InsertSorts(row[1..], e);
      assert forall x :: x in Insert(row[1..], e) ==> row[0].priority <= x.priority;
    }
  }

  lemma {:induction false} InsertIsStable(row: seq<Entry>, e: Entry, p: int)
    requires Sorted(row)
    ensures WithPriority(Insert(row, e), p) == WithPriority(row + [e], p)
    decreases |row|
  {
    WithPriorityOfBoth(row, [e], p);
    if row != [] {
      if e.priority < row[0].priority {
        WithPriorityOfBoth([e], row, p);
        if p == e.priority {
          NoneWithLess(row, p);
        }
      } else {
        InsertIsStable(row[1..], e, p);
        WithPriorityOfBoth(row[1..], [e], p);
      }
    }
  }

  lemma {:induction false} SortIsStable(es: seq<Entry>)
    ensures IsStableSort(Sort(es), es)
    ensures forall e :: e in Sort(es) <==> e in es
    decreases |es|
  {
    if es != [] {
      var init, last := es[..|es| - 1], es[|es| - 1];
      assert es == init + [last];
      SortIsStable(init);
      InsertSorts(Sort(init), last);
      forall p ensures WithPriority(Sort(es), p) == WithPriority(es, p) {
        InsertIsStable(Sort(init), last, p);
        WithPriorityOfBoth(Sort(init), [last], p);
        WithPriorityOfBoth(init, [last], p);
      }
    }
  }

  lemma {:induction false} HasPriority(es: seq<Entry>, i: nat)
    requires i < |es|
    ensures WithPriority(es, es[i].priority) != []
    decreases |es|
  {
    if i > 0 {
      HasPriority(es[1..], i - 1);
    }
  }

  lemma {:induction false} PriorityComesFrom(es: seq<Entry>, p: int) returns (i: nat)
    requires WithPriority(es, p) != []
    ensures i < |es| && es[i].priority == p
    decreases |es|
  {
    if es[0].priority == p {
      i := 0;
    } else {
      i := PriorityComesFrom(es[1..], p);
      i := i + 1;
    }
  }

  lemma NoPriorities(es: seq<Entry>)
    requires forall p :: WithPriority(es, p) == []
    ensures es == []
  {
    assert es == [] || WithPriority(es, es[0].priority) == [];
  }

  lemma SameHead(a: seq<Entry>, b: seq<Entry>)
    requires Sorted(a) && Sorted(b) && a != [] && forall p :: WithPriority(a, p) == WithPriority(b, p)
    ensures b != [] && a[0] == b[0]
  {
    HasPriority(a, 0);
    var i := PriorityComesFrom(b, a[0].priority);
    HasPriority(b, 0);
    var j := PriorityComesFrom(a, b[0].priority);
    assert a[0].priority == b[0].priority;
    assert WithPriority(a, a[0].priority)[0] == WithPriority(b, a[0].priority)[0];
  }

  /** There is only one stable sort. */
  lemma {:induction false} StableSortIsUnique(a: seq<Entry>, b: seq<Entry>)
    requires Sorted(a) && Sorted(b) && forall p :: WithPriority(a, p) == WithPriority(b, p)
    ensures a == b
    decreases |a|
  {
    if a == [] {
      NoPriorities(b);
    } else {
      SameHead(a, b);
      forall p ensures WithPriority(a[1..], p) == WithPriority(b[1..], p) {
        TailPriority(a, p);
        TailPriority(b, p);
      }
      StableSortIsUnique(a[1..], b[1..]);
    }
  }

  lemma TailPriority(es: seq<Entry>, p: int)
    requires es != []
    ensures WithPriority(es[1..], p) == if es[0].priority == p then WithPriority(es, p)[1..] else WithPriority(es, p)
  {
  }

  // ---- the routing table ------------------------------------------------------------------------------

  /** An action and a server that lists it. */
  datatype Listing = Listing(action: string, entry: Entry)

  function ListingsOf(s: Server, actions: seq<string>): seq<Listing>
    decreases |actions|
  {
    if actions == [] then []
    else ListingsOf(s, actions[..|actions| - 1]) + [Listing(actions[|actions| - 1], EntryOf(s))]
  }

  function Listings(servers: seq<Server>): seq<Listing>
    decreases |servers|
  {
    if servers == [] then []
    else Listings(servers[..|servers| - 1]) + ListingsOf(servers[|servers| - 1], servers[|servers| - 1].actions)
  }

  /** The servers of the listings of an action, in order. */
  function Listed(ls: seq<Listing>, action: string): seq<Entry>
    decreases |ls|
  {
    if ls == [] then []
    else Listed(ls[..|ls| - 1], action) + if ls[|ls| - 1].action == action then [ls[|ls| - 1].entry] else []
  }

  ghost predicate DistinctRows(table: seq<Row>) {
    forall i, j :: 0 <= i < j < |table| ==> table[i].action != table[j].action
  }

  ghost predicate HasRow(table: seq<Row>, action: string) {
    exists i :: 0 <= i < |table| && table[i].action == action
  }

  /** Every row is the stable sort of the servers listing its action, and has at least one; every
      action listed has its row. */
  ghost predicate TableOf(table: seq<Row>, ls: seq<Listing>) {
    && DistinctRows(table)
    && (forall i :: 0 <= i < |table| ==> RowOf(table[i], ls))
    && (forall l :: l in ls ==> HasRow(table, l.action))
  }

  ghost predicate RowOf(row: Row, ls: seq<Listing>) {
    row.entries == Sort(Listed(ls, row.action)) && row.entries != []
  }

  function FindRow(table: seq<Row>, action: string): (i: nat)
    ensures i <= |table| && (i < |table| ==> table[i].action == action)
    ensures forall j :: 0 <= j < i ==> table[j].action != action
  {
    if table == [] || table[0].action == action then 0 else FindRow(table[1..], action) + 1
  }

  lemma {:induction false} ListedExactly(ls: seq<Listing>, action: string, e: Entry)
    ensures e in Listed(ls, action) <==> Listing(action, e) in ls
    decreases |ls|
  {
    if ls != [] {
      assert ls == ls[..|ls| - 1] + [ls[|ls| - 1]];
      ListedExactly(ls[..|ls| - 1], action, e);
    }
  }

  lemma {:induction false} ListingsOfExactly(s: Server, actions: seq<string>, l: Listing)
    ensures l in ListingsOf(s, actions) <==> l.entry == EntryOf(s) && l.action in actions
    decreases |actions|
  {
    if actions != [] {
      assert actions == actions[..|actions| - 1] + [actions[|actions| - 1]];
      ListingsOfExactly(s, actions[..|actions| - 1], l);
    }
  }

  lemma {:induction false} ListingsExactly(servers: seq<Server>, l: Listing)
    ensures l in Listings(servers) <==> exists s :: s in servers && l.entry == EntryOf(s) && l.action in s.actions
    decreases |servers|
  {
    if servers != [] {
      var init, last := servers[..|servers| - 1], servers[|servers| - 1];
      assert servers == init + [last];
      ListingsExactly(init, l);
      ListingsOfExactly(last, last.actions, l);
    }
  }

  lemma ListedSnoc(ls: seq<Listing>, l: Listing, action: string)
    ensures Listed(ls + [l], action) == Listed(ls, action) + if l.action == action then [l.entry] else []
  {
    assert (ls + [l])[..|ls|] == ls;
  }

  lemma SortSnoc(es: seq<Entry>, e: Entry)
    ensures Sort(es + [e]) == Insert(Sort(es), e)
  {
    assert (es + [e])[..|es|] == es;
  }

  /** The row's entry inserted, or the row made. */
  function Added(table: seq<Row>, l: Listing): seq<Row> {
    var i := FindRow(table, l.action);
    if i < |table| then table[i := Row(l.action, Insert(table[i].entries, l.entry))]
    else table + [Row(l.action, [l.entry])]
  }

  lemma NoneListed(table: seq<Row>, ls: seq<Listing>, action: string)
    requires TableOf(table, ls) && !HasRow(table, action)
    ensures Listed(ls, action) == []
  {
    var es := Listed(ls, action);
    if es != [] {
      ListedExactly(ls, action, es[0]);
    }
  }

  lemma AddedRow(row: Row, ls: seq<Listing>, l: Listing)
    requires RowOf(row, ls)
    ensures RowOf(if row.action == l.action then Row(l.action, Insert(row.entries, l.entry)) else row, ls + [l])
  {
    ListedSnoc(ls, l, row.action);
    SortSnoc(Listed(ls, row.action), l.entry);
    assert Listed(ls, row.action) + [] == Listed(ls, row.action);
  }

  lemma AddedHasRows(table: seq<Row>, ls: seq<Listing>, l: Listing)
    requires TableOf(table, ls)
    ensures forall k :: k in ls + [l] ==> HasRow(Added(table, l), k.action)
  {
    var t := Added(table, l);
    assert t[FindRow(table, l.action)].action == l.action;
    forall k | k in ls ensures HasRow(t, k.action) {
      assert HasRow(table, k.action);
      var j :| 0 <= j < |table| && table[j].action == k.action;
      assert t[j].action == k.action;
    }
  }

  lemma NewRow(table: seq<Row>, ls: seq<Listing>, l: Listing)
    requires TableOf(table, ls) && !HasRow(table, l.action)
    ensures RowOf(Row(l.action, [l.entry]), ls + [l])
  {
    NoneListed(table, ls, l.action);
    ListedSnoc(ls, l, l.action);
    assert [] + [l.entry] == [l.entry];
    SortSnoc([], l.entry);
  }

  lemma AddedIsTable(table: seq<Row>, ls: seq<Listing>, l: Listing)
    requires TableOf(table, ls)
    ensures TableOf(Added(table, l), ls + [l])
  {
    var t := Added(table, l);
    AddedHasRows(table, ls, l);
    if FindRow(table, l.action) == |table| {
      NewRow(table, ls, l);
    }
    forall j | 0 <= j < |t| ensures RowOf(t[j], ls + [l]) {
      if j < |table| {
        AddedRow(table[j], ls, l);
      }
    }
  }

  /** The inner loop of _build_routing_table. */
  method InsertByPriority(row: seq<Entry>, e: Entry) returns (r: seq<Entry>)
    ensures r == Insert(row, e)
  {
    var i := 0;
    while i < |row|
      invariant 0 <= i <= |row|
      invariant Insert(row, e) == row[..i] + Insert(row[i..], e)
    {
      if e.priority < row[i].priority {
        assert row[..i] + ([e] + row[i..]) == row[..i] + [e] + row[i..];
        r := row[..i] + [e] + row[i..];
        return;
      }
      InsertFurther(row, e, i);
      i := i + 1;
    }
    assert row[..i] == row && row[i..] == [];
    r := row + [e];
  }

  lemma InsertFurther(row: seq<Entry>, e: Entry, i: nat)
    requires i < |row| && row[i].priority <= e.priority
    ensures row[..i] + Insert(row[i..], e) == row[..i + 1] + Insert(row[i + 1..], e)
  {
    assert row[i..][1..] == row[i + 1..];
    assert row[..i + 1] == row[..i] + [row[i]];
    Assoc(row[..i], [row[i]], Insert(row[i + 1..], e));
  }

  /** One round of the loop around it. */
  method AddAction(table: seq<Row>, action: string, e: Entry) returns (t: seq<Row>)
    ensures t == Added(table, Listing(action, e))
  {
    t := table;
    var i := FindRow(table, action);
    if i == |t| {
      t := t + [Row(action, [])];
    }
    var row := InsertByPriority(t[i].entries, e);
    t := t[i := Row(action, row)];
  }

  /** The actions of one server. */
  method AddServer(table: seq<Row>, s: Server, ghost ls: seq<Listing>) returns (t: seq<Row>)
    requires TableOf(table, ls)
    ensures TableOf(t, ls + ListingsOf(s, s.actions))
  {
    t := table;
    assert ls + ListingsOf(s, s.actions[..0]) == ls;
    for k := 0 to |s.actions|
      invariant TableOf(t, ls + ListingsOf(s, s.actions[..k]))
    {
      ghost var l := Listing(s.actions[k], EntryOf(s));
      AddedIsTable(t, ls + ListingsOf(s, s.actions[..k]), l);
      ListingsOfSnoc(ls, s, k);
      t := AddAction(t, s.actions[k], EntryOf(s));
    }
    assert s.actions[..|s.actions|] == s.actions;
  }

  lemma ListingsOfSnoc(ls: seq<Listing>, s: Server, k: nat)
    requires k < |s.actions|
    ensures ls + ListingsOf(s, s.actions[..k + 1]) == ls + ListingsOf(s, s.actions[..k]) + [Listing(s.actions[k], EntryOf(s))]
  {
    assert s.actions[..k + 1][..k] == s.actions[..k];
  }

  /** _build_routing_table */
  method BuildRoutingTable(servers: seq<Server>) returns (table: seq<Row>)
    ensures TableOf(table, Listings(servers))
  {
    table := [];
    for n := 0 to |servers|
      invariant TableOf(table, Listings(servers[..n]))
    {
      assert servers[..n + 1][..n] == servers[..n];
      table := AddServer(table, servers[n], Listings(servers[..n]));
    }
    assert servers[..|servers|] == servers;
  }

  // ---- finding the servers for an action --------------------------------------------------------------

  /** _action_matches_pattern */
  predicate Matches(action: string, pattern: string) {
    if pattern != [] && pattern[|pattern| - 1] == '*' then pattern[..|pattern| - 1] <= action
    else action == pattern
  }

  lemma MatchesItself(action: string)
    ensures Matches(action, action)
  {
  }

  /** The listed text stands for the action: it is the action, or a beginning of it followed by a star. */
  ghost predicate StandsFor(listed: string, action: string) {
    listed == action || exists n: nat :: n <= |action| && listed == action[..n] + "*"
  }

  lemma MatchesExactly(action: string, pattern: string)
    ensures Matches(action, pattern) <==> StandsFor(pattern, action)
  {
    if Matches(action, pattern) && pattern != action {
      assert pattern == action[..|pattern| - 1] + "*";
    }
    if n: nat :| n <= |action| && pattern == action[..n] + "*" {
      assert pattern[..|pattern| - 1] == action[..n];
    }
  }

  /** can_handle */
  method CanHandle(table: seq<Row>, action: string) returns (can: bool)
    ensures can <==> exists i :: 0 <= i < |table| && StandsFor(table[i].action, action)
  {
    forall i | 0 <= i < |table| ensures Matches(action, table[i].action) <==> StandsFor(table[i].action, action) {
      MatchesExactly(action, table[i].action);
    }
    var i := FindRow(table, action);
    if i < |table| {
      MatchesItself(action);
      return true;
    }
    for k := 0 to |table|
      invariant forall j :: 0 <= j < k ==> !Matches(action, table[j].action)
    {
      if Matches(action, table[k].action) {
        return true;
      }
    }
    return false;
  }

  /** The servers of every row whose pattern matches, row after row. */
  function Matching(table: seq<Row>, action: string): seq<Entry>
    decreases |table|
  {
    if table == [] then []
    else
      Matching(table[..|table| - 1], action)
      + if Matches(action, table[|table| - 1].action) then table[|table| - 1].entries else []
  }

  function ExactRow(table: seq<Row>, action: string): seq<Entry> {
    var i := FindRow(table, action);
    if i < |table| then table[i].entries else []
  }

  /** The first entry of every name. */
  function FirstOfEachName(es: seq<Entry>): seq<Entry>
    decreases |es|
  {
    if es == [] then []
    else
      var init, last := FirstOfEachName(es[..|es| - 1]), es[|es| - 1];
      if last.server.name in Names(es[..|es| - 1]) then init else init + [last]
  }

  function Names(es: seq<Entry>): set<Option<string>> {
    set e | e in es :: e.server.name
  }

  /** _find_servers_for_action, up to where duplicates are removed */
  method Collect(table: seq<Row>, action: string) returns (servers: seq<Entry>)
    ensures servers == ExactRow(table, action) + Matching(table, action)
  {
    servers := ExactRow(table, action);
    for k := 0 to |table|
      invariant servers == ExactRow(table, action) + Matching(table[..k], action)
    {
      assert table[..k + 1][..k] == table[..k];
      if Matches(action, table[k].action) {
        servers := servers + table[k].entries;
      }
    }
    assert table[..|table|] == table;
  }

  /** _find_servers_for_action */
  method FindServers(table: seq<Row>, action: string) returns (found: seq<Entry>)
    ensures found == Found(table, action)
  {
    var servers := Collect(table, action);
    var seen: set<Option<string>> := {};
    var unique := [];
    for k := 0 to |servers|
      invariant seen == Names(servers[..k])
      invariant unique == FirstOfEachName(servers[..k])
    {
      FirstOfSnoc(servers, k);
      if servers[k].server.name !in seen {
        seen := seen + {servers[k].server.name};
        unique := unique + [servers[k]];
      }
    }
    assert servers[..|servers|] == servers;
    found := Sort(unique);
  }

  lemma FirstOfSnoc(es: seq<Entry>, k: nat)
    requires k < |es|
    ensures Names(es[..k + 1]) == Names(es[..k]) + {es[k].server.name}
    ensures FirstOfEachName(es[..k + 1]) ==
      if es[k].server.name in Names(es[..k]) then FirstOfEachName(es[..k]) else FirstOfEachName(es[..k]) + [es[k]]
  {
    assert es[..k + 1] == es[..k] + [es[k]];
  }

  function Found(table: seq<Row>, action: string): seq<Entry> {
    Sort(FirstOfEachName(ExactRow(table, action) + Matching(table, action)))
  }

  // ---- which servers these are ---------------------------------------------------------------------------

  /** A server serves an action if it lists the action, or a beginning of it followed by a star. */
  ghost predicate Serves(s: Server, action: string) {
    exists listed :: listed in s.actions && StandsFor(listed, action)
  }

  /** The priority a server is tried by. */
  ghost function PriorityOf(s: Server): int {
    if s.priority.Some? then s.priority.value else 10
  }

  lemma {:induction false} MatchingExactly(table: seq<Row>, action: string, e: Entry)
    ensures e in Matching(table, action) <==>
      exists i :: 0 <= i < |table| && StandsFor(table[i].action, action) && e in table[i].entries
    decreases |table|
  {
    if table != [] {
      assert table == table[..|table| - 1] + [table[|table| - 1]];
      MatchesExactly(action, table[|table| - 1].action);
      MatchingExactly(table[..|table| - 1], action, e);
    }
  }

  lemma MatchingAreServing(servers: seq<Server>, table: seq<Row>, action: string, e: Entry)
    requires TableOf(table, Listings(servers))
    ensures e in ExactRow(table, action) ==> e in Matching(table, action)
    ensures e in Matching(table, action) <==> exists s :: s in servers && e == EntryOf(s) && Serves(s, action)
  {
    var ls := Listings(servers);
    MatchingExactly(table, action, e);
    forall i | 0 <= i < |table|
      ensures e in table[i].entries <==> Listing(table[i].action, e) in ls
    {
      assert RowOf(table[i], ls);
      SortIsStable(Listed(ls, table[i].action));
      ListedExactly(ls, table[i].action, e);
    }
    forall i | 0 <= i < |table|
      ensures Listing(table[i].action, e) in ls <==> exists s :: s in servers && e == EntryOf(s) && table[i].action in s.actions
    {
      ListingsExactly(servers, Listing(table[i].action, e));
    }
    if s :| s in servers && e == EntryOf(s) && Serves(s, action) {
      var p :| p in s.actions && StandsFor(p, action);
      ListingsExactly(servers, Listing(p, e));
      assert HasRow(table, p);
      var i :| 0 <= i < |table| && table[i].action == p;
    }
  }

  ghost predicate DistinctNames(es: seq<Entry>) {
    forall i, j :: 0 <= i < j < |es| ==> es[i].server.name != es[j].server.name
  }

  lemma {:induction false} FirstOfEachNameExactly(es: seq<Entry>)
    ensures Names(FirstOfEachName(es)) == Names(es)
    ensures forall e :: e in FirstOfEachName(es) ==> e in es
    ensures DistinctNames(FirstOfEachName(es))
    decreases |es|
  {
    if es != [] {
      var init, last := es[..|es| - 1], es[|es| - 1];
      FirstOfEachNameExactly(init);
      assert es == init + [last];
      NamesSnoc(init, last);
      NamesSnoc(FirstOfEachName(init), last);
      if last.server.name !in Names(init) {
        NewName(FirstOfEachName(init), last);
      }
    }
  }

  lemma NamesSnoc(es: seq<Entry>, e: Entry)
    ensures Names(es + [e]) == Names(es) + {e.server.name}
  {
  }

  lemma NewName(es: seq<Entry>, e: Entry)
    requires DistinctNames(es) && e.server.name !in Names(es)
    ensures DistinctNames(es + [e])
  {
    assert forall i :: 0 <= i < |es| ==> es[i].server.name in Names(es);
  }

  lemma {:induction false} InsertKeepsNames(row: seq<Entry>, e: Entry)
    requires DistinctNames(row) && e.server.name !in Names(row)
    ensures DistinctNames(Insert(row, e)) && Names(Insert(row, e)) == Names(row) + {e.server.name}
    decreases |row|
  {
    if row != [] {
      assert row == [row[0]] + row[1..];
      assert Names(row) == {row[0].server.name} + Names(row[1..]);
      if e.priority < row[0].priority {
        assert Names([e] + row) == {e.server.name} + Names(row);
        assert forall i :: 0 <= i < |row| ==> row[i].server.name in Names(row);
      } else {
        InsertKeepsNames(row[1..], e);
        var rest := Insert(row[1..], e);
        assert forall i :: 0 <= i < |rest| ==> rest[i].server.name in Names(rest);
        assert Names([row[0]] + rest) == {row[0].server.name} + Names(rest);
        assert row[0].server.name !in Names(row[1..]);
      }
    }
  }

  lemma {:induction false} SortKeepsNames(es: seq<Entry>)
    requires DistinctNames(es)
    ensures DistinctNames(Sort(es)) && Names(Sort(es)) == Names(es)
    decreases |es|
  {
    if es != [] {
      var init, last := es[..|es| - 1], es[|es| - 1];
      assert es == init + [last];
      SortKeepsNames(init);
      NamesSnoc(init, last);
      assert last.server.name !in Names(init);
      InsertKeepsNames(Sort(init), last);
    }
  }

  /** The names found are those of the servers that serve the action, each once, by priority. */
  lemma FoundExactly(servers: seq<Server>, table: seq<Row>, action: string)
    requires TableOf(table, Listings(servers))
    ensures Sorted(Found(table, action)) && DistinctNames(Found(table, action))
    ensures forall e :: e in Found(table, action) ==> exists s :: s in servers && e == Entry(s, PriorityOf(s)) && Serves(s, action)
    ensures forall s :: s in servers && Serves(s, action) ==> s.name in Names(Found(table, action))
  {
    var all := ExactRow(table, action) + Matching(table, action);
    FirstOfEachNameExactly(all);
    SortIsStable(FirstOfEachName(all));
    SortKeepsNames(FirstOfEachName(all));
    forall e ensures e in all <==> exists s :: s in servers && e == EntryOf(s) && Serves(s, action) {
      MatchingAreServing(servers, table, action, e);
    }
    forall s | s in servers && Serves(s, action) ensures s.name in Names(all) {
      assert EntryOf(s) in all;
    }
  }

  /** With one server to a name, exactly the servers that serve the action are found. */
  lemma FoundServers(servers: seq<Server>, table: seq<Row>, action: string, s: Server)
    requires TableOf(table, Listings(servers))
    requires forall a, b :: a in servers && b in servers && a.name == b.name ==> a == b
    requires s in servers
    ensures Entry(s, PriorityOf(s)) in Found(table, action) <==> Serves(s, action)
  {
    FoundExactly(servers, table, action);
    var found, entry := Found(table, action), Entry(s, PriorityOf(s));
    if Serves(s, action) {
      assert s.name in Names(found);
      var e :| e in found && e.server.name == s.name;
      var r :| r in servers && e == Entry(r, PriorityOf(r)) && Serves(r, action);
      assert r == s;
    }
    if entry in found {
      var r :| r in servers && entry == Entry(r, PriorityOf(r)) && Serves(r, action);
      assert r == entry.server;
    }
  }

  /** An action can be handled exactly if a server is found for it. */
  lemma HandledMeansFound(servers: seq<Server>, table: seq<Row>, action: string)
    requires TableOf(table, Listings(servers))
    ensures (exists i :: 0 <= i < |table| && StandsFor(table[i].action, action)) <==> Found(table, action) != []
    ensures Found(table, action) != [] <==> exists s :: s in servers && Serves(s, action)
  {
    FoundExactly(servers, table, action);
    if i :| 0 <= i < |table| && StandsFor(table[i].action, action) {
      assert RowOf(table[i], Listings(servers));
      var e := table[i].entries[0];
      MatchingExactly(table, action, e);
      MatchingAreServing(servers, table, action, e);
      var s :| s in servers && e == EntryOf(s) && Serves(s, action);
      assert s.name in Names(Found(table, action));
      var f :| f in Found(table, action) && f.server.name == s.name;
      assert Found(table, action) != [];
    }
    if Found(table, action) != [] {
      var e := Found(table, action)[0];
      assert e in Found(table, action);
      MatchingAreServing(servers, table, action, e);
      MatchingExactly(table, action, e);
    }
  }

  // ---- trying them -----------------------------------------------------------------------------------------

  /** What proxying to a server comes to: an answer, which may name its success and an error, or an exception. */
  datatype Outcome = Reply(success: Option<bool>, error: Option<string>, body: string) | Raised(message: string)

  /** KeyError: an entry without a name, met before any success, ends the call. */
  datatype Answer = Passed(reply: Outcome) | Failed(error: string) | KeyError

  /** An answer succeeds unless it says that it does not. */
  ghost predicate Succeeds(o: Outcome) {
    o.Reply? && o.success != Some(false)
  }

  ghost predicate HasError(o: Outcome, error: string) {
    if o.Raised? then error == o.message
    else if o.error.Some? then error == o.error.value
    else error == "Unknown error"
  }

  /** The attempts end with this entry: it has no name, or its server succeeds. */
  ghost predicate Ends(e: Entry, o: Outcome) {
    e.server.name.None? || Succeeds(o)
  }

  /** The first entry at which they end. */
  ghost predicate FirstEnd(found: seq<Entry>, attempt: nat -> Outcome, i: nat) {
    i < |found| && Ends(found[i], attempt(i)) && forall j: nat :: j < i ==> !Ends(found[j], attempt(j))
  }

  ghost predicate NoneEnds(found: seq<Entry>, attempt: nat -> Outcome, k: nat)
    requires k <= |found|
  {
    forall j: nat :: j < k ==> !Ends(found[j], attempt(j))
  }

  /** route_request, over the servers found; attempt gives the outcome of the n-th one. */
  method RouteRequest(found: seq<Entry>, action: string, attempt: nat -> Outcome) returns (answer: Answer)
    ensures forall i: nat :: FirstEnd(found, attempt, i) ==>
      answer == if found[i].server.name.Some? then Passed(attempt(i)) else KeyError
    ensures found == [] ==> answer == Failed("No external server configured for action: " + action)
    ensures NoneEnds(found, attempt, |found|) && found != [] ==>
      exists error :: HasError(attempt(|found| - 1), error)
        && answer == Failed("All servers failed for action " + action + ". Last error: " + error)
  {
    if found == [] {
      return Failed("No external server configured for action: " + action);
    }
    var lastError := "None";
    for i := 0 to |found|
      invariant NoneEnds(found, attempt, i)
      invariant i > 0 ==> HasError(attempt(i - 1), lastError)
    {
      if found[i].server.name.None? {
        EndsOnce(found, attempt, i);
        return KeyError;
      }
      var result := attempt(i);
      match result {
        case Reply(success, error, _) =>
          if success.GetOr(true) {
            EndsOnce(found, attempt, i);
            return Passed(result);
          }
          lastError := error.GetOr("Unknown error");
        case Raised(message) => lastError := message;
      }
    }
    answer := Failed("All servers failed for action " + action + ". Last error: " + lastError);
  }

  lemma EndsOnce(found: seq<Entry>, attempt: nat -> Outcome, i: nat)
    requires i < |found| && NoneEnds(found, attempt, i) && Ends(found[i], attempt(i))
    ensures !NoneEnds(found, attempt, |found|)
    ensures forall k: nat :: FirstEnd(found, attempt, k) <==> k == i
  {
    assert FirstEnd(found, attempt, i);
  }
}
