/** The library listing: which rows a viewer sees, and how they come in pages of source groups. */
module LibraryList {
  import opened Prelude

  /** `source` is the audio of a transcript or the transcript of a summary, if it still exists. */
  datatype Row = Row(id: nat, org: nat, owner: nat, source: Option<nat>, createdAt: int)

  /** The signed-in user; `org` and `orgAdmin` come from the membership. */
  datatype Viewer = Viewer(user: nat, instanceAdmin: bool, org: Option<nat>, orgAdmin: bool)

  /** Shares and hidden marks of one kind of object, as (object, user). */
  datatype Marks = Marks(shared: set<(nat, nat)>, hidden: set<(nat, nat)>)

  // ------------------------------------------------------------------ who may read what

  predicate MemberCanRead(v: Viewer, m: Marks, r: Row) {
    if v.org != Some(r.org) then false
    else if v.orgAdmin then true
    else if r.owner == v.user then true
    else (r.id, v.user) in m.shared
  }

  predicate CanRead(v: Viewer, m: Marks, r: Row) {
    v.instanceAdmin || MemberCanRead(v, m, r)
  }

  datatype Clause = InOrg(org: nat) | OwnOrShared | NotHidden

  predicate Holds(c: Clause, v: Viewer, m: Marks, r: Row) {
    match c
    case InOrg(org) => r.org == org
    case OwnOrShared => r.owner == v.user || (r.id, v.user) in m.shared
    case NotHidden => (r.id, v.user) !in m.hidden
  }

  /** The clauses of the listing query; a viewer who is in no organization is refused. */
  function VisibilityFilters(v: Viewer, includeHidden: bool): Option<seq<Clause>> {
    var unhidden := if includeHidden then [] else [NotHidden];
    if v.instanceAdmin then Some(unhidden)
    else if v.org.None? then None
    else Some([InOrg(v.org.value)] + (if v.orgAdmin then [] else [OwnOrShared]) + unhidden)
  }

  predicate Passes(clauses: seq<Clause>, v: Viewer, m: Marks, r: Row) {
    forall c :: c in clauses ==> Holds(c, v, m, r)
  }

  /** The query lists exactly the readable rows, less the hidden ones if those are left out. */
  lemma ListedIffReadable(v: Viewer, m: Marks, includeHidden: bool, r: Row)
    requires VisibilityFilters(v, includeHidden).Some?
    ensures Passes(VisibilityFilters(v, includeHidden).value, v, m, r) <==>
              CanRead(v, m, r) && (includeHidden || (r.id, v.user) !in m.hidden)
  {
    var clauses := VisibilityFilters(v, includeHidden).value;
    var unhidden := if includeHidden then [] else [NotHidden];
    assert forall c :: c in unhidden <==> c == NotHidden && !includeHidden;
    if v.instanceAdmin {
      assert clauses == unhidden;
    } else {
      var own := if v.orgAdmin then [] else [OwnOrShared];
      assert forall c :: c in own <==> c == OwnOrShared && !v.orgAdmin;
      assert forall c :: c in clauses <==> c in [InOrg(v.org.value)] || c in own || c in unhidden;
      assert InOrg(v.org.value) in clauses;
      assert !includeHidden ==> NotHidden in clauses;
      assert !v.orgAdmin ==> OwnOrShared in clauses;
    }
  }

  function Listed(clauses: seq<Clause>, v: Viewer, m: Marks, rows: seq<Row>): (out: seq<Row>)
    ensures forall r :: r in out <==> r in rows && Passes(clauses, v, m, r)
  {
    if rows == [] then []
    else if Passes(clauses, v, m, rows[0]) then [rows[0]] + Listed(clauses, v, m, rows[1..])
    else Listed(clauses, v, m, rows[1..])
  }

  // ------------------------------------------------------------------ source groups and their order

  function SourcesOf(rows: seq<Row>): set<Option<nat>> {
    set r | r in rows :: r.source
  }

  /** The rows of one source. */
  function OfSource(rows: seq<Row>, source: Option<nat>): (out: seq<Row>)
    ensures forall r :: r in out <==> r in rows && r.source == source
  {
    if rows == [] then []
    else if rows[0].source == source then [rows[0]] + OfSource(rows[1..], source)
    else OfSource(rows[1..], source)
  }

  function Latest(rows: seq<Row>): (latest: int)
    requires rows != []
    ensures forall r :: r in rows ==> r.createdAt <= latest
    ensures exists r :: r in rows && r.createdAt == latest
  {
    assert rows == [rows[0]] + rows[1..];
    if |rows| == 1 then
      assert rows[0] in rows;
      rows[0].createdAt
    else
      assert rows[0] in rows;
      Max(rows[0].createdAt, Latest(rows[1..]))
  }

  function Newest(rows: seq<Row>, source: Option<nat>): int
    requires source in SourcesOf(rows)
  {
    Latest(OfSource(rows, source))
  }

  /** `coalesce(source, "")`: rows without a source sort before every id. */
  function Rank(source: Option<nat>): nat {
    match source case None => 0 case Some(id) => id + 1
  }

  datatype Key = Key(newest: int, rank: nat)

  type Keys = map<Option<nat>, Key>

  /** What the group query sorts by: the newest row of each source, then the source. */
  function KeysOf(rows: seq<Row>): (keys: Keys)
    ensures keys.Keys == SourcesOf(rows)
  {
    map s | s in SourcesOf(rows) :: Key(Newest(rows, s), Rank(s))
  }

  predicate Less(a: Key, b: Key) {
    a.newest > b.newest || (a.newest == b.newest && a.rank < b.rank)
  }

  /** No two sources sort alike. */
  ghost predicate Distinct(keys: Keys) {
    forall a, b :: a in keys && b in keys && a != b ==> keys[a] != keys[b]
  }

  ghost predicate Sorted(keys: Keys, sources: seq<Option<nat>>)
    requires forall s :: s in sources ==> s in keys
  {
    forall i, j :: 0 <= i < j < |sources| ==> Less(keys[sources[i]], keys[sources[j]])
  }

  ghost predicate IsFirst(keys: Keys, among: set<Option<nat>>, f: Option<nat>)
    requires among <= keys.Keys
  {
    f in among && forall s :: s in among && s != f ==> Less(keys[f], keys[s])
  }

  lemma {:induction false} FirstExists(keys: Keys, among: set<Option<nat>>)
    requires Distinct(keys) && among != {} && among <= keys.Keys
    ensures exists f :: IsFirst(keys, among, f)
    decreases |among|
  {
    var x :| x in among;
    var rest := among - {x};
    assert forall s :: s in among ==> s == x || s in rest;
    if rest == {} {
      assert IsFirst(keys, among, x);
    } else {
      FirstExists(keys, rest);
      var f :| IsFirst(keys, rest, f);
      assert keys[f] != keys[x];
      if Less(keys[f], keys[x]) {
        assert IsFirst(keys, among, f);
      } else {
        forall s | s in among && s != x ensures Less(keys[x], keys[s]) {
          assert s == f || Less(keys[f], keys[s]);
        }
        assert IsFirst(keys, among, x);
      }
    }
  }

  ghost function First(keys: Keys, among: set<Option<nat>>): (f: Option<nat>)
    requires Distinct(keys) && among != {} && among <= keys.Keys
    ensures IsFirst(keys, among, f)
  {
    FirstExists(keys, among);
    var f :| IsFirst(keys, among, f);
    f
  }

  ghost function InOrder(keys: Keys, among: set<Option<nat>>): (sources: seq<Option<nat>>)
    requires Distinct(keys) && among <= keys.Keys
    ensures forall s :: s in sources <==> s in among
    ensures |sources| == |among|
    decreases |among|
  {
    if among == {} then []
    else
      var f := First(keys, among);
      [f] + InOrder(keys, among - {f})
  }

  lemma {:induction false} InOrderIsSorted(keys: Keys, among: set<Option<nat>>)
    requires Distinct(keys) && among <= keys.Keys
    ensures Sorted(keys, InOrder(keys, among))
    decreases |among|
  {
    if among != {} {
      var f := First(keys, among);
      InOrderIsSorted(keys, among - {f});
      SortedInFront(keys, f, InOrder(keys, among - {f}));
    }
  }

  lemma SortedInFront(keys: Keys, f: Option<nat>, rest: seq<Option<nat>>)
    requires f in keys && (forall s :: s in rest ==> s in keys && Less(keys[f], keys[s]))
    requires Sorted(keys, rest)
    ensures Sorted(keys, [f] + rest)
  {
  }

  lemma HeadComesFirst(keys: Keys, a: seq<Option<nat>>)
    requires a != [] && (forall s :: s in a ==> s in keys) && Sorted(keys, a)
    ensures forall s :: s in a && s != a[0] ==> Less(keys[a[0]], keys[s])
    ensures a[0] !in a[1..] && Sorted(keys, a[1..])
  {
  }

  lemma {:induction false} SameOrder(keys: Keys, a: seq<Option<nat>>, b: seq<Option<nat>>)
    requires (forall s :: s in a <==> s in b) && forall s :: s in a ==> s in keys
    requires Sorted(keys, a) && Sorted(keys, b)
    ensures a == b
    decreases |a|
  {
    assert b != [] ==> b[0] in b;
    if a != [] {
      assert a[0] in a && a[0] in b;
      HeadComesFirst(keys, a);
      HeadComesFirst(keys, b);
      assert b[0] in a;
      assert forall s :: s in a <==> s == a[0] || s in a[1..];
      assert forall s :: s in b <==> s == b[0] || s in b[1..];
      SameOrder(keys, a[1..], b[1..]);
    }
  }

  lemma KeysAreDistinct(rows: seq<Row>)
    ensures Distinct(KeysOf(rows))
  {
    var keys := KeysOf(rows);
    forall a, b | a in keys && b in keys && a != b ensures keys[a] != keys[b] {
      assert keys[a].rank == Rank(a) && keys[b].rank == Rank(b);
    }
  }

  /** All source ids in the order of the group query, without offset and limit. */
  ghost function Groups(rows: seq<Row>): (sources: seq<Option<nat>>)
    ensures forall s :: s in sources <==> s in SourcesOf(rows)
    ensures |sources| == |SourcesOf(rows)|
  {
    KeysAreDistinct(rows);
    InOrder(KeysOf(rows), SourcesOf(rows))
  }

  function CountGroups(rows: seq<Row>): nat {
    |SourcesOf(rows)|
  }

  /** An answer to the group query: every source, in strictly the order asked for. */
  ghost predicate GroupAnswer(rows: seq<Row>, sources: seq<Option<nat>>) {
    (forall s :: s in sources <==> s in SourcesOf(rows)) && Sorted(KeysOf(rows), sources)
  }

  /** The order leaves the database no choice: there is just one answer, and so pages fit together. */
  lemma OneAnswer(rows: seq<Row>, sources: seq<Option<nat>>)
    ensures GroupAnswer(rows, sources) <==> sources == Groups(rows)
  {
    GroupsAnswer(rows);
    if GroupAnswer(rows, sources) {
      SameOrder(KeysOf(rows), sources, Groups(rows));
    }
  }

  lemma GroupsAnswer(rows: seq<Row>)
    ensures GroupAnswer(rows, Groups(rows))
  {
    KeysAreDistinct(rows);
    InOrderIsSorted(KeysOf(rows), SourcesOf(rows));
  }

  // ------------------------------------------------------------------ pages

  datatype Group = Group(source: Option<nat>, items: seq<Row>)

  /** OFFSET and LIMIT. */
  function Slice<T>(all: seq<T>, offset: nat, limit: nat): seq<T> {
    if offset >= |all| then []
    else if offset + limit >= |all| then all[offset..]
    else all[offset..offset + limit]
  }

  /** A slice is empty only past the end; otherwise it is the next stretch. */
  lemma SliceIs<T>(all: seq<T>, offset: nat, limit: nat)
    requires limit > 0
    ensures Slice(all, offset, limit) == [] <==> offset >= |all|
    ensures offset + limit <= |all| ==> all[offset..] == Slice(all, offset, limit) + all[offset + limit..]
    ensures offset < |all| < offset + limit ==> all[offset..] == Slice(all, offset, limit)
  {
  }

  /** The rows of the sources of one page. */
  function RowsIn(rows: seq<Row>, sources: seq<Option<nat>>): (out: seq<Row>)
    ensures forall r :: r in out <==> r in rows && r.source in sources
  {
    if rows == [] then []
    else if rows[0].source in sources then [rows[0]] + RowsIn(rows[1..], sources)
    else RowsIn(rows[1..], sources)
  }

  /** Put a row among rows that are newest first; equals keep the order in which they came. */
  function Inserted(sorted: seq<Row>, r: Row): seq<Row> {
    if sorted == [] || sorted[|sorted| - 1].createdAt >= r.createdAt then sorted + [r]
    else Inserted(sorted[..|sorted| - 1], r) + [sorted[|sorted| - 1]]
  }

  function NewestFirst(rows: seq<Row>): seq<Row> {
    if rows == [] then [] else Inserted(NewestFirst(rows[..|rows| - 1]), rows[|rows| - 1])
  }

  ghost predicate Descending(rows: seq<Row>) {
    forall i, j :: 0 <= i < j < |rows| ==> rows[i].createdAt >= rows[j].createdAt
  }

  /** What is no newer than any of the rows may follow them. */
  lemma OldestLast(rows: seq<Row>, last: Row)
    requires Descending(rows) && forall r :: r in rows ==> r.createdAt >= last.createdAt
    ensures Descending(rows + [last])
  {
    forall i | 0 <= i < |rows| ensures rows[i].createdAt >= last.createdAt {
      assert rows[i] in rows;
    }
  }

  /** A row that others follow is no older than the last of them. */
  lemma AllAtLeast(front: seq<Row>, last: Row)
    requires Descending(front + [last])
    ensures Descending(front) && forall r :: r in front ==> r.createdAt >= last.createdAt
  {
    var sorted := front + [last];
    forall i | 0 <= i < |front| ensures front[i].createdAt >= last.createdAt {
      assert sorted[i] == front[i] && sorted[|front|] == last;
    }
    forall i, j | 0 <= i < j < |front| ensures front[i].createdAt >= front[j].createdAt {
      assert sorted[i] == front[i] && sorted[j] == front[j];
    }
  }

  lemma {:induction false} InsertedIs(sorted: seq<Row>, r: Row)
    requires Descending(sorted)
    ensures Descending(Inserted(sorted, r)) && multiset(Inserted(sorted, r)) == multiset(sorted) + multiset{r}
    decreases |sorted|
  {
    if sorted != [] {
      var front, last := sorted[..|sorted| - 1], sorted[|sorted| - 1];
      assert sorted == front + [last];
      AllAtLeast(front, last);
      if last.createdAt < r.createdAt {
        InsertedIs(front, r);
        var out := Inserted(front, r);
        forall x | x in out ensures x.createdAt >= last.createdAt {
          assert x in multiset(out);
          assert x == r || x in front;
        }
        OldestLast(out, last);
      } else {
        forall x | x in sorted ensures x.createdAt >= r.createdAt {
          assert x == last || x in front;
        }
        OldestLast(sorted, r);
      }
    }
  }

  lemma {:induction false} NewestFirstIs(rows: seq<Row>)
    ensures Descending(NewestFirst(rows)) && multiset(NewestFirst(rows)) == multiset(rows)
    decreases |rows|
  {
    if rows != [] {
      NewestFirstIs(rows[..|rows| - 1]);
      InsertedIs(NewestFirst(rows[..|rows| - 1]), rows[|rows| - 1]);
      assert rows == rows[..|rows| - 1] + [rows[|rows| - 1]];
    }
  }

  function GroupsFor(sources: seq<Option<nat>>, items: seq<Row>): (groups: seq<Group>)
    ensures AreGroups(items, groups, sources)
  {
    seq(|sources|, i requires 0 <= i < |sources| => GroupOf(items, sources[i]))
  }

  /** The group that belongs to a source: all its rows, the newest first. */
  function GroupOf(rows: seq<Row>, s: Option<nat>): Group {
    Group(s, NewestFirst(OfSource(rows, s)))
  }

  ghost predicate AreGroups(rows: seq<Row>, groups: seq<Group>, sources: seq<Option<nat>>) {
    |groups| == |sources| && forall i :: 0 <= i < |groups| ==> groups[i] == GroupOf(rows, sources[i])
  }

  function Gathered(bySource: map<Option<nat>, seq<Row>>, source: Option<nat>): seq<Row> {
    if source in bySource then bySource[source] else []
  }

  lemma {:induction false} OfSourceGrows(items: seq<Row>, r: Row, source: Option<nat>)
    ensures OfSource(items + [r], source)
            == if r.source == source then OfSource(items, source) + [r] else OfSource(items, source)
    decreases |items|
  {
    if items == [] {
      assert items + [r] == [r];
      assert [r][1..] == [];
    } else {
      assert (items + [r])[1..] == items[1..] + [r];
      OfSourceGrows(items[1..], r, source);
    }
  }

  /** The items of a page in a dictionary by source, each list in the order of the page. */
  method Gather(items: seq<Row>) returns (bySource: map<Option<nat>, seq<Row>>)
    ensures forall s :: Gathered(bySource, s) == OfSource(items, s)
  {
    bySource := map[];
    for i := 0 to |items|
      invariant forall s :: Gathered(bySource, s) == OfSource(items[..i], s)
    {
      var item := items[i];
      ghost var before := bySource;
      bySource := bySource[item.source := Gathered(bySource, item.source) + [item]];
      assert items[..i + 1] == items[..i] + [item];
      forall s ensures Gathered(bySource, s) == OfSource(items[..i + 1], s) {
        OfSourceGrows(items[..i], item, s);
        assert Gathered(before, s) == OfSource(items[..i], s);
      }
    }
    assert items[..|items|] == items;
  }

  /** One group for each source of the page, taken out of the dictionary. */
  method SourceGroups(sources: seq<Option<nat>>, items: seq<Row>) returns (groups: seq<Group>)
    ensures AreGroups(items, groups, sources)
  {
    var bySource := Gather(items);
    groups := [];
    for i := 0 to |sources|
      invariant |groups| == i && forall k :: 0 <= k < i ==> groups[k] == GroupOf(items, sources[k])
    {
      groups := groups + [Group(sources[i], NewestFirst(Gathered(bySource, sources[i])))];
    }
  }

  // ------------------------------------------------------------------ all pages together

  /** Pages at successive offsets of a group list, to the first empty one. */
  function PagesFrom(rows: seq<Row>, all: seq<Option<nat>>, offset: nat, limit: nat): seq<Group>
    requires limit > 0
    decreases |all| - offset
  {
    var page := Slice(all, offset, limit);
    if offset >= |all| then []
    else GroupsFor(page, RowsIn(rows, page)) + PagesFrom(rows, all, offset + limit, limit)
  }

  ghost function AllPages(rows: seq<Row>, limit: nat): seq<Group>
    requires limit > 0
  {
    PagesFrom(rows, Groups(rows), 0, limit)
  }

  ghost function Items(groups: seq<Group>): multiset<Row> {
    if groups == [] then multiset{} else multiset(groups[0].items) + Items(groups[1..])
  }

  lemma {:induction false} OfSourceInPage(rows: seq<Row>, sources: seq<Option<nat>>, s: Option<nat>)
    requires s in sources
    ensures OfSource(RowsIn(rows, sources), s) == OfSource(rows, s)
    decreases |rows|
  {
    if rows != [] {
      OfSourceInPage(rows[1..], sources, s);
      var rest := RowsIn(rows[1..], sources);
      assert ([rows[0]] + rest)[1..] == rest;
    }
  }

  lemma PageGroups(rows: seq<Row>, page: seq<Option<nat>>)
    ensures AreGroups(rows, GroupsFor(page, RowsIn(rows, page)), page)
  {
    var groups := GroupsFor(page, RowsIn(rows, page));
    forall i | 0 <= i < |page| ensures groups[i] == GroupOf(rows, page[i]) {
      OfSourceInPage(rows, page, page[i]);
    }
  }

  lemma Joined(rows: seq<Row>, a: seq<Group>, b: seq<Group>, s: seq<Option<nat>>, t: seq<Option<nat>>)
    requires AreGroups(rows, a, s) && AreGroups(rows, b, t)
    ensures AreGroups(rows, a + b, s + t)
  {
  }

  /** Successive pages list the groups one after another: each source once, with all of its rows. */
  lemma {:induction false} PagesTile(rows: seq<Row>, all: seq<Option<nat>>, offset: nat, limit: nat)
    requires limit > 0 && offset <= |all|
    ensures AreGroups(rows, PagesFrom(rows, all, offset, limit), all[offset..])
    decreases |all| - offset
  {
    var page := Slice(all, offset, limit);
    SliceIs(all, offset, limit);
    if offset < |all| {
      PageGroups(rows, page);
      var here, later := GroupsFor(page, RowsIn(rows, page)), PagesFrom(rows, all, offset + limit, limit);
      if offset + limit <= |all| {
        PagesTile(rows, all, offset + limit, limit);
        Joined(rows, here, later, page, all[offset + limit..]);
      } else {
        assert here + later == here;
      }
    }
  }

  /** The rows with a source among the given ones, as a bag. */
  ghost function RowsOf(rows: seq<Row>, sources: set<Option<nat>>): multiset<Row> {
    if rows == [] then multiset{}
    else (if rows[0].source in sources then multiset{rows[0]} else multiset{}) + RowsOf(rows[1..], sources)
  }

  lemma {:induction false} OneSourceMore(rows: seq<Row>, sources: set<Option<nat>>, s: Option<nat>)
    requires s !in sources
    ensures RowsOf(rows, sources + {s}) == multiset(OfSource(rows, s)) + RowsOf(rows, sources)
    decreases |rows|
  {
    if rows != [] {
      OneSourceMore(rows[1..], sources, s);
    }
  }

  lemma {:induction false} EverySource(rows: seq<Row>, sources: set<Option<nat>>)
    requires forall r :: r in rows ==> r.source in sources
    ensures RowsOf(rows, sources) == multiset(rows)
    decreases |rows|
  {
    if rows != [] {
      EverySource(rows[1..], sources);
      assert rows == [rows[0]] + rows[1..];
    }
  }

  function Among(sources: seq<Option<nat>>): set<Option<nat>> {
    set s | s in sources
  }

  lemma {:induction false} ItemsOfGroups(rows: seq<Row>, groups: seq<Group>, sources: seq<Option<nat>>)
    requires AreGroups(rows, groups, sources)
    requires forall i, j :: 0 <= i < j < |sources| ==> sources[i] != sources[j]
    ensures Items(groups) == RowsOf(rows, Among(sources))
    decreases |groups|
  {
    if groups == [] {
      NoSource(rows);
      assert Among(sources) == {};
    } else {
      var rest := Among(sources[1..]);
      ItemsOfGroups(rows, groups[1..], sources[1..]);
      assert sources == [sources[0]] + sources[1..];
      assert Among(sources) == rest + {sources[0]};
      assert sources[0] !in rest;
      OneSourceMore(rows, rest, sources[0]);
      NewestFirstIs(OfSource(rows, sources[0]));
      assert groups[0] == GroupOf(rows, sources[0]);
    }
  }

  lemma {:induction false} NoSource(rows: seq<Row>)
    ensures RowsOf(rows, {}) == multiset{}
    decreases |rows|
  {
    if rows != [] {
      NoSource(rows[1..]);
    }
  }

  /**
    Paging through the listing with any page size: each source group comes once, in the order of the
    group query, their number is the count shown beside it, and together they hold every listed row
    as often as it is in the table.
   */
  lemma PagesHoldTheListing(rows: seq<Row>, limit: nat)
    requires limit > 0
    ensures var all := AllPages(rows, limit);
            && AreGroups(rows, all, Groups(rows)) && |all| == CountGroups(rows)
            && (forall i, j :: 0 <= i < j < |all| ==> all[i].source != all[j].source)
            && Items(all) == multiset(rows)
  {
    GroupsAreDistinct(rows);
    PagesHold(rows, Groups(rows), limit);
  }

  lemma PagesHold(rows: seq<Row>, sources: seq<Option<nat>>, limit: nat)
    requires limit > 0
    requires forall i, j :: 0 <= i < j < |sources| ==> sources[i] != sources[j]
    requires forall r :: r in rows ==> r.source in sources
    ensures var all := PagesFrom(rows, sources, 0, limit);
            && AreGroups(rows, all, sources)
            && (forall i, j :: 0 <= i < j < |all| ==> all[i].source != all[j].source)
            && Items(all) == multiset(rows)
  {
    var all := PagesFrom(rows, sources, 0, limit);
    PagesTile(rows, sources, 0, limit);
    assert sources[0..] == sources;
    forall i | 0 <= i < |all| ensures all[i].source == sources[i] {
      assert all[i] == GroupOf(rows, sources[i]);
    }
    ItemsOfGroups(rows, all, sources);
    EverySource(rows, Among(sources));
  }

  lemma GroupsAreDistinct(rows: seq<Row>)
    ensures var sources := Groups(rows); forall i, j :: 0 <= i < j < |sources| ==> sources[i] != sources[j]
  {
    OneAnswer(rows, Groups(rows));
    var keys, sources := KeysOf(rows), Groups(rows);
    forall i, j | 0 <= i < j < |sources| ensures sources[i] != sources[j] {
      assert Less(keys[sources[i]], keys[sources[j]]);
    }
  }

  /** With nothing filtered and hidden rows included, that is just what the viewer may read, each row once. */
  lemma ListingIsReadableLibrary(v: Viewer, m: Marks, table: seq<Row>, limit: nat)
    requires limit > 0 && VisibilityFilters(v, true).Some?
    requires forall i, j :: 0 <= i < j < |table| ==> table[i].id != table[j].id
    ensures var items := Items(AllPages(Listed(VisibilityFilters(v, true).value, v, m, table), limit));
            forall r :: items[r] == if r in table && CanRead(v, m, r) then 1 else 0
  {
    var clauses := VisibilityFilters(v, true).value;
    var rows := Listed(clauses, v, m, table);
    PagesHoldTheListing(rows, limit);
    ListedOnce(clauses, v, m, table);
    forall r ensures multiset(rows)[r] == if r in table && CanRead(v, m, r) then 1 else 0 {
      ListedIffReadable(v, m, true, r);
    }
  }

  lemma {:induction false} ListedOnce(clauses: seq<Clause>, v: Viewer, m: Marks, table: seq<Row>)
    requires forall i, j :: 0 <= i < j < |table| ==> table[i].id != table[j].id
    ensures forall r :: multiset(Listed(clauses, v, m, table))[r]
                        == if r in table && Passes(clauses, v, m, r) then 1 else 0
    decreases |table|
  {
    if table != [] {
      var rest := Listed(clauses, v, m, table[1..]);
      ListedOnce(clauses, v, m, table[1..]);
      assert table[0] !in table[1..];
      assert table == [table[0]] + table[1..];
    }
  }
}
