/** Sharing badges of library rows: one row at a time, and for a whole page at once. */
module ShareBadges {
  import opened Prelude
  import T = Transfer

  datatype User = User(email: string, displayName: string)

  datatype Share = Share(id: nat, kind: T.Kind, item: nat, fromUser: nat, toUser: nat)

  /** The tables a badge is made from; `shares` in the order a query returns them. */
  datatype Tables = Tables(shares: seq<Share>, hidden: set<(nat, T.Kind, nat)>, users: map<nat, User>)

  datatype Row = Row(id: nat, owner: nat)

  /** A user as shown to others: by name, or by bare id when the account is gone. */
  datatype Shown = Named(email: string, displayName: string) | Unnamed(id: nat)

  datatype ShareItem = ShareItem(share: nat, toUser: nat, shown: Shown)

  datatype Sharing =
    | NotShared
    | Incoming(sharedBy: Shown, shareId: nat)
    | Outgoing(sharedWith: seq<nat>, items: seq<ShareItem>)

  datatype Badge = Badge(hidden: bool, owner: Option<User>, tags: seq<string>, sharing: Sharing)

  /** The unique key of the share table. */
  ghost predicate KeyUnique(shares: seq<Share>) {
    forall i, j :: 0 <= i < j < |shares| ==>
      !(shares[i].kind == shares[j].kind && shares[i].item == shares[j].item && shares[i].toUser == shares[j].toUser)
  }

  // ------------------------------------------------------------------ one row

  predicate Addressed(s: Share, kind: T.Kind, item: nat, viewer: nat) {
    s.kind == kind && s.item == item && s.toUser == viewer
  }

  /** The first share of an object to the viewer. */
  function SharedTo(shares: seq<Share>, kind: T.Kind, item: nat, viewer: nat): Option<Share> {
    if shares == [] then None
    else if Addressed(shares[0], kind, item, viewer) then Some(shares[0])
    else SharedTo(shares[1..], kind, item, viewer)
  }

  /** All shares of an object. */
  function SharesOf(shares: seq<Share>, kind: T.Kind, item: nat): seq<Share> {
    if shares == [] then []
    else
      var last := shares[|shares| - 1];
      SharesOf(shares[..|shares| - 1], kind, item) + (if last.kind == kind && last.item == item then [last] else [])
  }

  function Find(users: map<nat, User>, id: nat): Option<User> {
    if id in users then Some(users[id]) else None
  }

  function Show(users: map<nat, User>, id: nat): Shown {
    if id in users then Named(users[id].email, users[id].displayName) else Unnamed(id)
  }

  function ShareItems(shares: seq<Share>, users: map<nat, User>): (items: seq<ShareItem>)
  {
    seq(|shares|, i requires 0 <= i < |shares| =>
      ShareItem(shares[i].id, shares[i].toUser, Show(users, shares[i].toUser)))
  }

  function Recipients(shares: seq<Share>): seq<nat> {
    seq(|shares|, i requires 0 <= i < |shares| => shares[i].toUser)
  }

  function ShareBadge(db: Tables, viewer: nat, kind: T.Kind, row: Row, tags: seq<string>): Badge {
    var sharing :=
      if row.owner == viewer then
        var outgoing := SharesOf(db.shares, kind, row.id);
        Outgoing(Recipients(outgoing), ShareItems(outgoing, db.users))
      else
        match SharedTo(db.shares, kind, row.id, viewer)
        case Some(s) => Incoming(Show(db.users, s.fromUser), s.id)
        case None => NotShared;
    Badge((viewer, kind, row.id) in db.hidden, Find(db.users, row.owner), tags, sharing)
  }

  // ------------------------------------------------------------------ a whole page

  /** Rows with the same id are the same row. */
  ghost predicate Consistent(rows: seq<Row>) {
    forall i, j :: 0 <= i < |rows| && 0 <= j < |rows| && rows[i].id == rows[j].id ==> rows[i] == rows[j]
  }

  /** With the key unique, the share found last is the one found first. */
  lemma {:induction false} OnlyOneAddressed(shares: seq<Share>, kind: T.Kind, item: nat, viewer: nat, k: nat)
    requires KeyUnique(shares) && k < |shares| && Addressed(shares[k], kind, item, viewer)
    ensures SharedTo(shares, kind, item, viewer) == Some(shares[k])
    decreases |shares|
  {
    if k > 0 {
      assert !Addressed(shares[0], kind, item, viewer);
      OnlyOneAddressed(shares[1..], kind, item, viewer, k - 1);
    }
  }

  lemma {:induction false} NoneAddressed(shares: seq<Share>, kind: T.Kind, item: nat, viewer: nat)
    requires forall k :: 0 <= k < |shares| ==> !Addressed(shares[k], kind, item, viewer)
    ensures SharedTo(shares, kind, item, viewer) == None
    decreases |shares|
  {
    if shares != [] {
      NoneAddressed(shares[1..], kind, item, viewer);
    }
  }

  /** The incoming shares of a page, by object. */
  method CollectIncoming(shares: seq<Share>, kind: T.Kind, ids: set<nat>, viewer: nat)
    returns (incoming: map<nat, Share>)
    requires KeyUnique(shares)
    ensures forall o :: o in ids ==>
              SharedTo(shares, kind, o, viewer) == if o in incoming then Some(incoming[o]) else None
    ensures forall o :: o in incoming ==> o in ids
  {
    incoming := map[];
    for i := 0 to |shares|
      invariant forall o :: o in incoming ==>
                  && o in ids
                  && exists k :: 0 <= k < i && shares[k] == incoming[o] && Addressed(shares[k], kind, o, viewer)
      invariant forall k :: 0 <= k < i && shares[k].kind == kind && shares[k].item in ids
                            && shares[k].toUser == viewer ==>
                  shares[k].item in incoming
    {
      var s := shares[i];
      if s.kind == kind && s.item in ids && s.toUser == viewer {
        incoming := incoming[s.item := s];
      }
    }
    forall o | o in ids
      ensures SharedTo(shares, kind, o, viewer) == if o in incoming then Some(incoming[o]) else None
    {
      if o in incoming {
        var k :| 0 <= k < |shares| && shares[k] == incoming[o] && Addressed(shares[k], kind, o, viewer);
        OnlyOneAddressed(shares, kind, o, viewer, k);
      } else {
        NoneAddressed(shares, kind, o, viewer);
      }
    }
  }

  function Listed(outgoing: map<nat, seq<Share>>, o: nat): seq<Share> {
    if o in outgoing then outgoing[o] else []
  }

  /** The outgoing shares of the viewer's own objects, by object, in table order. */
  method CollectOutgoing(shares: seq<Share>, kind: T.Kind, owned: set<nat>) returns (outgoing: map<nat, seq<Share>>)
    ensures forall o :: o in owned ==> Listed(outgoing, o) == SharesOf(shares, kind, o)
    ensures forall o :: o in outgoing ==> o in owned
  {
    outgoing := map[];
    for i := 0 to |shares|
      invariant forall o :: o in owned ==> Listed(outgoing, o) == SharesOf(shares[..i], kind, o)
      invariant forall o :: o in outgoing ==> o in owned
    {
      var s := shares[i];
      assert shares[..i + 1][..i] == shares[..i];
      if s.kind == kind && s.item in owned {
        outgoing := outgoing[s.item := Listed(outgoing, s.item) + [s]];
      }
    }
    assert shares[..|shares|] == shares;
  }

  /** Restricting the users to those a list of shares mentions shows them all the same. */
  lemma ShownAlike(shares: seq<Share>, users: map<nat, User>, some: map<nat, User>)
    requires forall s :: s in shares ==> Find(some, s.toUser) == Find(users, s.toUser)
    ensures ShareItems(shares, some) == ShareItems(shares, users)
  {
  }

  /** The badge put together from what was collected for the page. */
  function BadgeFrom(hiddenIds: set<nat>, incoming: map<nat, Share>, outgoing: map<nat, seq<Share>>,
                     users: map<nat, User>, viewer: nat, row: Row, tags: seq<string>): Badge
  {
    var sharing :=
      if row.owner == viewer then
        Outgoing(Recipients(Listed(outgoing, row.id)), ShareItems(Listed(outgoing, row.id), users))
      else if row.id in incoming then
        Incoming(Show(users, incoming[row.id].fromUser), incoming[row.id].id)
      else NotShared;
    Badge(row.id in hiddenIds, Find(users, row.owner), tags, sharing)
  }

  function Mentioned(rows: seq<Row>, incoming: map<nat, Share>, outgoing: map<nat, seq<Share>>): set<nat> {
    (set r | r in rows :: r.owner)
    + (set o | o in incoming :: incoming[o].fromUser)
    + (set o, s | o in outgoing && s in outgoing[o] :: s.toUser)
  }

  /** What was collected for a page says of its rows what the tables say. */
  ghost predicate Collected(db: Tables, viewer: nat, kind: T.Kind, rows: seq<Row>,
      hiddenIds: set<nat>, incoming: map<nat, Share>, outgoing: map<nat, seq<Share>>, users: map<nat, User>)
  {
    && (forall r :: r in rows ==> (r.id in hiddenIds <==> (viewer, kind, r.id) in db.hidden))
    && (forall r :: r in rows ==>
          SharedTo(db.shares, kind, r.id, viewer) == if r.id in incoming then Some(incoming[r.id]) else None)
    && (forall r :: r in rows && r.owner == viewer ==> Listed(outgoing, r.id) == SharesOf(db.shares, kind, r.id))
    && (forall u :: u in Mentioned(rows, incoming, outgoing) ==> Find(users, u) == Find(db.users, u))
  }

  lemma BadgesAgree(db: Tables, viewer: nat, kind: T.Kind, rows: seq<Row>, row: Row, tags: seq<string>,
      hiddenIds: set<nat>, incoming: map<nat, Share>, outgoing: map<nat, seq<Share>>, users: map<nat, User>)
    requires row in rows && Collected(db, viewer, kind, rows, hiddenIds, incoming, outgoing, users)
    ensures BadgeFrom(hiddenIds, incoming, outgoing, users, viewer, row, tags)
            == ShareBadge(db, viewer, kind, row, tags)
  {
    assert row.owner in Mentioned(rows, incoming, outgoing);
    if row.owner == viewer {
      var list := Listed(outgoing, row.id);
      forall s | s in list ensures Find(users, s.toUser) == Find(db.users, s.toUser) {
        assert s.toUser in Mentioned(rows, incoming, outgoing);
      }
      ShownAlike(list, db.users, users);
    } else if row.id in incoming {
      assert incoming[row.id].fromUser in Mentioned(rows, incoming, outgoing);
      assert Find(users, incoming[row.id].fromUser) == Find(db.users, incoming[row.id].fromUser);
    }
  }

  function SomeUsers(users: map<nat, User>, ids: set<nat>): (some: map<nat, User>)
    ensures forall u :: u in ids ==> Find(some, u) == Find(users, u)
  {
    map u | u in users && u in ids :: users[u]
  }

  method Collect(db: Tables, viewer: nat, kind: T.Kind, rows: seq<Row>)
      returns (hiddenIds: set<nat>, incoming: map<nat, Share>, outgoing: map<nat, seq<Share>>, users: map<nat, User>)
    requires KeyUnique(db.shares)
    ensures Collected(db, viewer, kind, rows, hiddenIds, incoming, outgoing, users)
  {
    var ids := set r | r in rows :: r.id;
    hiddenIds := set o | o in ids && (viewer, kind, o) in db.hidden;
    incoming := CollectIncoming(db.shares, kind, ids, viewer);
    var owned := set r | r in rows && r.owner == viewer :: r.id;
    outgoing := CollectOutgoing(db.shares, kind, owned);
    users := SomeUsers(db.users, Mentioned(rows, incoming, outgoing));
  }

  function TagsOf(tagsById: map<nat, seq<string>>, id: nat): seq<string> {
    if id in tagsById then tagsById[id] else []
  }

  /** The page's badges, from one round of queries, are those of its rows taken one by one. */
  method BatchShareBadges(db: Tables, viewer: nat, kind: T.Kind, rows: seq<Row>, tagsById: map<nat, seq<string>>)
      returns (badges: map<nat, Badge>)
    requires KeyUnique(db.shares) && Consistent(rows)
    ensures forall o :: o in badges <==> exists r :: r in rows && r.id == o
    ensures forall r :: r in rows ==>
              r.id in badges && badges[r.id] == ShareBadge(db, viewer, kind, r, TagsOf(tagsById, r.id))
  {
    badges := map[];
    var hiddenIds, incoming, outgoing, users := Collect(db, viewer, kind, rows);
    for i := 0 to |rows|
      invariant forall o :: o in badges <==> exists j :: 0 <= j < i && rows[j].id == o
      invariant forall j :: 0 <= j < i ==>
                  badges[rows[j].id] == ShareBadge(db, viewer, kind, rows[j], TagsOf(tagsById, rows[j].id))
    {
      var row := rows[i];
      var tags := TagsOf(tagsById, row.id);
      BadgesAgree(db, viewer, kind, rows, row, tags, hiddenIds, incoming, outgoing, users);
      badges := badges[row.id := BadgeFrom(hiddenIds, incoming, outgoing, users, viewer, row, tags)];
    }
  }
}
