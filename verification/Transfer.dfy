/** Handing a departing user's library and shares over to another member. */
module Transfer {

  datatype Kind = Audio | Transcript | Summary | Skill

  /** A library row; only skills have a scope other than the owner's own. */
  datatype Item = Item(kind: Kind, owner: nat, scopeSelf: bool)

  datatype Share = Share(kind: Kind, item: nat, fromUser: nat, toUser: nat)

  type Shares = map<nat, Share>

  /** The unique key of the share table: one share of an object for a recipient. */
  ghost predicate KeyUnique(db: Shares) {
    forall i, j :: i in db && j in db && i != j ==> !SameKey(db[i], db[j])
  }

  predicate SameKey(a: Share, b: Share) {
    SameItem(a, b) && a.toUser == b.toUser
  }

  predicate SameItem(a: Share, b: Share) {
    a.kind == b.kind && a.item == b.item
  }

  /** The share whose object the recipient already has. */
  predicate Duplicate(db: Shares, s: Share, recipient: nat) {
    exists i :: i in db && SameItem(db[i], s) && db[i].toUser == recipient
  }

  /** What a user can see through shares. */
  ghost function SharedWith(db: Shares, user: nat): iset<(Kind, nat)> {
    iset k, o | HasShare(db, user, k, o) :: (k, o)
  }

  ghost predicate HasShare(db: Shares, user: nat, k: Kind, o: nat) {
    exists i :: i in db && db[i].kind == k && db[i].item == o && db[i].toUser == user
  }

  ghost predicate Names(db: Shares, user: nat) {
    exists i :: i in db && (db[i].toUser == user || db[i].fromUser == user)
  }

  function Renamed(s: Share, user: nat, target: nat): Share {
    s.(fromUser := if s.fromUser == user then target else s.fromUser,
       toUser := if s.toUser == user then target else s.toUser)
  }

  /** The table afterwards: incoming duplicates are gone, every other share is renamed. */
  function Transferred(db: Shares, user: nat, target: nat): Shares {
    map i | i in db && !(db[i].toUser == user && Duplicate(db, db[i], target)) :: Renamed(db[i], user, target)
  }

  // ------------------------------------------------------------------ what the table means afterwards

  /** The key stays unique, whoever the target is. */
  lemma KeyStaysUnique(db: Shares, user: nat, target: nat)
    requires KeyUnique(db)
    ensures KeyUnique(Transferred(db, user, target))
  {
  }

  /** The departing user is named nowhere afterwards, unless the library was handed to that very user. */
  lemma NobodyNamesTheDeparted(db: Shares, user: nat, target: nat)
    ensures !Names(Transferred(db, user, target), user) <==>
              user != target || !exists i :: i in db && db[i].fromUser == user && db[i].toUser != user
  {
    var after := Transferred(db, user, target);
    if user == target {
      if i :| i in db && db[i].fromUser == user && db[i].toUser != user {
        assert i in after && after[i].fromUser == user;
      }
      forall i | i in after ensures db[i].toUser != user {
        assert SameItem(db[i], db[i]);
      }
    }
  }

  /** The target ends up with what either of the two could see. */
  lemma TargetSeesBoth(db: Shares, user: nat, target: nat)
    requires user != target
    ensures SharedWith(Transferred(db, user, target), target) == SharedWith(db, user) + SharedWith(db, target)
    ensures SharedWith(Transferred(db, user, target), user) == iset{}
  {
    var after := Transferred(db, user, target);
    forall k, o ensures HasShare(after, target, k, o) <==> HasShare(db, user, k, o) || HasShare(db, target, k, o) {
      if i :| i in db && db[i].kind == k && db[i].item == o && db[i].toUser == target {
        assert after[i].toUser == target;
      } else if i :| i in db && db[i].kind == k && db[i].item == o && db[i].toUser == user {
        assert !Duplicate(db, db[i], target);
        assert after[i].toUser == target;
      }
    }
  }

  /** Handing the library to its own owner loses every incoming share, and nothing else. */
  lemma SelfTransferLosesShares(db: Shares, user: nat)
    ensures Transferred(db, user, user) == map i | i in db && db[i].toUser != user :: db[i]
    ensures SharedWith(Transferred(db, user, user), user) == iset{}
  {
  }

  /** Everybody else sees exactly what they saw. */
  lemma OthersSeeTheSame(db: Shares, user: nat, target: nat, other: nat)
    requires other != user && other != target
    ensures SharedWith(Transferred(db, user, target), other) == SharedWith(db, other)
  {
    var after := Transferred(db, user, target);
    forall k, o ensures HasShare(after, other, k, o) <==> HasShare(db, other, k, o) {
      if i :| i in db && db[i].kind == k && db[i].item == o && db[i].toUser == other {
        assert after[i].toUser == other;
      }
    }
  }

  // ------------------------------------------------------------------ the library

  predicate Moves(i: Item) {
    i.kind != Skill || i.scopeSelf
  }

  function HandedOver(items: map<nat, Item>, user: nat, target: nat): map<nat, Item> {
    map i | i in items :: if items[i].owner == user && Moves(items[i]) then items[i].(owner := target) else items[i]
  }

  // ------------------------------------------------------------------ the method

  /** The table while incoming shares are being repointed: `done` have been. */
  ghost function IncomingDone(db: Shares, user: nat, target: nat, done: set<nat>): Shares {
    map i | i in db && !(i in done && Duplicate(db, db[i], target)) ::
      if i in done then db[i].(toUser := target) else db[i]
  }

  /** The table while the senders are being renamed. */
  ghost function OutgoingDone(s: Shares, target: nat, done: set<nat>): Shares {
    map i | i in s :: if i in done then s[i].(fromUser := target) else s[i]
  }

  /** The sender's own query for duplicates finds none: the key is unique and the recipients are settled. */
  lemma NoDuplicate(db: Shares, user: nat, target: nat, i: nat)
    requires KeyUnique(db) && i in db
    ensures !Duplicate(db - {i}, db[i], db[i].toUser)
    ensures !Duplicate(db, db[i], target) ==> !Duplicate(db - {i}, db[i].(toUser := target), target)
  {
  }

  lemma NextRecipient(db: Shares, user: nat, target: nat, done: set<nat>, i: nat)
    requires i in db && i !in done
    ensures var so := IncomingDone(db, user, target, done);
            i in so && so[i] == db[i]
            && IncomingDone(db, user, target, done + {i}) ==
                 if Duplicate(db, db[i], target) then so - {i} else so[i := db[i].(toUser := target)]
  {
  }

  lemma NextSender(s: Shares, target: nat, done: set<nat>, i: nat)
    requires i !in done
    ensures OutgoingDone(s, target, done + {i}) ==
              var so := OutgoingDone(s, target, done);
              if i in so then so[i := so[i].(fromUser := target)] else so
    ensures i in OutgoingDone(s, target, done) <==> i in s
    ensures i in s ==> OutgoingDone(s, target, done)[i] == s[i]
  {
  }

  lemma BothPassesAre(db: Shares, user: nat, target: nat)
    ensures OutgoingDone(IncomingDone(db, user, target, set i | i in db && db[i].toUser == user), target,
                         set i | i in db && db[i].fromUser == user)
            == Transferred(db, user, target)
  {
  }

  class Library {
    var items: map<nat, Item>
    var shares: Shares
    var hidden: set<(nat, Kind, nat)>

    /**
      The session does not flush by itself, so the queries for duplicates see the rows as they were:
      `db` is the table the queries read, `shares` what the session will write.
     */
    method TransferUser(user: nat, target: nat)
      requires KeyUnique(shares)
      modifies this
      ensures items == HandedOver(old(items), user, target)
      ensures shares == Transferred(old(shares), user, target)
      ensures hidden == set h | h in old(hidden) && h.0 != user
    {
      HandOver(user, target);
      var db := shares;
      RepointIncoming(db, user, target);
      RenameOutgoing(db, user, target);
      hidden := set h | h in hidden && h.0 != user;
    }

    /** Four updates, one for each kind of row. */
    method HandOver(user: nat, target: nat)
      modifies this`items
      ensures items == HandedOver(old(items), user, target)
    {
      BulkUpdate({Audio}, user, target);
      BulkUpdate({Transcript}, user, target);
      BulkUpdate({Summary}, user, target);
      BulkUpdate({Skill}, user, target);
    }

    method BulkUpdate(kinds: set<Kind>, user: nat, target: nat)
      modifies this`items
      ensures items.Keys == old(items).Keys
      ensures forall i :: i in items ==>
                items[i] == if old(items)[i].owner == user && old(items)[i].kind in kinds && Moves(old(items)[i])
                            then old(items)[i].(owner := target) else old(items)[i]
    {
      items := map i | i in items ::
        if items[i].owner == user && items[i].kind in kinds && Moves(items[i]) then items[i].(owner := target)
        else items[i];
    }

    method RepointIncoming(db: Shares, user: nat, target: nat)
      requires shares == db
      modifies this`shares
      ensures shares == IncomingDone(db, user, target, set i | i in db && db[i].toUser == user)
    {
      var rest := set i | i in db && db[i].toUser == user;
      ghost var incoming := rest;
      while rest != {}
        invariant rest <= incoming
        invariant shares == IncomingDone(db, user, target, incoming - rest)
        decreases |rest|
      {
        var i :| i in rest;
        NextRecipient(db, user, target, incoming - rest, i);
        if Duplicate(db, db[i], target) {
          shares := shares - {i};
        } else {
          shares := shares[i := shares[i].(toUser := target)];
        }
        assert incoming - (rest - {i}) == (incoming - rest) + {i};
        rest := rest - {i};
      }
      assert incoming - rest == incoming;
    }

    method RenameOutgoing(db: Shares, user: nat, target: nat)
      requires KeyUnique(db)
      requires shares == IncomingDone(db, user, target, set i | i in db && db[i].toUser == user)
      modifies this`shares
      ensures shares == Transferred(db, user, target)
    {
      var rest := set i | i in db && db[i].fromUser == user;
      ghost var outgoing, settled := rest, shares;
      while rest != {}
        invariant rest <= outgoing
        invariant shares == OutgoingDone(settled, target, outgoing - rest)
        decreases |rest|
      {
        var i :| i in rest;
        NextSender(settled, target, outgoing - rest, i);
        NoDuplicate(db, user, target, i);
        var row := if i in shares then shares[i] else db[i];
        shares := if Duplicate(db - {i}, row, row.toUser) then shares - {i}
                  else if i in shares then shares[i := row.(fromUser := target)]
                  else shares;
        assert outgoing - (rest - {i}) == (outgoing - rest) + {i};
        rest := rest - {i};
      }
      assert outgoing - rest == outgoing;
      BothPassesAre(db, user, target);
    }
  }

  /** Every audio, transcript, summary and own skill of the departing user is the target's, and no other row changed. */
  lemma EverythingMoves(items: map<nat, Item>, user: nat, target: nat)
    ensures var after := HandedOver(items, user, target);
            && after.Keys == items.Keys
            && (forall i :: i in items ==> after[i].kind == items[i].kind && after[i].scopeSelf == items[i].scopeSelf)
            && (user != target ==> forall i :: i in after && after[i].owner == user ==> !Moves(after[i]))
            && (forall i :: i in items && (items[i].owner != user || !Moves(items[i])) ==> after[i] == items[i])
            && (forall i :: i in items && items[i].owner == user && Moves(items[i]) ==> after[i].owner == target)
  {
  }
}
