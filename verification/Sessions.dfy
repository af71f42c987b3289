/**
  Browser sessions in the database and in Valkey. The Valkey store keeps each record under its
  token hash with a time to live, and two indexes of token hashes that may hold stale entries; it
  answers every lookup as the database table does. Times are whole seconds.
 */
module Sessions {
  import opened Prelude

  datatype SessionRecord = SessionRecord(
    id: string, user: string, tokenHash: string, impersonate: Option<string>,
    expiresAt: int, createdAt: int, lastSeenAt: int)

  // ------------------------------------------------------------------ the database table

  /** Table `sessions`, by primary key. */
  type Table = map<string, SessionRecord>

  ghost predicate HashesUnique(t: Table) {
    && (forall id :: id in t ==> t[id].id == id)
    && (forall a, b :: a in t && b in t && t[a].tokenHash == t[b].tokenHash ==> a == b)
  }

  /** The row of an unexpired session with this token hash. */
  ghost function DbLookup(t: Table, hash: string, now: int): Option<SessionRecord> {
    if exists id :: id in t && t[id].tokenHash == hash && t[id].expiresAt > now
    then var id :| id in t && t[id].tokenHash == hash && t[id].expiresAt > now; Some(t[id])
    else None
  }

  lemma DbLookupIs(t: Table, id: string, now: int)
    requires HashesUnique(t) && id in t && t[id].expiresAt > now
    ensures DbLookup(t, t[id].tokenHash, now) == Some(t[id])
  {
  }

  lemma DbLookupNone(t: Table, id: string, now: int)
    requires HashesUnique(t) && id in t && t[id].expiresAt <= now
    ensures DbLookup(t, t[id].tokenHash, now) == None
  {
  }

  /** Two tables that agree on the rows with this hash answer alike. */
  lemma DbLookupSame(t: Table, t': Table, hash: string, now: int)
    requires HashesUnique(t) && HashesUnique(t')
    requires forall id :: id in t && t[id].tokenHash == hash ==> id in t' && t'[id] == t[id]
    requires forall id :: id in t' && t'[id].tokenHash == hash ==> id in t && t'[id] == t[id]
    ensures DbLookup(t, hash, now) == DbLookup(t', hash, now)
  {
  }

  class DbSessionStore {
    var rows: Table

    constructor ()
      ensures rows == map[]
    {
      rows := map[];
    }

    method Create(user: string, ttl: int, id: string, hash: string, now: int)
      modifies this
      ensures rows == old(rows)[id := NewRecord(user, ttl, id, hash, now)]
    {
      rows := rows[id := SessionRecord(id, user, hash, None, now + ttl, now, now)];
    }

    method LookupByToken(hash: string, now: int) returns (r: Option<SessionRecord>)
      requires HashesUnique(rows)
      ensures r == DbLookup(rows, hash, now)
    {
      var ids := rows.Keys;
      while ids != {}
        invariant ids <= rows.Keys
        invariant forall id :: id in rows && id !in ids ==> !(rows[id].tokenHash == hash && rows[id].expiresAt > now)
        decreases ids
      {
        var id :| id in ids;
        if rows[id].tokenHash == hash && rows[id].expiresAt > now {
          DbLookupIs(rows, id, now);
          return Some(rows[id]);
        }
        ids := ids - {id};
      }
      r := None;
    }

    /** Extend a session, in its row and in the caller's record. */
    method Touch(record: SessionRecord, ttl: int, now: int) returns (updated: SessionRecord)
      modifies this
      ensures rows == DbTouch(old(rows), record.id, ttl, now)
      ensures record.id in old(rows) ==> updated == record.(lastSeenAt := now, expiresAt := now + ttl)
      ensures record.id !in old(rows) ==> updated == record
    {
      updated := record;
      if record.id !in rows {
        return;
      }
      rows := rows[record.id := rows[record.id].(lastSeenAt := now)];
      rows := rows[record.id := rows[record.id].(expiresAt := now + ttl)];
      updated := record.(lastSeenAt := rows[record.id].lastSeenAt, expiresAt := rows[record.id].expiresAt);
    }

    method DeleteByToken(hash: string)
      modifies this
      ensures rows == DbDelete(old(rows), hash)
    {
      rows := map id | id in rows && rows[id].tokenHash != hash :: rows[id];
    }

    method DeleteUserSessions(user: string)
      modifies this
      ensures rows == DbDeleteUser(old(rows), user)
    {
      rows := map id | id in rows && rows[id].user != user :: rows[id];
    }

    method ClearImpersonationTarget(target: string)
      modifies this
      ensures rows == DbClear(old(rows), target)
    {
      rows := map id | id in rows ::
        if rows[id].impersonate == Some(target) then rows[id].(impersonate := None) else rows[id];
    }

    method SetImpersonate(record: SessionRecord, target: Option<string>) returns (updated: SessionRecord)
      modifies this
      ensures rows == DbImpersonate(old(rows), record.id, target)
      ensures updated == if record.id in old(rows) then record.(impersonate := target) else record
    {
      updated := record;
      if record.id in rows {
        rows := rows[record.id := rows[record.id].(impersonate := target)];
        updated := record.(impersonate := target);
      }
    }
  }

  function NewRecord(user: string, ttl: int, id: string, hash: string, now: int): SessionRecord {
    SessionRecord(id, user, hash, None, now + ttl, now, now)
  }

  function DbTouch(t: Table, id: string, ttl: int, now: int): Table {
    if id in t then t[id := t[id].(lastSeenAt := now, expiresAt := now + ttl)] else t
  }

  function DbDelete(t: Table, hash: string): Table {
    map id | id in t && t[id].tokenHash != hash :: t[id]
  }

  function DbDeleteUser(t: Table, user: string): Table {
    map id | id in t && t[id].user != user :: t[id]
  }

  function DbClear(t: Table, target: string): Table {
    map id | id in t :: if t[id].impersonate == Some(target) then t[id].(impersonate := None) else t[id]
  }

  function DbImpersonate(t: Table, id: string, target: Option<string>): Table {
    if id in t then t[id := t[id].(impersonate := target)] else t
  }

  // ------------------------------------------------------------------ Valkey

  const KEY_PREFIX: string := "hub:sess:"
  const USER_INDEX_PREFIX: string := "hub:sess:user:"
  const IMPERSONATOR_INDEX_PREFIX: string := "hub:sess:impersonator_of:"

  /**
    Valkey has one key space. Token hashes are hexadecimal, so a record key is never an index key,
    and the two indexes never share a key: the three maps below are kept apart by their names.
   */
  lemma KeySpacesDisjoint(hash: string, user: string, target: string)
    requires ':' !in hash
    ensures KEY_PREFIX + hash != USER_INDEX_PREFIX + user
    ensures KEY_PREFIX + hash != IMPERSONATOR_INDEX_PREFIX + target
    ensures USER_INDEX_PREFIX + user != IMPERSONATOR_INDEX_PREFIX + target
  {
    var a, b, c := KEY_PREFIX + hash, USER_INDEX_PREFIX + user, IMPERSONATOR_INDEX_PREFIX + target;
    assert a[9..] == hash && b[9..] == "user:" + user && c[9..] == "impersonator_of:" + target;
    assert ("user:" + user)[4] == ':' && ("impersonator_of:" + target)[15] == ':';
    assert ("user:" + user)[0] == 'u' && ("impersonator_of:" + target)[0] == 'i';
  }

  /** A stored record and the second at which Valkey may drop it. */
  datatype Entry = Entry(record: SessionRecord, deadline: int)

  type Index = map<string, set<string>>

  datatype Valkey = Valkey(keys: map<string, Entry>, byUser: Index, byTarget: Index)

  /** SMEMBERS, SADD and SREM; a missing key is an empty set. */
  function Members(ix: Index, k: string): set<string> {
    if k in ix then ix[k] else {}
  }

  function SAdd(ix: Index, k: string, h: string): Index {
    ix[k := Members(ix, k) + {h}]
  }

  function SRem(ix: Index, k: string, h: string): Index {
    ix[k := Members(ix, k) - {h}]
  }

  /** An impersonation target that Python takes for true. */
  predicate Truthy(target: Option<string>) {
    target.Some? && target.value != ""
  }

  function TtlSec(expiresAt: int, now: int): int {
    Max(1, expiresAt - now)
  }

  function Save(v: Valkey, r: SessionRecord, now: int): Valkey {
    v.(keys := v.keys[r.tokenHash := Entry(r, now + TtlSec(r.expiresAt, now))],
       byUser := SAdd(v.byUser, r.user, r.tokenHash))
  }

  function RemoveIndexes(v: Valkey, r: SessionRecord): Valkey {
    v.(byUser := SRem(v.byUser, r.user, r.tokenHash),
       byTarget := if Truthy(r.impersonate) then SRem(v.byTarget, r.impersonate.value, r.tokenHash) else v.byTarget)
  }

  function VkDelete(v: Valkey, hash: string): Valkey {
    var w := if hash in v.keys then RemoveIndexes(v, v.keys[hash].record) else v;
    w.(keys := w.keys - {hash})
  }

  function VkLookup(v: Valkey, hash: string, now: int): Option<SessionRecord> {
    if hash in v.keys && v.keys[hash].record.expiresAt > now then Some(v.keys[hash].record) else None
  }

  /** A lookup that meets an expired record deletes it. */
  function VkAfterLookup(v: Valkey, hash: string, now: int): Valkey {
    if hash in v.keys && v.keys[hash].record.expiresAt <= now then VkDelete(v, hash) else v
  }

  function VkImpersonate(v: Valkey, r: SessionRecord, target: Option<string>, now: int): Valkey {
    var w := Save(v, r.(impersonate := target), now);
    var x := if Truthy(r.impersonate) && r.impersonate != target
             then w.(byTarget := SRem(w.byTarget, r.impersonate.value, r.tokenHash)) else w;
    if Truthy(target) then x.(byTarget := SAdd(x.byTarget, target.value, r.tokenHash)) else x
  }

  /** What a whole loop leaves, told key by key. */
  ghost predicate UserDeleted(v: Valkey, w: Valkey, user: string) {
    var gone := Members(v.byUser, user);
    && w.keys == v.keys - gone
    && Members(w.byUser, user) == {}
    && (forall k, h :: h !in gone ==> (h in Members(w.byUser, k) <==> h in Members(v.byUser, k) && k != user))
    && (forall k, h :: h in Members(w.byUser, k) ==> h in Members(v.byUser, k))
    && Thinned(v.byTarget, w.byTarget, gone)
  }

  /** Entries of `gone`, and no others, may be missing from the second index. */
  ghost predicate Thinned(ix: Index, thin: Index, gone: set<string>) {
    && (forall k, h :: h !in gone ==> (h in Members(thin, k) <==> h in Members(ix, k)))
    && (forall k, h :: h in Members(thin, k) ==> h in Members(ix, k))
  }

  lemma ThinnedBySRem(ix: Index, thin: Index, gone: set<string>, k: string, h: string)
    requires Thinned(ix, thin, gone) && h in gone
    ensures Thinned(ix, SRem(thin, k, h), gone)
  {
  }

  lemma ThinnedByDrop(v: Valkey, w: Valkey, gone: set<string>, r: SessionRecord)
    requires Thinned(v.byUser, w.byUser, gone) && Thinned(v.byTarget, w.byTarget, gone) && r.tokenHash in gone
    ensures var w' := RemoveIndexes(w, r);
            Thinned(v.byUser, w'.byUser, gone) && Thinned(v.byTarget, w'.byTarget, gone)
  {
    ThinnedBySRem(v.byUser, w.byUser, gone, r.user, r.tokenHash);
    if Truthy(r.impersonate) {
      ThinnedBySRem(v.byTarget, w.byTarget, gone, r.impersonate.value, r.tokenHash);
    }
  }

  lemma ThinnedThenDropped(v: Valkey, w: Valkey, user: string)
    requires var gone := Members(v.byUser, user);
             && w.keys == v.keys - gone
             && Thinned(v.byUser, w.byUser, gone) && Thinned(v.byTarget, w.byTarget, gone)
    ensures UserDeleted(v, w.(byUser := w.byUser - {user}), user)
  {
  }

  /** The records among `hit` that impersonate the target are saved with the target removed. */
  ghost predicate Cleared(v: Valkey, w: Valkey, hit: set<string>, target: string, now: int) {
    && w.keys.Keys == v.keys.Keys
    && w.byTarget == v.byTarget
    && (forall h :: h in v.keys ==>
          w.keys[h] == if h in hit && v.keys[h].record.impersonate == Some(target)
                       then ClearedEntry(v.keys[h].record, now) else v.keys[h])
    && (forall k, h :: h in Members(v.byUser, k) ==> h in Members(w.byUser, k))
    && (forall k, h :: h in Members(w.byUser, k) ==>
          h in Members(v.byUser, k) || (h in v.keys && v.keys[h].record.user == k))
  }

  function ClearedEntry(r: SessionRecord, now: int): Entry {
    Entry(r.(impersonate := None), now + TtlSec(r.expiresAt, now))
  }

  lemma ClearStep(v: Valkey, w: Valkey, hit: set<string>, hash: string, target: string, now: int)
    requires Cleared(v, w, hit, target, now) && hash !in hit
    requires forall h :: h in v.keys ==> v.keys[h].record.tokenHash == h
    ensures if hash in w.keys && w.keys[hash].record.impersonate == Some(target)
            then Cleared(v, Save(w, w.keys[hash].record.(impersonate := None), now), hit + {hash}, target, now)
            else Cleared(v, w, hit + {hash}, target, now)
  {
  }

  ghost predicate TargetCleared(v: Valkey, w: Valkey, target: string, now: int) {
    && Cleared(v, w.(byTarget := v.byTarget), Members(v.byTarget, target), target, now)
    && w.byTarget == v.byTarget - {target}
  }

  class ValkeySessionStore {
    var keys: map<string, Entry>
    var byUser: Index
    var byTarget: Index

    constructor ()
      ensures View() == Valkey(map[], map[], map[])
    {
      keys, byUser, byTarget := map[], map[], map[];
    }

    ghost function View(): Valkey
      reads this
    {
      Valkey(keys, byUser, byTarget)
    }

    /** Each record is stored under its own token hash. */
    ghost predicate WellKeyed()
      reads this
    {
      forall h :: h in keys ==> keys[h].record.tokenHash == h
    }

    method SaveRecord(r: SessionRecord, now: int)
      modifies this
      ensures View() == Save(old(View()), r, now)
    {
      var ttl := TtlSec(r.expiresAt, now);
      keys := keys[r.tokenHash := Entry(r, now + ttl)];
      byUser := SAdd(byUser, r.user, r.tokenHash);
    }

    method DropIndexes(r: SessionRecord)
      modifies this
      ensures View() == RemoveIndexes(old(View()), r)
    {
      byUser := SRem(byUser, r.user, r.tokenHash);
      if Truthy(r.impersonate) {
        byTarget := SRem(byTarget, r.impersonate.value, r.tokenHash);
      }
    }

    method Create(user: string, ttl: int, id: string, hash: string, now: int)
      modifies this
      ensures View() == Save(old(View()), NewRecord(user, ttl, id, hash, now), now)
    {
      SaveRecord(SessionRecord(id, user, hash, None, now + ttl, now, now), now);
    }

    method LookupByToken(hash: string, now: int) returns (r: Option<SessionRecord>)
      modifies this
      ensures r == VkLookup(old(View()), hash, now)
      ensures View() == VkAfterLookup(old(View()), hash, now)
    {
      if hash !in keys {
        return None;
      }
      var record := keys[hash].record;
      if record.expiresAt <= now {
        DeleteByToken(hash);
        return None;
      }
      r := Some(record);
    }

    method Touch(record: SessionRecord, ttl: int, now: int) returns (updated: SessionRecord)
      modifies this
      ensures updated == record.(lastSeenAt := now, expiresAt := now + ttl)
      ensures View() == Save(old(View()), updated, now)
    {
      updated := record.(lastSeenAt := now);
      updated := updated.(expiresAt := now + ttl);
      SaveRecord(updated, now);
    }

    method DeleteByToken(hash: string)
      modifies this
      ensures View() == VkDelete(old(View()), hash)
    {
      if hash in keys {
        DropIndexes(keys[hash].record);
      }
      keys := keys - {hash};
    }

    method DeleteUserSessions(user: string)
      requires WellKeyed()
      modifies this
      ensures UserDeleted(old(View()), View(), user)
    {
      var hashes := Members(byUser, user);
      var todo := hashes;
      while todo != {}
        invariant todo <= hashes
        invariant keys == old(keys) - (hashes - todo)
        invariant Thinned(old(byUser), byUser, hashes) && Thinned(old(byTarget), byTarget, hashes)
        decreases todo
      {
        var hash :| hash in todo;
        if hash in keys {
          ThinnedByDrop(old(View()), View(), hashes, keys[hash].record);
          DropIndexes(keys[hash].record);
        }
        keys := keys - {hash};
        todo := todo - {hash};
      }
      ThinnedThenDropped(old(View()), View(), user);
      byUser := byUser - {user};
    }

    method ClearImpersonationTarget(target: string, now: int)
      requires WellKeyed()
      modifies this
      ensures TargetCleared(old(View()), View(), target, now)
    {
      var hashes := Members(byTarget, target);
      var todo := hashes;
      while todo != {}
        invariant todo <= hashes
        invariant Cleared(old(View()), View(), hashes - todo, target, now)
        decreases todo
      {
        var hash :| hash in todo;
        ClearStep(old(View()), View(), hashes - todo, hash, target, now);
        assert hashes - (todo - {hash}) == hashes - todo + {hash};
        todo := todo - {hash};
        if hash in keys {
          var record := keys[hash].record;
          if record.impersonate == Some(target) {
            SaveRecord(record.(impersonate := None), now);
          }
        }
      }
      assert hashes - todo == hashes;
      byTarget := byTarget - {target};
    }

    method SetImpersonate(record: SessionRecord, target: Option<string>, now: int) returns (updated: SessionRecord)
      modifies this
      ensures updated == record.(impersonate := target)
      ensures View() == VkImpersonate(old(View()), record, target, now)
    {
      var previous := record.impersonate;
      updated := record.(impersonate := target);
      SaveRecord(updated, now);
      if Truthy(previous) && previous != target {
        byTarget := SRem(byTarget, previous.value, record.tokenHash);
      }
      if Truthy(target) {
        byTarget := SAdd(byTarget, target.value, record.tokenHash);
      }
    }
  }
}
