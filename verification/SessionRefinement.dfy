/** The Valkey session store refines the database table, over every run of both. */
module SessionRefinement {
  import opened Prelude
  import opened Sessions

  /** Both stores after the same requests, and the clock. */
  datatype Stores = Stores(db: Table, vk: Valkey, now: int)

  /**
    Requests name a session by its token hash; touching and impersonating act on the record that a
    lookup in the same second returned. `Expire` is Valkey dropping a key at or after its deadline,
    at a moment of its own choosing.
   */
  datatype Event =
    | Create(user: string, ttl: int, id: string, hash: string)
    | Lookup(hash: string)
    | Touch(hash: string, ttl: int)
    | Delete(hash: string)
    | DeleteUser(user: string)
    | SetImpersonate(hash: string, choice: Option<string>)
    | ClearTarget(target: string)
    | Wait(seconds: nat)
    | Expire(hash: string)

  /** New ids and tokens occur nowhere yet, and user ids are not empty. */
  ghost predicate Plausible(s: Stores, e: Event) {
    match e
    case Create(_, _, id, hash) =>
      && id !in s.db && (forall i :: i in s.db ==> s.db[i].tokenHash != hash)
      && hash !in s.vk.keys && (forall k :: hash !in Members(s.vk.byUser, k))
    case ClearTarget(target) => target != ""
    case _ => true
  }

  ghost predicate DbStep(s: Stores, e: Event, db': Table) {
    match e
    case Create(user, ttl, id, hash) => db' == s.db[id := NewRecord(user, ttl, id, hash, s.now)]
    case Touch(hash, ttl) =>
      (match DbLookup(s.db, hash, s.now)
       case Some(r) => db' == DbTouch(s.db, r.id, ttl, s.now)
       case None => db' == s.db)
    case Delete(hash) => db' == DbDelete(s.db, hash)
    case DeleteUser(user) => db' == DbDeleteUser(s.db, user)
    case SetImpersonate(hash, choice) =>
      (match DbLookup(s.db, hash, s.now)
       case Some(r) => db' == DbImpersonate(s.db, r.id, choice)
       case None => db' == s.db)
    case ClearTarget(target) => db' == DbClear(s.db, target)
    case _ => db' == s.db
  }

  ghost predicate VkStep(s: Stores, e: Event, vk': Valkey) {
    match e
    case Create(user, ttl, id, hash) => vk' == Save(s.vk, NewRecord(user, ttl, id, hash, s.now), s.now)
    case Lookup(hash) => vk' == VkAfterLookup(s.vk, hash, s.now)
    case Touch(hash, ttl) =>
      (match VkLookup(s.vk, hash, s.now)
       case Some(r) => vk' == Save(s.vk, r.(lastSeenAt := s.now, expiresAt := s.now + ttl), s.now)
       case None => vk' == VkAfterLookup(s.vk, hash, s.now))
    case Delete(hash) => vk' == VkDelete(s.vk, hash)
    case DeleteUser(user) => UserDeleted(s.vk, vk', user)
    case SetImpersonate(hash, choice) =>
      (match VkLookup(s.vk, hash, s.now)
       case Some(r) => vk' == VkImpersonate(s.vk, r, choice, s.now)
       case None => vk' == VkAfterLookup(s.vk, hash, s.now))
    case ClearTarget(target) => TargetCleared(s.vk, vk', target, s.now)
    case Wait(_) => vk' == s.vk
    case Expire(hash) =>
      if hash in s.vk.keys && s.vk.keys[hash].deadline <= s.now then vk' == s.vk.(keys := s.vk.keys - {hash})
      else vk' == s.vk
  }

  ghost predicate Step(s: Stores, e: Event, s': Stores) {
    && s'.now == s.now + (if e.Wait? then e.seconds else 0)
    && DbStep(s, e, s'.db)
    && VkStep(s, e, s'.vk)
  }

  /** A run of both stores: state `i + 1` is what request `i` leaves. */
  ghost predicate IsRun(states: seq<Stores>, events: seq<Event>) {
    && |states| == |events| + 1
    && states[0].db == map[] && states[0].vk == Valkey(map[], map[], map[])
    && forall i :: 0 <= i < |events| ==> Plausible(states[i], events[i]) && Step(states[i], events[i], states[i + 1])
  }

  // ------------------------------------------------------------------ the invariant

  /** Keys, deadlines and indexes of the Valkey store fit together; the indexes may hold more. */
  ghost predicate VkSound(v: Valkey) {
    && (forall h :: h in v.keys ==> v.keys[h].record.tokenHash == h)
    && (forall h :: h in v.keys ==> v.keys[h].deadline >= v.keys[h].record.expiresAt)
    && (forall h :: h in v.keys ==> h in Members(v.byUser, v.keys[h].record.user))
    && (forall h :: h in v.keys && Truthy(v.keys[h].record.impersonate) ==>
          h in Members(v.byTarget, v.keys[h].record.impersonate.value))
    && (forall h, u :: h in v.keys && h in Members(v.byUser, u) ==> v.keys[h].record.user == u)
  }

  ghost predicate SameAnswers(s: Stores) {
    forall h :: DbLookup(s.db, h, s.now) == VkLookup(s.vk, h, s.now)
  }

  ghost predicate Sim(s: Stores) {
    HashesUnique(s.db) && VkSound(s.vk) && SameAnswers(s)
  }

  // ------------------------------------------------------------------ the database side

  lemma FoundRow(t: Table, hash: string, now: int)
    requires HashesUnique(t) && DbLookup(t, hash, now).Some?
    ensures var r := DbLookup(t, hash, now).value;
            r.id in t && t[r.id] == r && r.tokenHash == hash && r.expiresAt > now
  {
  }

  lemma LookupLater(t: Table, hash: string, now: int, later: int)
    requires HashesUnique(t) && now <= later
    ensures DbLookup(t, hash, later) ==
            match DbLookup(t, hash, now)
            case Some(r) => (if r.expiresAt > later then Some(r) else None)
            case None => None
  {
  }

  /** Replacing one row by one with the same id and hash changes the answer for that hash only. */
  lemma LookupUpdate(t: Table, r: SessionRecord, r': SessionRecord, hash: string, now: int)
    requires HashesUnique(t) && r.id in t && t[r.id] == r && r'.id == r.id && r'.tokenHash == r.tokenHash
    ensures var t' := t[r.id := r'];
            && HashesUnique(t')
            && DbLookup(t', hash, now) ==
               if hash == r.tokenHash then (if r'.expiresAt > now then Some(r') else None) else DbLookup(t, hash, now)
  {
    var t' := t[r.id := r'];
    if hash == r.tokenHash {
      if r'.expiresAt > now { DbLookupIs(t', r.id, now); } else { DbLookupNone(t', r.id, now); }
    } else {
      DbLookupSame(t, t', hash, now);
    }
  }

  lemma LookupInsert(t: Table, r: SessionRecord, hash: string, now: int)
    requires HashesUnique(t) && r.id !in t && forall i :: i in t ==> t[i].tokenHash != r.tokenHash
    ensures var t' := t[r.id := r];
            && HashesUnique(t')
            && DbLookup(t', hash, now) ==
               if hash == r.tokenHash then (if r.expiresAt > now then Some(r) else None) else DbLookup(t, hash, now)
  {
    var t' := t[r.id := r];
    if hash == r.tokenHash {
      if r.expiresAt > now { DbLookupIs(t', r.id, now); } else { DbLookupNone(t', r.id, now); }
    } else {
      DbLookupSame(t, t', hash, now);
    }
  }

  lemma LookupDelete(t: Table, gone: string, hash: string, now: int)
    requires HashesUnique(t)
    ensures HashesUnique(DbDelete(t, gone))
    ensures DbLookup(DbDelete(t, gone), hash, now) == if hash == gone then None else DbLookup(t, hash, now)
  {
    if hash != gone {
      DbLookupSame(t, DbDelete(t, gone), hash, now);
    }
  }

  lemma LookupDeleteUser(t: Table, user: string, hash: string, now: int)
    requires HashesUnique(t)
    ensures HashesUnique(DbDeleteUser(t, user))
    ensures DbLookup(DbDeleteUser(t, user), hash, now) ==
            match DbLookup(t, hash, now) case Some(r) => (if r.user == user then None else Some(r)) case None => None
  {
    var t' := DbDeleteUser(t, user);
    if DbLookup(t, hash, now).Some? {
      FoundRow(t, hash, now);
      var r := DbLookup(t, hash, now).value;
      if r.user != user { DbLookupIs(t', r.id, now); }
    }
  }

  function Uncoupled(r: SessionRecord, target: string): SessionRecord {
    if r.impersonate == Some(target) then r.(impersonate := None) else r
  }

  lemma LookupClear(t: Table, target: string, hash: string, now: int)
    requires HashesUnique(t)
    ensures HashesUnique(DbClear(t, target))
    ensures DbLookup(DbClear(t, target), hash, now) ==
            match DbLookup(t, hash, now) case Some(r) => Some(Uncoupled(r, target)) case None => None
  {
    var t' := DbClear(t, target);
    if DbLookup(t', hash, now).Some? {
      FoundRow(t', hash, now);
      var id := DbLookup(t', hash, now).value.id;
      DbLookupIs(t, id, now);
    }
    if DbLookup(t, hash, now).Some? {
      FoundRow(t, hash, now);
      DbLookupIs(t', DbLookup(t, hash, now).value.id, now);
    }
  }

  // ------------------------------------------------------------------ the Valkey side

  lemma SaveSound(v: Valkey, r: SessionRecord, now: int)
    requires VkSound(v)
    requires r.tokenHash in v.keys ==>
               v.keys[r.tokenHash].record.user == r.user && v.keys[r.tokenHash].record.impersonate == r.impersonate
    requires r.tokenHash !in v.keys ==> r.impersonate == None && forall k :: r.tokenHash !in Members(v.byUser, k)
    ensures VkSound(Save(v, r, now))
    ensures forall h, t :: VkLookup(Save(v, r, now), h, t) ==
              if h == r.tokenHash then (if r.expiresAt > t then Some(r) else None) else VkLookup(v, h, t)
  {
    var w := Save(v, r, now);
    forall h, u | h in w.keys && h in Members(w.byUser, u) ensures w.keys[h].record.user == u {
      assert h in Members(v.byUser, u) || (h == r.tokenHash && u == r.user);
    }
  }

  lemma DeleteSound(v: Valkey, hash: string)
    requires VkSound(v)
    ensures VkSound(VkDelete(v, hash))
    ensures forall h, t :: VkLookup(VkDelete(v, hash), h, t) == if h == hash then None else VkLookup(v, h, t)
  {
    var w := VkDelete(v, hash);
    forall h, u | h in w.keys && h in Members(w.byUser, u) ensures w.keys[h].record.user == u {
      assert h in Members(v.byUser, u);
    }
  }

  lemma ImpersonateSound(v: Valkey, r: SessionRecord, target: Option<string>, now: int)
    requires VkSound(v) && r.tokenHash in v.keys && v.keys[r.tokenHash].record == r
    ensures VkSound(VkImpersonate(v, r, target, now))
  {
    var w := VkImpersonate(v, r, target, now);
    forall h, u | h in w.keys && h in Members(w.byUser, u) ensures w.keys[h].record.user == u {
      assert h in Members(v.byUser, u) || (h == r.tokenHash && u == r.user);
    }
    forall h | h in w.keys && Truthy(w.keys[h].record.impersonate)
      ensures h in Members(w.byTarget, w.keys[h].record.impersonate.value)
    {
      if h != r.tokenHash {
        assert h in Members(v.byTarget, v.keys[h].record.impersonate.value);
      }
    }
  }

  lemma ImpersonateLookup(v: Valkey, r: SessionRecord, target: Option<string>, now: int)
    requires VkSound(v) && r.tokenHash in v.keys && v.keys[r.tokenHash].record == r
    ensures forall h, t :: VkLookup(VkImpersonate(v, r, target, now), h, t) ==
              if h == r.tokenHash then (if r.expiresAt > t then Some(r.(impersonate := target)) else None)
              else VkLookup(v, h, t)
  {
  }

  /** Deleting by the index reaches every session of the user, and no one else's. */
  lemma UserDeletedSound(v: Valkey, w: Valkey, user: string)
    requires VkSound(v) && UserDeleted(v, w, user)
    ensures VkSound(w)
    ensures forall h, t :: VkLookup(w, h, t) ==
              match VkLookup(v, h, t) case Some(r) => (if r.user == user then None else Some(r)) case None => None
  {
  }

  /** Clearing by the index reaches every session that impersonates the target, and changes no other. */
  lemma TargetClearedReaches(v: Valkey, w: Valkey, target: string, now: int)
    requires VkSound(v) && TargetCleared(v, w, target, now) && target != ""
    ensures forall h :: h in v.keys ==>
              h in w.keys && w.keys[h] == if v.keys[h].record.impersonate == Some(target)
                                          then ClearedEntry(v.keys[h].record, now) else v.keys[h]
    ensures forall h, t :: VkLookup(w, h, t) ==
              match VkLookup(v, h, t) case Some(r) => Some(Uncoupled(r, target)) case None => None
  {
  }

  lemma TargetClearedSound(v: Valkey, w: Valkey, target: string, now: int)
    requires VkSound(v) && TargetCleared(v, w, target, now) && target != ""
    ensures VkSound(w)
  {
    TargetClearedReaches(v, w, target, now);
    forall h | h in w.keys
      ensures w.keys[h].record.tokenHash == h && w.keys[h].deadline >= w.keys[h].record.expiresAt
      ensures h in v.keys && w.keys[h].record.user == v.keys[h].record.user
    {
      assert h in v.keys;
    }
    forall h | h in w.keys && Truthy(w.keys[h].record.impersonate)
      ensures h in Members(w.byTarget, w.keys[h].record.impersonate.value)
    {
      assert h in Members(v.byTarget, v.keys[h].record.impersonate.value);
    }
    ClearedKeepsUsers(v, w, target, now);
  }

  /** Clearing changes no owner and no owner's index, as far as there is a record. */
  lemma ClearedKeepsUsers(v: Valkey, w: Valkey, target: string, now: int)
    requires VkSound(v) && TargetCleared(v, w, target, now) && target != ""
    requires forall h :: h in w.keys ==> h in v.keys && w.keys[h].record.user == v.keys[h].record.user
    ensures forall h :: h in w.keys ==> h in Members(w.byUser, w.keys[h].record.user)
    ensures forall h, u :: h in w.keys && h in Members(w.byUser, u) ==> w.keys[h].record.user == u
  {
  }

  // ------------------------------------------------------------------ one step

  lemma StepCreate(s: Stores, e: Event, s': Stores)
    requires e.Create? && Sim(s) && Plausible(s, e) && Step(s, e, s')
    ensures Sim(s')
  {
    var r := NewRecord(e.user, e.ttl, e.id, e.hash, s.now);
    SaveSound(s.vk, r, s.now);
    LookupInsert(s.db, r, e.hash, s.now);
    forall h ensures DbLookup(s'.db, h, s'.now) == VkLookup(s'.vk, h, s'.now) {
      LookupInsert(s.db, r, h, s.now);
    }
  }

  lemma StepTouch(s: Stores, e: Event, s': Stores)
    requires e.Touch? && Sim(s) && Step(s, e, s')
    ensures Sim(s')
  {
    assert DbLookup(s.db, e.hash, s.now) == VkLookup(s.vk, e.hash, s.now);
    if DbLookup(s.db, e.hash, s.now).Some? {
      StepTouchFound(s, e, s');
    } else {
      DeleteSound(s.vk, e.hash);
    }
  }

  lemma StepTouchFound(s: Stores, e: Event, s': Stores)
    requires e.Touch? && Sim(s) && Step(s, e, s') && DbLookup(s.db, e.hash, s.now).Some?
    ensures Sim(s')
  {
    FoundRow(s.db, e.hash, s.now);
    var r := VkLookup(s.vk, e.hash, s.now).value;
    assert DbLookup(s.db, e.hash, s.now) == Some(r);
    var r' := r.(lastSeenAt := s.now, expiresAt := s.now + e.ttl);
    SaveSound(s.vk, r', s.now);
    LookupUpdate(s.db, r, r', e.hash, s.now);
    forall h ensures DbLookup(s'.db, h, s'.now) == VkLookup(s'.vk, h, s'.now) {
      LookupUpdate(s.db, r, r', h, s.now);
    }
  }

  lemma StepImpersonate(s: Stores, e: Event, s': Stores)
    requires e.SetImpersonate? && Sim(s) && Step(s, e, s')
    ensures Sim(s')
  {
    DeleteSound(s.vk, e.hash);
    if DbLookup(s.db, e.hash, s.now).Some? {
      FoundRow(s.db, e.hash, s.now);
      var r := VkLookup(s.vk, e.hash, s.now).value;
      assert DbLookup(s.db, e.hash, s.now) == Some(r);
      var r' := r.(impersonate := e.choice);
      ImpersonateSound(s.vk, r, e.choice, s.now);
      ImpersonateLookup(s.vk, r, e.choice, s.now);
      LookupUpdate(s.db, r, r', e.hash, s.now);
      forall h ensures DbLookup(s'.db, h, s'.now) == VkLookup(s'.vk, h, s'.now) {
        LookupUpdate(s.db, r, r', h, s.now);
      }
    } else {
      assert VkLookup(s.vk, e.hash, s.now) == None;
      forall h ensures DbLookup(s'.db, h, s'.now) == VkLookup(s'.vk, h, s'.now) {
      }
    }
  }

  lemma StepDeletions(s: Stores, e: Event, s': Stores)
    requires (e.Delete? || e.DeleteUser? || e.ClearTarget?) && Sim(s) && Plausible(s, e) && Step(s, e, s')
    ensures Sim(s')
  {
    match e
    case Delete(hash) =>
      DeleteSound(s.vk, hash);
      LookupDelete(s.db, hash, hash, s.now);
      forall h ensures DbLookup(s'.db, h, s'.now) == VkLookup(s'.vk, h, s'.now) {
        LookupDelete(s.db, hash, h, s.now);
      }
    case DeleteUser(user) =>
      UserDeletedSound(s.vk, s'.vk, user);
      LookupDeleteUser(s.db, user, "", s.now);
      forall h ensures DbLookup(s'.db, h, s'.now) == VkLookup(s'.vk, h, s'.now) {
        LookupDeleteUser(s.db, user, h, s.now);
      }
    case ClearTarget(target) =>
      TargetClearedSound(s.vk, s'.vk, target, s.now);
      TargetClearedReaches(s.vk, s'.vk, target, s.now);
      LookupClear(s.db, target, "", s.now);
      forall h ensures DbLookup(s'.db, h, s'.now) == VkLookup(s'.vk, h, s'.now) {
        LookupClear(s.db, target, h, s.now);
      }
  }

  lemma StepLookup(s: Stores, e: Event, s': Stores)
    requires e.Lookup? && Sim(s) && Step(s, e, s')
    ensures Sim(s')
  {
    DeleteSound(s.vk, e.hash);
  }

  lemma StepWait(s: Stores, e: Event, s': Stores)
    requires e.Wait? && Sim(s) && Step(s, e, s')
    ensures Sim(s')
  {
    forall h ensures DbLookup(s'.db, h, s'.now) == VkLookup(s'.vk, h, s'.now) {
      LookupLater(s.db, h, s.now, s'.now);
      assert DbLookup(s.db, h, s.now) == VkLookup(s.vk, h, s.now);
    }
  }

  lemma StepExpire(s: Stores, e: Event, s': Stores)
    requires e.Expire? && Sim(s) && Step(s, e, s')
    ensures Sim(s')
  {
    forall h ensures VkLookup(s'.vk, h, s'.now) == VkLookup(s.vk, h, s.now) {
    }
  }

  lemma StepQuiet(s: Stores, e: Event, s': Stores)
    requires (e.Lookup? || e.Wait? || e.Expire?) && Sim(s) && Step(s, e, s')
    ensures Sim(s')
  {
    if e.Lookup? {
      StepLookup(s, e, s');
    } else if e.Wait? {
      StepWait(s, e, s');
    } else {
      StepExpire(s, e, s');
    }
  }

  /** Every request, tick of the clock and expiry keeps the two stores in agreement. */
  lemma StepKeepsSim(s: Stores, e: Event, s': Stores)
    requires Sim(s) && Plausible(s, e) && Step(s, e, s')
    ensures Sim(s')
  {
    match e
    case Create(_, _, _, _) => StepCreate(s, e, s');
    case Touch(_, _) => StepTouch(s, e, s');
    case SetImpersonate(_, _) => StepImpersonate(s, e, s');
    case Lookup(_) => StepQuiet(s, e, s');
    case Wait(_) => StepQuiet(s, e, s');
    case Expire(_) => StepQuiet(s, e, s');
    case _ => StepDeletions(s, e, s');
  }

  lemma {:induction false} RunKeepsSim(states: seq<Stores>, events: seq<Event>, n: nat)
    requires IsRun(states, events) && n <= |events|
    ensures Sim(states[n])
  {
    if n > 0 {
      RunKeepsSim(states, events, n - 1);
      StepKeepsSim(states[n - 1], events[n - 1], states[n]);
    }
  }

  /** At every point of every run, looking up any token gives the same record, or none, in both stores. */
  lemma LookupsAgree(states: seq<Stores>, events: seq<Event>, n: nat, hash: string)
    requires IsRun(states, events) && n <= |events|
    ensures VkLookup(states[n].vk, hash, states[n].now) == DbLookup(states[n].db, hash, states[n].now)
  {
    RunKeepsSim(states, events, n);
  }

  /** Every live session is in its owner's index and, if it impersonates, in the target's. */
  lemma LiveSessionsAreIndexed(states: seq<Stores>, events: seq<Event>, n: nat, hash: string)
    requires IsRun(states, events) && n <= |events|
    requires DbLookup(states[n].db, hash, states[n].now).Some?
    ensures var r := DbLookup(states[n].db, hash, states[n].now).value;
            && hash in Members(states[n].vk.byUser, r.user)
            && (Truthy(r.impersonate) ==> hash in Members(states[n].vk.byTarget, r.impersonate.value))
  {
    RunKeepsSim(states, events, n);
    assert VkLookup(states[n].vk, hash, states[n].now) == DbLookup(states[n].db, hash, states[n].now);
  }
}
