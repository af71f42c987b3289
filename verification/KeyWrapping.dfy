/**
  Data keys wrapped by a key-encryption key that rotates. The key-encryption key is SHA-256 of a
  secret from the environment; the hash is taken to be injective, so the secret stands for the key.
 */
module KeyWrapping {
  import opened Prelude
  import opened Fernet

  datatype DekStatus = Active | Retiring

  datatype Dek = Dek(wrapped: string, status: DekStatus)

  /** Table `data_encryption_keys`, by id. */
  type KeyTable = map<string, Dek>

  /** HUB_SECRET and HUB_SECRET_PREV; the latter is kept while the secret is being changed. */
  datatype Secrets = Secrets(current: string, prev: string)

  /** The white space removed by Python's `str.strip()`. */
  predicate IsSpace(c: char) {
    || '\t' <= c <= '\r' || '\U{1c}' <= c <= ' ' || c == '\U{85}' || c == '\U{a0}' || c == '\U{1680}'
    || '\U{2000}' <= c <= '\U{200a}' || c in {'\U{2028}', '\U{2029}', '\U{202f}', '\U{205f}', '\U{3000}'}
  }

  function Strip(s: string): string {
    if s != "" && IsSpace(s[0]) then Strip(s[1..])
    else if s != "" && IsSpace(s[|s| - 1]) then Strip(s[..|s| - 1])
    else s
  }

  /** With an empty HUB_SECRET every use of the key-encryption key raises: nothing unwraps. */
  function TryUnwrapWithCurrent(f: Scheme, sec: Secrets, wrapped: string): Option<Key> {
    if sec.current == "" then None else f.open(sec.current, wrapped)
  }

  /** The start-up test, which strips HUB_SECRET_PREV. */
  predicate CanUnwrapDek(f: Scheme, sec: Secrets, wrapped: string) {
    sec.current != "" &&
    (TryUnwrapWithCurrent(f, sec, wrapped).Some?
     || (Strip(sec.prev) != "" && f.open(Strip(sec.prev), wrapped).Some?))
  }

  /** The unwrapping itself, which uses HUB_SECRET_PREV as it stands. */
  function UnwrapDek(f: Scheme, sec: Secrets, wrapped: string): Option<Key> {
    if sec.current == "" then None
    else if TryUnwrapWithCurrent(f, sec, wrapped).Some? then TryUnwrapWithCurrent(f, sec, wrapped)
    else if sec.prev != "" then f.open(sec.prev, wrapped)
    else None
  }

  predicate DekNeedsRewrap(f: Scheme, sec: Secrets, wrapped: string) {
    sec.current != "" && TryUnwrapWithCurrent(f, sec, wrapped).None?
    && sec.prev != "" && f.open(sec.prev, wrapped).Some?
  }

  function WrapDek(f: Scheme, sec: Secrets, raw: Key, iv: nat): string {
    f.seal(sec.current, raw, iv)
  }

  /** Every stored key unwraps under the configured secrets. */
  ghost predicate AllUnwrap(f: Scheme, sec: Secrets, deks: KeyTable) {
    forall id :: id in deks ==> UnwrapDek(f, sec, deks[id].wrapped).Some?
  }

  /** Every stored key passes the start-up test. */
  ghost predicate AllCanUnwrap(f: Scheme, sec: Secrets, deks: KeyTable) {
    forall id :: id in deks ==> CanUnwrapDek(f, sec, deks[id].wrapped)
  }

  /** The same ids, each with the same status and unwrapping to the same raw key. */
  ghost predicate SameKeys(f: Scheme, sec: Secrets, deks: KeyTable, sec': Secrets, deks': KeyTable) {
    && deks.Keys == deks'.Keys
    && forall id :: id in deks ==>
         && deks[id].status == deks'[id].status
         && UnwrapDek(f, sec, deks[id].wrapped) == UnwrapDek(f, sec', deks'[id].wrapped)
  }

  // ------------------------------------------------------------ the start-up test

  /** Whether HUB_SECRET_PREV is free of surrounding white space, as far as it matters. */
  predicate PrevIsClean(sec: Secrets) {
    Strip(sec.prev) == sec.prev || (sec.prev == sec.current && Strip(sec.prev) == "")
  }

  /**
    The start-up test accepts exactly the keys that unwrap if and only if HUB_SECRET_PREV carries no
    surrounding white space. Otherwise the test strips a secret that unwrapping does not strip, so
    the hub can start and then fail on every secret under such a key.
   */
  lemma StartupTestIsExactIff(f: Scheme, sec: Secrets)
    requires Ideal(f) && sec.current != ""
    ensures (forall w :: CanUnwrapDek(f, sec, w) <==> UnwrapDek(f, sec, w).Some?) <==> PrevIsClean(sec)
  {
    var s := Strip(sec.prev);
    if !PrevIsClean(sec) {
      var culprit := if s != "" && s != sec.current then s else sec.prev;
      var w := f.seal(culprit, "", 0);
      assert f.open(culprit, w).Some?;
      assert CanUnwrapDek(f, sec, w) != UnwrapDek(f, sec, w).Some?;
    }
  }

  /** The key is wrapped under the stripped previous secret, and that is not the configured one. */
  predicate OnlyStrippedOpens(f: Scheme, sec: Secrets, wrapped: string) {
    && sec.current != "" && f.open(sec.current, wrapped).None?
    && Strip(sec.prev) != "" && Strip(sec.prev) != sec.prev && f.open(Strip(sec.prev), wrapped).Some?
  }

  /** A key that passes the start-up test unwraps if and only if it is not wrapped under the stripped one. */
  lemma AcceptedUnwrapsIff(f: Scheme, sec: Secrets, wrapped: string)
    requires Ideal(f) && CanUnwrapDek(f, sec, wrapped)
    ensures UnwrapDek(f, sec, wrapped).Some? <==> !OnlyStrippedOpens(f, sec, wrapped)
    ensures PrevIsClean(sec) ==> UnwrapDek(f, sec, wrapped).Some?
  {
  }

  /** No key that the start-up test would accept lies beyond the configured secrets. */
  ghost predicate AcceptedUnwrap(f: Scheme, sec: Secrets, deks: KeyTable) {
    forall id :: id in deks ==> !OnlyStrippedOpens(f, sec, deks[id].wrapped)
  }

  /**
    A key that was usable under the old secrets, and passes the start-up test under new ones that open
    it, is the same raw key: no second secret can open the same wrapping to something else.
   */
  lemma NewSecretsSameKeys(f: Scheme, old_: Secrets, new_: Secrets, deks: KeyTable)
    requires Ideal(f) && AllUnwrap(f, old_, deks) && AllCanUnwrap(f, new_, deks) && AcceptedUnwrap(f, new_, deks)
    ensures SameKeys(f, old_, deks, new_, deks)
    ensures AllUnwrap(f, new_, deks)
  {
    forall id | id in deks
      ensures UnwrapDek(f, old_, deks[id].wrapped) == UnwrapDek(f, new_, deks[id].wrapped)
    {
      AcceptedUnwrapsIff(f, new_, deks[id].wrapped);
      SecretsAgree(f, old_, new_, deks[id].wrapped);
    }
  }

  /** Two configurations that both unwrap a key unwrap it to the same raw key. */
  lemma SecretsAgree(f: Scheme, old_: Secrets, new_: Secrets, wrapped: string)
    requires Ideal(f) && UnwrapDek(f, old_, wrapped).Some? && UnwrapDek(f, new_, wrapped).Some?
    ensures UnwrapDek(f, old_, wrapped) == UnwrapDek(f, new_, wrapped)
  {
  }

  // ------------------------------------------------------------ re-wrapping after a rotation

  function RewrapOne(f: Scheme, sec: Secrets, d: Dek, iv: nat): Dek {
    if DekNeedsRewrap(f, sec, d.wrapped)
    then d.(wrapped := WrapDek(f, sec, UnwrapDek(f, sec, d.wrapped).value, iv))
    else d
  }

  /** The table after the commits for the rows of `order`, in that order; a crash leaves a prefix. */
  function Rewrapped(f: Scheme, sec: Secrets, deks: KeyTable, order: seq<string>, iv: nat): KeyTable {
    if order == [] then deks
    else
      var n := |order| - 1;
      var before := Rewrapped(f, sec, deks, order[..n], iv);
      if order[n] in before
      then before[order[n] := RewrapOne(f, sec, before[order[n]], iv + n)]
      else before
  }

  lemma RewrapOneKeepsKey(f: Scheme, sec: Secrets, d: Dek, iv: nat)
    requires Ideal(f) && UnwrapDek(f, sec, d.wrapped).Some?
    ensures RewrapOne(f, sec, d, iv).status == d.status
    ensures UnwrapDek(f, sec, RewrapOne(f, sec, d, iv).wrapped) == UnwrapDek(f, sec, d.wrapped)
    ensures TryUnwrapWithCurrent(f, sec, RewrapOne(f, sec, d, iv).wrapped) == UnwrapDek(f, sec, d.wrapped)
  {
  }

  /** A crash after any number of commits, in any order of rows, loses no key and changes none. */
  lemma {:induction false} RewrapIsCrashSafe(f: Scheme, sec: Secrets, deks: KeyTable, order: seq<string>, iv: nat)
    requires Ideal(f) && AllUnwrap(f, sec, deks)
    ensures SameKeys(f, sec, deks, sec, Rewrapped(f, sec, deks, order, iv))
    ensures AllUnwrap(f, sec, Rewrapped(f, sec, deks, order, iv))
  {
    if order != [] {
      var n := |order| - 1;
      var before := Rewrapped(f, sec, deks, order[..n], iv);
      RewrapIsCrashSafe(f, sec, deks, order[..n], iv);
      if order[n] in before {
        RewrapOneKeepsKey(f, sec, before[order[n]], iv + n);
      }
    }
  }

  /** Re-wrapping changes no key's unwrapping, also of keys that do not unwrap. */
  lemma {:induction false} RewrapKeepsEach(
    f: Scheme, sec: Secrets, deks: KeyTable, order: seq<string>, iv: nat, id: string)
    requires Ideal(f) && id in deks
    ensures var after := Rewrapped(f, sec, deks, order, iv);
            after.Keys == deks.Keys && after[id].status == deks[id].status
            && UnwrapDek(f, sec, after[id].wrapped) == UnwrapDek(f, sec, deks[id].wrapped)
  {
    if order != [] {
      var n := |order| - 1;
      var before := Rewrapped(f, sec, deks, order[..n], iv);
      RewrapKeepsEach(f, sec, deks, order[..n], iv, id);
      if order[n] == id && DekNeedsRewrap(f, sec, before[id].wrapped) {
        RewrapOneKeepsKey(f, sec, before[id], iv + n);
      }
    }
  }

  /** A row that was visited now unwraps under the current secret alone. */
  lemma {:induction false} VisitedOpensWithCurrent(
    f: Scheme, sec: Secrets, deks: KeyTable, order: seq<string>, iv: nat, id: string)
    requires Ideal(f) && AllUnwrap(f, sec, deks) && id in deks && id in order
    ensures var after := Rewrapped(f, sec, deks, order, iv);
            id in after && TryUnwrapWithCurrent(f, sec, after[id].wrapped) == UnwrapDek(f, sec, deks[id].wrapped)
  {
    var n := |order| - 1;
    var before := Rewrapped(f, sec, deks, order[..n], iv);
    RewrapIsCrashSafe(f, sec, deks, order[..n], iv);
    if order[n] in before {
      RewrapOneKeepsKey(f, sec, before[order[n]], iv + n);
    }
    if id != order[n] {
      assert id in order[..n];
      VisitedOpensWithCurrent(f, sec, deks, order[..n], iv, id);
    }
  }

  /**
    After a full pass HUB_SECRET_PREV may be dropped: the current secret alone unwraps every data
    key to the raw key it had. Starting again after a crash changes nothing about this.
   */
  lemma FullPassRetiresPrev(
    f: Scheme, sec: Secrets, deks: KeyTable, order: seq<string>, iv: nat)
    requires Ideal(f) && sec.current != "" && AllUnwrap(f, sec, deks)
    requires forall id :: id in deks ==> id in order
    ensures SameKeys(f, sec, deks, Secrets(sec.current, ""), Rewrapped(f, sec, deks, order, iv))
  {
    var after := Rewrapped(f, sec, deks, order, iv);
    RewrapIsCrashSafe(f, sec, deks, order, iv);
    forall id | id in deks
      ensures UnwrapDek(f, sec, deks[id].wrapped) == UnwrapDek(f, Secrets(sec.current, ""), after[id].wrapped)
    {
      VisitedOpensWithCurrent(f, sec, deks, order, iv, id);
    }
  }

  /** A pass over keys that the current secret opens changes nothing. */
  lemma {:induction false} SecondPassIsIdle(
    f: Scheme, sec: Secrets, deks: KeyTable, order: seq<string>, iv: nat)
    requires forall id :: id in deks ==> TryUnwrapWithCurrent(f, sec, deks[id].wrapped).Some?
    ensures Rewrapped(f, sec, deks, order, iv) == deks
  {
    if order != [] {
      SecondPassIsIdle(f, sec, deks, order[..|order| - 1], iv);
    }
  }

  /** Two passes do what one does: the second changes nothing. */
  lemma RewrapIsIdempotent(
    f: Scheme, sec: Secrets, deks: KeyTable, order: seq<string>, iv: nat, order2: seq<string>, iv2: nat)
    requires Ideal(f) && sec.current != "" && AllUnwrap(f, sec, deks)
    requires forall id :: id in deks ==> id in order
    ensures var once := Rewrapped(f, sec, deks, order, iv);
            Rewrapped(f, sec, once, order2, iv2) == once
  {
    var once := Rewrapped(f, sec, deks, order, iv);
    RewrapIsCrashSafe(f, sec, deks, order, iv);
    forall id | id in once ensures TryUnwrapWithCurrent(f, sec, once[id].wrapped).Some? {
      VisitedOpensWithCurrent(f, sec, deks, order, iv, id);
    }
    SecondPassIsIdle(f, sec, once, order2, iv2);
  }
}
