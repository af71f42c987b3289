/**
  Fernet as ideal authenticated encryption. Every theorem about stored secrets is stated for
  every scheme that is `Ideal`; `IdealSchemeExists` shows that the assumption can be met.
 */
module Fernet {
  import opened Prelude

  type Key = string

  /** `seal(key, plain, iv)` is a token; `open(key, token)` is its plaintext or a refusal. */
  datatype Scheme = Scheme(seal: (Key, string, nat) -> string, open: (Key, string) -> Option<string>)

  /** Tokens open under their own key, under no second key, and are non-empty base64 text (no colon). */
  ghost predicate Ideal(f: Scheme) {
    && (forall k, p, iv :: f.open(k, f.seal(k, p, iv)) == Some(p))
    && (forall k1, k2, t :: f.open(k1, t).Some? && f.open(k2, t).Some? ==> k1 == k2)
    && (forall k, p, iv :: f.seal(k, p, iv) != "" && ':' !in f.seal(k, p, iv))
  }

  lemma WrongKeyFails(f: Scheme, k1: Key, k2: Key, p: string, iv: nat)
    requires Ideal(f) && k1 != k2
    ensures f.open(k2, f.seal(k1, p, iv)) == None
  {
  }

  // ------------------------------------------------- an ideal scheme, to show there is one

  /** Two characters for each one, none of them a colon. */
  function Escape(s: string): (r: string)
    ensures |r| == 2 * |s| && ':' !in r
    ensures forall i :: 0 <= i < |r| && i % 2 == 0 ==> r[i] != '.'
  {
    seq(2 * |s|, i requires 0 <= i < 2 * |s| =>
          if i % 2 == 0 then (if s[i / 2] == ':' then 'c' else 'p')
          else (if s[i / 2] == ':' then '.' else s[i / 2]))
  }

  function Unescape(r: string): string {
    seq(|r| / 2, i requires 0 <= i < |r| / 2 => if r[2 * i] == 'c' then ':' else r[2 * i + 1])
  }

  lemma UnescapeEscape(s: string)
    ensures Unescape(Escape(s)) == s
  {
  }

  function ToySeal(k: Key, p: string, iv: nat): string {
    Escape(k) + ".." + Escape(p)
  }

  function ToyOpen(k: Key, t: string): Option<string> {
    var head := Escape(k) + "..";
    if head <= t then Some(Unescape(t[|head|..])) else None
  }

  lemma ToyRoundTrip(k: Key, p: string, iv: nat)
    ensures ToyOpen(k, ToySeal(k, p, iv)) == Some(p)
  {
    var head := Escape(k) + "..";
    assert ToySeal(k, p, iv)[|head|..] == Escape(p);
    UnescapeEscape(p);
  }

  lemma ToyOneKey(k1: Key, k2: Key, t: string)
    requires ToyOpen(k1, t).Some? && ToyOpen(k2, t).Some?
    requires |k1| <= |k2|
    ensures k1 == k2
  {
    var h1, h2 := Escape(k1) + "..", Escape(k2) + "..";
    var i := 2 * |k1|;
    assert i % 2 == 0 && t[i] == h1[i] == '.';
    assert forall j :: 0 <= j < 2 * |k2| ==> t[j] == h2[j] == Escape(k2)[j];
    assert Escape(k1) == t[..2 * |k1|] == Escape(k2);
    UnescapeEscape(k1);
    UnescapeEscape(k2);
  }

  lemma IdealSchemeExists()
    ensures exists f: Scheme :: Ideal(f)
  {
    var f := Scheme(ToySeal, ToyOpen);
    forall k, p, iv ensures f.open(k, f.seal(k, p, iv)) == Some(p) {
      ToyRoundTrip(k, p, iv);
    }
    forall k1, k2, t | f.open(k1, t).Some? && f.open(k2, t).Some? ensures k1 == k2 {
      if |k1| <= |k2| { ToyOneKey(k1, k2, t); } else { ToyOneKey(k2, k1, t); }
    }
    assert Ideal(f);
  }
}
