/**
  The text form of a stored secret, `v1:<dek id>:<sealed>`, and the SQL LIKE pattern
  by which the hub counts the secrets that name a data key.
 */
module TokenText {
  import opened Prelude

  const V1_PREFIX: string := "v1:"

  predicate HexDash(c: char) {
    '0' <= c <= '9' || 'a' <= c <= 'f' || c == '-'
  }

  /** The shape of an identifier made by `new_id`. */
  predicate IsDekId(s: string) {
    |s| == 36 && forall i :: 0 <= i < |s| ==> HexDash(s[i])
  }

  /** `re.match("^[0-9a-f-]{36}$", s)`: in Python `$` also matches before one final newline. */
  predicate MatchesDekIdPattern(s: string) {
    IsDekId(s) || (|s| == 37 && s[36] == '\n' && IsDekId(s[..36]))
  }

  /** `str.partition(":")`: the text before the first colon, and the text after it if there is one. */
  function PartitionColon(s: string): (r: (string, Option<string>))
    ensures ':' !in r.0
    ensures s == r.0 + (if r.1.Some? then ":" + r.1.value else "")
  {
    if s == "" then ("", None)
    else if s[0] == ':' then ("", Some(s[1..]))
    else
      var (head, tail) := PartitionColon(s[1..]);
      ([s[0]] + head, tail)
  }

  /** The data-key id named by a token, if any, and the sealed text. */
  function ParseToken(token: string): (Option<string>, string) {
    if V1_PREFIX <= token then
      var (id, inner) := PartitionColon(token[|V1_PREFIX|..]);
      if inner.Some? && MatchesDekIdPattern(id) then (Some(id), inner.value) else (None, token)
    else (None, token)
  }

  /** An empty value (SQL NULL or the empty string) names no key. */
  function TokenDekId(token: string): Option<string> {
    if token == "" then None else ParseToken(token).0
  }

  function Header(id: string): string {
    V1_PREFIX + id + ":"
  }

  /** A colon-free head followed by a colon is what `partition` splits off. */
  lemma {:induction false} PartitionFirstColon(head: string, tail: string)
    requires ':' !in head
    ensures PartitionColon(head + ":" + tail) == (head, Some(tail))
  {
    var s := head + ":" + tail;
    if head == "" {
      assert s[1..] == tail;
    } else {
      assert s[1..] == head[1..] + ":" + tail;
      PartitionFirstColon(head[1..], tail);
      assert [s[0]] + head[1..] == head;
    }
  }

  /** What the hub writes, it reads back: the key id and the sealed text both survive. */
  lemma ParseRoundTrip(id: string, sealed: string)
    requires IsDekId(id)
    ensures ParseToken(Header(id) + sealed) == (Some(id), sealed)
    ensures TokenDekId(Header(id) + sealed) == Some(id)
  {
    var token := Header(id) + sealed;
    assert token[|V1_PREFIX|..] == id + ":" + sealed;
    assert ':' !in id;
    PartitionFirstColon(id, sealed);
  }

  /** Parsing loses nothing: a token that names a key is that key's header and the sealed text. */
  lemma ParseIsExact(token: string)
    ensures var (id, sealed) := ParseToken(token);
            match id
            case Some(k) => token == Header(k) + sealed && MatchesDekIdPattern(k)
            case None => sealed == token
  {
  }

  lemma HeaderHasColon(token: string)
    ensures V1_PREFIX <= token ==> ':' in token
  {
    if V1_PREFIX <= token {
      assert token[2] == V1_PREFIX[2];
    }
  }

  /** Text with no colon, such as a bare Fernet token, is a legacy token and names no key. */
  lemma ColonFreeIsLegacy(token: string)
    requires ':' !in token
    ensures ParseToken(token) == (None, token)
  {
    HeaderHasColon(token);
  }

  // ------------------------------------------------------------------ SQL LIKE

  function Lower(c: char): char {
    if 'A' <= c <= 'Z' then c - 'A' + 'a' else c
  }

  /** `fold` is SQLite's LIKE, which ignores ASCII case; otherwise PostgreSQL's. */
  predicate SameChar(a: char, b: char, fold: bool) {
    a == b || (fold && Lower(a) == Lower(b))
  }

  /** `text LIKE pattern`, with `%` and `_` as wildcards. */
  predicate Like(text: string, pattern: string, fold: bool)
    decreases |text| + |pattern|
  {
    if pattern == "" then text == ""
    else if pattern[0] == '%' then
      Like(text, pattern[1..], fold) || (text != "" && Like(text[1..], pattern, fold))
    else
      text != "" && (pattern[0] == '_' || SameChar(text[0], pattern[0], fold))
      && Like(text[1..], pattern[1..], fold)
  }

  predicate FoldedPrefix(prefix: string, text: string, fold: bool) {
    |prefix| <= |text| && forall i :: 0 <= i < |prefix| ==> SameChar(text[i], prefix[i], fold)
  }

  lemma {:induction false} PercentMatchesAll(text: string, fold: bool)
    ensures Like(text, "%", fold)
  {
    assert "%"[1..] == "";
    if text != "" {
      PercentMatchesAll(text[1..], fold);
    }
  }

  /** A wildcard-free prefix followed by `%` is a prefix test. */
  lemma {:induction false} LikePrefix(text: string, prefix: string, fold: bool)
    requires '%' !in prefix && '_' !in prefix
    ensures Like(text, prefix + "%", fold) <==> FoldedPrefix(prefix, text, fold)
  {
    var pattern := prefix + "%";
    if prefix == "" {
      assert pattern == "%";
      PercentMatchesAll(text, fold);
    } else {
      assert pattern[0] == prefix[0] && pattern[1..] == prefix[1..] + "%";
      if text != "" {
        LikePrefix(text[1..], prefix[1..], fold);
        if Like(text, pattern, fold) {
          forall i | 0 <= i < |prefix| ensures SameChar(text[i], prefix[i], fold) {
            if 0 < i { assert text[i] == text[1..][i - 1] && prefix[i] == prefix[1..][i - 1]; }
          }
        }
        if FoldedPrefix(prefix, text, fold) {
          forall i | 0 <= i < |prefix[1..]| ensures SameChar(text[1..][i], prefix[1..][i], fold) {
            assert text[1..][i] == text[i + 1] && prefix[1..][i] == prefix[i + 1];
          }
        }
      }
    }
  }

  /** The condition `column LIKE 'v1:<id>:%'` of the usage count. */
  predicate CountedFor(token: string, id: string, fold: bool) {
    Like(token, Header(id) + "%", fold)
  }

  /**
    The usage count never misses a value that names the key. It counts a value that does not name
    the key only on SQLite, and only when the value's header differs from the key's in letter case.
   */
  lemma CountedIffNamed(token: string, id: string, fold: bool)
    requires IsDekId(id)
    ensures TokenDekId(token) == Some(id) ==> CountedFor(token, id, fold)
    ensures CountedFor(token, id, fold) ==>
              |Header(id)| <= |token| && (TokenDekId(token) == Some(id) <==> token[..|Header(id)|] == Header(id))
    ensures !fold ==> (CountedFor(token, id, fold) <==> TokenDekId(token) == Some(id))
  {
    var h := Header(id);
    LikePrefix(token, h, fold);
    LikePrefix(token, h, false);
    ParseIsExact(token);
    if TokenDekId(token) == Some(id) {
      assert token[..|h|] == h;
    }
    if h <= token {
      assert token == h + token[|h|..];
      ParseRoundTrip(id, token[|h|..]);
    }
    if CountedFor(token, id, fold) && token[..|h|] == h {
      assert h <= token;
    }
    if CountedFor(token, id, false) {
      assert forall i :: 0 <= i < |h| ==> token[i] == h[i];
      assert h <= token;
    }
  }
}
