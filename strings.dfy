/**
 * String helpers the core relies on: Rust's `str::split_whitespace`,
 * `[String]::join`, `starts_with`, `contains`, and ASCII lower-casing.
 */
module Strings {

  /**
   * Rust's `char::is_whitespace`: the characters with the Unicode
   * White_Space property.
   */
  predicate IsWhitespace(c: char) {
    || ('\t' <= c <= '\r')            // tab, line feed, vertical tab, form feed, carriage return
    || c == ' '
    || c == '\U{0085}' || c == '\U{00A0}' || c == '\U{1680}'
    || ('\U{2000}' <= c <= '\U{200A}')
    || c == '\U{2028}' || c == '\U{2029}' || c == '\U{202F}' || c == '\U{205F}' || c == '\U{3000}'
  }

  /** A token of `split_whitespace`: non-empty and free of whitespace. */
  predicate IsToken(t: string) {
    |t| > 0 && forall i :: 0 <= i < |t| ==> !IsWhitespace(t[i])
  }

  /** Length of the longest whitespace-free prefix of `s`. */
  function TokenLength(s: string): (n: nat)
    ensures n <= |s|
    ensures forall i :: 0 <= i < n ==> !IsWhitespace(s[i])
    ensures n < |s| ==> IsWhitespace(s[n])
  {
    if s == [] || IsWhitespace(s[0]) then 0 else 1 + TokenLength(s[1..])
  }

  /** `s.split_whitespace().collect()`: the maximal whitespace-free runs of `s`, in order. */
  function SplitWhitespace(s: string): (r: seq<string>)
    ensures forall i :: 0 <= i < |r| ==> IsToken(r[i])
    decreases |s|
  {
    if s == [] then []
    else if IsWhitespace(s[0]) then SplitWhitespace(s[1..])
    else
      var n := TokenLength(s);
      [s[..n]] + SplitWhitespace(s[n..])
  }

  /** `parts.join(sep)`. */
  function Join(parts: seq<string>, sep: string): string {
    if parts == [] then ""
    else if |parts| == 1 then parts[0]
    else parts[0] + sep + Join(parts[1..], sep)
  }

  /** Joining one more part adds the separator and the part at the end. */
  lemma {:induction false} JoinSnoc(parts: seq<string>, p: string, sep: string)
    requires parts != []
    ensures Join(parts + [p], sep) == Join(parts, sep) + sep + p
    decreases |parts|
  {
    var all := parts + [p];
    if |parts| == 1 {
      assert all[1..] == [p];
    } else {
      assert all[1..] == parts[1..] + [p];
      JoinSnoc(parts[1..], p, sep);
    }
  }

  /** Every part appears in the joined string. */
  lemma {:induction false} JoinHoldsParts(parts: seq<string>, sep: string, i: int)
    requires 0 <= i < |parts|
    ensures Contains(Join(parts, sep), parts[i])
    decreases |parts|
  {
    var s := Join(parts, sep);
    if i == 0 {
      if |parts| == 1 {
        assert OccursAt(s, parts[0], 0);
      } else {
        assert s == parts[0] + (sep + Join(parts[1..], sep));
        assert OccursAt(s, parts[0], 0);
      }
    } else {
      var head := parts[0] + sep;
      var tail := Join(parts[1..], sep);
      assert s == head + tail;
      JoinHoldsParts(parts[1..], sep, i - 1);
      ContainsIffOccurs(tail, parts[i]);
      var k :| OccursAt(tail, parts[i], k);
      assert s[|head| + k..|head| + k + |parts[i]|] == tail[k..k + |parts[i]|];
      assert OccursAt(s, parts[i], |head| + k);
    }
    ContainsIffOccurs(s, parts[i]);
  }

  /** `s.starts_with(prefix)`. */
  predicate StartsWith(s: string, prefix: string) {
    |prefix| <= |s| && s[..|prefix|] == prefix
  }

  /** A string starts with its own prefix, and what follows the prefix is the rest. */
  lemma StartsWithConcat(prefix: string, rest: string)
    ensures StartsWith(prefix + rest, prefix)
    ensures (prefix + rest)[|prefix|..] == rest
  {
    assert (prefix + rest)[..|prefix|] == prefix;
  }

  /** Having a prefix is transitive. */
  lemma StartsWithTrans(s: string, t: string, u: string)
    requires StartsWith(s, t) && StartsWith(t, u)
    ensures StartsWith(s, u)
  {
    assert s[..|u|] == s[..|t|][..|u|];
  }

  /** A string cannot start with two prefixes that differ at a position both cover. */
  lemma StartsWithExcludes(s: string, p: string, q: string, i: nat)
    requires StartsWith(s, p) && i < |p| && i < |q| && p[i] != q[i]
    ensures !StartsWith(s, q)
  {
    assert s[i] == s[..|p|][i] == p[i];
    assert |q| <= |s| ==> s[..|q|][i] == s[i];
  }

  /** `sub` occurs in `s` starting at position `i`. */
  predicate OccursAt(s: string, sub: string, i: int) {
    0 <= i <= |s| - |sub| && s[i..i + |sub|] == sub
  }

  /** `s.contains(sub)`: `s` or one of its suffixes starts with `sub`. */
  predicate Contains(s: string, sub: string)
    decreases |s|
  {
    StartsWith(s, sub) || (s != [] && Contains(s[1..], sub))
  }

  /** `Contains` holds exactly when `sub` occurs at some position of `s`. */
  lemma {:induction false} ContainsIffOccurs(s: string, sub: string)
    ensures Contains(s, sub) <==> exists i :: OccursAt(s, sub, i)
    decreases |s|
  {
    if StartsWith(s, sub) {
      assert OccursAt(s, sub, 0);
    }
    if s != [] {
      ContainsIffOccurs(s[1..], sub);
      if exists i :: OccursAt(s[1..], sub, i) {
        var i :| OccursAt(s[1..], sub, i);
        assert s[i + 1..i + 1 + |sub|] == s[1..][i..i + |sub|];
        assert OccursAt(s, sub, i + 1);
      }
      if exists i :: OccursAt(s, sub, i) {
        var i :| OccursAt(s, sub, i);
        if i > 0 {
          assert s[1..][i - 1..i - 1 + |sub|] == s[i..i + |sub|];
          assert OccursAt(s[1..], sub, i - 1);
        }
      }
    } else {
      if exists i :: OccursAt(s, sub, i) {
        var i :| OccursAt(s, sub, i);
        assert i == 0;
      }
    }
  }

  /** What a string contains, any string around it contains too. */
  lemma ContainsWithin(p: string, m: string, q: string, sub: string)
    requires Contains(m, sub)
    ensures Contains(p + m + q, sub)
  {
    ContainsIffOccurs(m, sub);
    var k :| OccursAt(m, sub, k);
    var s := p + m + q;
    assert s[|p| + k..|p| + k + |sub|] == m[k..k + |sub|];
    assert OccursAt(s, sub, |p| + k);
    ContainsIffOccurs(s, sub);
  }

  /** Containment is transitive. */
  lemma ContainsTrans(s: string, t: string, u: string)
    requires Contains(s, t) && Contains(t, u)
    ensures Contains(s, u)
  {
    ContainsIffOccurs(s, t);
    ContainsIffOccurs(t, u);
    var k :| OccursAt(s, t, k);
    var l :| OccursAt(t, u, l);
    assert forall j :: 0 <= j < |t| ==> s[k + j] == t[j] by {
      forall j | 0 <= j < |t| ensures s[k + j] == t[j] {
        assert s[k..k + |t|][j] == t[j];
      }
    }
    assert s[k + l..k + l + |u|] == t[l..l + |u|];
    assert OccursAt(s, u, k + l);
    ContainsIffOccurs(s, u);
  }

  /** Only a non-empty string contains a non-empty one. */
  lemma ContainsNonEmpty(s: string, sub: string)
    requires Contains(s, sub) && sub != []
    ensures s != []
  {
    ContainsIffOccurs(s, sub);
  }

  /** ASCII lower-casing of one character. */
  function LowerChar(c: char): char {
    if 'A' <= c <= 'Z' then (c as int + 32) as char else c
  }

  /** ASCII lower-casing of a string; other characters are left as they are. */
  function Lower(s: string): (r: string)
    ensures |r| == |s|
    ensures forall i :: 0 <= i < |s| ==> r[i] == LowerChar(s[i])
  {
    seq(|s|, i requires 0 <= i < |s| => LowerChar(s[i]))
  }

  /** A token followed by nothing or by whitespace splits off as exactly that token. */
  lemma {:induction false} SplitAfterToken(t: string, rest: string)
    requires IsToken(t)
    requires rest == [] || IsWhitespace(rest[0])
    ensures SplitWhitespace(t + rest) == [t] + SplitWhitespace(rest)
  {
    var s := t + rest;
    var n := TokenLength(s);
    assert forall i :: 0 <= i < |t| ==> s[i] == t[i];
    assert |t| < |s| ==> s[|t|] == rest[0];
    assert n == |t|;
    assert s[..n] == t && s[n..] == rest;
  }

  /** Joining tokens with single spaces and splitting again gives the tokens back. */
  lemma {:induction false} SplitJoin(tokens: seq<string>)
    requires forall i :: 0 <= i < |tokens| ==> IsToken(tokens[i])
    ensures SplitWhitespace(Join(tokens, " ")) == tokens
  {
    if tokens == [] {
    } else if |tokens| == 1 {
      SplitAfterToken(tokens[0], "");
      assert tokens[0] + "" == tokens[0];
    } else {
      var rest := " " + Join(tokens[1..], " ");
      assert Join(tokens, " ") == tokens[0] + rest;
      SplitAfterToken(tokens[0], rest);
      assert rest[1..] == Join(tokens[1..], " ");
      SplitJoin(tokens[1..]);
    }
  }

  /** A string with leading whitespace splits like the string without it. */
  lemma SplitSkipsSpace(s: string)
    ensures SplitWhitespace(" " + s) == SplitWhitespace(s)
  {
    assert (" " + s)[1..] == s;
  }

  /** `w` is made of whitespace only (possibly empty). */
  predicate IsBlank(w: string) {
    forall i :: 0 <= i < |w| ==> IsWhitespace(w[i])
  }

  /** `ws[0] + ts[0] + ws[1] + ... + ts[n-1] + ws[n]`: tokens with the separators around and between them. */
  function Interleave(ws: seq<string>, ts: seq<string>): string
    requires |ws| == |ts| + 1
    decreases |ts|
  {
    if ts == [] then ws[0] else ws[0] + ts[0] + Interleave(ws[1..], ts[1..])
  }

  /** Whitespace in front of a string does not change its split. */
  lemma {:induction false} SplitSkipsBlank(w: string, s: string)
    requires IsBlank(w)
    ensures SplitWhitespace(w + s) == SplitWhitespace(s)
    decreases |w|
  {
    if w == [] {
      assert w + s == s;
    } else {
      assert (w + s)[0] == w[0];
      assert (w + s)[1..] == w[1..] + s;
      SplitSkipsBlank(w[1..], s);
    }
  }

  /** Interleaving starts with the first separator, and is that separator alone when there are no tokens. */
  lemma InterleaveStart(ws: seq<string>, ts: seq<string>)
    requires |ws| == |ts| + 1
    ensures ts == [] ==> Interleave(ws, ts) == ws[0]
    ensures ts != [] ==> Interleave(ws, ts) == ws[0] + (ts[0] + Interleave(ws[1..], ts[1..]))
  {
  }

  /** What follows a token in an interleaving is empty or begins with whitespace. */
  lemma AfterTokenIsBlankStart(ws: seq<string>, ts: seq<string>)
    requires |ws| == |ts| + 1
    requires forall i :: 0 <= i < |ws| ==> IsBlank(ws[i])
    requires ts != [] ==> ws[0] != []
    ensures Interleave(ws, ts) == [] || IsWhitespace(Interleave(ws, ts)[0])
  {
    InterleaveStart(ws, ts);
    if ws[0] != [] {
      assert IsWhitespace(ws[0][0]);
    }
  }

  /**
   * Splitting tokens separated by any whitespace, with any whitespace before
   * the first and after the last, gives exactly the tokens, in order.
   */
  lemma {:induction false} SplitInterleave(ws: seq<string>, ts: seq<string>)
    requires |ws| == |ts| + 1
    requires forall i :: 0 <= i < |ws| ==> IsBlank(ws[i])
    requires forall i :: 0 < i < |ts| ==> ws[i] != []
    requires forall i :: 0 <= i < |ts| ==> IsToken(ts[i])
    ensures SplitWhitespace(Interleave(ws, ts)) == ts
    decreases |ts|
  {
    InterleaveStart(ws, ts);
    if ts == [] {
      SplitSkipsBlank(ws[0], "");
      assert ws[0] + "" == ws[0];
    } else {
      var ws', ts' := ws[1..], ts[1..];
      assert forall i :: 0 <= i < |ws'| ==> ws'[i] == ws[i + 1];
      assert forall i :: 0 <= i < |ts'| ==> ts'[i] == ts[i + 1];
      var rest := Interleave(ws', ts');
      SplitSkipsBlank(ws[0], ts[0] + rest);
      AfterTokenIsBlankStart(ws', ts');
      SplitAfterToken(ts[0], rest);
      SplitInterleave(ws', ts');
    }
  }

  /** Splitting yields no token exactly when the string is empty or all whitespace. */
  lemma {:induction false} SplitEmptyIff(s: string)
    ensures SplitWhitespace(s) == [] <==> forall i :: 0 <= i < |s| ==> IsWhitespace(s[i])
  {
    if s != [] {
      if IsWhitespace(s[0]) {
        SplitEmptyIff(s[1..]);
        assert forall i :: 1 <= i < |s| ==> s[i] == s[1..][i - 1];
      } else {
        assert SplitWhitespace(s) != [];
      }
    }
  }

  /** Decimal rendering of a natural number. */
  function NatToString(n: nat): (r: string)
    ensures |r| > 0
    decreases n
  {
    var digit := [('0' as int + n % 10) as char];
    if n < 10 then digit else NatToString(n / 10) + digit
  }
}
