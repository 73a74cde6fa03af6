/**
 The cookie parser of the socket handshake (parseCookies in src/services/socketService.js) against the
 Cookie header of sections 4.1.1 and 4.2.1 of RFC 6265. decodeURIComponent is a parameter: None where
 it throws.
*/
module Cookies {
  import opened Options

  type Decoder = string -> Option<string>

  // ---------------------------------------------------------------- the string operations used

  function IndexOf(s: string, c: char): (i: int)
    ensures -1 <= i < |s|
    ensures i >= 0 ==> s[i] == c && c !in s[..i]
    ensures i < 0 ==> c !in s
  {
    if s == "" then -1
    else if s[0] == c then 0
    else
      var i := IndexOf(s[1..], c);
      assert s == [s[0]] + s[1..];
      if i < 0 then -1 else assert s[..i + 1] == [s[0]] + s[1..][..i]; i + 1
  }

  function Split(s: string, c: char): (pieces: seq<string>)
    ensures pieces != []
    decreases |s|
  {
    var i := IndexOf(s, c);
    if i < 0 then [s] else [s[..i]] + Split(s[i + 1..], c)
  }

  /** What String.prototype.trim removes. */
  predicate IsWhite(c: char) {
    || '\t' <= c <= '\r' || c == ' ' || c == '\U{00A0}' || c == '\U{1680}' || '\U{2000}' <= c <= '\U{200A}'
    || c == '\U{2028}' || c == '\U{2029}' || c == '\U{202F}' || c == '\U{205F}' || c == '\U{3000}' || c == '\U{FEFF}'
  }

  function TrimStart(s: string): string {
    if s != "" && IsWhite(s[0]) then TrimStart(s[1..]) else s
  }

  function TrimEnd(s: string): string {
    if s != "" && IsWhite(s[|s| - 1]) then TrimEnd(s[..|s| - 1]) else s
  }

  function Trim(s: string): string {
    TrimEnd(TrimStart(s))
  }

  // ---------------------------------------------------------------- the parser

  /** The decoded value, or the value itself where decoding throws. */
  function Decoded(decode: Decoder, value: string): string {
    if decode(value).Some? then decode(value).value else value
  }

  /** Assigning a string to this property of an object is ignored. */
  const PROTO := "__proto__"

  function Assign(cookies: map<string, string>, name: string, value: string): map<string, string> {
    if name == PROTO then cookies else cookies[name := value]
  }

  /** What one piece between semicolons contributes. */
  function Absorb(cookies: map<string, string>, pair: string, decode: Decoder): map<string, string> {
    var idx := IndexOf(pair, '=');
    if idx < 0 then cookies else Assign(cookies, Trim(pair[..idx]), Decoded(decode, Trim(pair[idx + 1..])))
  }

  function AbsorbAll(pieces: seq<string>, decode: Decoder): map<string, string> {
    if pieces == [] then map[] else Absorb(AbsorbAll(pieces[..|pieces| - 1], decode), pieces[|pieces| - 1], decode)
  }

  function Parse(header: string, decode: Decoder): map<string, string> {
    AbsorbAll(Split(header, ';'), decode)
  }

  lemma {:induction false} AbsorbLast(pieces: seq<string>, last: string, decode: Decoder)
    ensures AbsorbAll(pieces + [last], decode) == Absorb(AbsorbAll(pieces, decode), last, decode)
  {
    assert (pieces + [last])[..|pieces|] == pieces;
  }

  method ParseCookies(cookieHeader: Option<string>, decode: Decoder) returns (cookies: map<string, string>)
    ensures cookies == Parse(if cookieHeader.Some? then cookieHeader.value else "", decode)
  {
    var pairs := Split(if cookieHeader.Some? then cookieHeader.value else "", ';');
    cookies := map[];
    var i := 0;
    while i < |pairs|
      invariant 0 <= i <= |pairs|
      invariant cookies == AbsorbAll(pairs[..i], decode)
    {
      var pair := pairs[i];
      AbsorbLast(pairs[..i], pair, decode);
      assert pairs[..i] + [pair] == pairs[..i + 1];
      i := i + 1;
      var idx := IndexOf(pair, '=');
      if idx < 0 {
        continue;
      }
      var key, value := Trim(pair[..idx]), Trim(pair[idx + 1..]);
      if key != PROTO {
        cookies := cookies[key := if decode(value).Some? then decode(value).value else value];
      }
    }
    assert pairs[..i] == pairs;
  }

  // ---------------------------------------------------------------- RFC 6265

  datatype Pair = Pair(name: string, value: string)

  /** A character of a token: printable ASCII without separators. */
  predicate IsTokenChar(c: char) {
    '!' <= c <= '~' && c !in "()<>@,;:\\\"/[]?={}"
  }

  predicate IsCookieOctet(c: char) {
    '!' <= c <= '~' && c !in "\",;\\"
  }

  predicate IsName(s: string) {
    s != "" && forall i :: 0 <= i < |s| ==> IsTokenChar(s[i])
  }

  predicate IsValue(s: string) {
    || (forall i :: 0 <= i < |s| ==> IsCookieOctet(s[i]))
    || (|s| >= 2 && s[0] == '"' == s[|s| - 1] && forall i :: 0 < i < |s| - 1 ==> IsCookieOctet(s[i]))
  }

  predicate IsLegal(pairs: seq<Pair>) {
    forall p :: p in pairs ==> IsName(p.name) && IsValue(p.value)
  }

  /** The cookie-string: `name=value` pairs joined by "; ". */
  function Render(p: Pair): string {
    p.name + ['='] + p.value
  }

  function CookieString(pairs: seq<Pair>): string {
    if pairs == [] then ""
    else if |pairs| == 1 then Render(pairs[0])
    else CookieString(pairs[..|pairs| - 1]) + [';'] + ([' '] + Render(pairs[|pairs| - 1]))
  }

  /** The cookies meant: the last pair of a name wins. */
  function Meant(pairs: seq<Pair>): map<string, string> {
    if pairs == [] then map[] else Meant(pairs[..|pairs| - 1])[pairs[|pairs| - 1].name := pairs[|pairs| - 1].value]
  }

  // ---------------------------------------------------------------- proofs

  /** No white space and no semicolon: nothing to trim or split. */
  predicate IsSolid(s: string) {
    forall i :: 0 <= i < |s| ==> !IsWhite(s[i]) && s[i] != ';'
  }

  lemma LegalIsSolid(p: Pair)
    requires IsName(p.name) && IsValue(p.value)
    ensures IsSolid(p.name) && IsSolid(p.value) && '=' !in p.name
  {
    forall i | 0 <= i < |p.name| ensures !IsWhite(p.name[i]) && p.name[i] != ';' && p.name[i] != '=' {
      assert IsTokenChar(p.name[i]);
    }
    forall i | 0 <= i < |p.value| ensures !IsWhite(p.value[i]) && p.value[i] != ';' {
      assert IsCookieOctet(p.value[i]) || p.value[i] == '"';
    }
  }

  lemma {:induction false} IndexOfFirst(a: string, c: char, b: string)
    requires c !in a
    ensures IndexOf(a + [c] + b, c) == |a|
  {
    if a == "" {
      assert a + [c] + b == [c] + b;
    } else {
      IndexOfFirst(a[1..], c, b);
      assert a == [a[0]] + a[1..];
      assert (a + [c] + b)[1..] == a[1..] + [c] + b;
    }
  }

  lemma {:induction false} SplitFirst(a: string, c: char, b: string)
    requires c !in a
    ensures Split(a + [c] + b, c) == [a] + Split(b, c)
  {
    IndexOfFirst(a, c, b);
    assert (a + [c] + b)[..|a|] == a && (a + [c] + b)[|a| + 1..] == b;
  }

  lemma {:induction false} TakenApart(s: string, i: nat)
    requires i < |s|
    ensures s == s[..i] + [s[i]] + s[i + 1..]
  {
  }

  lemma {:induction false} Associate(head: string, c: string, rest: string, b: string)
    ensures head + c + rest + c + b == head + c + (rest + c + b)
  {
  }

  /** Splitting takes off a last piece that has no separator. */
  lemma {:induction false} SplitLast(a: string, c: char, b: string)
    requires c !in b
    ensures Split(a + [c] + b, c) == Split(a, c) + [b]
    decreases |a|
  {
    var i := IndexOf(a, c);
    if i < 0 {
      SplitFirst(a, c, b);
      assert IndexOf(b, c) < 0;
    } else {
      var head, rest := a[..i], a[i + 1..];
      TakenApart(a, i);
      SplitLast(rest, c, b);
      SplitFirst(head, c, rest);
      SplitFirst(head, c, rest + [c] + b);
      Associate(head, [c], rest, b);
    }
  }

  lemma SolidStaysTrimmed(s: string)
    requires IsSolid(s)
    ensures Trim(s) == s && Trim([' '] + s) == s
  {
    assert ([' '] + s)[1..] == s;
  }

  lemma {:induction false} AbsorbPair(cookies: map<string, string>, left: string, right: string, decode: Decoder)
    requires '=' !in left
    ensures Absorb(cookies, left + ['='] + right, decode) == Assign(cookies, Trim(left), Decoded(decode, Trim(right)))
  {
    IndexOfFirst(left, '=', right);
    assert (left + ['='] + right)[..|left|] == left && (left + ['='] + right)[|left| + 1..] == right;
  }

  /** A rendered pair, with or without a leading blank, contributes its name and its decoded value. */
  lemma {:induction false} AbsorbRendered(cookies: map<string, string>, p: Pair, decode: Decoder)
    requires IsSolid(p.name) && IsSolid(p.value) && '=' !in p.name
    ensures Absorb(cookies, Render(p), decode) == Assign(cookies, p.name, Decoded(decode, p.value))
    ensures Absorb(cookies, [' '] + Render(p), decode) == Assign(cookies, p.name, Decoded(decode, p.value))
  {
    SolidStaysTrimmed(p.name);
    SolidStaysTrimmed(p.value);
    AbsorbPair(cookies, p.name, p.value, decode);
    AbsorbPair(cookies, [' '] + p.name, p.value, decode);
    Reassociate([' '], p.name, ['='], p.value);
  }

  lemma Reassociate(a: string, b: string, c: string, d: string)
    ensures a + (b + c + d) == (a + b) + c + d
  {
  }

  lemma RenderedIsOnePiece(p: Pair)
    requires IsSolid(p.name) && IsSolid(p.value)
    ensures ';' !in Render(p) && ';' !in [' '] + Render(p)
    ensures Split(Render(p), ';') == [Render(p)]
  {
  }

  /** What the parser makes of a cookie-string: the pairs are assigned in order, with decoded values. */
  function Stored(pairs: seq<Pair>, decode: Decoder): map<string, string> {
    if pairs == [] then map[]
    else Assign(Stored(pairs[..|pairs| - 1], decode), pairs[|pairs| - 1].name,
        Decoded(decode, pairs[|pairs| - 1].value))
  }

  lemma {:induction false} ParseIsStored(pairs: seq<Pair>, decode: Decoder)
    requires IsLegal(pairs)
    ensures Parse(CookieString(pairs), decode) == Stored(pairs, decode)
    decreases |pairs|
  {
    if pairs == [] {
      assert Split("", ';') == [""];
      assert AbsorbAll([""], decode) == Absorb(AbsorbAll([], decode), "", decode);
    } else {
      var k := |pairs| - 1;
      assert pairs[k] in pairs && IsLegal(pairs[..k]);
      LegalIsSolid(pairs[k]);
      ParseIsStored(pairs[..k], decode);
      ParseLast(pairs, decode);
    }
  }

  lemma {:induction false} ParseLast(pairs: seq<Pair>, decode: Decoder)
    requires pairs != []
    requires var p := pairs[|pairs| - 1]; IsSolid(p.name) && IsSolid(p.value) && '=' !in p.name
    requires Parse(CookieString(pairs[..|pairs| - 1]), decode) == Stored(pairs[..|pairs| - 1], decode)
    ensures Parse(CookieString(pairs), decode) == Stored(pairs, decode)
  {
    var k := |pairs| - 1;
    var front, p := CookieString(pairs[..k]), pairs[k];
    RenderedIsOnePiece(p);
    AbsorbRendered(Stored(pairs[..k], decode), p, decode);
    if k == 0 {
      assert pairs[..k] == [];
      AbsorbLast([], Render(p), decode);
    } else {
      SplitLast(front, ';', [' '] + Render(p));
      AbsorbLast(Split(front, ';'), [' '] + Render(p), decode);
    }
  }

  lemma {:induction false} StoredIsMeant(pairs: seq<Pair>, decode: Decoder)
    requires forall p :: p in pairs ==> Decoded(decode, p.value) == p.value
    ensures Stored(pairs, decode) == Meant(pairs) - {PROTO}
    ensures PROTO in Meant(pairs) <==> exists i :: 0 <= i < |pairs| && pairs[i].name == PROTO
    decreases |pairs|
  {
    if pairs == [] {
    } else {
      var k := |pairs| - 1;
      assert pairs[k] in pairs;
      StoredIsMeant(pairs[..k], decode);
      if pairs[k].name != PROTO {
        forall i | 0 <= i < |pairs| && pairs[i].name == PROTO ensures pairs[..k][i] == pairs[i] {}
        assert Meant(pairs) - {PROTO} == (Meant(pairs[..k]) - {PROTO})[pairs[k].name := pairs[k].value];
      } else {
        assert Meant(pairs) - {PROTO} == Meant(pairs[..k]) - {PROTO};
      }
    }
  }

  /** Round trip: a cookie-string whose values percent-decoding leaves alone is read back exactly, values
      with `=` included and the last of several pairs of one name, if and only if no cookie is called
      `__proto__`. */
  lemma {:induction false} RoundTrip(pairs: seq<Pair>, decode: Decoder)
    requires IsLegal(pairs) && forall p :: p in pairs ==> Decoded(decode, p.value) == p.value
    ensures Parse(CookieString(pairs), decode) == Meant(pairs) - {PROTO}
    ensures Parse(CookieString(pairs), decode) == Meant(pairs) <==> forall i :: 0 <= i < |pairs| ==>
              pairs[i].name != PROTO
  {
    ParseIsStored(pairs, decode);
    StoredIsMeant(pairs, decode);
    if PROTO !in Meant(pairs) { assert Meant(pairs) - {PROTO} == Meant(pairs); }
  }

  /** Encoded values come back decoded: sending encode(value) for every value returns the values meant. */
  lemma {:induction false} EncodedRoundTrip(pairs: seq<Pair>, encode: string -> string, decode: Decoder)
    requires forall s: string :: decode(encode(s)) == Some(s)
    requires forall i :: 0 <= i < |pairs| ==>
               IsName(pairs[i].name) && pairs[i].name != PROTO && IsValue(encode(pairs[i].value))
    ensures Parse(CookieString(Encoded(pairs, encode)), decode) == Meant(pairs)
  {
    ParseIsStored(Encoded(pairs, encode), decode);
    StoredEncoded(pairs, encode, decode);
  }

  function Encoded(pairs: seq<Pair>, encode: string -> string): (sent: seq<Pair>)
    ensures |sent| == |pairs| && forall i :: 0 <= i < |pairs| ==> sent[i] == Pair(pairs[i].name, encode(pairs[i].value))
  {
    seq(|pairs|, i requires 0 <= i < |pairs| => Pair(pairs[i].name, encode(pairs[i].value)))
  }

  lemma {:induction false} StoredEncoded(pairs: seq<Pair>, encode: string -> string, decode: Decoder)
    requires forall s: string :: decode(encode(s)) == Some(s)
    requires forall i :: 0 <= i < |pairs| ==> pairs[i].name != PROTO
    ensures Stored(Encoded(pairs, encode), decode) == Meant(pairs)
    decreases |pairs|
  {
    if pairs == [] {
    } else {
      var k := |pairs| - 1;
      StoredEncoded(pairs[..k], encode, decode);
      assert Encoded(pairs, encode)[..k] == Encoded(pairs[..k], encode);
    }
  }

  // ---------------------------------------------------------------- any header at all

  predicate AllWhite(s: string) {
    forall i :: 0 <= i < |s| ==> IsWhite(s[i])
  }

  lemma {:induction false} TrimStartIsExact(s: string) returns (i: nat)
    ensures i <= |s| && TrimStart(s) == s[i..] && AllWhite(s[..i])
    ensures i < |s| ==> !IsWhite(s[i])
  {
    if s != "" && IsWhite(s[0]) {
      var k := TrimStartIsExact(s[1..]);
      i := k + 1;
      assert s[1..][k..] == s[i..] && s[..i] == [s[0]] + s[1..][..k];
    } else {
      i := 0;
    }
  }

  lemma {:induction false} TrimEndIsExact(s: string) returns (j: nat)
    ensures j <= |s| && TrimEnd(s) == s[..j] && AllWhite(s[j..])
    ensures 0 < j ==> !IsWhite(s[j - 1])
  {
    var k := |s| - 1;
    if s != "" && IsWhite(s[k]) {
      j := TrimEndIsExact(s[..k]);
      assert s[..k][..j] == s[..j] && s[j..] == s[..k][j..] + [s[k]];
    } else {
      j := |s|;
    }
  }

  /** Trimming cuts white space off both ends, and all of it. */
  lemma {:induction false} TrimIsExact(s: string) returns (before: string, after: string)
    ensures s == before + Trim(s) + after && AllWhite(before) && AllWhite(after)
    ensures Trim(s) == "" || (!IsWhite(Trim(s)[0]) && !IsWhite(Trim(s)[|Trim(s)| - 1]))
  {
    var i := TrimStartIsExact(s);
    var t := s[i..];
    var j := TrimEndIsExact(t);
    before, after := s[..i], t[j..];
    assert s == s[..i] + t && t == t[..j] + t[j..];
    assert Trim(s) == t[..j] && (j > 0 ==> t[..j][0] == s[i]);
  }

  /** The last piece of any header: without `=` it is ignored; otherwise its trimmed name gets its trimmed value,
      decoded where that is possible and as it came where it is not, over any earlier one. */
  lemma {:induction false} LastPieceIsRead(header: string, left: string, right: string, decode: Decoder)
    requires ';' !in left && ';' !in right && '=' !in left
    ensures Parse(header + [';'] + left, decode) == Parse(header, decode)
    ensures var name, value := Trim(left), Trim(right);
            Parse(header + [';'] + (left + ['='] + right), decode) ==
              if name == "__proto__" then Parse(header, decode)
              else Parse(header, decode)[name := if decode(value).Some? then decode(value).value else value]
  {
    var pieces := Split(header, ';');
    SplitLast(header, ';', left);
    AbsorbLast(pieces, left, decode);
    SplitLast(header, ';', left + ['='] + right);
    AbsorbLast(pieces, left + ['='] + right, decode);
    AbsorbPair(AbsorbAll(pieces, decode), left, right, decode);
  }
}
