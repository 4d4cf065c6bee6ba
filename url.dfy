/**
 * `url.QueryEscape` and `url.PathEscape` from Go's net/url, with the
 * unescaping and the splitting of a request target that a server applies,
 * so that what an escaped argument turns back into can be stated.
 */
module Url {
  import opened Wrappers
  import opened Text

  /** The escaping modes the client uses: a query value and a path segment. */
  datatype Mode = QueryComponent | PathSegment

  /** The character `c` does not occur in `s`. */
  predicate Avoids(s: string, c: char) {
    forall i :: 0 <= i < |s| ==> s[i] != c
  }

  lemma AvoidsAppend(a: string, b: string, c: char)
    requires Avoids(a, c) && Avoids(b, c)
    ensures Avoids(a + b, c)
  {
    forall i | 0 <= i < |a + b| ensures (a + b)[i] != c {
      if i >= |a| {
        assert (a + b)[i] == b[i - |a|];
      }
    }
  }

  function AsChar(b: byte): char {
    b as int as char
  }

  /** Letters, digits and `-_.~`: never escaped. */
  predicate Unreserved(c: char) {
    ('a' <= c <= 'z') || ('A' <= c <= 'Z') || ('0' <= c <= '9') || c == '-' || c == '_' || c == '.' || c == '~'
  }

  /** The reserved characters of RFC 3986 that the escaping modes treat differently. */
  predicate Reserved(c: char) {
    c == '$' || c == '&' || c == '+' || c == ',' || c == '/' || c == ':' || c == ';' || c == '='
    || c == '?' || c == '@'
  }

  /** net/url's `shouldEscape` for the two modes. */
  predicate ShouldEscape(b: byte, m: Mode) {
    var c := AsChar(b);
    if Unreserved(c) then false
    else if Reserved(c) then m.QueryComponent? || c == '/' || c == ';' || c == ',' || c == '?'
    else true
  }

  /** An upper-case hexadecimal digit. */
  function HexDigit(k: int): (c: char)
    requires 0 <= k < 16
    ensures Unreserved(c)
  {
    if k < 10 then ('0' as int + k) as char else ('A' as int + k - 10) as char
  }

  predicate IsHex(c: char) {
    ('0' <= c <= '9') || ('a' <= c <= 'f') || ('A' <= c <= 'F')
  }

  function HexValue(c: char): (v: int)
    requires IsHex(c)
    ensures 0 <= v < 16
  {
    if '0' <= c <= '9' then c as int - '0' as int
    else if 'a' <= c <= 'f' then c as int - 'a' as int + 10
    else c as int - 'A' as int + 10
  }

  /** One byte escaped: itself, `+` for a space in a query value, otherwise `%XX`. */
  function EscapeByte(b: byte, m: Mode): string {
    if !ShouldEscape(b, m) then [AsChar(b)]
    else if b == 32 && m.QueryComponent? then "+"
    else ['%', HexDigit(b as int / 16), HexDigit(b as int % 16)]
  }

  /** The characters escaping can emit in mode `m`. */
  predicate Emitted(c: char, m: Mode) {
    Unreserved(c) || c == '%' || c == '+'
    || (m.PathSegment? && (c == '$' || c == '&' || c == ':' || c == '=' || c == '@'))
  }

  lemma EscapeByteEmits(b: byte, m: Mode)
    ensures forall i :: 0 <= i < |EscapeByte(b, m)| ==> Emitted(EscapeByte(b, m)[i], m)
  {
  }

  /** net/url's `escape` over the bytes of a string. */
  function Escape(b: Bytes, m: Mode): (r: string)
    ensures forall i :: 0 <= i < |r| ==> Emitted(r[i], m)
  {
    if b == [] then ""
    else
      var head, tail := EscapeByte(b[0], m), Escape(b[1..], m);
      EscapeByteEmits(b[0], m);
      assert forall i :: |head| <= i < |head + tail| ==> (head + tail)[i] == tail[i - |head|];
      head + tail
  }

  /** `url.QueryEscape(s)`: the result cannot end a query value or start another. */
  function QueryEscape(s: string): (r: string)
    ensures Avoids(r, '&') && Avoids(r, '=') && Avoids(r, '?') && Avoids(r, '#') && Avoids(r, ' ')
  {
    Escape(Utf8(s), QueryComponent)
  }

  /** `url.PathEscape(s)`: the result stays within one path segment. */
  function PathEscape(s: string): (r: string)
    ensures Avoids(r, '/') && Avoids(r, '?') && Avoids(r, '#') && Avoids(r, ' ')
  {
    Escape(Utf8(s), PathSegment)
  }

  /** net/url's `unescape`: `%XX` becomes a byte, `+` a space in a query value; a bad `%` is an error. */
  function Unescape(s: string, m: Mode): Option<Bytes>
    decreases |s|
  {
    if s == [] then Some([])
    else if s[0] == '%' then
      if |s| >= 3 && IsHex(s[1]) && IsHex(s[2]) then
        match Unescape(s[3..], m)
        case None => None
        case Some(rest) => Some([(HexValue(s[1]) * 16 + HexValue(s[2])) as byte] + rest)
      else None
    else
      match Unescape(s[1..], m)
      case None => None
      case Some(rest) =>
        Some((if s[0] == '+' && m.QueryComponent? then [32 as byte] else Utf8Char(s[0])) + rest)
  }

  function Prepend(b: byte, r: Option<Bytes>): Option<Bytes> {
    match r
    case None => None
    case Some(rest) => Some([b] + rest)
  }

  lemma EscapeByteUnescapes(b: byte, m: Mode, rest: string)
    ensures Unescape(EscapeByte(b, m) + rest, m) == Prepend(b, Unescape(rest, m))
  {
    var e := EscapeByte(b, m);
    var s := e + rest;
    if !ShouldEscape(b, m) {
      var c := AsChar(b);
      assert s[0] == c && s[1..] == rest;
      assert c != '%';
      assert c as int < 0x80;
      assert Utf8Char(c) == [b];
    } else if b == 32 && m.QueryComponent? {
      assert s[0] == '+' && s[1..] == rest;
    } else {
      assert s[0] == '%' && s[3..] == rest;
      assert HexValue(s[1]) == b as int / 16 && HexValue(s[2]) == b as int % 16;
    }
  }

  /** Unescaping undoes escaping, in either mode. */
  lemma {:induction false} EscapeRoundTrip(b: Bytes, m: Mode)
    ensures Unescape(Escape(b, m), m) == Some(b)
  {
    if b != [] {
      EscapeRoundTrip(b[1..], m);
      EscapeByteUnescapes(b[0], m, Escape(b[1..], m));
      assert [b[0]] + b[1..] == b;
    }
  }

  /** A server decodes a query value back to the bytes of the original argument. */
  lemma QueryEscapeRoundTrip(s: string)
    ensures Unescape(QueryEscape(s), QueryComponent) == Some(Utf8(s))
  {
    EscapeRoundTrip(Utf8(s), QueryComponent);
  }

  /** A server decodes an escaped path segment back to the bytes of the original argument. */
  lemma PathEscapeRoundTrip(s: string)
    ensures Unescape(PathEscape(s), PathSegment) == Some(Utf8(s))
  {
    EscapeRoundTrip(Utf8(s), PathSegment);
  }

  // ------------------------------------------------- reading a request target

  /** `strings.Cut(s, sep)`: the text before the first `sep` and, if there is one, the text after it. */
  function Cut(s: string, sep: char): (r: (string, Option<string>))
    ensures r.1.Some? ==> |r.1.value| < |s|
    decreases |s|
  {
    if s == [] then ("", None)
    else if s[0] == sep then ("", Some(s[1..]))
    else
      var rest := Cut(s[1..], sep);
      ([s[0]] + rest.0, rest.1)
  }

  lemma {:induction false} CutAt(a: string, sep: char, b: string)
    requires Avoids(a, sep)
    ensures Cut(a + [sep] + b, sep) == (a, Some(b))
  {
    if a != [] {
      assert (a + [sep] + b)[1..] == a[1..] + [sep] + b;
      CutAt(a[1..], sep, b);
      assert [a[0]] + a[1..] == a;
    } else {
      assert a + [sep] + b == [sep] + b;
    }
  }

  lemma {:induction false} CutMissing(a: string, sep: char)
    requires Avoids(a, sep)
    ensures Cut(a, sep) == (a, None)
  {
    if a != [] {
      CutMissing(a[1..], sep);
      assert [a[0]] + a[1..] == a;
    }
  }

  /** `strings.Split(s, string(sep))`. */
  function Split(s: string, sep: char): (r: seq<string>)
    ensures |r| >= 1
    decreases |s|
  {
    var cut := Cut(s, sep);
    if cut.1.None? then [cut.0] else [cut.0] + Split(cut.1.value, sep)
  }

  /** A raw `key=value` pair of a query string. */
  function Param(segment: string): (string, string) {
    var cut := Cut(segment, '=');
    (cut.0, if cut.1.Some? then cut.1.value else "")
  }

  function Params(segments: seq<string>): seq<(string, string)> {
    if segments == [] then [] else [Param(segments[0])] + Params(segments[1..])
  }

  /** How a server reads a request target: the route before `?` and the raw pairs of the query after it. */
  function Target(path: string): (string, seq<(string, string)>) {
    var cut := Cut(path, '?');
    (cut.0, if cut.1.None? then [] else Params(Split(cut.1.value, '&')))
  }

  lemma ParamOf(key: string, value: string)
    requires Avoids(key, '=')
    ensures Param(key + "=" + value) == (key, value)
  {
    CutAt(key, '=', value);
  }

  /** A route with one query parameter whose value is `QueryEscape(v)`: the pair reads back intact. */
  lemma OneParam(route: string, key: string, v: string)
    requires Avoids(route, '?') && Avoids(key, '&') && Avoids(key, '=')
    ensures Target(route + "?" + key + "=" + QueryEscape(v)) == (route, [(key, QueryEscape(v))])
  {
    var e := QueryEscape(v);
    var q := key + "=" + e;
    assert route + "?" + key + "=" + e == route + ['?'] + q;
    CutAt(route, '?', q);
    assert Cut(route + "?" + key + "=" + e, '?') == (route, Some(q));
    AvoidsAppend(key, "=", '&');
    AvoidsAppend(key + "=", e, '&');
    assert key + "=" + e == q;
    CutMissing(q, '&');
    assert Split(q, '&') == [q];
    ParamOf(key, e);
    assert Params([q]) == [(key, e)];
  }

  /** Two query parameters, each escaped; both pairs read back intact and in order. */
  lemma TwoParams(route: string, k1: string, v1: string, k2: string, v2: string)
    requires Avoids(route, '?') && Avoids(k1, '&') && Avoids(k1, '=') && Avoids(k2, '&') && Avoids(k2, '=')
    ensures Target(route + "?" + k1 + "=" + QueryEscape(v1) + "&" + k2 + "=" + QueryEscape(v2))
         == (route, [(k1, QueryEscape(v1)), (k2, QueryEscape(v2))])
  {
    var e1, e2 := QueryEscape(v1), QueryEscape(v2);
    var p1, p2 := k1 + "=" + e1, k2 + "=" + e2;
    assert route + "?" + k1 + "=" + e1 + "&" + k2 + "=" + e2 == route + ['?'] + (p1 + ['&'] + p2);
    CutAt(route, '?', p1 + ['&'] + p2);
    assert Cut(route + "?" + k1 + "=" + e1 + "&" + k2 + "=" + e2, '?') == (route, Some(p1 + ['&'] + p2));
    AvoidsAppend(k1, "=", '&');
    AvoidsAppend(k1 + "=", e1, '&');
    AvoidsAppend(k2, "=", '&');
    AvoidsAppend(k2 + "=", e2, '&');
    CutAt(p1, '&', p2);
    CutMissing(p2, '&');
    assert Split(p2, '&') == [p2];
    assert Split(p1 + ['&'] + p2, '&') == [p1, p2];
    ParamOf(k1, e1);
    ParamOf(k2, e2);
    assert Params([p2]) == [(k2, e2)];
    assert Params([p1, p2]) == [(k1, e1)] + Params([p1, p2][1..]);
    assert [p1, p2][1..] == [p2];
    assert Params([p1, p2]) == [(k1, e1), (k2, e2)];
  }

  /** `OneParam` for a path written as one literal lead followed by the escaped value. */
  lemma OneParamAfter(lead: string, route: string, key: string, v: string)
    requires lead == route + "?" + key + "="
    requires Avoids(route, '?') && Avoids(key, '&') && Avoids(key, '=')
    ensures Target(lead + QueryEscape(v)) == (route, [(key, QueryEscape(v))])
  {
    OneParam(route, key, v);
  }

  /** `TwoParams` for a path written as a literal lead, a value, a literal joint and a value. */
  lemma TwoParamsAfter(lead: string, route: string, k1: string, v1: string, joint: string, k2: string, v2: string)
    requires lead == route + "?" + k1 + "=" && joint == "&" + k2 + "="
    requires Avoids(route, '?') && Avoids(k1, '&') && Avoids(k1, '=') && Avoids(k2, '&') && Avoids(k2, '=')
    ensures Target(lead + QueryEscape(v1) + joint + QueryEscape(v2))
         == (route, [(k1, QueryEscape(v1)), (k2, QueryEscape(v2))])
  {
    TwoParams(route, k1, v1, k2, v2);
    assert lead + QueryEscape(v1) + joint + QueryEscape(v2)
        == route + "?" + k1 + "=" + QueryEscape(v1) + "&" + k2 + "=" + QueryEscape(v2);
  }

  /** A route with no query whose last segment is `PathEscape(id)`: the segment stays one segment. */
  lemma EscapedSegment(prefix: string, id: string)
    requires Avoids(prefix, '?')
    ensures Target(prefix + "/" + PathEscape(id)) == (prefix + "/" + PathEscape(id), [])
    ensures Split(prefix + "/" + PathEscape(id), '/') == Split(prefix, '/') + [PathEscape(id)]
  {
    var e := PathEscape(id);
    AvoidsAppend(prefix, "/", '?');
    AvoidsAppend(prefix + "/", e, '?');
    CutMissing(prefix + "/" + e, '?');
    SplitLast(prefix, e);
  }

  lemma {:induction false} SplitLast(a: string, e: string)
    requires Avoids(e, '/')
    ensures Split(a + "/" + e, '/') == Split(a, '/') + [e]
    decreases |a|
  {
    var cut := Cut(a, '/');
    if cut.1.None? {
      CutNoneAvoids(a, '/');
      assert a + "/" + e == a + ['/'] + e;
      CutAt(a, '/', e);
      CutMissing(e, '/');
      assert Split(e, '/') == [e];
    } else {
      var i := CutIndex(a, '/');
      assert a == cut.0 + ['/'] + cut.1.value;
      assert a + "/" + e == cut.0 + ['/'] + (cut.1.value + "/" + e);
      CutAt(cut.0, '/', cut.1.value + "/" + e);
      SplitLast(cut.1.value, e);
    }
  }

  lemma {:induction false} CutNoneAvoids(a: string, sep: char)
    requires Cut(a, sep).1.None?
    ensures Avoids(a, sep) && Cut(a, sep).0 == a
  {
    if a != [] {
      CutNoneAvoids(a[1..], sep);
      assert [a[0]] + a[1..] == a;
    }
  }

  /** Where `Cut` found the separator. */
  lemma {:induction false} CutIndex(a: string, sep: char) returns (i: nat)
    requires Cut(a, sep).1.Some?
    ensures i < |a| && a[i] == sep
    ensures Cut(a, sep).0 == a[..i] && Cut(a, sep).1.value == a[i + 1..]
    ensures Avoids(a[..i], sep)
  {
    if a[0] == sep {
      i := 0;
    } else {
      var j := CutIndex(a[1..], sep);
      i := j + 1;
      assert a[..i] == [a[0]] + a[1..][..j];
    }
  }
}
