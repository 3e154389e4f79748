/**
  * The query string of the one request the page sends,
  * `/api/info?url=${encodeURIComponent(url)}&type=${activeTab}`
  * (src/App.jsx:39-41), and the reading of it on the server side.
  *
  * `Encode` is ECMAScript's `encodeURIComponent`: characters outside its
  * unreserved set become the UTF-8 bytes of the character, each written
  * `%XX` with upper-case hexadecimal digits. The decoding half
  * (`ParseQuery`) is the reference this encoding is proved against: split
  * at `&`, split each piece at its first `=`, turn `+` into a space,
  * percent-decode (section 2.1 of RFC 3986) and read the bytes as UTF-8
  * (RFC 3629), the way a form-encoded query string is read.
  */
module QueryString {
  import opened Wrappers

  newtype byte = x: int | 0 <= x < 0x100

  /** The characters `encodeURIComponent` passes through unchanged. */
  predicate Unreserved(c: char) {
    ('A' <= c <= 'Z') || ('a' <= c <= 'z') || ('0' <= c <= '9') ||
    c == '-' || c == '_' || c == '.' || c == '!' || c == '~' || c == '*' || c == '\'' || c == '(' || c == ')'
  }

  /** Every character of `s` is unreserved. */
  predicate AllUnreserved(s: string) {
    forall i :: 0 <= i < |s| ==> Unreserved(s[i])
  }

  // ---------------------------------------------------------------------
  // Encoding
  // ---------------------------------------------------------------------

  /** The UTF-8 encoding of one Unicode scalar value. */
  function Utf8(c: char): (bs: seq<byte>)
    ensures 1 <= |bs| <= 4
    ensures |bs| == 1 <==> c as int < 0x80
    ensures |bs| == 1 ==> bs[0] as int == c as int
  {
    var n := c as int;
    if n < 0x80 then
      [n as byte]
    else if n < 0x800 then
      [(0xC0 + n / 0x40) as byte, (0x80 + n % 0x40) as byte]
    else if n < 0x10000 then
      [(0xE0 + n / 0x1000) as byte, (0x80 + n / 0x40 % 0x40) as byte, (0x80 + n % 0x40) as byte]
    else
      [(0xF0 + n / 0x40000) as byte, (0x80 + n / 0x1000 % 0x40) as byte,
       (0x80 + n / 0x40 % 0x40) as byte, (0x80 + n % 0x40) as byte]
  }

  /** The UTF-8 encoding of a string. */
  function Utf8String(s: string): seq<byte> {
    if s == [] then [] else Utf8(s[0]) + Utf8String(s[1..])
  }

  /** An upper-case hexadecimal digit. */
  function HexDigit(d: int): (c: char)
    requires 0 <= d < 16
    ensures Unreserved(c)
  {
    if d < 10 then ('0' as int + d) as char else ('A' as int + d - 10) as char
  }

  /** One byte written `%XX`. */
  function Escape(b: byte): string {
    ['%', HexDigit(b as int / 16), HexDigit(b as int % 16)]
  }

  function EscapeAll(bs: seq<byte>): (r: string)
    ensures forall i :: 0 <= i < |r| ==> Unreserved(r[i]) || r[i] == '%'
  {
    if bs == [] then [] else Escape(bs[0]) + EscapeAll(bs[1..])
  }

  function EncodeChar(c: char): string {
    if Unreserved(c) then [c] else EscapeAll(Utf8(c))
  }

  /**
    * `encodeURIComponent(s)`. What it produces holds nothing but unreserved
    * characters and `%`, so no `&`, `=`, `+` or `#` of the URL can end the
    * parameter early or be read as a space.
    */
  function Encode(s: string): (r: string)
    ensures forall i :: 0 <= i < |r| ==> Unreserved(r[i]) || r[i] == '%'
    ensures AllUnreserved(s) ==> r == s
  {
    if s == [] then [] else EncodeChar(s[0]) + Encode(s[1..])
  }

  // ---------------------------------------------------------------------
  // Decoding: the reference the encoding is proved against
  // ---------------------------------------------------------------------

  function HexValue(c: char): (r: Option<int>)
    ensures r.Some? ==> 0 <= r.value < 16
  {
    if '0' <= c <= '9' then Some(c as int - '0' as int)
    else if 'A' <= c <= 'F' then Some(c as int - 'A' as int + 10)
    else if 'a' <= c <= 'f' then Some(c as int - 'a' as int + 10)
    else None
  }

  /**
    * Form decoding to bytes: `%XX` is the byte it names, `+` a space, a `%`
    * not followed by two hexadecimal digits stands for itself, and any other
    * character its own UTF-8 bytes.
    */
  function PercentDecode(s: string): seq<byte> {
    if s == [] then []
    else if s[0] == '%' && |s| >= 3 && HexValue(s[1]).Some? && HexValue(s[2]).Some? then
      [(HexValue(s[1]).value * 16 + HexValue(s[2]).value) as byte] + PercentDecode(s[3..])
    else if s[0] == '+' then
      [0x20] + PercentDecode(s[1..])
    else
      Utf8(s[0]) + PercentDecode(s[1..])
  }

  predicate Continuation(b: byte) {
    0x80 <= b < 0xC0
  }

  /** The first character of `bs` and the number of bytes it takes; `None` for a malformed sequence. */
  function DecodeFirst(bs: seq<byte>): (r: Option<(char, nat)>)
    requires bs != []
    ensures r.Some? ==> 1 <= r.value.1 <= |bs|
  {
    var b0 := bs[0] as int;
    if b0 < 0x80 then
      Some((b0 as char, 1))
    else if 0xC0 <= b0 < 0xE0 && |bs| >= 2 && Continuation(bs[1]) then
      var n := (b0 - 0xC0) * 0x40 + (bs[1] as int - 0x80);
      if n < 0x80 then None else Some((n as char, 2))
    else if 0xE0 <= b0 < 0xF0 && |bs| >= 3 && Continuation(bs[1]) && Continuation(bs[2]) then
      var n := (b0 - 0xE0) * 0x1000 + (bs[1] as int - 0x80) * 0x40 + (bs[2] as int - 0x80);
      if n < 0x800 || (0xD800 <= n < 0xE000) then None else Some((n as char, 3))
    else if 0xF0 <= b0 < 0xF8 && |bs| >= 4 && Continuation(bs[1]) && Continuation(bs[2]) && Continuation(bs[3]) then
      var n := (b0 - 0xF0) * 0x40000 + (bs[1] as int - 0x80) * 0x1000 + (bs[2] as int - 0x80) * 0x40 + (bs[3] as int - 0x80);
      if n < 0x10000 || n >= 0x110000 then None else Some((n as char, 4))
    else
      None
  }

  /** Strict UTF-8 decoding. */
  function Utf8Decode(bs: seq<byte>): Option<string>
    decreases |bs|
  {
    if bs == [] then Some([])
    else
      var (c, width) :- DecodeFirst(bs);
      var rest :- Utf8Decode(bs[width..]);
      Some([c] + rest)
  }

  /** One key or value of a form-encoded query string. */
  function FormDecode(s: string): Option<string> {
    Utf8Decode(PercentDecode(s))
  }

  /** `s.split(sep)`: the pieces between the separators, always at least one. */
  function Split(s: string, sep: char): (parts: seq<string>)
    ensures |parts| >= 1
  {
    if s == [] then [[]]
    else
      var rest := Split(s[1..], sep);
      if s[0] == sep then [[]] + rest else [[s[0]] + rest[0]] + rest[1..]
  }

  /** `s.split(sep, 1)`: the text before the first separator and, if there is one, the text after it. */
  function SplitFirst(s: string, sep: char): (string, Option<string>) {
    if s == [] then ([], None)
    else if s[0] == sep then ([], Some(s[1..]))
    else
      var (before, after) := SplitFirst(s[1..], sep);
      ([s[0]] + before, after)
  }

  /** Decodes the `&`-separated pieces of a query string; empty pieces are skipped, a piece without `=` has an empty value. */
  function DecodePairs(pieces: seq<string>): Option<seq<(string, string)>> {
    if pieces == [] then Some([])
    else
      var rest :- DecodePairs(pieces[1..]);
      if pieces[0] == [] then Some(rest)
      else
        var (k, v) := SplitFirst(pieces[0], '=');
        var key :- FormDecode(k);
        var value :- FormDecode(if v.Some? then v.value else []);
        Some([(key, value)] + rest)
  }

  /** The (key, value) pairs of a query string, in order. */
  function ParseQuery(q: string): Option<seq<(string, string)>> {
    DecodePairs(Split(q, '&'))
  }

  /** The arguments as a dictionary whose lookup gives a key's first value. */
  function ArgsOf(pairs: seq<(string, string)>): (m: map<string, string>)
    ensures forall k :: k in m <==> exists i :: 0 <= i < |pairs| && pairs[i].0 == k
    // a repeated key keeps the value of its first pair
    ensures forall i :: 0 <= i < |pairs| && (forall j :: 0 <= j < i ==> pairs[j].0 != pairs[i].0) ==>
      pairs[i].0 in m && m[pairs[i].0] == pairs[i].1
  {
    if pairs == [] then map[]
    else
      var m := ArgsOf(pairs[1..]);
      assert forall i :: 0 < i < |pairs| ==> pairs[i] == pairs[1..][i - 1];
      m[pairs[0].0 := pairs[0].1]
  }

  /** One `key=value` parameter. */
  function Param(key: string, value: string): string {
    key + "=" + value
  }

  /** The query string the page builds for `url` and the tab name `kind`. */
  function InfoQuery(url: string, kind: string): string {
    Param("url", Encode(url)) + "&" + Param("type", kind)
  }

  // ---------------------------------------------------------------------
  // Round trips
  // ---------------------------------------------------------------------

  /** Reading back the UTF-8 bytes of one character gives that character. */
  lemma Utf8First(c: char, rest: seq<byte>)
    ensures Utf8(c) + rest != []
    ensures DecodeFirst(Utf8(c) + rest) == Some((c, |Utf8(c)|))
  {
    var n := c as int;
    if n < 0x80 {
    } else if n < 0x800 {
      Utf8First2(c, rest);
    } else if n < 0x10000 {
      Utf8First3(c, rest);
    } else {
      Utf8First4(c, rest);
    }
  }

  lemma Utf8First2(c: char, rest: seq<byte>)
    requires 0x80 <= c as int < 0x800
    ensures Utf8(c) + rest != []
    ensures DecodeFirst(Utf8(c) + rest) == Some((c, 2))
  {
  }

  lemma Utf8First3(c: char, rest: seq<byte>)
    requires 0x800 <= c as int < 0x10000
    ensures Utf8(c) + rest != []
    ensures DecodeFirst(Utf8(c) + rest) == Some((c, 3))
  {
  }

  lemma Utf8First4(c: char, rest: seq<byte>)
    requires 0x10000 <= c as int
    ensures Utf8(c) + rest != []
    ensures DecodeFirst(Utf8(c) + rest) == Some((c, 4))
  {
    var n := c as int;
    var q1, r1 := n / 0x40, n % 0x40;
    var q2, r2 := q1 / 0x40, q1 % 0x40;
    var q3, r3 := q2 / 0x40, q2 % 0x40;
    assert n == q3 * 0x40000 + r3 * 0x1000 + r2 * 0x40 + r1;
    var bs := Utf8(c) + rest;
    assert bs[0] as int == 0xF0 + q3 && bs[1] as int == 0x80 + r3;
    assert bs[2] as int == 0x80 + r2 && bs[3] as int == 0x80 + r1;
  }

  /** UTF-8 decoding undoes UTF-8 encoding. */
  lemma {:induction false} Utf8RoundTrip(s: string)
    ensures Utf8Decode(Utf8String(s)) == Some(s)
  {
    if s != [] {
      var bs := Utf8String(s);
      Utf8First(s[0], Utf8String(s[1..]));
      assert bs[|Utf8(s[0])|..] == Utf8String(s[1..]);
      Utf8RoundTrip(s[1..]);
      assert [s[0]] + s[1..] == s;
    }
  }

  /** Percent-decoding `%XX` gives back the byte. */
  lemma EscapeDecodes(b: byte, rest: string)
    ensures PercentDecode(Escape(b) + rest) == [b] + PercentDecode(rest)
  {
  }

  lemma {:induction false} EscapeAllDecodes(bs: seq<byte>, rest: string)
    ensures PercentDecode(EscapeAll(bs) + rest) == bs + PercentDecode(rest)
  {
    if bs == [] {
      assert EscapeAll(bs) + rest == rest;
    } else {
      var tail := EscapeAll(bs[1..]) + rest;
      assert EscapeAll(bs) == Escape(bs[0]) + EscapeAll(bs[1..]);
      assert EscapeAll(bs) + rest == Escape(bs[0]) + tail;
      EscapeDecodes(bs[0], tail);
      EscapeAllDecodes(bs[1..], rest);
      assert [bs[0]] + (bs[1..] + PercentDecode(rest)) == bs + PercentDecode(rest);
    }
  }

  /** Percent-decoding `encodeURIComponent(s)` gives the UTF-8 bytes of `s`. */
  lemma {:induction false} EncodeDecodes(s: string)
    ensures PercentDecode(Encode(s)) == Utf8String(s)
  {
    if s != [] {
      var c := s[0];
      if Unreserved(c) {
        var e := Encode(s);
        assert e == [c] + Encode(s[1..]);
        assert e[1..] == Encode(s[1..]);
      } else {
        EscapeAllDecodes(Utf8(c), Encode(s[1..]));
      }
      EncodeDecodes(s[1..]);
    }
  }

  /** Form-decoding `encodeURIComponent(s)` gives back `s` exactly. */
  lemma EncodeRoundTrip(s: string)
    ensures FormDecode(Encode(s)) == Some(s)
  {
    EncodeDecodes(s);
    Utf8RoundTrip(s);
  }

  lemma {:induction false} SplitWithout(s: string, sep: char)
    requires sep !in s
    ensures Split(s, sep) == [s]
  {
    if s != [] {
      assert s[0] != sep;
      assert sep !in s[1..];
      SplitWithout(s[1..], sep);
      assert [s[0]] + s[1..] == s;
    }
  }

  lemma {:induction false} SplitAt(a: string, sep: char, b: string)
    requires sep !in a
    ensures Split(a + [sep] + b, sep) == [a] + Split(b, sep)
  {
    var s := a + [sep] + b;
    if a == [] {
      assert s[0] == sep && s[1..] == b;
    } else {
      assert s[0] == a[0] && s[1..] == a[1..] + [sep] + b;
      assert sep !in a[1..];
      SplitAt(a[1..], sep, b);
      assert [a[0]] + a[1..] == a;
    }
  }

  lemma {:induction false} SplitFirstAt(a: string, sep: char, b: string)
    requires sep !in a
    ensures SplitFirst(a + [sep] + b, sep) == (a, Some(b))
  {
    var s := a + [sep] + b;
    if a == [] {
      assert s[0] == sep && s[1..] == b;
    } else {
      assert s[0] == a[0] && s[1..] == a[1..] + [sep] + b;
      assert sep !in a[1..];
      SplitFirstAt(a[1..], sep, b);
      assert [a[0]] + a[1..] == a;
    }
  }

  /** A `key=value` piece whose key holds no `=` decodes to its decoded key and value. */
  lemma DecodePiece(key: string, value: string, rest: seq<string>)
    requires key != [] && '=' !in key
    requires FormDecode(key).Some? && FormDecode(value).Some? && DecodePairs(rest).Some?
    ensures DecodePairs([Param(key, value)] + rest) ==
      Some([(FormDecode(key).value, FormDecode(value).value)] + DecodePairs(rest).value)
  {
    var pieces := [Param(key, value)] + rest;
    assert pieces[1..] == rest;
    assert Param(key, value) == key + ['='] + value;
    SplitFirstAt(key, '=', value);
  }

  /** A string of unreserved characters decodes to itself. */
  lemma UnreservedDecodes(s: string)
    requires AllUnreserved(s)
    ensures FormDecode(s) == Some(s)
  {
    EncodeRoundTrip(s);
  }

  /** An unreserved string holds no `&` and no `=`. */
  lemma UnreservedHasNoSeparator(s: string)
    requires AllUnreserved(s)
    ensures NoSeparator(s)
  {
    forall i | 0 <= i < |s| ensures s[i] != '&' && s[i] != '=' {}
  }

  /** `encodeURIComponent` output holds no `&` and no `=`. */
  lemma EncodeHasNoSeparator(s: string)
    ensures NoSeparator(Encode(s))
  {
  }

  /** A string without `&` and `=`. */
  predicate NoSeparator(s: string) {
    '&' !in s && '=' !in s
  }

  /** Two `key=value` parameters joined by `&` parse to their two decoded pairs. */
  lemma ParseTwo(k1: string, v1: string, k2: string, v2: string)
    requires k1 != [] && k2 != []
    requires NoSeparator(k1) && NoSeparator(v1) && NoSeparator(k2) && '&' !in v2
    requires FormDecode(k1).Some? && FormDecode(v1).Some? && FormDecode(k2).Some? && FormDecode(v2).Some?
    ensures ParseQuery(Param(k1, v1) + "&" + Param(k2, v2)) ==
      Some([(FormDecode(k1).value, FormDecode(v1).value), (FormDecode(k2).value, FormDecode(v2).value)])
  {
    var first, second := Param(k1, v1), Param(k2, v2);
    assert '&' !in first by {
      assert first == k1 + ['='] + v1;
      forall i | 0 <= i < |first| ensures first[i] != '&' {
        if i < |k1| { assert first[i] == k1[i]; }
        else if i > |k1| { assert first[i] == v1[i - |k1| - 1]; }
      }
    }
    assert '&' !in second by {
      assert second == k2 + ['='] + v2;
      forall i | 0 <= i < |second| ensures second[i] != '&' {
        if i < |k2| { assert second[i] == k2[i]; }
        else if i > |k2| { assert second[i] == v2[i - |k2| - 1]; }
      }
    }
    assert first + "&" + second == first + ['&'] + second;
    SplitAt(first, '&', second);
    SplitWithout(second, '&');
    assert Split(first + "&" + second, '&') == [first] + [second];
    assert DecodePairs([]) == Some([]);
    DecodePiece(k2, v2, []);
    assert [second] + [] == [second];
    var p2 := (FormDecode(k2).value, FormDecode(v2).value);
    assert [p2] + [] == [p2];
    assert DecodePairs([second]) == Some([p2]);
    DecodePiece(k1, v1, [second]);
    var p1 := (FormDecode(k1).value, FormDecode(v1).value);
    assert ParseQuery(first + "&" + second) == DecodePairs([first] + [second]);
    assert [p1] + [p2] == [p1, p2];
  }

  /**
    * Two parameters with unreserved names, the first value encoded and the
    * second unreserved, parse back to their names and values.
    */
  lemma EncodedParamsRoundTrip(k1: string, v1: string, k2: string, v2: string)
    requires k1 != [] && k2 != [] && AllUnreserved(k1) && AllUnreserved(k2) && AllUnreserved(v2)
    ensures ParseQuery(Param(k1, Encode(v1)) + "&" + Param(k2, v2)) == Some([(k1, v1), (k2, v2)])
  {
    UnreservedHasNoSeparator(k1);
    UnreservedHasNoSeparator(k2);
    UnreservedHasNoSeparator(v2);
    EncodeHasNoSeparator(v1);
    UnreservedDecodes(k1);
    UnreservedDecodes(k2);
    UnreservedDecodes(v2);
    EncodeRoundTrip(v1);
    ParseTwo(k1, Encode(v1), k2, v2);
  }

  /**
    * The server reads back from the page's query string exactly two
    * arguments, `url` equal to what the user typed and `type` equal to the
    * tab name, and nothing else (no `resolution`).
    */
  lemma InfoQueryRoundTrip(url: string, kind: string)
    requires kind != [] && AllUnreserved(kind)
    ensures ParseQuery(InfoQuery(url, kind)) == Some([("url", url), ("type", kind)])
  {
    EncodedParamsRoundTrip("url", url, "type", kind);
  }
}
