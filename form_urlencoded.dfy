/**
 * The `application/x-www-form-urlencoded` serializer of section 5.2 of the
 * WHATWG URL Standard, which `new URLSearchParams(record).toString()`
 * applies to the query parameters of a GET request: each name and value is
 * percent-encoded (ASCII alphanumerics and `*-._` are kept, a space becomes
 * `+`, every other character becomes the `%XX` escapes of its UTF-8 bytes),
 * and the pairs are written `name=value` joined by `&`.
 *
 * The parser below is the partner used to state that nothing is lost: for
 * ASCII names and values, parsing the serialization gives the pairs back.
 */
module FormUrlEncoded {
  import opened Wrappers
  import opened Text

  type Pair = (string, string)

  /** The names of a parameter list, in order. */
  function Names(ps: seq<Pair>): (r: seq<string>)
    ensures |r| == |ps| && forall i :: 0 <= i < |ps| ==> r[i] == ps[i].0
  {
    if ps == [] then [] else [ps[0].0] + Names(ps[1..])
  }

  /** `params[name]`: the value of the first pair with that name, or the empty option. */
  function Lookup(ps: seq<Pair>, name: string): (r: Option<string>)
    ensures r.Some? <==> name in Names(ps)
  {
    if ps == [] then None
    else if ps[0].0 == name then Some(ps[0].1)
    else Lookup(ps[1..], name)
  }

  /** The value a `get` parameter record gives `name`; an absent record (`undefined`) has none. */
  function Param(params: Option<seq<Pair>>, name: string): (r: Option<string>)
    ensures r.Some? ==> params.Some? && name in Names(params.value)
  {
    if params.None? then None else Lookup(params.value, name)
  }

  /** Looking a name up in two lists appended: the first list wins when it has the name. */
  lemma {:induction false} LookupAppend(a: seq<Pair>, b: seq<Pair>, name: string)
    ensures Lookup(a + b, name) == if name in Names(a) then Lookup(a, name) else Lookup(b, name)
  {
    if a != [] {
      assert (a + b)[1..] == a[1..] + b;
      assert Names(a) == [a[0].0] + Names(a[1..]);
      LookupAppend(a[1..], b, name);
    } else {
      assert a + b == b;
    }
  }

  /** The names are pairwise different. */
  predicate Distinct(names: seq<string>) {
    forall i, j :: 0 <= i < j < |names| ==> names[i] != names[j]
  }

  /**
   * The record a hook builds by assigning `names[k]` only when `values[k]`
   * is present, in the order of `names`; JavaScript keeps string keys in
   * insertion order, so this is also the serialization order.
   */
  function Record(names: seq<string>, values: seq<Option<string>>): (r: seq<Pair>)
    requires |names| == |values|
  {
    if names == [] then []
    else Entry(names[0], values[0]) + Record(names[1..], values[1..])
  }

  /** One conditional assignment: the pair when the value is present. */
  function Entry(name: string, value: Option<string>): seq<Pair> {
    if value.Some? then [(name, value.value)] else []
  }

  /** Building the record one name at a time: the first `k` names give the first `k - 1` and one more entry. */
  lemma {:induction false} RecordExtend(names: seq<string>, values: seq<Option<string>>, k: int)
    requires |names| == |values| && 0 < k <= |names|
    ensures Record(names[..k], values[..k]) == Record(names[..k - 1], values[..k - 1]) + Entry(names[k - 1], values[k - 1])
  {
    if k == 1 {
      assert names[..k][1..] == [] && names[..k - 1] == [];
    } else {
      RecordExtend(names[1..], values[1..], k - 1);
      assert names[..k][1..] == names[1..][..k - 1];
      assert values[..k][1..] == values[1..][..k - 1];
      assert names[..k - 1][1..] == names[1..][..k - 2];
      assert values[..k - 1][1..] == values[1..][..k - 2];
    }
  }

  /** One conditional assignment carries a record of the first `k - 1` names to one of the first `k`. */
  lemma RecordStep(names: seq<string>, values: seq<Option<string>>, k: int, before: seq<Pair>, after: seq<Pair>)
    requires |names| == |values| && 0 < k <= |names|
    requires before == Record(names[..k - 1], values[..k - 1])
    requires after == if values[k - 1].Some? then before + [(names[k - 1], values[k - 1].value)] else before
    ensures after == Record(names[..k], values[..k])
  {
    RecordExtend(names, values, k);
  }

  /** A record of three names, one conditional assignment after another. */
  lemma RecordThree(names: seq<string>, values: seq<Option<string>>)
    requires |names| == 3 && |values| == 3
    ensures Record(names, values) == Entry(names[0], values[0]) + Entry(names[1], values[1]) + Entry(names[2], values[2])
  {
    assert names[1..][1..][1..] == [] && values[1..][1..][1..] == [];
    assert Record(names[1..][1..], values[1..][1..]) == Entry(names[2], values[2]);
    assert Record(names[1..], values[1..]) == Entry(names[1], values[1]) + Entry(names[2], values[2]);
  }

  /** A record of four names, one conditional assignment after another. */
  lemma RecordFour(names: seq<string>, values: seq<Option<string>>)
    requires |names| == 4 && |values| == 4
    ensures Record(names, values) ==
      Entry(names[0], values[0]) + Entry(names[1], values[1]) + Entry(names[2], values[2]) + Entry(names[3], values[3])
  {
    RecordExtend(names, values, 4);
    RecordThree(names[..3], values[..3]);
    assert names[..4] == names && values[..4] == values;
  }

  /** A record of five names, one conditional assignment after another. */
  lemma RecordFive(names: seq<string>, values: seq<Option<string>>)
    requires |names| == 5 && |values| == 5
    ensures Record(names, values) ==
      Entry(names[0], values[0]) + Entry(names[1], values[1]) + Entry(names[2], values[2]) + Entry(names[3], values[3])
      + Entry(names[4], values[4])
  {
    RecordExtend(names, values, 5);
    RecordFour(names[..4], values[..4]);
    assert names[..5] == names && values[..5] == values;
  }

  /** `if (value) params[name] = value`: one conditional assignment. */
  method Assign(ps: seq<Pair>, name: string, value: Option<string>) returns (r: seq<Pair>)
    ensures r == ps + Entry(name, value)
  {
    r := ps;
    if value.Some? {
      r := r + [(name, value.value)];
    }
  }

  /** An empty record is passed as `undefined`. */
  function OrUndefined(ps: seq<Pair>): (r: Option<seq<Pair>>)
    ensures r.Some? <==> ps != []
  {
    if ps == [] then None else Some(ps)
  }

  /** Every assigned name has the value it was assigned, and only present values are assigned. */
  lemma {:induction false} RecordLookup(names: seq<string>, values: seq<Option<string>>, k: int)
    requires |names| == |values| && Distinct(names) && 0 <= k < |names|
    ensures Lookup(Record(names, values), names[k]) == values[k]
  {
    var head := Entry(names[0], values[0]);
    var tail := Record(names[1..], values[1..]);
    LookupAppend(head, tail, names[k]);
    if k > 0 {
      assert names[1..][k - 1] == names[k];
      RecordLookup(names[1..], values[1..], k - 1);
    } else if values[0].None? {
      RecordNames(names[1..], values[1..]);
    }
  }

  /** The record is empty exactly when no value is present. */
  lemma {:induction false} RecordEmpty(names: seq<string>, values: seq<Option<string>>)
    requires |names| == |values|
    ensures Record(names, values) == [] <==> forall k :: 0 <= k < |values| ==> values[k].None?
  {
    if names != [] {
      RecordEmpty(names[1..], values[1..]);
      if values[0].None? {
        forall k | 0 <= k < |values| && values[k].Some?
          ensures exists j :: 0 <= j < |values[1..]| && values[1..][j].Some?
        {
          assert values[1..][k - 1] == values[k];
        }
      }
    }
  }

  /** The record holds only the given names. */
  lemma {:induction false} RecordNames(names: seq<string>, values: seq<Option<string>>)
    requires |names| == |values|
    ensures forall i :: 0 <= i < |Record(names, values)| ==> Record(names, values)[i].0 in names
  {
    if names != [] {
      RecordNames(names[1..], values[1..]);
      var r := Record(names, values);
      var tail := Record(names[1..], values[1..]);
      forall i | 0 <= i < |r| ensures r[i].0 in names {
        if values[0].None? || i > 0 {
          var t := if values[0].Some? then i - 1 else i;
          assert r[i] == tail[t];
          assert tail[t].0 in names[1..];
        }
      }
    }
  }

  predicate IsAsciiAlnum(c: char) {
    IsAsciiUpper(c) || IsAsciiLower(c) || IsDigit(c)
  }

  /** Characters the serializer writes as themselves. */
  predicate Unreserved(c: char) {
    IsAsciiAlnum(c) || c == '*' || c == '-' || c == '.' || c == '_'
  }

  predicate IsAscii(s: string) {
    forall i :: 0 <= i < |s| ==> s[i] as int < 0x80
  }

  predicate IsHexDigit(c: char) {
    IsDigit(c) || 'A' <= c <= 'F' || 'a' <= c <= 'f'
  }

  function HexDigit(d: int): (c: char)
    requires 0 <= d < 16
    ensures IsHexDigit(c) && HexValue(c) == d
  {
    if d < 10 then ('0' as int + d) as char else ('A' as int + d - 10) as char
  }

  function HexValue(c: char): (d: int)
    requires IsHexDigit(c)
    ensures 0 <= d < 16
  {
    if IsDigit(c) then c as int - '0' as int
    else if 'A' <= c <= 'F' then c as int - 'A' as int + 10
    else c as int - 'a' as int + 10
  }

  /** The UTF-8 encoding of one Unicode scalar value. */
  function Utf8(c: char): (bytes: seq<int>)
    ensures 1 <= |bytes| <= 4
    ensures forall i :: 0 <= i < |bytes| ==> 0 <= bytes[i] < 256
    ensures c as int < 0x80 ==> bytes == [c as int]
  {
    var n := c as int;
    if n < 0x80 then [n]
    else if n < 0x800 then [0xC0 + n / 0x40, 0x80 + n % 0x40]
    else if n < 0x10000 then [0xE0 + n / 0x1000, 0x80 + (n / 0x40) % 0x40, 0x80 + n % 0x40]
    else [0xF0 + n / 0x40000, 0x80 + (n / 0x1000) % 0x40, 0x80 + (n / 0x40) % 0x40, 0x80 + n % 0x40]
  }

  /** `%XX` with upper-case hexadecimal digits. */
  function PercentByte(b: int): (r: string)
    requires 0 <= b < 256
    ensures |r| == 3 && r[0] == '%' && IsHexDigit(r[1]) && IsHexDigit(r[2])
  {
    ['%', HexDigit(b / 16), HexDigit(b % 16)]
  }

  function PercentBytes(bytes: seq<int>): string
    requires forall i :: 0 <= i < |bytes| ==> 0 <= bytes[i] < 256
  {
    if bytes == [] then "" else PercentByte(bytes[0]) + PercentBytes(bytes[1..])
  }

  /** Characters that can appear in serialized output. */
  predicate OutputChar(c: char) {
    Unreserved(c) || c == '+' || c == '%' || IsHexDigit(c)
  }

  lemma {:induction false} PercentBytesOutput(bytes: seq<int>)
    requires forall i :: 0 <= i < |bytes| ==> 0 <= bytes[i] < 256
    ensures forall i :: 0 <= i < |PercentBytes(bytes)| ==> OutputChar(PercentBytes(bytes)[i])
  {
    if bytes != [] {
      PercentBytesOutput(bytes[1..]);
    }
  }

  function EncodeChar(c: char): string {
    if Unreserved(c) then [c]
    else if c == ' ' then "+"
    else PercentBytes(Utf8(c))
  }

  /** The percent-encoding of one name or value. */
  function Encode(s: string): string {
    if s == [] then "" else EncodeChar(s[0]) + Encode(s[1..])
  }

  /** Text made of unreserved characters is its own encoding. */
  lemma {:induction false} EncodeUnreserved(s: string)
    requires forall i :: 0 <= i < |s| ==> Unreserved(s[i])
    ensures Encode(s) == s
  {
    if s != [] {
      EncodeUnreserved(s[1..]);
      assert [s[0]] + s[1..] == s;
    }
  }

  /** Encoded text uses only unreserved characters, `+`, `%` and hex digits; in particular no `&` or `=`. */
  lemma {:induction false} EncodeOutput(s: string)
    ensures forall i :: 0 <= i < |Encode(s)| ==> OutputChar(Encode(s)[i])
  {
    if s != [] {
      EncodeOutput(s[1..]);
      if !Unreserved(s[0]) && s[0] != ' ' {
        PercentBytesOutput(Utf8(s[0]));
      }
    }
  }

  function SerializePair(p: Pair): string {
    Encode(p.0) + "=" + Encode(p.1)
  }

  /** `URLSearchParams.toString()`: the encoded pairs, in order, joined by `&`. */
  function Serialize(ps: seq<Pair>): string {
    if ps == [] then ""
    else if |ps| == 1 then SerializePair(ps[0])
    else SerializePair(ps[0]) + "&" + Serialize(ps[1..])
  }

  /** A record of one pair whose name needs no escaping. */
  lemma SerializeOne(name: string, value: string)
    requires Encode(name) == name
    ensures Serialize([(name, value)]) == name + "=" + Encode(value)
  {
  }

  /** Decimal numbers need no escaping. */
  lemma EncodeNumber(n: int)
    ensures Encode(IntToString(n)) == IntToString(n)
  {
    EncodeUnreserved(IntToString(n));
  }

  lemma SerializeTwo(p: Pair, q: Pair)
    ensures Serialize([p, q]) == SerializePair(p) + "&" + SerializePair(q)
  {
    assert [p, q][1..] == [q];
  }

  /** A record of two pairs whose names, and the second value, need no escaping. */
  lemma SerializeTwoPlain(n1: string, v1: string, n2: string, v2: string)
    requires Encode(n1) == n1 && Encode(n2) == n2 && Encode(v2) == v2
    ensures Serialize([(n1, v1), (n2, v2)]) == n1 + "=" + Encode(v1) + "&" + (n2 + "=" + v2)
  {
    SerializeTwo((n1, v1), (n2, v2));
  }

  /** A pair whose name and value need no escaping is written as it is. */
  lemma SerializePlainPair(name: string, value: string)
    requires forall i :: 0 <= i < |name| ==> Unreserved(name[i])
    requires forall i :: 0 <= i < |value| ==> Unreserved(value[i])
    ensures SerializePair((name, value)) == name + "=" + value
  {
    EncodeUnreserved(name);
    EncodeUnreserved(value);
  }

  // ---- The parser (the partner of Serialize) ----

  /** `s.split(sep)`: the pieces between separators, always at least one. */
  function Split(s: string, sep: char): (r: seq<string>)
    ensures |r| >= 1
    decreases |s|
  {
    if s == [] then [""]
    else
      var rest := Split(s[1..], sep);
      if s[0] == sep then [""] + rest else [[s[0]] + rest[0]] + rest[1..]
  }

  /** The text before the first `c` and the text after it (all of `s` and `""` when there is none). */
  function SplitFirst(s: string, c: char): (string, string)
    decreases |s|
  {
    if s == [] then ("", "")
    else if s[0] == c then ("", s[1..])
    else
      var (a, b) := SplitFirst(s[1..], c);
      ([s[0]] + a, b)
  }

  /** Percent-decoding of ASCII escapes; `+` reads as a space. */
  function Decode(s: string): string
    decreases |s|
  {
    if s == [] then ""
    else if s[0] == '+' then " " + Decode(s[1..])
    else if s[0] == '%' && |s| >= 3 && IsHexDigit(s[1]) && IsHexDigit(s[2]) then
      [(HexValue(s[1]) * 16 + HexValue(s[2])) as char] + Decode(s[3..])
    else [s[0]] + Decode(s[1..])
  }

  function ParsePieces(pieces: seq<string>): seq<Pair> {
    if pieces == [] then []
    else if pieces[0] == "" then ParsePieces(pieces[1..])
    else
      var (name, value) := SplitFirst(pieces[0], '=');
      [(Decode(name), Decode(value))] + ParsePieces(pieces[1..])
  }

  /** Parsing an `application/x-www-form-urlencoded` string into its pairs. */
  function Parse(query: string): seq<Pair> {
    ParsePieces(Split(query, '&'))
  }

  // ---- Round trip ----

  lemma DecodeAfter(prefix: string, rest: string, c: char)
    requires prefix == [c] && c != '+' && c != '%'
    ensures Decode(prefix + rest) == [c] + Decode(rest)
  {
    assert (prefix + rest)[1..] == rest;
  }

  lemma HexRoundTrip(b: int)
    requires 0 <= b < 256
    ensures HexValue(HexDigit(b / 16)) * 16 + HexValue(HexDigit(b % 16)) == b
  {
  }

  lemma DecodeEncodeChar(c: char, rest: string)
    requires c as int < 0x80
    ensures Decode(EncodeChar(c) + rest) == [c] + Decode(rest)
  {
    if Unreserved(c) {
      DecodeAfter([c], rest, c);
    } else if c == ' ' {
      assert ("+" + rest)[1..] == rest;
    } else {
      var e := PercentByte(c as int);
      assert PercentBytes(Utf8(c)) == e + "";
      assert EncodeChar(c) == e;
      var s := e + rest;
      assert s[3..] == rest;
      HexRoundTrip(c as int);
    }
  }

  /** Decoding undoes encoding for ASCII text. */
  lemma {:induction false} DecodeEncode(s: string)
    requires IsAscii(s)
    ensures Decode(Encode(s)) == s
  {
    if s != [] {
      DecodeEncodeChar(s[0], Encode(s[1..]));
      DecodeEncode(s[1..]);
      assert Encode(s) == EncodeChar(s[0]) + Encode(s[1..]);
    }
  }

  predicate Lacks(s: string, c: char) {
    forall i :: 0 <= i < |s| ==> s[i] != c
  }

  lemma {:induction false} SplitFirstAt(a: string, b: string, c: char)
    requires Lacks(a, c)
    ensures SplitFirst(a + [c] + b, c) == (a, b)
  {
    if a == [] {
      assert ([c] + b)[1..] == b;
    } else {
      assert Lacks(a[1..], c);
      SplitFirstAt(a[1..], b, c);
      assert (a + [c] + b)[0] == a[0] != c;
      assert (a + [c] + b)[1..] == a[1..] + [c] + b;
      assert [a[0]] + a[1..] == a;
    }
  }

  lemma {:induction false} SplitPiece(p: string, rest: string, sep: char)
    requires Lacks(p, sep)
    ensures Split(p + rest, sep) == [p + Split(rest, sep)[0]] + Split(rest, sep)[1..]
  {
    if p != [] {
      assert Lacks(p[1..], sep);
      SplitPiece(p[1..], rest, sep);
      assert (p + rest)[0] == p[0] != sep;
      assert (p + rest)[1..] == p[1..] + rest;
      assert [p[0]] + (p[1..] + Split(rest, sep)[0]) == p + Split(rest, sep)[0];
    } else {
      assert p + rest == rest;
      assert p + Split(rest, sep)[0] == Split(rest, sep)[0];
      assert [Split(rest, sep)[0]] + Split(rest, sep)[1..] == Split(rest, sep);
    }
  }

  lemma SplitSeparated(p: string, rest: string, sep: char)
    requires Lacks(p, sep)
    ensures Split(p + [sep] + rest, sep) == [p] + Split(rest, sep)
  {
    SplitPiece(p, [sep] + rest, sep);
    assert p + [sep] + rest == p + ([sep] + rest);
    assert ([sep] + rest)[1..] == rest;
    assert Split([sep] + rest, sep) == [""] + Split(rest, sep);
    assert p + "" == p;
  }

  lemma SplitWhole(p: string, sep: char)
    requires Lacks(p, sep)
    ensures Split(p, sep) == [p]
  {
    SplitPiece(p, "", sep);
    assert p + "" == p;
  }

  lemma EncodeLacks(s: string, c: char)
    requires !OutputChar(c)
    ensures Lacks(Encode(s), c)
  {
    EncodeOutput(s);
  }

  lemma SerializePairShape(p: Pair)
    ensures Lacks(SerializePair(p), '&') && SerializePair(p) != ""
  {
    EncodeLacks(p.0, '&');
    EncodeLacks(p.1, '&');
    assert SerializePair(p)[|Encode(p.0)|] == '=';
  }

  /** Serialized pairs come apart at the `&` separators exactly where they were joined. */
  lemma {:induction false} SplitSerialize(ps: seq<Pair>)
    requires ps != []
    ensures var pieces := Split(Serialize(ps), '&');
      |pieces| == |ps| && forall i :: 0 <= i < |ps| ==> pieces[i] == SerializePair(ps[i])
  {
    SerializePairShape(ps[0]);
    if |ps| == 1 {
      SplitWhole(SerializePair(ps[0]), '&');
    } else {
      SplitSerialize(ps[1..]);
      SplitSeparated(SerializePair(ps[0]), Serialize(ps[1..]), '&');
      assert Serialize(ps) == SerializePair(ps[0]) + ['&'] + Serialize(ps[1..]);
    }
  }

  lemma {:induction false} ParseSerializedPieces(pieces: seq<string>, ps: seq<Pair>)
    requires |pieces| == |ps|
    requires forall i :: 0 <= i < |ps| ==> pieces[i] == SerializePair(ps[i])
    requires forall i :: 0 <= i < |ps| ==> IsAscii(ps[i].0) && IsAscii(ps[i].1)
    ensures ParsePieces(pieces) == ps
  {
    if ps != [] {
      var p := ps[0];
      SerializePairShape(p);
      EncodeLacks(p.0, '=');
      SplitFirstAt(Encode(p.0), Encode(p.1), '=');
      DecodeEncode(p.0);
      DecodeEncode(p.1);
      ParseSerializedPieces(pieces[1..], ps[1..]);
    }
  }

  /** The query string determines the parameters: parsing it gives back every ASCII pair, in order. */
  lemma ParseSerialize(ps: seq<Pair>)
    requires forall i :: 0 <= i < |ps| ==> IsAscii(ps[i].0) && IsAscii(ps[i].1)
    ensures Parse(Serialize(ps)) == ps
  {
    if ps != [] {
      SplitSerialize(ps);
      ParseSerializedPieces(Split(Serialize(ps), '&'), ps);
    }
  }
}
