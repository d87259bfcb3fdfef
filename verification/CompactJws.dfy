/** Compact JWS strings, concretely: base64url without padding (section 5 of RFC 4648) and the
    dot-separated form of section 7.1 of RFC 7515. */
module CompactJws {
  import opened Wrappers
  import opened Protocol

  // === The alphabet ===

  /** A six-bit value. */
  newtype sextet = v: int | 0 <= v < 64

  function Letter(v: sextet): char {
    if v < 26 then 'A' + v as char
    else if v < 52 then 'a' + (v - 26) as char
    else if v < 62 then '0' + (v - 52) as char
    else if v == 62 then '-'
    else '_'
  }

  function Value(c: char): Option<sextet> {
    if 'A' <= c <= 'Z' then Some((c as int - 'A' as int) as sextet)
    else if 'a' <= c <= 'z' then Some((c as int - 'a' as int + 26) as sextet)
    else if '0' <= c <= '9' then Some((c as int - '0' as int + 52) as sextet)
    else if c == '-' then Some(62)
    else if c == '_' then Some(63)
    else None
  }

  lemma LetterValue(v: sextet)
    ensures Value(Letter(v)) == Some(v)
    ensures Letter(v) != '.'
  {
  }

  lemma ValueLetter(c: char)
    ensures Value(c).Some? ==> Letter(Value(c).value) == c
  {
  }

  // === Groups of bits ===

  function Hi6(x: byte): sextet { (x / 4) as sextet }

  function Lo2Hi4(x: byte, y: byte): sextet { ((x % 4) * 16 + y / 16) as sextet }

  function Lo4Hi2(y: byte, z: byte): sextet { ((y % 16) * 4 + z / 64) as sextet }

  function Lo6(z: byte): sextet { (z % 64) as sextet }

  function First(a: sextet, b: sextet): byte { (a as int * 4 + b as int / 16) as byte }

  function Second(b: sextet, c: sextet): byte { ((b as int % 16) * 16 + c as int / 4) as byte }

  function Third(c: sextet, d: sextet): byte { ((c as int % 4) * 64 + d as int) as byte }

  /** Three bytes are four sextets; a tail of one or two bytes is filled up with zero bits. */
  function Grouped(b: Bytes): seq<sextet> {
    if |b| == 0 then []
    else if |b| == 1 then [Hi6(b[0]), Lo2Hi4(b[0], 0)]
    else if |b| == 2 then [Hi6(b[0]), Lo2Hi4(b[0], b[1]), Lo4Hi2(b[1], 0)]
    else [Hi6(b[0]), Lo2Hi4(b[0], b[1]), Lo4Hi2(b[1], b[2]), Lo6(b[2])] + Grouped(b[3..])
  }

  /** Strict: a single left-over sextet is refused, and so are stray bits in the last one. */
  function Ungrouped(v: seq<sextet>): Option<Bytes> {
    if |v| == 0 then Some([])
    else if |v| == 1 then None
    else if |v| == 2 then (if v[1] % 16 == 0 then Some([First(v[0], v[1])]) else None)
    else if |v| == 3 then (if v[2] % 4 == 0 then Some([First(v[0], v[1]), Second(v[1], v[2])]) else None)
    else
      match Ungrouped(v[4..])
      case None => None
      case Some(rest) => Some([First(v[0], v[1]), Second(v[1], v[2]), Third(v[2], v[3])] + rest)
  }

  lemma GroupsInvert(x: byte, y: byte, z: byte)
    ensures First(Hi6(x), Lo2Hi4(x, y)) == x
    ensures Second(Lo2Hi4(x, y), Lo4Hi2(y, z)) == y
    ensures Third(Lo4Hi2(y, z), Lo6(z)) == z
    ensures Lo2Hi4(x, 0) % 16 == 0 && Lo4Hi2(y, 0) % 4 == 0
  {
  }

  lemma SextetsInvert(a: sextet, b: sextet, c: sextet, d: sextet)
    ensures Hi6(First(a, b)) == a
    ensures Lo2Hi4(First(a, b), Second(b, c)) == b
    ensures Lo4Hi2(Second(b, c), Third(c, d)) == c
    ensures Lo6(Third(c, d)) == d
    ensures b % 16 == 0 ==> Lo2Hi4(First(a, b), 0) == b
    ensures c % 4 == 0 ==> Lo4Hi2(Second(b, c), 0) == c
  {
  }

  lemma GroupThree(x: byte, y: byte, z: byte, rest: Bytes)
    ensures Grouped([x, y, z] + rest) == [Hi6(x), Lo2Hi4(x, y), Lo4Hi2(y, z), Lo6(z)] + Grouped(rest)
  {
  }

  lemma UngroupFour(a: sextet, b: sextet, c: sextet, d: sextet, rest: seq<sextet>)
    requires Ungrouped(rest).Some?
    ensures Ungrouped([a, b, c, d] + rest) == Some([First(a, b), Second(b, c), Third(c, d)] + Ungrouped(rest).value)
  {
  }

  lemma {:induction false} UngroupGroup(b: Bytes)
    ensures Ungrouped(Grouped(b)) == Some(b)
  {
    if |b| == 1 {
      UngroupGroupOne(b[0]);
      assert b == [b[0]];
    } else if |b| == 2 {
      UngroupGroupTwo(b[0], b[1]);
      assert b == [b[0], b[1]];
    } else if |b| >= 3 {
      UngroupGroup(b[3..]);
      UngroupGroupThree(b[0], b[1], b[2], b[3..]);
      assert b == [b[0], b[1], b[2]] + b[3..];
    }
  }

  lemma UngroupGroupOne(x: byte)
    ensures Ungrouped(Grouped([x])) == Some([x])
  {
    GroupOne(x);
    UngroupTwo(Hi6(x), Lo2Hi4(x, 0));
    GroupsInvert(x, 0, 0);
  }

  lemma GroupOne(x: byte)
    ensures Grouped([x]) == [Hi6(x), Lo2Hi4(x, 0)]
  {
  }

  lemma UngroupTwo(a: sextet, b: sextet)
    ensures b % 16 == 0 ==> Ungrouped([a, b]) == Some([First(a, b)])
  {
  }

  lemma UngroupGroupTwo(x: byte, y: byte)
    ensures Ungrouped(Grouped([x, y])) == Some([x, y])
  {
    GroupTwo(x, y);
    UngroupThree(Hi6(x), Lo2Hi4(x, y), Lo4Hi2(y, 0));
    GroupsInvert(x, y, 0);
  }

  lemma GroupTwo(x: byte, y: byte)
    ensures Grouped([x, y]) == [Hi6(x), Lo2Hi4(x, y), Lo4Hi2(y, 0)]
  {
  }

  lemma UngroupThree(a: sextet, b: sextet, c: sextet)
    ensures c % 4 == 0 ==> Ungrouped([a, b, c]) == Some([First(a, b), Second(b, c)])
  {
  }

  lemma UngroupGroupThree(x: byte, y: byte, z: byte, rest: Bytes)
    requires Ungrouped(Grouped(rest)) == Some(rest)
    ensures Ungrouped(Grouped([x, y, z] + rest)) == Some([x, y, z] + rest)
  {
    GroupThree(x, y, z, rest);
    UngroupFour(Hi6(x), Lo2Hi4(x, y), Lo4Hi2(y, z), Lo6(z), Grouped(rest));
    GroupsInvert(x, y, z);
  }

  lemma {:induction false} GroupUngroup(v: seq<sextet>)
    requires Ungrouped(v).Some?
    ensures Grouped(Ungrouped(v).value) == v
  {
    if |v| == 2 {
      SextetsInvert(v[0], v[1], 0, 0);
    } else if |v| == 3 {
      SextetsInvert(v[0], v[1], v[2], 0);
    } else if |v| >= 4 {
      SextetsInvert(v[0], v[1], v[2], v[3]);
      GroupUngroup(v[4..]);
      assert Ungrouped(v).value[3..] == Ungrouped(v[4..]).value;
    }
  }

  // === Text ===

  function Encode(b: Bytes): string {
    var v := Grouped(b);
    seq(|v|, i requires 0 <= i < |v| => Letter(v[i]))
  }

  predicate IsBase64Url(s: string) {
    forall i :: 0 <= i < |s| ==> Value(s[i]).Some?
  }

  function Sextets(s: string): seq<sextet>
    requires IsBase64Url(s)
  {
    seq(|s|, i requires 0 <= i < |s| => Value(s[i]).value)
  }

  /** Strict decoding: no padding, no foreign letters, no stray bits. */
  function Decode(s: string): Option<Bytes> {
    if IsBase64Url(s) then Ungrouped(Sextets(s)) else None
  }

  /** Decoding inverts encoding for every byte string, and an encoding never contains a dot. */
  lemma DecodeEncode(b: Bytes)
    ensures Decode(Encode(b)) == Some(b)
    ensures '.' !in Encode(b)
  {
    var v, s := Grouped(b), Encode(b);
    forall i | 0 <= i < |v|
      ensures Value(s[i]) == Some(v[i]) && s[i] != '.'
    {
      LetterValue(v[i]);
    }
    assert Sextets(s) == v;
    UngroupGroup(b);
  }

  /** Encoding inverts decoding: every text that decodes is the one encoding of its bytes. */
  lemma EncodeDecode(s: string)
    requires Decode(s).Some?
    ensures Encode(Decode(s).value) == s
  {
    var v := Sextets(s);
    GroupUngroup(v);
    forall i | 0 <= i < |s|
      ensures Letter(v[i]) == s[i]
    {
      ValueLetter(s[i]);
    }
  }

  /** The test vectors of section 10 of RFC 4648, without padding, and the two letters that set this alphabet
      apart (section 5). */
  lemma KnownTexts()
    ensures Encode([]) == "" && Encode([102]) == "Zg" && Encode([102, 111]) == "Zm8"
            && Encode([102, 111, 111]) == "Zm9v"
    ensures Encode([251, 255]) == "-_8"
    ensures Letter(0) == 'A' && Letter(25) == 'Z' && Letter(26) == 'a' && Letter(51) == 'z' && Letter(52) == '0'
    ensures Letter(61) == '9' && Letter(62) == '-' && Letter(63) == '_'
  {
    assert Grouped([102]) == [25, 32];
    assert Grouped([102, 111]) == [25, 38, 60];
    assert Grouped([102, 111, 111]) == [25, 38, 61, 47] + Grouped([]);
    assert Grouped([251, 255]) == [62, 63, 60];
  }

  // === Dots ===

  /** The segments between dots; there is always at least one. */
  function Split(s: string): (parts: seq<string>)
    ensures |parts| >= 1
    ensures forall p :: p in parts ==> '.' !in p
  {
    if s == "" then [""]
    else if s[0] == '.' then [""] + Split(s[1..])
    else
      var rest := Split(s[1..]);
      [[s[0]] + rest[0]] + rest[1..]
  }

  /** A letter goes to the front of the first segment. */
  lemma SplitAtLetter(s: string)
    requires s != "" && s[0] != '.'
    ensures Split(s) == [[s[0]] + Split(s[1..])[0]] + Split(s[1..])[1..]
  {
  }

  lemma {:induction false} SplitAtDot(a: string, rest: string)
    requires '.' !in a
    ensures Split(a + "." + rest) == [a] + Split(rest)
  {
    var s := a + "." + rest;
    if a == "" {
      assert s[0] == '.' && s[1..] == rest;
    } else {
      SplitAtDot(a[1..], rest);
      SplitAtLetter(s);
      assert s[1..] == a[1..] + "." + rest;
      assert [s[0]] + a[1..] == a;
    }
  }

  lemma {:induction false} SplitNoDot(a: string)
    requires '.' !in a
    ensures Split(a) == [a]
  {
    if a != "" {
      SplitNoDot(a[1..]);
      assert [a[0]] + a[1..] == a;
    }
  }

  // === Tokens ===

  function Compact(header: Bytes, payload: Bytes, signature: Bytes): string {
    Encode(header) + "." + Encode(payload) + "." + Encode(signature)
  }

  /** The payload of a three-part token, signature unread. */
  function JwsDecodeUnverified(jws: string): Option<Bytes> {
    var parts := Split(jws);
    if |parts| != 3 then None else Decode(parts[1])
  }

  /** The key id of the first segment; `kidOf` reads it from the header's JSON. */
  function PeekKid(compact: string, kidOf: Bytes -> Option<string>): Option<string> {
    match Decode(Split(compact)[0])
    case None => None
    case Some(header) => kidOf(header)
  }

  /** The verifying reader: all three parts decode and the signature is good for the first two. */
  function JwsVerify(jws: string, signed: (string, Bytes) -> bool): Option<Bytes> {
    var parts := Split(jws);
    if |parts| != 3 then None
    else
      match (Decode(parts[0]), Decode(parts[1]), Decode(parts[2]))
      case (Some(_), Some(payload), Some(signature)) =>
        if signed(parts[0] + "." + parts[1], signature) then Some(payload) else None
      case _ => None
  }

  lemma CompactSplits(header: Bytes, payload: Bytes, signature: Bytes)
    ensures Split(Compact(header, payload, signature)) == [Encode(header), Encode(payload), Encode(signature)]
  {
    DecodeEncode(header);
    DecodeEncode(payload);
    DecodeEncode(signature);
    SplitTwoDots(Encode(header), Encode(payload), Encode(signature));
  }

  lemma SplitTwoDots(a: string, b: string, c: string)
    requires '.' !in a && '.' !in b && '.' !in c
    ensures Split(a + "." + b + "." + c) == [a, b, c]
  {
    var tail := b + "." + c;
    assert a + "." + b + "." + c == a + "." + tail;
    SplitAtDot(a, tail);
    SplitAtDot(b, c);
    SplitNoDot(c);
  }

  /** Splitting and decoding undo the construction of a token, for all byte strings; so does peeking. */
  lemma CompactRoundTrip(header: Bytes, payload: Bytes, signature: Bytes, kidOf: Bytes -> Option<string>,
                         signed: (string, Bytes) -> bool)
    ensures var jws := Compact(header, payload, signature);
      && JwsDecodeUnverified(jws) == Some(payload)
      && PeekKid(jws, kidOf) == kidOf(header)
      && JwsVerify(jws, signed) ==
           if signed(Encode(header) + "." + Encode(payload), signature) then Some(payload) else None
  {
    CompactSplits(header, payload, signature);
    DecodeEncode(header);
    DecodeEncode(payload);
    DecodeEncode(signature);
  }

  /** The unverified reader reads every text of three segments whose middle one encodes the payload, */
  lemma UnverifiedReads(header: string, payload: Bytes, signature: string)
    requires '.' !in header && '.' !in signature
    ensures JwsDecodeUnverified(header + "." + Encode(payload) + "." + signature) == Some(payload)
  {
    DecodeEncode(payload);
    SplitTwoDots(header, Encode(payload), signature);
  }

  /** and nothing else. */
  lemma UnverifiedReadsOnly(jws: string, payload: Bytes) returns (header: string, signature: string)
    requires JwsDecodeUnverified(jws) == Some(payload)
    ensures '.' !in header && '.' !in signature && jws == header + "." + Encode(payload) + "." + signature
  {
    var parts := Split(jws);
    header, signature := parts[0], parts[2];
    EncodeDecode(parts[1]);
    SplitJoins(jws);
    JoinThree(parts[0], parts[1], parts[2]);
    assert parts == [parts[0], parts[1], parts[2]];
  }

  /** Whatever string verifies, the unverified reader has read the same payload. */
  lemma UnverifiedAgrees(jws: string, signed: (string, Bytes) -> bool)
    requires JwsVerify(jws, signed).Some?
    ensures JwsDecodeUnverified(jws) == JwsVerify(jws, signed)
  {
  }

  function Join(parts: seq<string>): string
    requires |parts| >= 1
  {
    if |parts| == 1 then parts[0] else parts[0] + "." + Join(parts[1..])
  }

  lemma JoinLetter(c: char, parts: seq<string>)
    requires |parts| >= 1
    ensures Join([[c] + parts[0]] + parts[1..]) == [c] + Join(parts)
  {
  }

  lemma JoinEmpty(parts: seq<string>)
    requires |parts| >= 1
    ensures Join([""] + parts) == "." + Join(parts)
  {
    assert ([""] + parts)[1..] == parts;
  }

  /** The segments of any string, joined by dots again, are the string. */
  lemma {:induction false} SplitJoins(s: string)
    ensures Join(Split(s)) == s
  {
    if s != "" {
      SplitJoins(s[1..]);
      assert s == [s[0]] + s[1..];
      if s[0] == '.' {
        JoinEmpty(Split(s[1..]));
      } else {
        SplitAtLetter(s);
        JoinLetter(s[0], Split(s[1..]));
      }
    }
  }

  lemma JoinThree(a: string, b: string, c: string)
    ensures Join([a, b, c]) == a + "." + b + "." + c
  {
    assert [a, b, c][1..] == [b, c] && [b, c][1..] == [c];
    assert Join([b, c]) == b + "." + c;
    assert a + "." + (b + "." + c) == a + "." + b + "." + c;
  }

  /** Every string that verifies is the compact form of exactly one header, payload and signature. */
  lemma VerifiedIsCompact(jws: string, signed: (string, Bytes) -> bool) returns (header: Bytes, signature: Bytes)
    requires JwsVerify(jws, signed).Some?
    ensures jws == Compact(header, JwsVerify(jws, signed).value, signature)
  {
    var parts := Split(jws);
    header, signature := Decode(parts[0]).value, Decode(parts[2]).value;
    EncodeDecode(parts[0]);
    EncodeDecode(parts[1]);
    EncodeDecode(parts[2]);
    SplitJoins(jws);
    JoinThree(parts[0], parts[1], parts[2]);
    assert parts == [parts[0], parts[1], parts[2]];
  }
}
