/** Percent encoding of object keys (`src/mirror/hub.rs`) and its decoder (`src/render.rs`),
    on the UTF-8 bytes of a key. */
module Encoding {
  import opened Keys
  import opened Options

  type Byte = x: int | 0 <= x < 256

  const SLASH: Byte := 47
  const PERCENT: Byte := 37

  /** The unreserved characters of section 2.3 of RFC 3986. */
  predicate Unreserved(b: Byte) {
    || 65 <= b <= 90 || 97 <= b <= 122 || 48 <= b <= 57
    || b == 45 || b == 95 || b == 46 || b == 126
  }

  /** One upper-case hexadecimal digit, as `{:02X}` prints it. */
  function HexDigit(v: int): Byte
    requires 0 <= v < 16
  {
    if v < 10 then 48 + v else 55 + v
  }

  /** Both cases are read back. */
  function HexVal(b: Byte): Option<Byte> {
    if 48 <= b <= 57 then Some(b - 48)
    else if 97 <= b <= 102 then Some(b - 97 + 10)
    else if 65 <= b <= 70 then Some(b - 65 + 10)
    else None
  }

  function EncodeByte(b: Byte): seq<Byte> {
    if Unreserved(b) then [b] else [PERCENT, HexDigit(b / 16), HexDigit(b % 16)]
  }

  /** Specification of `encode_segment`: byte by byte. */
  function Encoded(s: seq<Byte>): seq<Byte> {
    if s == [] then [] else EncodeByte(s[0]) + Encoded(s[1..])
  }

  /** How many bytes the decoder consumes at the front, and the byte they stand for.
      A triplet needs two hexadecimal digits after the percent sign; a percent sign
      without them stands for itself. */
  function DecodeHead(s: seq<Byte>): (r: (Byte, nat))
    requires s != []
    ensures 1 <= r.1 <= |s|
  {
    if s[0] == PERCENT && 2 < |s| && HexVal(s[1]).Some? && HexVal(s[2]).Some? then
      (HexVal(s[1]).value * 16 + HexVal(s[2]).value, 3)
    else (s[0], 1)
  }

  /** Specification of `percent_decode`. */
  function Decoded(s: seq<Byte>): seq<Byte>
    decreases |s|
  {
    if s == [] then [] else
      var (b, n) := DecodeHead(s);
      [b] + Decoded(s[n..])
  }

  lemma {:induction false} EncodedStep(out: seq<Byte>, s: seq<Byte>, i: nat)
    requires i < |s|
    ensures out + Encoded(s[i..]) == (out + EncodeByte(s[i])) + Encoded(s[i + 1..])
  {
    assert s[i..][0] == s[i] && s[i..][1..] == s[i + 1..];
  }

  lemma {:induction false} DecodedStep(out: seq<Byte>, s: seq<Byte>, i: nat)
    requires i < |s|
    ensures var (b, n) := DecodeHead(s[i..]);
            && i + n <= |s|
            && out + Decoded(s[i..]) == (out + [b]) + Decoded(s[i + n..])
  {
    var (b, n) := DecodeHead(s[i..]);
    assert s[i..][n..] == s[i + n..];
  }

  /** A letter, a digit, or one of `-`, `_`, `.` and `~`. */
  predicate Plain(b: Byte) {
    || 'A' as int <= b <= 'Z' as int || 'a' as int <= b <= 'z' as int || '0' as int <= b <= '9' as int
    || b == '-' as int || b == '_' as int || b == '.' as int || b == '~' as int
  }

  /** A digit or one of the letters from `A` to `F`. */
  predicate UpperHex(b: Byte) {
    '0' as int <= b <= '9' as int || 'A' as int <= b <= 'F' as int
  }

  /** Only plain characters, and percent signs with two upper-case hexadecimal digits behind them. */
  predicate UrlSafe(s: seq<Byte>)
    decreases |s|
  {
    || s == []
    || (Plain(s[0]) && UrlSafe(s[1..]))
    || (|s| >= 3 && s[0] == '%' as int && UpperHex(s[1]) && UpperHex(s[2]) && UrlSafe(s[3..]))
  }

  lemma {:induction false} EncodedIsUrlSafe(s: seq<Byte>)
    ensures UrlSafe(Encoded(s))
  {
    if s != [] {
      EncodedIsUrlSafe(s[1..]);
      var head, rest := EncodeByte(s[0]), Encoded(s[1..]);
      assert (head + rest)[|head|..] == rest;
      if |head| == 1 {
        assert Plain(head[0]) && (head + rest)[1..] == rest;
      } else {
        assert (head + rest)[3..] == rest;
      }
    }
  }

  /** What needs no encoding is left as it is. */
  lemma {:induction false} PlainStays(s: seq<Byte>)
    requires forall b <- s :: Plain(b)
    ensures Encoded(s) == s
  {
    if s != [] {
      PlainStays(s[1..]);
      assert Plain(s[0]);
      assert [s[0]] + s[1..] == s;
    }
  }

  /** And the rest is a triplet of its own value: the first digit counts sixteens. */
  lemma {:induction false} OthersAreTriplets(b: Byte)
    requires !Plain(b)
    ensures var t := Encoded([b]);
            && |t| == 3 && t[0] == '%' as int
            && (exists h, l: nat :: h < 16 && l < 16 && b == 16 * h + l && t[1] == "0123456789ABCDEF"[h] as int && t[2] == "0123456789ABCDEF"[l] as int)
  {
    assert Encoded([b]) == EncodeByte(b) + Encoded([b][1..]) && [b][1..] == [];
    var h, l: nat := b / 16, b % 16;
    assert b == 16 * h + l;
    assert HexDigit(h) == "0123456789ABCDEF"[h] as int && HexDigit(l) == "0123456789ABCDEF"[l] as int;
  }

  /** `hub.rs::encode_segment`: pushes into an output buffer. */
  method EncodeSegment(s: seq<Byte>) returns (out: seq<Byte>)
    ensures out == Encoded(s)
    ensures Decoded(out) == s
    ensures SLASH !in out && UrlSafe(out)
    ensures (forall b <- s :: Plain(b)) ==> out == s
  {
    out := [];
    for i := 0 to |s|
      invariant out + Encoded(s[i..]) == Encoded(s)
    {
      EncodedStep(out, s, i);
      if Unreserved(s[i]) {
        out := out + [s[i]];
      } else {
        out := out + [PERCENT, HexDigit(s[i] / 16), HexDigit(s[i] % 16)];
      }
    }
    DecodeUndoesEncode(s);
    EncodedHasNoSlash(s);
    EncodedIsUrlSafe(s);
    if forall b <- s :: Plain(b) {
      PlainStays(s);
    }
  }

  /** `render.rs::percent_decode`, before the lossy UTF-8 step. */
  method PercentDecode(s: seq<Byte>) returns (out: seq<Byte>)
    ensures out == Decoded(s)
    ensures forall raw :: s == Encoded(raw) ==> out == raw
  {
    out := [];
    var i := 0;
    while i < |s|
      invariant 0 <= i <= |s|
      invariant out + Decoded(s[i..]) == Decoded(s)
    {
      var step := 1;
      var b := s[i];
      if s[i] == PERCENT && i + 2 < |s| {
        var h, l := HexVal(s[i + 1]), HexVal(s[i + 2]);
        if h.Some? && l.Some? {
          b := h.value * 16 + l.value;
          step := 3;
        }
      }
      DecodedStep(out, s, i);
      out := out + [b];
      i := i + step;
    }
    forall raw | s == Encoded(raw) ensures out == raw {
      DecodeUndoesEncode(raw);
    }
  }

  /** The value of a hexadecimal digit of either case. */
  predicate IsHex(c: Byte, v: int) {
    || ('0' as int <= c <= '9' as int && v == c - '0' as int)
    || ('A' as int <= c <= 'F' as int && v == c - 'A' as int + 10)
    || ('a' as int <= c <= 'f' as int && v == c - 'a' as int + 10)
  }

  /** Reading from the left, a percent sign with two hexadecimal digits of either case behind it is
      the byte of that value; every other byte, a lone percent sign too, stands for itself. */
  lemma {:induction false} DecodedByParts(a: Byte, b: Byte, c: Byte, rest: seq<Byte>, h: nat, l: nat)
    requires h < 16 && l < 16
    ensures a == '%' as int && IsHex(b, h) && IsHex(c, l) ==> Decoded([a, b, c] + rest) == [16 * h + l] + Decoded(rest)
    ensures a != '%' as int ==> Decoded([a] + rest) == [a] + Decoded(rest)
    ensures a == '%' as int && (|rest| < 2 || (forall v :: !IsHex(rest[0], v)) || (forall v :: !IsHex(rest[1], v)))
            ==> Decoded([a] + rest) == [a] + Decoded(rest)
  {
    var s, u := [a, b, c] + rest, [a] + rest;
    assert s[3..] == rest && u[1..] == rest;
    if a == '%' as int && |rest| >= 2 {
      assert u[1] == rest[0] && u[2] == rest[1];
      if HexVal(rest[0]).Some? {
        assert IsHex(rest[0], HexVal(rest[0]).value);
      }
      if HexVal(rest[1]).Some? {
        assert IsHex(rest[1], HexVal(rest[1]).value);
      }
    }
  }

  lemma {:induction false} DecodeStepsOverOneByte(b: Byte, rest: seq<Byte>)
    ensures Decoded(EncodeByte(b) + rest) == [b] + Decoded(rest)
  {
    var s := EncodeByte(b) + rest;
    assert s[|EncodeByte(b)|..] == rest;
  }

  /** Decoding is a left inverse of encoding, on every byte string. */
  lemma {:induction false} DecodeUndoesEncode(s: seq<Byte>)
    ensures Decoded(Encoded(s)) == s
  {
    if s != [] {
      DecodeStepsOverOneByte(s[0], Encoded(s[1..]));
      DecodeUndoesEncode(s[1..]);
    }
  }

  lemma {:induction false} EncodedHasNoSlash(s: seq<Byte>)
    ensures SLASH !in Encoded(s)
    ensures s != [] ==> Encoded(s) != []
  {
    if s != [] {
      EncodedHasNoSlash(s[1..]);
    }
  }

  function EncodeAll(parts: seq<seq<Byte>>): (out: seq<seq<Byte>>)
    ensures |out| == |parts|
    ensures forall i :: 0 <= i < |parts| ==> out[i] == Encoded(parts[i])
  {
    if parts == [] then [] else [Encoded(parts[0])] + EncodeAll(parts[1..])
  }

  /** `hub.rs::encode_key`: slashes stay, empty segments go, each segment is encoded. */
  function EncodeKey(key: seq<Byte>): seq<Byte> {
    Join(EncodeAll(Segments(key, SLASH)), SLASH)
  }

  function DecodeAll(parts: seq<seq<Byte>>): (out: seq<seq<Byte>>)
    ensures |out| == |parts|
    ensures forall i :: 0 <= i < |parts| ==> out[i] == Decoded(parts[i])
  {
    if parts == [] then [] else [Decoded(parts[0])] + DecodeAll(parts[1..])
  }

  lemma {:induction false} EncodedNames(parts: seq<seq<Byte>>)
    requires Names(parts, SLASH)
    ensures Names(EncodeAll(parts), SLASH)
    ensures DecodeAll(EncodeAll(parts)) == parts
  {
    var out := EncodeAll(parts);
    forall p | p in out ensures p != [] && SLASH !in p {
      var i :| 0 <= i < |out| && out[i] == p;
      assert parts[i] in parts;
      EncodedHasNoSlash(parts[i]);
    }
    forall i | 0 <= i < |parts| ensures DecodeAll(out)[i] == parts[i] {
      DecodeUndoesEncode(parts[i]);
    }
  }

  /** The encoded path splits at its slashes into the encoded segments, and decoding those
      one by one gives back exactly the segments of the key, in order. */
  lemma {:induction false} EncodedKeySplitsBack(key: seq<Byte>)
    ensures DecodeAll(Segments(EncodeKey(key), SLASH)) == Segments(key, SLASH)
  {
    var parts := Segments(key, SLASH);
    SegmentsAreNames(key, SLASH);
    EncodedNames(parts);
    SegmentsJoin(EncodeAll(parts), SLASH);
  }

  /** Two keys share an object URL exactly when they name the same segments; on normalized
      keys (equal to the join of their segments) that is key equality. */
  lemma {:induction false} EncodeKeyInjective(a: seq<Byte>, b: seq<Byte>)
    ensures EncodeKey(a) == EncodeKey(b) <==> Segments(a, SLASH) == Segments(b, SLASH)
    ensures a == Join(Segments(a, SLASH), SLASH) && b == Join(Segments(b, SLASH), SLASH) ==>
              (EncodeKey(a) == EncodeKey(b) <==> a == b)
  {
    EncodedKeySplitsBack(a);
    EncodedKeySplitsBack(b);
  }
}
