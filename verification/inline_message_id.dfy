/** Decoding the `inline_message_id` the Bot API hands out: unpadded
    base64url (section 5 of RFC 4648) over a fixed little-endian record.
    The decoder is Python's `base64.urlsafe_b64decode`, whose non-strict
    `binascii.a2b_base64` skips characters outside the alphabet and stops at
    the padding that completes a quantum. */
module InlineMessageId {
  import opened Wrappers

  type byte = x: int | 0 <= x < 256

  // ---------------------------------------------------------------------
  // The alphabet

  /** The 6-bit value of a character after `urlsafe_b64decode` has mapped
      '-' to '+' and '_' to '/'; None for characters the decoder skips. */
  function Sextet(c: char): (r: Option<nat>)
    ensures r.Some? ==> r.value < 64
    ensures c == '=' ==> r.None?
  {
    if 'A' <= c <= 'Z' then Some(c as int - 'A' as int)
    else if 'a' <= c <= 'z' then Some(c as int - 'a' as int + 26)
    else if '0' <= c <= '9' then Some(c as int - '0' as int + 52)
    else if c == '-' || c == '+' then Some(62)
    else if c == '_' || c == '/' then Some(63)
    else None
  }

  /** The base64url character for a 6-bit value. */
  function EncodeChar(v: nat): (c: char)
    requires v < 64
    ensures Sextet(c) == Some(v)
    ensures c as int < 128
  {
    if v < 26 then ('A' as int + v) as char
    else if v < 52 then ('a' as int + (v - 26)) as char
    else if v < 62 then ('0' as int + (v - 52)) as char
    else if v == 62 then '-'
    else '_'
  }

  predicate IsAscii(s: string) {
    forall i :: 0 <= i < |s| ==> s[i] as int < 128
  }

  // ---------------------------------------------------------------------
  // Decoding

  function PrependBytes(bs: seq<byte>, r: Result<seq<byte>>): Result<seq<byte>> {
    if r.Ok? then Ok(bs + r.value) else r
  }

  /** `binascii.a2b_base64(s, strict_mode=False)` from the state it keeps:
      the position in the current quantum, the bits left over from the
      previous character and the number of pad characters seen since the
      last data character. */
  function A2B(s: string, quad: nat, left: nat, pads: nat): Result<seq<byte>>
    requires quad < 4 && left < 64
    decreases |s|
  {
    if s == [] then
      if quad == 0 then Ok([])
      else if quad == 1 then Err(Base64Error("number of data characters cannot be 1 more than a multiple of 4"))
      else Err(Base64Error("Incorrect padding"))
    else if s[0] == '=' then
      if quad >= 2 && quad + pads + 1 >= 4 then Ok([])
      else A2B(s[1..], quad, left, if quad >= 2 then pads + 1 else pads)
    else match Sextet(s[0])
      case None => A2B(s[1..], quad, left, pads)
      case Some(c) =>
        if quad == 0 then A2B(s[1..], 1, c, 0)
        else if quad == 1 then PrependBytes([left * 4 + c / 16], A2B(s[1..], 2, c % 16, 0))
        else if quad == 2 then PrependBytes([(left % 16) * 16 + c / 4], A2B(s[1..], 3, c % 4, 0))
        else PrependBytes([(left % 4) * 64 + c], A2B(s[1..], 0, 0, 0))
  }

  /** `base64.urlsafe_b64decode`: a str must be ASCII. */
  function UrlsafeB64Decode(s: string): Result<seq<byte>> {
    if !IsAscii(s) then Err(ValueError("string argument should contain only ASCII characters"))
    else A2B(s, 0, 0, 0)
  }

  function Pads(k: nat): (r: string)
    ensures |r| == k && forall i :: 0 <= i < k ==> r[i] == '='
  {
    seq(k, _ => '=')
  }

  /** `decode_telegram_base64`: appends len(s) % 4 pad characters, which is
      not the usual (4 - len(s) % 4) % 4. */
  function DecodeTelegramBase64(s: string): Result<seq<byte>> {
    UrlsafeB64Decode(s + Pads(|s| % 4))
  }

  // ---------------------------------------------------------------------
  // Encoding (the partner of the decoder)

  /** Three bytes as four characters. */
  function EncodeGroup(x: byte, y: byte, z: byte): (r: string)
    ensures |r| == 4 && IsAscii(r)
  {
    [EncodeChar(x / 4), EncodeChar((x % 4) * 16 + y / 16), EncodeChar((y % 16) * 4 + z / 64), EncodeChar(z % 64)]
  }

  /** Unpadded base64url, as the Bot API writes inline message ids. */
  function Encode(b: seq<byte>): (r: string)
    ensures IsAscii(r)
    decreases |b|
  {
    if |b| >= 3 then EncodeGroup(b[0], b[1], b[2]) + Encode(b[3..])
    else if |b| == 2 then [EncodeChar(b[0] / 4), EncodeChar((b[0] % 4) * 16 + b[1] / 16), EncodeChar((b[1] % 16) * 4)]
    else if |b| == 1 then [EncodeChar(b[0] / 4), EncodeChar((b[0] % 4) * 16)]
    else ""
  }

  /** The fewest pad characters after which an encoding of `n` bytes decodes. */
  function MinPads(n: nat): nat {
    if n % 3 == 0 then 0 else if n % 3 == 1 then 2 else 1
  }

  lemma {:induction false} EncodeLength(b: seq<byte>)
    ensures |Encode(b)| % 4 == (if |b| % 3 == 0 then 0 else if |b| % 3 == 1 then 2 else 3)
    decreases |b|
  {
    if |b| >= 3 {
      EncodeLength(b[3..]);
      ShiftMod(|Encode(b[3..])|, |b[3..]|);
    }
  }

  lemma ShiftMod(n: nat, m: nat)
    ensures (n + 4) % 4 == n % 4 && (m + 3) % 3 == m % 3
  {
  }

  /** One data character moves the decoder one position in the quantum. */
  lemma StepData(ch: char, rest: string, quad: nat, left: nat, pads: nat)
    requires quad < 4 && left < 64 && Sextet(ch).Some?
    ensures var c := Sextet(ch).value;
      A2B([ch] + rest, quad, left, pads) ==
        if quad == 0 then A2B(rest, 1, c, 0)
        else if quad == 1 then PrependBytes([left * 4 + c / 16], A2B(rest, 2, c % 16, 0))
        else if quad == 2 then PrependBytes([(left % 16) * 16 + c / 4], A2B(rest, 3, c % 4, 0))
        else PrependBytes([(left % 4) * 64 + c], A2B(rest, 0, 0, 0))
  {
    assert ([ch] + rest)[1..] == rest;
  }

  lemma StepPad(rest: string, quad: nat, left: nat, pads: nat)
    requires quad < 4 && left < 64
    ensures A2B(['='] + rest, quad, left, pads) ==
      if quad >= 2 && quad + pads + 1 >= 4 then Ok([])
      else A2B(rest, quad, left, if quad >= 2 then pads + 1 else pads)
  {
    assert (['='] + rest)[1..] == rest;
  }

  lemma PadsUnfold(k: nat)
    requires k > 0
    ensures Pads(k) == ['='] + Pads(k - 1)
  {
  }

  lemma GroupArithmetic(x: byte, y: byte, z: byte)
    ensures (x / 4) * 4 + ((x % 4) * 16 + y / 16) / 16 == x
    ensures ((x % 4) * 16 + y / 16) % 16 == y / 16
    ensures (y / 16 % 16) * 16 + ((y % 16) * 4 + z / 64) / 4 == y
    ensures ((y % 16) * 4 + z / 64) % 4 == z / 64
    ensures (z / 64 % 4) * 64 + z % 64 == z
  {
  }

  /** The first two characters of a group yield its first byte and leave
      the high nibble of the second. */
  lemma DecodeGroupHead(x: byte, y: byte, s: string)
    ensures A2B([EncodeChar(x / 4)] + ([EncodeChar((x % 4) * 16 + y / 16)] + s), 0, 0, 0)
            == PrependBytes([x], A2B(s, 2, y / 16, 0))
  {
    var c0, c1 := x / 4, (x % 4) * 16 + y / 16;
    var e0, e1 := EncodeChar(c0), EncodeChar(c1);
    GroupArithmetic(x, y, 0);
    StepData(e1, s, 1, c0, 0);
    StepData(e0, [e1] + s, 0, 0, 0);
  }

  /** The last two characters of a group yield its second and third bytes. */
  lemma DecodeGroupTail(y: byte, z: byte, rest: string)
    ensures A2B([EncodeChar((y % 16) * 4 + z / 64)] + ([EncodeChar(z % 64)] + rest), 2, y / 16, 0)
            == PrependBytes([y], PrependBytes([z], A2B(rest, 0, 0, 0)))
  {
    var c2, c3 := (y % 16) * 4 + z / 64, z % 64;
    var e2, e3 := EncodeChar(c2), EncodeChar(c3);
    GroupArithmetic(0, y, z);
    StepData(e3, rest, 3, z / 64, 0);
    StepData(e2, [e3] + rest, 2, y / 16, 0);
  }

  lemma DecodeGroup(x: byte, y: byte, z: byte, rest: string)
    ensures A2B(EncodeGroup(x, y, z) + rest, 0, 0, 0) == PrependBytes([x, y, z], A2B(rest, 0, 0, 0))
  {
    var e0, e1 := EncodeChar(x / 4), EncodeChar((x % 4) * 16 + y / 16);
    var e2, e3 := EncodeChar((y % 16) * 4 + z / 64), EncodeChar(z % 64);
    var s2 := [e2] + ([e3] + rest);
    assert EncodeGroup(x, y, z) + rest == [e0] + ([e1] + s2);
    DecodeGroupHead(x, y, s2);
    DecodeGroupTail(y, z, rest);
    var r := A2B(rest, 0, 0, 0);
    if r.Ok? {
      assert [x] + ([y] + ([z] + r.value)) == [x, y, z] + r.value;
    }
  }

  lemma {:induction false} PadsAtQuantumStart(k: nat)
    ensures A2B(Pads(k), 0, 0, 0) == Ok([])
  {
    if k > 0 {
      PadsUnfold(k);
      StepPad(Pads(k - 1), 0, 0, 0);
      PadsAtQuantumStart(k - 1);
    }
  }

  lemma DecodeOneByteTail(x: byte, k: nat)
    requires k >= 2
    ensures A2B([EncodeChar(x / 4), EncodeChar((x % 4) * 16)] + Pads(k), 0, 0, 0) == Ok([x])
  {
    var e0, e1 := EncodeChar(x / 4), EncodeChar((x % 4) * 16);
    PadsUnfold(k);
    PadsUnfold(k - 1);
    var p2 := ['='] + Pads(k - 2);
    var p1 := ['='] + p2;
    assert [e0, e1] + Pads(k) == [e0] + ([e1] + p1);
    StepPad(Pads(k - 2), 2, 0, 1);
    assert A2B(p2, 2, 0, 1) == Ok([]);
    StepPad(p2, 2, 0, 0);
    assert A2B(p1, 2, 0, 0) == Ok([]);
    assert ((x % 4) * 16) % 16 == 0 && (x / 4) * 4 + ((x % 4) * 16) / 16 == x;
    StepData(e1, p1, 1, x / 4, 0);
    assert A2B([e1] + p1, 1, x / 4, 0) == PrependBytes([x], Ok([]));
    StepData(e0, [e1] + p1, 0, 0, 0);
    assert [x] + [] == [x];
  }

  lemma DecodeTwoByteTail(x: byte, y: byte, k: nat)
    requires k >= 1
    ensures A2B([EncodeChar(x / 4), EncodeChar((x % 4) * 16 + y / 16), EncodeChar((y % 16) * 4)] + Pads(k), 0, 0, 0) == Ok([x, y])
  {
    var c1 := (x % 4) * 16 + y / 16;
    var e0, e1, e2 := EncodeChar(x / 4), EncodeChar(c1), EncodeChar((y % 16) * 4);
    GroupArithmetic(x, y, 0);
    PadsUnfold(k);
    var p1 := ['='] + Pads(k - 1);
    assert [e0, e1, e2] + Pads(k) == [e0] + ([e1] + ([e2] + p1));
    StepPad(Pads(k - 1), 3, 0, 0);
    assert A2B(p1, 3, 0, 0) == Ok([]);
    assert ((y % 16) * 4) % 4 == 0 && (y / 16) * 16 + ((y % 16) * 4) / 4 == y;
    assert [y] + [] == [y] && [x] + [y] == [x, y];
    StepData(e2, p1, 2, y / 16, 0);
    assert A2B([e2] + p1, 2, y / 16, 0) == PrependBytes([y], Ok([]));
    StepData(e1, [e2] + p1, 1, x / 4, 0);
    assert A2B([e1] + ([e2] + p1), 1, x / 4, 0) == PrependBytes([x], Ok([y]));
    StepData(e0, [e1] + ([e2] + p1), 0, 0, 0);
    assert [y] + [] == [y] && [x] + [y] == [x, y];
  }

  /** Round trip: the unpadded encoding followed by any sufficient number
      of pad characters decodes to the bytes encoded. */
  lemma {:induction false} DecodeEncoded(b: seq<byte>, k: nat)
    requires k >= MinPads(|b|)
    ensures A2B(Encode(b) + Pads(k), 0, 0, 0) == Ok(b)
    decreases |b|
  {
    if |b| >= 3 {
      ShiftMod(0, |b[3..]|);
      DecodeEncoded(b[3..], k);
      DecodeLeadingGroup(b, k);
    } else {
      DecodeShort(b, k);
    }
  }

  /** A leading group decodes in front of whatever the rest decodes to. */
  lemma DecodeLeadingGroup(b: seq<byte>, k: nat)
    requires |b| >= 3 && A2B(Encode(b[3..]) + Pads(k), 0, 0, 0) == Ok(b[3..])
    ensures A2B(Encode(b) + Pads(k), 0, 0, 0) == Ok(b)
  {
    var x, y, z, tail := b[0], b[1], b[2], b[3..];
    var rest := Encode(tail) + Pads(k);
    assert Encode(b) == EncodeGroup(x, y, z) + Encode(tail);
    ConcatAssoc(EncodeGroup(x, y, z), Encode(tail), Pads(k));
    DecodeGroup(x, y, z, rest);
    SplitGroup(b);
  }

  lemma SplitGroup(b: seq<byte>)
    requires |b| >= 3
    ensures [b[0], b[1], b[2]] + b[3..] == b
  {
  }

  lemma ConcatAssoc(a: string, b: string, c: string)
    ensures (a + b) + c == a + (b + c)
  {
  }

  /** Fewer than three bytes decode after enough pads. */
  lemma DecodeShort(b: seq<byte>, k: nat)
    requires |b| < 3 && k >= MinPads(|b|)
    ensures A2B(Encode(b) + Pads(k), 0, 0, 0) == Ok(b)
  {
    if |b| == 2 {
      DecodeTwoBytes(b, k);
    } else if |b| == 1 {
      DecodeOneByte(b, k);
    } else {
      assert Encode(b) + Pads(k) == Pads(k);
      PadsAtQuantumStart(k);
    }
  }

  lemma DecodeTwoBytes(b: seq<byte>, k: nat)
    requires |b| == 2 && k >= 1
    ensures A2B(Encode(b) + Pads(k), 0, 0, 0) == Ok(b)
  {
    var x, y := b[0], b[1];
    var e := [EncodeChar(x / 4), EncodeChar((x % 4) * 16 + y / 16), EncodeChar((y % 16) * 4)];
    assert Encode(b) == e;
    DecodeTwoByteTail(x, y, k);
    assert [x, y] == b;
  }

  lemma DecodeOneByte(b: seq<byte>, k: nat)
    requires |b| == 1 && k >= 2
    ensures A2B(Encode(b) + Pads(k), 0, 0, 0) == Ok(b)
  {
    var x := b[0];
    assert Encode(b) == [EncodeChar(x / 4), EncodeChar((x % 4) * 16)];
    DecodeOneByteTail(x, k);
    assert [x] == b;
  }



  /** Both pad counts are at least the fewest the decoder needs. */
  lemma PadsSuffice(byteCount: nat, charCount: nat)
    requires charCount % 4 == (if byteCount % 3 == 0 then 0 else if byteCount % 3 == 1 then 2 else 3)
    ensures charCount % 4 >= MinPads(byteCount)
    ensures (4 - charCount % 4) % 4 >= MinPads(byteCount)
  {
  }

  /** `decode_telegram_base64` inverts the unpadded encoding, and so does
      decoding with the standard padding: the two pad counts differ only
      where the extra pads are ignored. */
  lemma TelegramDecodeRoundTrip(b: seq<byte>)
    ensures DecodeTelegramBase64(Encode(b)) == Ok(b)
    ensures var e := Encode(b); UrlsafeB64Decode(e + Pads((4 - |e| % 4) % 4)) == Ok(b)
  {
    var e := Encode(b);
    EncodeLength(b);
    PadsSuffice(|b|, |e|);
    DecodeEncoded(b, |e| % 4);
    DecodeEncoded(b, (4 - |e| % 4) % 4);
    assert IsAscii(e + Pads(|e| % 4));
    assert IsAscii(e + Pads((4 - |e| % 4) % 4));
  }

  /** A single data character left over is an error, whatever the padding. */
  lemma {:induction false} LoneCharacterFails(c: char, k: nat)
    requires Sextet(c).Some?
    ensures A2B([c] + Pads(k), 0, 0, 0).Err?
  {
    StepData(c, Pads(k), 0, 0, 0);
    LoneCharacterPads(Sextet(c).value, k);
  }

  lemma {:induction false} LoneCharacterPads(left: nat, k: nat)
    requires left < 64
    ensures A2B(Pads(k), 1, left, 0).Err?
  {
    if k > 0 {
      PadsUnfold(k);
      StepPad(Pads(k - 1), 1, left, 0);
      LoneCharacterPads(left, k - 1);
    }
  }

  // ---------------------------------------------------------------------
  // Little-endian fields

  function Pow256(n: nat): (r: nat)
    ensures r > 0
  {
    if n == 0 then 1 else 256 * Pow256(n - 1)
  }

  /** Little-endian unsigned value of `bs`. */
  function Unsigned(bs: seq<byte>): (r: nat)
    ensures r < Pow256(|bs|)
  {
    if bs == [] then 0 else bs[0] + 256 * Unsigned(bs[1..])
  }

  /** Half the range of `n` bytes: the bound of the signed values. */
  function Half(n: nat): int {
    Pow256(n) / 2
  }

  /** Two's-complement value of the `n` bytes at `off` (struct's 'i' for 4,
      'q' for 8). */
  function Signed(bs: seq<byte>, off: nat, n: nat): (r: int)
    requires 0 < n && off + n <= |bs|
    ensures -Half(n) <= r < Half(n)
  {
    var u := Unsigned(bs[off..off + n]);
    assert Pow256(n) == 256 * Pow256(n - 1);
    if u < Pow256(n) / 2 then u else u - Pow256(n)
  }

  /** The `n` little-endian bytes of `u mod 256^n`. */
  function PackUnsigned(u: nat, n: nat): (r: seq<byte>)
    ensures |r| == n
  {
    if n == 0 then [] else [u % 256] + PackUnsigned(u / 256, n - 1)
  }

  /** `struct.pack('<i' or '<q', v)`, defined where struct accepts `v`. */
  function Pack(v: int, n: nat): (r: seq<byte>)
    requires -Half(n) <= v < Half(n)
    ensures |r| == n
  {
    PackUnsigned(if v < 0 then v + Pow256(n) else v, n)
  }

  lemma {:induction false} UnsignedPack(u: nat, n: nat)
    requires u < Pow256(n)
    ensures Unsigned(PackUnsigned(u, n)) == u
  {
    if n > 0 {
      assert u / 256 < Pow256(n - 1);
      UnsignedPack(u / 256, n - 1);
      assert PackUnsigned(u, n)[1..] == PackUnsigned(u / 256, n - 1);
    }
  }

  /** Packing an in-range value and unpacking it gives the value back. */
  lemma PackSigned(v: int, n: nat, pre: seq<byte>, post: seq<byte>)
    requires n > 0 && -Half(n) <= v < Half(n)
    ensures Signed(pre + Pack(v, n) + post, |pre|, n) == v
  {
    var bs := pre + Pack(v, n) + post;
    var p := Pow256(n);
    assert bs[|pre|..|pre| + n] == Pack(v, n);
    assert p == 256 * Pow256(n - 1);
    UnsignedPack(if v < 0 then v + p else v, n);
  }

  // ---------------------------------------------------------------------
  // resolve_inline_message_id

  datatype InlineMessageIdInfo = InlineMessageIdInfo(
    dcId: int,
    messageId: int,
    chatId: Option<int>,
    accessHash: Option<int>)

  /** `resolve_inline_message_id`. A decoding error is raised (the decode
      sits outside the `try`); an unknown length gives None. */
  function ResolveInlineMessageId(s: string): (r: Result<Option<InlineMessageIdInfo>>)
    ensures DecodeTelegramBase64(s).Err? <==> r.Err?
    ensures r.Ok? ==> (r.value.Some? <==> |DecodeTelegramBase64(s).value| in {16, 20, 24})
  {
    var d :- DecodeTelegramBase64(s);
    Ok(Layout(d))
  }

  /** The fields of the decoded bytes, by their length. */
  function Layout(d: seq<byte>): (r: Option<InlineMessageIdInfo>)
    ensures r.Some? <==> |d| in {16, 20, 24}
  {
    if |d| == 24 then
      Some(InlineMessageIdInfo(Signed(d, 0, 4), Signed(d, 4, 4), Some(Signed(d, 8, 8)), Some(Signed(d, 16, 8))))
    else if |d| == 20 then
      Some(InlineMessageIdInfo(Signed(d, 0, 4), Signed(d, 4, 4), None, Some(Signed(d, 12, 8))))
    else if |d| == 16 then
      Some(InlineMessageIdInfo(Signed(d, 0, 4), Signed(d, 4, 4), Some(Signed(d, 8, 8)), None))
    else None
  }

  /** Resolving an encoded id lays out the bytes that were encoded. */
  lemma ResolveEncoded(b: seq<byte>)
    ensures ResolveInlineMessageId(Encode(b)) == Ok(Layout(b))
  {
    TelegramDecodeRoundTrip(b);
  }

  predicate Int32(v: int) { -0x8000_0000 <= v < 0x8000_0000 }
  predicate Int64(v: int) { -0x8000_0000_0000_0000 <= v < 0x8000_0000_0000_0000 }

  lemma Pow256Values()
    ensures Pow256(4) == 0x1_0000_0000
    ensures Pow256(8) == 0x1_0000_0000_0000_0000
  {
  }

  /** The signed bounds of 4 and 8 bytes are those of int32 and int64. */
  lemma HalfValues()
    ensures Half(4) == 0x8000_0000 && Half(8) == 0x8000_0000_0000_0000
  {
    Pow256Values();
  }

  /** A field whose bytes are a packed value reads back as that value. */
  lemma SignedOfSlice(bs: seq<byte>, off: nat, n: nat, v: int)
    requires n > 0 && off + n <= |bs| && -Half(n) <= v < Half(n)
    requires bs[off..off + n] == Pack(v, n)
    ensures Signed(bs, off, n) == v
  {
    var p := Pow256(n);
    assert p == 256 * Pow256(n - 1);
    UnsignedPack(if v < 0 then v + p else v, n);
  }

  /** Where four consecutive chunks sit in their concatenation. */
  lemma Chunks4(a: seq<byte>, m: seq<byte>, c: seq<byte>, h: seq<byte>)
    ensures var b := a + m + c + h;
            && b[0..|a|] == a
            && b[|a|..|a| + |m|] == m
            && b[|a| + |m|..|a| + |m| + |c|] == c
            && b[|a| + |m| + |c|..|b|] == h
  {
  }

  /** Where three consecutive chunks sit in their concatenation. */
  lemma Chunks3(a: seq<byte>, m: seq<byte>, c: seq<byte>)
    ensures var b := a + m + c;
            && b[0..|a|] == a
            && b[|a|..|a| + |m|] == m
            && b[|a| + |m|..|b|] == c
  {
  }

  /** The 24-byte layout `<iiqq`: dc id, message id, chat id, access hash. */
  lemma Resolve24(dc: int, msg: int, chat: int, hash: int)
    requires Int32(dc) && Int32(msg) && Int64(chat) && Int64(hash)
    ensures ResolveInlineMessageId(Encode(Pack(dc, 4) + Pack(msg, 4) + Pack(chat, 8) + Pack(hash, 8)))
            == Ok(Some(InlineMessageIdInfo(dc, msg, Some(chat), Some(hash))))
  {
    HalfValues();
    var a, m, c, h := Pack(dc, 4), Pack(msg, 4), Pack(chat, 8), Pack(hash, 8);
    var b := a + m + c + h;
    ResolveEncoded(b);
    Chunks4(a, m, c, h);
    SignedOfSlice(b, 0, 4, dc);
    SignedOfSlice(b, 4, 4, msg);
    SignedOfSlice(b, 8, 8, chat);
    SignedOfSlice(b, 16, 8, hash);
  }

  /** The 20-byte layout `<iiiq`: the third field is read and dropped, and
      there is no chat id. */
  lemma Resolve20(dc: int, msg: int, dropped: int, hash: int)
    requires Int32(dc) && Int32(msg) && Int32(dropped) && Int64(hash)
    ensures ResolveInlineMessageId(Encode(Pack(dc, 4) + Pack(msg, 4) + Pack(dropped, 4) + Pack(hash, 8)))
            == Ok(Some(InlineMessageIdInfo(dc, msg, None, Some(hash))))
  {
    HalfValues();
    var a, m, c, h := Pack(dc, 4), Pack(msg, 4), Pack(dropped, 4), Pack(hash, 8);
    var b := a + m + c + h;
    ResolveEncoded(b);
    Chunks4(a, m, c, h);
    SignedOfSlice(b, 0, 4, dc);
    SignedOfSlice(b, 4, 4, msg);
    SignedOfSlice(b, 12, 8, hash);
  }

  /** The 16-byte layout `<iiq`: there is no access hash. */
  lemma Resolve16(dc: int, msg: int, chat: int)
    requires Int32(dc) && Int32(msg) && Int64(chat)
    ensures ResolveInlineMessageId(Encode(Pack(dc, 4) + Pack(msg, 4) + Pack(chat, 8)))
            == Ok(Some(InlineMessageIdInfo(dc, msg, Some(chat), None)))
  {
    HalfValues();
    var a, m, c := Pack(dc, 4), Pack(msg, 4), Pack(chat, 8);
    var b := a + m + c;
    ResolveEncoded(b);
    Chunks3(a, m, c);
    SignedOfSlice(b, 0, 4, dc);
    SignedOfSlice(b, 4, 4, msg);
    SignedOfSlice(b, 8, 8, chat);
  }

  /** Any other decoded length gives None. */
  lemma ResolveOtherLength(b: seq<byte>)
    requires |b| !in {16, 20, 24}
    ensures ResolveInlineMessageId(Encode(b)) == Ok(None)
  {
    ResolveEncoded(b);
  }
}
