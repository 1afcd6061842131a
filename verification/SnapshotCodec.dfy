/** The two binary formats of the Windows archive: one record per snapshot, and the catalog of record ids. */
module SnapshotCodec {
  import opened Common

  const CHUNK_BYTES := 65536
  const MAX_MEDIA_BYTES := 33554432
  const MAX_ROWS := 2000
  const MAX_PAYLOAD := 131040

  type Digest = d: Bytes | |d| == 32 witness seq(32, _ => 0)

  /** `reason` and `media` keep the raw byte, because decoding casts an unchecked byte into the enumeration. */
  datatype Snapshot = Snapshot(
    peerType: Byte, peer: U64, topic: U64, message: I64, sentAt: I64, capturedAt: I64, reason: Byte,
    text: Bytes, content: Bytes, mime: Bytes, media: Byte, mediaBytes: U64, chunks: U32, digest: Digest)

  const COMPLETE: Byte := 2

  predicate Zero(digest: Bytes) { forall i :: 0 <= i < |digest| ==> digest[i] == 0 }

  function ChunkCount(bytes: nat): nat { (bytes + CHUNK_BYTES - 1) / CHUNK_BYTES }

  predicate Valid(s: Snapshot) {
    && 1 <= s.peerType <= 3 && s.peer != 0 && s.message != 0 && s.sentAt >= 0 && s.capturedAt >= 0
    && 1 <= s.reason <= 3 && s.media <= 2
    && |s.text| <= 60000 && |s.content| <= 60000 && |s.mime| <= 128 && |s.text| + |s.content| <= 120000
    && if s.media == COMPLETE
       then 0 < s.mediaBytes <= MAX_MEDIA_BYTES && s.chunks == ChunkCount(s.mediaBytes) && !Zero(s.digest)
       else s.mediaBytes == 0 && s.chunks == 0 && Zero(s.digest)
  }

  // ----- numbers

  function Pow256(n: nat): nat { if n == 0 then 1 else 256 * Pow256(n - 1) }

  function LittleEndian(value: nat, width: nat): Bytes {
    if width == 0 then [] else [value % 256] + LittleEndian(value / 256, width - 1)
  }

  function FromLittleEndian(bytes: Bytes): nat {
    if bytes == [] then 0 else bytes[0] + 256 * FromLittleEndian(bytes[1..])
  }

  lemma {:induction false} LittleEndianSize(value: nat, width: nat)
    ensures |LittleEndian(value, width)| == width
  {
    if width > 0 {
      LittleEndianSize(value / 256, width - 1);
    }
  }

  /** The digit of a number to the base 256 that has weight 256 to the power of `k`. */
  function Digit(value: nat, k: nat): Byte { if k == 0 then value % 256 else Digit(value / 256, k - 1) }

  /** The least significant byte comes first. */
  lemma {:induction false} LittleEndianAt(value: nat, width: nat, k: nat)
    requires k < width
    ensures |LittleEndian(value, width)| == width && LittleEndian(value, width)[k] == Digit(value, k)
  {
    LittleEndianSize(value, width);
    if k > 0 {
      LittleEndianAt(value / 256, width - 1, k - 1);
    }
  }

  lemma {:induction false} NumberRoundTrip(value: nat, width: nat)
    requires value < Pow256(width)
    ensures FromLittleEndian(LittleEndian(value, width)) == value
  {
    if width > 0 {
      NumberRoundTrip(value / 256, width - 1);
      assert LittleEndian(value, width)[1..] == LittleEndian(value / 256, width - 1);
    }
  }

  lemma {:induction false} NumberReencodes(bytes: Bytes)
    ensures FromLittleEndian(bytes) < Pow256(|bytes|)
    ensures LittleEndian(FromLittleEndian(bytes), |bytes|) == bytes
  {
    if bytes != [] {
      NumberReencodes(bytes[1..]);
      FirstByte(bytes);
      Unpacked(bytes[0], FromLittleEndian(bytes[1..]), |bytes|);
      hide *;
      assert bytes == [bytes[0]] + bytes[1..];
    }
  }

  lemma FirstByte(bytes: Bytes)
    requires bytes != []
    ensures FromLittleEndian(bytes) == bytes[0] + 256 * FromLittleEndian(bytes[1..])
  {
  }

  lemma Unpacked(low: Byte, high: nat, width: nat)
    requires width > 0
    ensures LittleEndian(low + 256 * high, width) == [low] + LittleEndian(high, width - 1)
    ensures high < Pow256(width - 1) ==> low + 256 * high < Pow256(width)
  {
    LowDigit(low, high);
  }

  lemma LowDigit(low: Byte, high: nat)
    ensures (low + 256 * high) % 256 == low && (low + 256 * high) / 256 == high
  {
  }

  method Number(out: Bytes, value: nat, width: nat) returns (result: Bytes)
    ensures result == out + LittleEndian(value, width)
  {
    result := out;
    var rest := value;
    for i := 0 to width
      invariant result + LittleEndian(rest, width - i) == out + LittleEndian(value, width)
    {
      calc {
        result + LittleEndian(rest, width - i);
        result + ([rest % 256] + LittleEndian(rest / 256, width - i - 1));
        (result + [rest % 256]) + LittleEndian(rest / 256, width - i - 1);
      }
      result := result + [rest % 256];
      rest := rest / 256;
    }
  }

  // ----- fields: the fixed part of a record is a list of numbers of known widths

  function PutNumbers(values: seq<nat>, widths: seq<nat>): Bytes
    requires |values| == |widths|
  {
    if values == [] then [] else
      PutNumbers(values[..|values| - 1], widths[..|values| - 1])
          + LittleEndian(values[|values| - 1], widths[|values| - 1])
  }

  function TakeNumber(raw: Bytes, width: nat): Result<(nat, Bytes)> {
    if width > 8 || |raw| < width then Failed else Ok((FromLittleEndian(raw[..width]), raw[width..]))
  }

  function TakeNumbers(raw: Bytes, widths: seq<nat>): Result<(seq<nat>, Bytes)> {
    if widths == [] then Ok(([], raw))
    else
      var (values, rest) :- TakeNumbers(raw, widths[..|widths| - 1]);
      var (value, left) :- TakeNumber(rest, widths[|widths| - 1]);
      Ok((values + [value], left))
  }

  ghost predicate Fit(values: seq<nat>, widths: seq<nat>) {
    |values| == |widths| && forall i :: 0 <= i < |widths| ==> widths[i] <= 8 && values[i] < Pow256(widths[i])
  }

  lemma TakeNumberRoundTrip(value: nat, width: nat, rest: Bytes)
    requires width <= 8 && value < Pow256(width)
    ensures TakeNumber(LittleEndian(value, width) + rest, width) == Ok((value, rest))
  {
    LittleEndianSize(value, width);
    NumberRoundTrip(value, width);
    hide FromLittleEndian, LittleEndian, Pow256;
    var raw := LittleEndian(value, width) + rest;
    assert raw[..width] == LittleEndian(value, width) && raw[width..] == rest;
  }

  lemma {:induction false} NumbersRoundTrip(values: seq<nat>, widths: seq<nat>, rest: Bytes)
    requires Fit(values, widths)
    ensures TakeNumbers(PutNumbers(values, widths) + rest, widths) == Ok((values, rest))
  {
    hide LittleEndian, FromLittleEndian, TakeNumber;
    if values != [] {
      var n := |values| - 1;
      var last := LittleEndian(values[n], widths[n]);
      NumbersRoundTrip(values[..n], widths[..n], last + rest);
      TakeNumberRoundTrip(values[n], widths[n], rest);
      var raw := PutNumbers(values, widths) + rest;
      assert raw == PutNumbers(values[..n], widths[..n]) + (last + rest);
      assert TakeNumbers(raw, widths[..n]) == Ok((values[..n], last + rest));
      assert values == values[..n] + [values[n]];
    } else {
      assert PutNumbers(values, widths) + rest == rest;
    }
  }

  lemma PutNumbersMore(values: seq<nat>, widths: seq<nat>, value: nat, width: nat)
    requires |values| == |widths|
    ensures PutNumbers(values + [value], widths + [width]) == PutNumbers(values, widths) + LittleEndian(value, width)
  {
    assert (values + [value])[..|values|] == values && (widths + [width])[..|values|] == widths;
  }

  lemma TakeNumberReencodes(raw: Bytes, width: nat)
    requires TakeNumber(raw, width).Ok?
    ensures var (value, rest) := TakeNumber(raw, width).value;
            width <= 8 && value < Pow256(width) && raw == LittleEndian(value, width) + rest
  {
    NumberReencodes(raw[..width]);
    hide FromLittleEndian, LittleEndian, Pow256;
  }

  lemma {:induction false} NumbersReencode(raw: Bytes, widths: seq<nat>)
    requires TakeNumbers(raw, widths).Ok?
    ensures Fit(TakeNumbers(raw, widths).value.0, widths)
    ensures raw == PutNumbers(TakeNumbers(raw, widths).value.0, widths) + TakeNumbers(raw, widths).value.1
  {
    hide LittleEndian, FromLittleEndian, TakeNumber, Pow256;
    if widths == [] {
      assert raw == PutNumbers([], []) + raw;
    } else {
      var n := |widths| - 1;
      NumbersReencode(raw, widths[..n]);
      var (values, middle) := TakeNumbers(raw, widths[..n]).value;
      TakeNumberReencodes(middle, widths[n]);
      var (value, rest) := TakeNumber(middle, widths[n]).value;
      assert widths == widths[..n] + [widths[n]];
      PutNumbersMore(values, widths[..n], value, widths[n]);
      Regroup(PutNumbers(values, widths[..n]), LittleEndian(value, widths[n]), rest);
    }
  }

  lemma Regroup(a: Bytes, b: Bytes, c: Bytes)
    ensures a + (b + c) == (a + b) + c
  {
  }

  function Total(widths: seq<nat>): nat {
    if widths == [] then 0 else Total(widths[..|widths| - 1]) + widths[|widths| - 1]
  }

  lemma {:induction false} PutNumbersSize(values: seq<nat>, widths: seq<nat>)
    requires |values| == |widths|
    ensures |PutNumbers(values, widths)| == Total(widths)
  {
    if values != [] {
      var n := |values| - 1;
      PutNumbersSize(values[..n], widths[..n]);
      LittleEndianSize(values[n], widths[n]);
    }
  }

  // ----- texts

  function PutText(text: Bytes): Bytes { LittleEndian(|text|, 4) + text }

  function TakeText(raw: Bytes, max: nat): Result<(Bytes, Bytes)> {
    var (size, rest) :- TakeNumber(raw, 4);
    if size > max || size > |rest| then Failed else Ok((rest[..size], rest[size..]))
  }

  lemma TextRoundTrip(text: Bytes, max: nat, rest: Bytes)
    requires |text| <= max < 0x1_0000_0000
    ensures TakeText(PutText(text) + rest, max) == Ok((text, rest))
  {
    hide TakeNumber, LittleEndian;
    assert Pow256(4) == 0x1_0000_0000 by { Pow256At4(); }
    TakeNumberRoundTrip(|text|, 4, text + rest);
    assert PutText(text) + rest == LittleEndian(|text|, 4) + (text + rest);
    assert (text + rest)[..|text|] == text && (text + rest)[|text|..] == rest;
  }

  lemma Pow256At4()
    ensures Pow256(1) == 0x100 && Pow256(4) == 0x1_0000_0000 && Pow256(8) == 0x1_0000_0000_0000_0000
  {
    assert Pow256(2) == 0x1_0000 && Pow256(3) == 0x100_0000;
    assert Pow256(5) == 0x100_0000_0000 && Pow256(6) == 0x1_0000_0000_0000 && Pow256(7) == 0x100_0000_0000_0000;
  }

  lemma TextReencodes(raw: Bytes, max: nat)
    requires TakeText(raw, max).Ok?
    ensures var (text, rest) := TakeText(raw, max).value; |text| <= max && raw == PutText(text) + rest
  {
    hide LittleEndian;
    TakeNumberReencodes(raw, 4);
    hide TakeNumber;
    var (size, left) := TakeNumber(raw, 4).value;
    Regroup(LittleEndian(size, 4), left[..size], left[size..]);
    assert left == left[..size] + left[size..];
  }

  // ----- the whole record

  const MAGIC: Bytes := [67, 80, 71, 65, 69, 49] // CPGAE1

  function Widths(): seq<nat> { [1, 8, 8, 8, 8, 8, 1, 1, 8, 4] + Ones(32) }

  function Ones(n: nat): seq<nat> { seq(n, _ => 1) }

  function Unsigned(value: I64): U64 { if value < 0 then value + 0x1_0000_0000_0000_0000 else value }

  function Signed(value: U64): I64 { if value < 0x8000_0000_0000_0000 then value else value - 0x1_0000_0000_0000_0000 }

  function Header(s: Snapshot): seq<nat> {
    [s.peerType, s.peer, s.topic, Unsigned(s.message), Unsigned(s.sentAt), Unsigned(s.capturedAt),
     s.reason, s.media, s.mediaBytes, s.chunks] + s.digest
  }

  function FromHeader(h: seq<nat>, text: Bytes, content: Bytes, mime: Bytes): (s: Snapshot)
    requires Fit(h, Widths())
  {
    Pow256At4();
    assert forall i :: 10 <= i < 42 ==> Widths()[i] == 1;
    assert forall i :: 10 <= i < 42 ==> h[i] < Pow256(Widths()[i]);
    Snapshot(h[0], h[1], h[2], Signed(h[3]), Signed(h[4]), Signed(h[5]), h[6],
             text, content, mime, h[7], h[8], h[9], seq(32, i requires 0 <= i < 32 => h[10 + i] as Byte))
  }

  lemma HeaderRoundTrip(s: Snapshot)
    ensures Fit(Header(s), Widths()) && FromHeader(Header(s), s.text, s.content, s.mime) == s
  {
    Pow256At4();
    assert FromHeader(Header(s), s.text, s.content, s.mime).digest == s.digest;
  }

  lemma HeaderReencodes(h: seq<nat>, text: Bytes, content: Bytes, mime: Bytes)
    requires Fit(h, Widths())
    ensures Header(FromHeader(h, text, content, mime)) == h
  {
    Pow256At4();
  }

  function Texts(s: Snapshot): Bytes { PutText(s.text) + (PutText(s.content) + PutText(s.mime)) }

  /** What `Encode` writes for a valid snapshot. */
  function Encoding(s: Snapshot): Bytes { MAGIC + (PutNumbers(Header(s), Widths()) + Texts(s)) }

  function TakeTexts(raw: Bytes): Result<(Bytes, Bytes, Bytes)> {
    var (text, more) :- TakeText(raw, 60000);
    var (content, last) :- TakeText(more, 60000);
    var (mime, end) :- TakeText(last, 128);
    if end != [] then Failed else Ok((text, content, mime))
  }

  function Decoding(raw: Bytes): Result<Snapshot> {
    if !(MAGIC <= raw) then Failed
    else
      var (header, rest) :- TakeNumbers(raw[|MAGIC|..], Widths());
      var (text, content, mime) :- TakeTexts(rest);
      NumbersReencode(raw[|MAGIC|..], Widths());
      var s := FromHeader(header, text, content, mime);
      if Valid(s) then Ok(s) else Failed
  }

  lemma TextsRoundTrip(s: Snapshot)
    requires |s.text| <= 60000 && |s.content| <= 60000 && |s.mime| <= 128
    ensures TakeTexts(Texts(s)) == Ok((s.text, s.content, s.mime))
  {
    hide TakeText, PutText;
    TextRoundTrip(s.text, 60000, PutText(s.content) + PutText(s.mime));
    TextRoundTrip(s.content, 60000, PutText(s.mime));
    TextRoundTrip(s.mime, 128, []);
    assert PutText(s.mime) + [] == PutText(s.mime);
  }

  lemma TextsReencode(raw: Bytes)
    requires TakeTexts(raw).Ok?
    ensures var (text, content, mime) := TakeTexts(raw).value;
            && |text| <= 60000 && |content| <= 60000 && |mime| <= 128
            && raw == PutText(text) + (PutText(content) + PutText(mime))
  {
    hide TakeText, PutText;
    TextReencodes(raw, 60000);
    var (text, more) := TakeText(raw, 60000).value;
    TextReencodes(more, 60000);
    var (content, last) := TakeText(more, 60000).value;
    TextReencodes(last, 128);
    var (mime, end) := TakeText(last, 128).value;
    assert PutText(mime) + end == PutText(mime);
  }

  /** Every snapshot `Encode` accepts is read back unchanged. */
  lemma DecodeInvertsEncode(s: Snapshot)
    requires Valid(s)
    ensures Decoding(Encoding(s)) == Ok(s)
  {
    hide TakeNumbers, PutNumbers, TakeTexts, Texts, Header, FromHeader, Valid, Widths;
    assert Valid(s);
    HeaderRoundTrip(s);
    NumbersRoundTrip(Header(s), Widths(), Texts(s));
    assert |s.text| <= 60000 && |s.content| <= 60000 && |s.mime| <= 128 by { ValidTexts(s); }
    TextsRoundTrip(s);
    var raw := Encoding(s);
    assert MAGIC <= raw && raw[|MAGIC|..] == PutNumbers(Header(s), Widths()) + Texts(s);
  }

  lemma ValidTexts(s: Snapshot)
    requires Valid(s)
    ensures |s.text| <= 60000 && |s.content| <= 60000 && |s.mime| <= 128 && |s.text| + |s.content| <= 120000
  {
  }

  /** Every accepted byte string is the encoding of what it decodes to, so no two byte strings share a meaning. */
  lemma EncodeInvertsDecode(raw: Bytes)
    requires Decoding(raw).Ok?
    ensures Valid(Decoding(raw).value) && Encoding(Decoding(raw).value) == raw
  {
    hide TakeNumbers, PutNumbers, TakeTexts, Header, FromHeader, Valid, Widths, PutText;
    var body := raw[|MAGIC|..];
    NumbersReencode(body, Widths());
    var (header, rest) := TakeNumbers(body, Widths()).value;
    TextsReencode(rest);
    var (text, content, mime) := TakeTexts(rest).value;
    var s := FromHeader(header, text, content, mime);
    HeaderReencodes(header, text, content, mime);
    assert s.text == text && s.content == content && s.mime == mime by { FromHeaderTexts(header, text, content, mime); }
    assert raw == MAGIC + body;
  }

  lemma FromHeaderTexts(h: seq<nat>, text: Bytes, content: Bytes, mime: Bytes)
    requires Fit(h, Widths())
    ensures var s := FromHeader(h, text, content, mime); s.text == text && s.content == content && s.mime == mime
  {
  }

  /** The size of a record, and the bound that makes the vault's payload check unreachable. */
  lemma EncodingSize(s: Snapshot)
    requires Valid(s)
    ensures |Encoding(s)| == 105 + |s.text| + |s.content| + |s.mime| <= 120233 < MAX_PAYLOAD
  {
    hide PutNumbers, Header, LittleEndian, Valid;
    ValidTexts(s);
    assert |Header(s)| == |Widths()| by { HeaderRoundTrip(s); }
    PutNumbersSize(Header(s), Widths());
    assert Total(Widths()) == 87 by { HeaderTotal(); }
    LittleEndianSize(|s.text|, 4);
    LittleEndianSize(|s.content|, 4);
    LittleEndianSize(|s.mime|, 4);
  }

  lemma {:induction false} OnesTotal(front: seq<nat>, n: nat)
    ensures Total(front + Ones(n)) == Total(front) + n
  {
    if n == 0 {
      assert front + Ones(0) == front;
    } else {
      OnesTotal(front, n - 1);
      assert (front + Ones(n))[..|front| + n - 1] == front + Ones(n - 1);
    }
  }

  lemma TotalOfPrefix(widths: seq<nat>, k: nat)
    requires k < |widths|
    ensures Total(widths[..k + 1]) == Total(widths[..k]) + widths[k]
  {
    assert widths[..k + 1][..k] == widths[..k];
  }

  lemma HeaderTotal()
    ensures Total(Widths()) == 87
  {
    var front := [1, 8, 8, 8, 8, 8, 1, 1, 8, 4];
    hide Total;
    OnesTotal(front, 32);
    assert Total([]) == 0 by { TotalOfNone(); }
    TotalOfPrefix(front, 0);
    TotalOfPrefix(front, 1);
    TotalOfPrefix(front, 2);
    TotalOfPrefix(front, 3);
    TotalOfPrefix(front, 4);
    TotalOfPrefix(front, 5);
    TotalOfPrefix(front, 6);
    TotalOfPrefix(front, 7);
    TotalOfPrefix(front, 8);
    TotalOfPrefix(front, 9);
    assert front[..0] == [] && front[..10] == front;
  }

  lemma TotalOfNone()
    ensures Total([]) == 0
  {
  }

  // ----- where everything is

  /** The bytes from `at` on are this number, least significant byte first. */
  ghost predicate NumberAt(raw: Bytes, at: nat, width: nat, value: nat) {
    at + width <= |raw| && forall k :: 0 <= k < width ==> raw[at + k] == Digit(value, k)
  }

  lemma {:induction false} FieldAt(values: seq<nat>, widths: seq<nat>, k: nat)
    requires |values| == |widths| && k < |widths|
    ensures var raw, at := PutNumbers(values, widths), Total(widths[..k]);
            at + widths[k] <= |raw| && raw[at..at + widths[k]] == LittleEndian(values[k], widths[k])
  {
    hide LittleEndian;
    var n := |widths| - 1;
    PutNumbersSize(values, widths);
    PutNumbersSize(values[..n], widths[..n]);
    LittleEndianSize(values[n], widths[n]);
    assert PutNumbers(values, widths) == PutNumbers(values[..n], widths[..n]) + LittleEndian(values[n], widths[n]);
    if k < n {
      FieldAt(values[..n], widths[..n], k);
      assert widths[..n][..k] == widths[..k];
    }
  }

  lemma FieldIsNumber(front: Bytes, values: seq<nat>, widths: seq<nat>, back: Bytes, k: nat)
    requires |values| == |widths| && k < |widths|
    ensures NumberAt(front + (PutNumbers(values, widths) + back), |front| + Total(widths[..k]), widths[k], values[k])
  {
    FieldAt(values, widths, k);
    hide PutNumbers, LittleEndian, Total, Digit;
    DigitsAt(front, PutNumbers(values, widths), back, Total(widths[..k]), widths[k], values[k]);
  }

  lemma DigitsAt(front: Bytes, fixed: Bytes, back: Bytes, at: nat, width: nat, value: nat)
    requires at + width <= |fixed| && fixed[at..at + width] == LittleEndian(value, width)
    ensures NumberAt(front + (fixed + back), |front| + at, width, value)
  {
    hide LittleEndian, Digit;
    var raw := front + (fixed + back);
    forall i | 0 <= i < width ensures raw[|front| + at + i] == Digit(value, i) {
      LittleEndianAt(value, width, i);
      assert raw[|front| + at + i] == fixed[at + i] == fixed[at..at + width][i];
    }
  }

  lemma FrontOffsets(front: seq<nat>)
    requires front == [1, 8, 8, 8, 8, 8, 1, 1, 8, 4] && Total(front[..0]) == 0
    requires forall i :: 0 <= i < 10 ==> Total(front[..i + 1]) == Total(front[..i]) + front[i]
    ensures forall i :: 0 <= i < 10 ==> Total(front[..i]) == [0, 1, 9, 17, 25, 33, 41, 42, 43, 51][i]
    ensures Total(front[..10]) == 55
  {
    hide Total;
    assert Total(front[..1]) == 1;
    assert Total(front[..2]) == 9;
    assert Total(front[..3]) == 17;
    assert Total(front[..4]) == 25;
    assert Total(front[..5]) == 33;
    assert Total(front[..6]) == 41;
    assert Total(front[..7]) == 42;
    assert Total(front[..8]) == 43;
    assert Total(front[..9]) == 51;
  }

  /** Where each number of the fixed part begins. */
  lemma Offsets(k: nat)
    requires k < 42
    ensures Total(Widths()[..k]) == if k < 10 then [0, 1, 9, 17, 25, 33, 41, 42, 43, 51][k] else 45 + k
  {
    var front := [1, 8, 8, 8, 8, 8, 1, 1, 8, 4];
    hide Total;
    if k >= 10 {
      assert Widths()[..k] == front + Ones(k - 10);
      OnesTotal(front, k - 10);
    }
    assert Total([]) == 0 by { TotalOfNone(); }
    assert front[..0] == [] && front[..10] == front;
    forall i | 0 <= i < 10 ensures Total(front[..i + 1]) == Total(front[..i]) + front[i] {
      TotalOfPrefix(front, i);
    }
    FrontOffsets(front);
    if k < 10 {
      assert Widths()[..k] == front[..k];
    }
  }

  /** A text is its length in four bytes, then its bytes. */
  ghost predicate TextAt(raw: Bytes, at: nat, text: Bytes) {
    NumberAt(raw, at, 4, |text|) && at + 4 + |text| <= |raw| && raw[at + 4..at + 4 + |text|] == text
  }

  lemma TextIsAt(front: Bytes, text: Bytes, back: Bytes)
    ensures TextAt(front + (PutText(text) + back), |front|, text)
    ensures |PutText(text)| == 4 + |text|
  {
    LittleEndianSize(|text|, 4);
    hide LittleEndian, Digit, NumberAt;
    assert PutText(text)[0..4] == LittleEndian(|text|, 4);
    DigitsAt(front, PutText(text), back, 0, 4, |text|);
    var raw := front + (PutText(text) + back);
    assert raw[|front| + 4..|front| + 4 + |text|] == text;
  }

  /**
   * The record, byte by byte: the letters CPGAE1, then the fields at fixed offsets, least significant byte first, the
   * digest at 61, and from 93 on the three texts with their lengths.
   */
  lemma Layout(s: Snapshot)
    ensures var raw := Encoding(s);
            && raw[..Min(6, |raw|)] == [67, 80, 71, 65, 69, 49]
            && NumberAt(raw, 6, 1, s.peerType) && NumberAt(raw, 7, 8, s.peer) && NumberAt(raw, 15, 8, s.topic)
            && NumberAt(raw, 23, 8, Unsigned(s.message)) && NumberAt(raw, 31, 8, Unsigned(s.sentAt))
            && NumberAt(raw, 39, 8, Unsigned(s.capturedAt)) && NumberAt(raw, 47, 1, s.reason)
            && NumberAt(raw, 48, 1, s.media) && NumberAt(raw, 49, 8, s.mediaBytes) && NumberAt(raw, 57, 4, s.chunks)
            && (forall k :: 0 <= k < 32 ==> NumberAt(raw, 61 + k, 1, s.digest[k]))
            && TextAt(raw, 93, s.text) && TextAt(raw, 97 + |s.text|, s.content)
            && TextAt(raw, 101 + |s.text| + |s.content|, s.mime)
  {
    HeaderFields(s);
    hide PutNumbers, Header, NumberAt, TextAt, Unsigned, PutText;
    forall k | 0 <= k < 42
      ensures NumberAt(Encoding(s), 6 + (if k < 10 then [0, 1, 9, 17, 25, 33, 41, 42, 43, 51][k] else 45 + k),
                  Widths()[k], Header(s)[k])
    {
      Offsets(k);
      FieldIsNumber(MAGIC, Header(s), Widths(), Texts(s), k);
    }
    NumbersAt(Encoding(s), s);
    TextsAreAt(s);
  }

  /** The fields of the fixed part, one by one. */
  lemma NumbersAt(raw: Bytes, s: Snapshot)
    requires |Header(s)| == 42
    requires forall k :: 0 <= k < 42 ==>
               NumberAt(raw, 6 + (if k < 10 then [0, 1, 9, 17, 25, 33, 41, 42, 43, 51][k] else 45 + k),
                   Widths()[k], Header(s)[k])
    ensures NumberAt(raw, 6, 1, s.peerType) && NumberAt(raw, 7, 8, s.peer) && NumberAt(raw, 15, 8, s.topic)
    ensures NumberAt(raw, 23, 8, Unsigned(s.message)) && NumberAt(raw, 31, 8, Unsigned(s.sentAt))
    ensures NumberAt(raw, 39, 8, Unsigned(s.capturedAt)) && NumberAt(raw, 47, 1, s.reason)
    ensures NumberAt(raw, 48, 1, s.media) && NumberAt(raw, 49, 8, s.mediaBytes) && NumberAt(raw, 57, 4, s.chunks)
    ensures forall k :: 0 <= k < 32 ==> NumberAt(raw, 61 + k, 1, s.digest[k])
  {
    HeaderFields(s);
    hide NumberAt, Header, Unsigned;
    var w, h := Widths(), Header(s);
    assert w[0] == 1 && w[1] == 8 && w[2] == 8 && w[3] == 8 && w[4] == 8;
    assert w[5] == 8 && w[6] == 1 && w[7] == 1 && w[8] == 8 && w[9] == 4;
    forall k | 0 <= k < 32 ensures NumberAt(raw, 61 + k, 1, s.digest[k]) {
      assert w[10 + k] == 1 && h[10 + k] == s.digest[k];
    }
  }

  lemma TextsAreAt(s: Snapshot)
    ensures var raw := Encoding(s);
            && raw[..Min(6, |raw|)] == MAGIC && TextAt(raw, 93, s.text) && TextAt(raw, 97 + |s.text|, s.content)
            && TextAt(raw, 101 + |s.text| + |s.content|, s.mime)
  {
    HeaderFields(s);
    PutNumbersSize(Header(s), Widths());
    HeaderTotal();
    hide *;
    EncodingIs(s);
    assert |MAGIC| == 6 && |PutNumbers(Header(s), Widths())| == 87;
    TextsIn(MAGIC, PutNumbers(Header(s), Widths()), s);
  }

  lemma EncodingIs(s: Snapshot)
    ensures Encoding(s) == MAGIC + (PutNumbers(Header(s), Widths()) + (PutText(s.text) + (PutText(s.content)
              + PutText(s.mime))))
  {
  }

  lemma TextsIn(magic: Bytes, fixed: Bytes, s: Snapshot)
    requires |magic| == 6 && |fixed| == 87
    ensures var raw := magic + (fixed + (PutText(s.text) + (PutText(s.content) + PutText(s.mime))));
            && raw[..Min(6, |raw|)] == magic && TextAt(raw, 93, s.text) && TextAt(raw, 97 + |s.text|, s.content)
            && TextAt(raw, 101 + |s.text| + |s.content|, s.mime)
  {
    var t, c, m := PutText(s.text), PutText(s.content), PutText(s.mime);
    hide TextAt, PutText;
    var front := magic + fixed;
    TextIsAt(front, s.text, c + m);
    TextIsAt(front + t, s.content, m);
    TextIsAt(front + t + c, s.mime, []);
    var raw := magic + (fixed + (t + (c + m)));
    assert raw == front + (t + (c + m));
    Regroup(front, t, c + m);
    assert m + [] == m;
    Regroup(front + t, c, m);
  }

  // ----- the methods that write and read records

  /** The first `k` fields of a record, as written. */
  ghost function Written(s: Snapshot, k: nat): Bytes
    requires k <= 42
  {
    MAGIC + PutNumbers(Header(s)[..k], Widths()[..k])
  }

  lemma NextWritten(s: Snapshot, k: nat, value: nat, width: nat)
    requires k < 42 && Header(s)[k] == value && Widths()[k] == width
    ensures Written(s, k + 1) == Written(s, k) + LittleEndian(value, width)
  {
    hide PutNumbers, LittleEndian;
    PutNumbersMore(Header(s)[..k], Widths()[..k], value, width);
    assert Header(s)[..k + 1] == Header(s)[..k] + [value];
    assert Widths()[..k + 1] == Widths()[..k] + [width];
    Regroup(MAGIC, PutNumbers(Header(s)[..k], Widths()[..k]), LittleEndian(value, width));
  }

  lemma WrittenEnds(s: Snapshot)
    ensures Written(s, 0) == MAGIC
    ensures Written(s, 42) + PutText(s.text) + PutText(s.content) + PutText(s.mime) == Encoding(s)
  {
    hide LittleEndian;
    assert PutNumbers(Header(s)[..0], Widths()[..0]) == [];
    assert Header(s)[..42] == Header(s) && Widths()[..42] == Widths();
    hide PutNumbers, Header;
    var fixed := PutNumbers(Header(s), Widths());
    assert ((MAGIC + fixed) + PutText(s.text) + PutText(s.content)) + PutText(s.mime)
        == MAGIC + (fixed + (PutText(s.text) + (PutText(s.content) + PutText(s.mime))));
  }

  lemma HeaderFields(s: Snapshot)
    ensures |Header(s)| == 42
    ensures Header(s)[0] == s.peerType && Header(s)[1] == s.peer && Header(s)[2] == s.topic
    ensures Header(s)[3] == Unsigned(s.message) && Header(s)[4] == Unsigned(s.sentAt)
    ensures Header(s)[5] == Unsigned(s.capturedAt)
    ensures Header(s)[6] == s.reason && Header(s)[7] == s.media && Header(s)[8] == s.mediaBytes
    ensures Header(s)[9] == s.chunks
    ensures forall i :: 0 <= i < 32 ==> Header(s)[10 + i] == s.digest[i]
  {
  }

  lemma FieldWidths()
    ensures |Widths()| == 42
    ensures Widths()[0] == 1 && Widths()[1] == 8 && Widths()[2] == 8 && Widths()[3] == 8 && Widths()[4] == 8
    ensures Widths()[5] == 8
    ensures Widths()[6] == 1 && Widths()[7] == 1 && Widths()[8] == 8 && Widths()[9] == 4
    ensures forall i :: 10 <= i < 42 ==> Widths()[i] == 1
  {
  }

  /** What may be archived, limit by limit. */
  predicate Acceptable(s: Snapshot) {
    && 1 <= s.peerType <= 3 && s.peer != 0 && s.message != 0 && s.sentAt >= 0 && s.capturedAt >= 0
    && 1 <= s.reason <= 3 && |s.text| <= 60000 && |s.content| <= 60000 && |s.mime| <= 128
    && |s.text| + |s.content| <= 120000
    && (if s.media == 2 then 0 < s.mediaBytes <= 33554432 && s.chunks == (s.mediaBytes + 65535) / 65536
          && exists i :: 0 <= i < 32 && s.digest[i] != 0
        else s.media <= 1 && s.mediaBytes == 0 && s.chunks == 0 && forall i :: 0 <= i < 32 ==> s.digest[i] == 0)
  }

  lemma ValidMeans(s: Snapshot)
    ensures Valid(s) <==> Acceptable(s)
  {
  }

  method Encode(s: Snapshot) returns (r: Result<Bytes>)
    ensures r == if Valid(s) then Ok(Encoding(s)) else Failed
    ensures r.Ok? <==> Acceptable(s)
  {
    ValidMeans(s);
    hide Valid;
    if !Valid(s) {
      return Failed;
    }
    EncodingSize(s);
    HeaderFields(s);
    FieldWidths();
    WrittenEnds(s);
    hide Encoding, Header, Widths, Written, LittleEndian, PutText;
    var result := MAGIC;
    NextWritten(s, 0, s.peerType, 1); result := Number(result, s.peerType, 1);
    NextWritten(s, 1, s.peer, 8); result := Number(result, s.peer, 8);
    NextWritten(s, 2, s.topic, 8); result := Number(result, s.topic, 8);
    NextWritten(s, 3, Unsigned(s.message), 8); result := Number(result, Unsigned(s.message), 8);
    NextWritten(s, 4, Unsigned(s.sentAt), 8); result := Number(result, Unsigned(s.sentAt), 8);
    NextWritten(s, 5, Unsigned(s.capturedAt), 8); result := Number(result, Unsigned(s.capturedAt), 8);
    NextWritten(s, 6, s.reason, 1); result := Number(result, s.reason, 1);
    NextWritten(s, 7, s.media, 1); result := Number(result, s.media, 1);
    NextWritten(s, 8, s.mediaBytes, 8); result := Number(result, s.mediaBytes, 8);
    NextWritten(s, 9, s.chunks, 4); result := Number(result, s.chunks, 4);
    for i := 0 to 32
      invariant result == Written(s, 10 + i)
    {
      NextWritten(s, 10 + i, s.digest[i], 1);
      result := Number(result, s.digest[i], 1);
    }
    result := Text(result, s.text);
    result := Text(result, s.content);
    result := Text(result, s.mime);
    if |result| > MAX_PAYLOAD {
      return Failed;
    }
    return Ok(result);
  }

  method Text(out: Bytes, text: Bytes) returns (result: Bytes)
    ensures result == out + PutText(text)
  {
    result := Number(out, |text|, 4);
    result := result + text;
  }

  /** A view that shrinks from the front as fields are read. */
  class Input {
    var value: Bytes

    constructor (value: Bytes)
      ensures this.value == value
    {
      this.value := value;
    }

    method Number(width: nat) returns (r: Result<nat>)
      modifies this
      ensures match TakeNumber(old(value), width)
              case Ok((number, rest)) => r == Ok(number) && value == rest
              case Failed => r.Failed?
    {
      if width > 8 || |value| < width {
        return Failed;
      }
      var result: nat, scale: nat := 0, 1;
      hide FromLittleEndian, Times;
      TimesOne(FromLittleEndian(value[..width]));
      assert value[0..width] == value[..width];
      for i := 0 to width
        invariant value == old(value)
        invariant result + Times(scale, FromLittleEndian(value[i..width])) == FromLittleEndian(value[..width])
      {
        assert value[i..width][1..] == value[i + 1..width];
        FirstByte(value[i..width]);
        Shift(scale, value[i], FromLittleEndian(value[i + 1..width]));
        result := result + Times(value[i], scale);
        scale := scale * 256;
      }
      NothingMore(scale, value[width..width]);
      value := value[width..];
      return Ok(result);
    }

    method Text(max: nat) returns (r: Result<Bytes>)
      modifies this
      ensures match TakeText(old(value), max)
              case Ok((text, rest)) => r == Ok(text) && value == rest
              case Failed => r.Failed?
    {
      var size :- Number(4);
      if size > max || size > |value| {
        return Failed;
      }
      r := Ok(value[..size]);
      value := value[size..];
    }
  }

  function Times(a: nat, b: nat): nat { a * b }

  lemma TimesOne(b: nat)
    ensures Times(1, b) == b
  {
  }

  lemma Shift(scale: nat, low: nat, high: nat)
    ensures Times(scale, low + 256 * high) == Times(low, scale) + Times(scale * 256, high)
  {
  }

  lemma NothingMore(scale: nat, bytes: Bytes)
    requires bytes == []
    ensures Times(scale, FromLittleEndian(bytes)) == 0
  {
  }

  lemma {:induction false} LaterFieldsFail(raw: Bytes, widths: seq<nat>, k: nat)
    requires k <= |widths| && TakeNumbers(raw, widths[..k]).Failed?
    ensures TakeNumbers(raw, widths).Failed?
  {
    if k < |widths| {
      var shorter := widths[..|widths| - 1];
      assert shorter[..k] == widths[..k];
      LaterFieldsFail(raw, shorter, k);
    } else {
      assert widths[..k] == widths;
    }
  }

  /** What has been read, and what is left, after `k` fields. */
  ghost function Read(raw: Bytes, k: nat): Result<(seq<nat>, Bytes)>
    requires k <= 42
  {
    TakeNumbers(raw, Widths()[..k])
  }

  /** Reading field `k` either extends what has been read or shows that the header is cut short. */
  lemma NextRead(raw: Bytes, k: nat, width: nat)
    requires k < 42 && Read(raw, k).Ok? && Widths()[k] == width
    ensures match TakeNumber(Read(raw, k).value.1, width)
            case Ok((number, left)) => Read(raw, k + 1) == Ok((Read(raw, k).value.0 + [number], left))
            case Failed => TakeNumbers(raw, Widths()).Failed?
  {
    hide TakeNumber;
    assert Widths()[..k + 1][..k] == Widths()[..k];
    if TakeNumber(Read(raw, k).value.1, width).Failed? {
      LaterFieldsFail(raw, Widths(), k + 1);
    }
  }

  lemma ReadEnds(raw: Bytes)
    ensures Read(raw, 0) == Ok(([], raw))
    ensures Read(raw, 42) == TakeNumbers(raw, Widths())
  {
    assert Widths()[..42] == Widths();
  }

  /** Reads field `k` and appends it to the fields read so far. */
  method NextField(input: Input, ghost body: Bytes, ghost k: nat, fields: seq<nat>, width: nat)
    returns (r: Result<seq<nat>>)
    requires k < 42 && Widths()[k] == width && Read(body, k) == Ok((fields, input.value))
    modifies input
    ensures match r
            case Ok(more) => Read(body, k + 1) == Ok((more, input.value))
            case Failed => TakeNumbers(body, Widths()).Failed?
  {
    NextRead(body, k, width);
    hide *;
    var number :- input.Number(width);
    return Ok(fields + [number]);
  }

  /** Reads the numeric fields in order, then the digest byte by byte. */
  method Fields(input: Input) returns (r: Result<seq<nat>>)
    modifies input
    ensures match TakeNumbers(old(input.value), Widths())
            case Ok((header, rest)) => r == Ok(header) && input.value == rest
            case Failed => r.Failed?
  {
    ghost var body := input.value;
    ReadEnds(body);
    FieldWidths();
    hide *;
    var fields := [];
    fields :- NextField(input, body, 0, fields, 1);
    fields :- NextField(input, body, 1, fields, 8);
    fields :- NextField(input, body, 2, fields, 8);
    fields :- NextField(input, body, 3, fields, 8);
    fields :- NextField(input, body, 4, fields, 8);
    fields :- NextField(input, body, 5, fields, 8);
    fields :- NextField(input, body, 6, fields, 1);
    fields :- NextField(input, body, 7, fields, 1);
    fields :- NextField(input, body, 8, fields, 8);
    fields :- NextField(input, body, 9, fields, 4);
    for i := 10 to 42
      invariant Read(body, i) == Ok((fields, input.value))
    {
      fields :- NextField(input, body, i, fields, 1);
    }
    return Ok(fields);
  }

  method Decode(raw: Bytes) returns (r: Result<Snapshot>)
    ensures r == Decoding(raw)
  {
    if !(MAGIC <= raw) {
      return Failed;
    }
    hide Widths, TakeNumbers, TakeText, Valid, FromHeader, Fit;
    ghost var body := raw[|MAGIC|..];
    var input := new Input(raw[6..]);
    var fields :- Fields(input);
    NumbersReencode(body, Widths());
    var text :- input.Text(60000);
    var content :- input.Text(60000);
    var mime :- input.Text(128);
    if input.value != [] {
      return Failed;
    }
    var s := FromHeader(fields, text, content, mime);
    if !Valid(s) {
      return Failed;
    }
    return Ok(s);
  }
}
