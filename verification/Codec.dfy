/** The fixed-layout order codec: 156 bytes written in place and read back. */
module Codec {
  import opened Types

  newtype byte = x: int | 0 <= x < 256

  const TWO_64 := 0x1_0000_0000_0000_0000
  const TWO_63 := 0x8000_0000_0000_0000
  const TWO_53 := 0x20_0000_0000_0000

  /** A double, as its 64-bit pattern. */
  type Double = x: nat | x < TWO_64

  /** An order with amounts that doubles represent. */
  datatype WireOrder = WireOrder(
    id: string, userId: string, symbol: string, side: Side, kind: OrderType, price: Double,
    quantity: Double, filledQuantity: Double, status: OrderStatus, timestamp: int,
    stopPrice: Option<Double>, displayQty: Option<Double>, hiddenQty: Option<Double>, trailingDelta: Option<Double>)

  const BUFFER_SIZE := 156

  predicate Ascii(s: string) {
    forall i :: 0 <= i < |s| ==> s[i] as int < 128
  }

  /** What the codec is for: ASCII texts, and a time stamp that a number holds exactly. */
  predicate Encodable(o: WireOrder) {
    Ascii(o.id) && Ascii(o.userId) && Ascii(o.symbol) && -TWO_53 <= o.timestamp <= TWO_53
  }

  // ---------- numbers and texts as bytes ----------

  /** Little-endian bytes of a number. */
  function Le(v: nat, n: nat): (b: seq<byte>)
    ensures |b| == n
  {
    if n == 0 then [] else [(v % 256) as byte] + Le(v / 256, n - 1)
  }

  function FromLe(b: seq<byte>): nat {
    if b == [] then 0 else b[0] as nat + 256 * FromLe(b[1..])
  }

  function Pow256(n: nat): nat {
    if n == 0 then 1 else 256 * Pow256(n - 1)
  }

  lemma {:induction false} LeRoundTrip(v: nat, n: nat)
    requires v < Pow256(n)
    ensures FromLe(Le(v, n)) == v
  {
    if n > 0 {
      assert v / 256 < Pow256(n - 1);
      LeRoundTrip(v / 256, n - 1);
      assert Le(v, n)[1..] == Le(v / 256, n - 1);
    }
  }

  lemma Pow256Of8()
    ensures Pow256(8) == TWO_64
  {
    assert Pow256(4) == 0x1_0000_0000;
    assert Pow256(8) == 256 * (256 * (256 * (256 * Pow256(4))));
  }

  /** Two's complement of a signed 64-bit number. */
  function Unsigned(v: int): nat
    requires -TWO_63 <= v < TWO_63
  {
    if v >= 0 then v else v + TWO_64
  }

  function Signed(v: nat): int {
    if v >= TWO_63 then v - TWO_64 else v
  }

  function Zeros(n: nat): (b: seq<byte>)
    ensures |b| == n && forall i :: 0 <= i < n ==> b[i] == 0
  {
    seq(n, i => 0)
  }

  function BytesOf(s: string): (b: seq<byte>)
    requires Ascii(s)
    ensures |b| == |s|
  {
    seq(|s|, i requires 0 <= i < |s| => s[i] as int as byte)
  }

  function TextOf(b: seq<byte>): (s: string)
    ensures |s| == |b|
  {
    seq(|b|, i requires 0 <= i < |b| => b[i] as int as char)
  }

  function Take(s: string, n: nat): string {
    if |s| <= n then s else s[..n]
  }

  /** Without trailing NULs. */
  function Trim(s: string): string {
    if s != [] && s[|s| - 1] as int == 0 then Trim(s[..|s| - 1]) else s
  }

  /** A text of at most `limit` characters in a field of `width` bytes. */
  function TextField(s: string, limit: nat, width: nat): (b: seq<byte>)
    requires Ascii(s) && limit <= width
    ensures |b| == width
  {
    BytesOf(Take(s, limit)) + Zeros(width - |Take(s, limit)|)
  }

  // ---------- layout ----------

  function SideCode(s: Side): byte { if s == BUY then 0 else 1 }

  function KindCode(k: OrderType): byte {
    match k
    case LIMIT => 0
    case MARKET => 1
    case STOP_LOSS => 2
    case ICEBERG => 3
    case TRAILING_STOP => 4
    case FILL_OR_KILL => 5
  }

  function KindOf(b: byte): OrderType {
    if b == 1 then MARKET else if b == 2 then STOP_LOSS else if b == 3 then ICEBERG
    else if b == 4 then TRAILING_STOP else if b == 5 then FILL_OR_KILL else LIMIT
  }

  function StatusCode(s: OrderStatus): byte {
    match s
    case PENDING => 0
    case OPEN => 1
    case PARTIALLY_FILLED => 2
    case FILLED => 3
    case CANCELLED => 4
  }

  function StatusOf(b: byte): OrderStatus {
    if b == 0 then PENDING else if b == 2 then PARTIALLY_FILLED else if b == 3 then FILLED
    else if b == 4 then CANCELLED else OPEN
  }

  function Flag(present: bool, weight: byte): byte {
    if present then weight else 0
  }

  /** One bit per optional field; the weights are distinct powers of two. */
  function Flags(o: WireOrder): byte {
    (Flag(o.stopPrice.Some?, 1) + Flag(o.displayQty.Some?, 2))
        + (Flag(o.hiddenQty.Some?, 4) + Flag(o.trailingDelta.Some?, 8))
  }

  predicate HasFlag(flags: byte, weight: byte)
    requires weight > 0
  {
    (flags / weight) % 2 == 1
  }

  function OrZero(d: Option<Double>): Double {
    if d.Some? then d.value else 0
  }

  /** The fields in order. */
  function Fields(o: WireOrder): (f: seq<seq<byte>>)
    requires Encodable(o)
    ensures |f| == |WIDTHS|
  {
    [ Le(Unsigned(o.timestamp), 8), [SideCode(o.side)], [KindCode(o.kind)], [StatusCode(o.status)], [Flags(o)],
      Le(o.price, 8), Le(o.quantity, 8), Le(o.filledQuantity, 8),
      Le(OrZero(o.stopPrice), 8), Le(OrZero(o.displayQty), 8), Le(OrZero(o.hiddenQty), 8),
          Le(OrZero(o.trailingDelta), 8),
      TextField(o.symbol, 15, 16), TextField(o.id, 36, 36), TextField(o.userId, 36, 36) ]
  }

  const WIDTHS: seq<nat> := [8, 1, 1, 1, 1, 8, 8, 8, 8, 8, 8, 8, 16, 36, 36]
  const OFFSETS: seq<nat> := [0, 8, 9, 10, 11, 12, 20, 28, 36, 44, 52, 60, 68, 84, 120, 156]

  function Concat(f: seq<seq<byte>>): seq<byte> {
    if f == [] then [] else Concat(f[..|f| - 1]) + f[|f| - 1]
  }

  /** The encoded order. */
  function Layout(o: WireOrder): seq<byte>
    requires Encodable(o)
  {
    Concat(Fields(o))
  }

  lemma FieldWidths(o: WireOrder)
    requires Encodable(o)
    ensures forall k :: 0 <= k < |WIDTHS| ==> |Fields(o)[k]| == WIDTHS[k]
  {
    hide Le, TextField, Flags;
  }

  lemma OffsetsFollow()
    ensures |OFFSETS| == |WIDTHS| + 1 && OFFSETS[0] == 0 && OFFSETS[|WIDTHS|] == BUFFER_SIZE
    ensures forall k :: 0 <= k < |WIDTHS| ==> OFFSETS[k + 1] == OFFSETS[k] + WIDTHS[k]
  {
  }

  /** Field by field the offsets follow the widths: fields are disjoint and fill the buffer. */
  lemma {:induction false} FieldsFill(o: WireOrder, k: nat)
    requires Encodable(o) && k <= |WIDTHS|
    ensures |OFFSETS| == |WIDTHS| + 1 && OFFSETS[|WIDTHS|] == BUFFER_SIZE
    ensures |Concat(Fields(o)[..k])| == OFFSETS[k]
  {
    hide Le, TextField, Flags, Fields;
    OffsetsFollow();
    if k > 0 {
      FieldsFill(o, k - 1);
      FieldWidths(o);
      assert Fields(o)[..k][..k - 1] == Fields(o)[..k - 1];
    }
  }

  lemma {:induction false} FieldAt(f: seq<seq<byte>>, k: nat)
    requires k < |f|
    ensures |Concat(f[..k])| + |f[k]| == |Concat(f[..k + 1])| <= |Concat(f)|
    ensures Concat(f)[|Concat(f[..k])|..|Concat(f[..k + 1])|] == f[k]
  {
    assert f[..k + 1][..k] == f[..k];
    if k + 1 < |f| {
      var g := f[..|f| - 1];
      FieldAt(g, k);
      assert g[..k] == f[..k] && g[..k + 1] == f[..k + 1];
    } else {
      assert f[..k + 1] == f;
    }
  }

  // ---------- reading back ----------

  lemma {:induction false} FromLeBound(b: seq<byte>)
    ensures FromLe(b) < Pow256(|b|)
  {
    if b != [] {
      FromLeBound(b[1..]);
    }
  }

  function ReadDouble(b: seq<byte>): Double
    requires |b| == 8
  {
    FromLeBound(b);
    Pow256Of8();
    FromLe(b)
  }

  function ReadOptional(flags: byte, weight: byte, b: seq<byte>): Option<Double>
    requires weight > 0 && |b| == 8
  {
    if HasFlag(flags, weight) then Some(ReadDouble(b)) else None
  }

  function Decode(buf: seq<byte>): WireOrder
    requires |buf| == BUFFER_SIZE
  {
    WireOrder(
      Trim(TextOf(buf[84..120])), Trim(TextOf(buf[120..156])), Trim(TextOf(buf[68..84])),
      if buf[8] == 0 then BUY else SELL, KindOf(buf[9]),
      ReadDouble(buf[12..20]), ReadDouble(buf[20..28]), ReadDouble(buf[28..36]),
      StatusOf(buf[10]), Signed(FromLe(buf[0..8])),
      ReadOptional(buf[11], 1, buf[36..44]), ReadOptional(buf[11], 2, buf[44..52]),
      ReadOptional(buf[11], 4, buf[52..60]), ReadOptional(buf[11], 8, buf[60..68]))
  }

  lemma FlagsRead(o: WireOrder)
    ensures HasFlag(Flags(o), 1) <==> o.stopPrice.Some?
    ensures HasFlag(Flags(o), 2) <==> o.displayQty.Some?
    ensures HasFlag(Flags(o), 4) <==> o.hiddenQty.Some?
    ensures HasFlag(Flags(o), 8) <==> o.trailingDelta.Some?
  {
  }

  lemma CodesRead(o: WireOrder)
    ensures (SideCode(o.side) == 0 <==> o.side == BUY) && KindOf(KindCode(o.kind)) == o.kind
            && StatusOf(StatusCode(o.status)) == o.status
  {
  }

  lemma DoubleRead(d: Double)
    ensures ReadDouble(Le(d, 8)) == d
  {
    Pow256Of8();
    LeRoundTrip(d, 8);
  }

  lemma TimestampRead(t: int)
    requires -TWO_53 <= t <= TWO_53
    ensures Signed(FromLe(Le(Unsigned(t), 8))) == t
  {
    Pow256Of8();
    LeRoundTrip(Unsigned(t), 8);
  }

  lemma {:induction false} TrimPadding(s: string, b: seq<byte>)
    requires forall i :: 0 <= i < |b| ==> b[i] == 0
    ensures Trim(s + TextOf(b)) == Trim(s)
  {
    if b == [] {
      assert s + TextOf(b) == s;
    } else {
      var c := b[..|b| - 1];
      assert (s + TextOf(b))[..|s| + |b| - 1] == s + TextOf(c);
      TrimPadding(s, c);
    }
  }

  lemma TextRead(s: string, limit: nat, width: nat)
    requires Ascii(s) && limit <= width
    ensures Trim(TextOf(TextField(s, limit, width))) == Trim(Take(s, limit))
  {
    var t := Take(s, limit);
    assert TextOf(TextField(s, limit, width)) == t + TextOf(Zeros(width - |t|));
    TrimPadding(t, Zeros(width - |t|));
  }

  /** Each field is found at its offset. */
  lemma FieldRead(o: WireOrder, k: nat)
    requires Encodable(o) && k < |WIDTHS|
    ensures |Layout(o)| == BUFFER_SIZE && OFFSETS[k] <= OFFSETS[k + 1] <= BUFFER_SIZE
    ensures Layout(o)[OFFSETS[k]..OFFSETS[k + 1]] == Fields(o)[k]
  {
    var f := Fields(o);
    FieldsFill(o, k);
    FieldsFill(o, k + 1);
    FieldsFill(o, |WIDTHS|);
    assert f[..|f|] == f;
    FieldAt(f, k);
  }

  lemma OneByte(b: seq<byte>, i: nat, v: byte)
    requires i < |b| && b[i..i + 1] == [v]
    ensures b[i] == v
  {
    assert b[i..i + 1][0] == v;
  }

  lemma HeaderRead(o: WireOrder)
    requires Encodable(o)
    ensures var b := Layout(o);
            && |b| == BUFFER_SIZE && b[0..8] == Le(Unsigned(o.timestamp), 8)
            && b[8] == SideCode(o.side) && b[9] == KindCode(o.kind) && b[10] == StatusCode(o.status)
            && b[11] == Flags(o)
  {
    var b := Layout(o);
    FieldRead(o, 0);
    FieldRead(o, 1);
    FieldRead(o, 2);
    FieldRead(o, 3);
    FieldRead(o, 4);
    hide Le, Concat, TextField, Flags;
    OneByte(b, 8, SideCode(o.side));
    OneByte(b, 9, KindCode(o.kind));
    OneByte(b, 10, StatusCode(o.status));
    OneByte(b, 11, Flags(o));
  }

  lemma DoublesRead(o: WireOrder)
    requires Encodable(o)
    ensures var b := Layout(o);
            && |b| == BUFFER_SIZE && b[12..20] == Le(o.price, 8) && b[20..28] == Le(o.quantity, 8)
            && b[28..36] == Le(o.filledQuantity, 8)
            && b[36..44] == Le(OrZero(o.stopPrice), 8) && b[44..52] == Le(OrZero(o.displayQty), 8)
            && b[52..60] == Le(OrZero(o.hiddenQty), 8) && b[60..68] == Le(OrZero(o.trailingDelta), 8)
  {
    hide Le, Concat, TextField, Flags;
    FieldRead(o, 5);
    FieldRead(o, 6);
    FieldRead(o, 7);
    FieldRead(o, 8);
    FieldRead(o, 9);
    FieldRead(o, 10);
    FieldRead(o, 11);
  }

  lemma TextsRead(o: WireOrder)
    requires Encodable(o)
    ensures var b := Layout(o);
            && |b| == BUFFER_SIZE && b[68..84] == TextField(o.symbol, 15, 16)
            && b[84..120] == TextField(o.id, 36, 36) && b[120..156] == TextField(o.userId, 36, 36)
  {
    hide Le, Concat, TextField, Flags;
    FieldRead(o, 12);
    FieldRead(o, 13);
    FieldRead(o, 14);
  }

  lemma OptionalRead(d: Option<Double>, flags: byte, weight: byte)
    requires weight > 0 && (HasFlag(flags, weight) <==> d.Some?)
    ensures ReadOptional(flags, weight, Le(OrZero(d), 8)) == d
  {
    DoubleRead(OrZero(d));
  }

  // ---------- byte by byte ----------

  lemma {:induction false} LeAt(v: nat, n: nat, i: nat)
    requires i < n
    ensures Pow256(i) > 0 && Le(v, n)[i] as int == (v / Pow256(i)) % 256
  {
    Pow256Positive(i);
    if i > 0 {
      Pow256Positive(i - 1);
      LeAt(v / 256, n - 1, i - 1);
      DivideTwice(v, Pow256(i - 1));
    }
  }

  lemma {:induction false} Pow256Positive(n: nat)
    ensures Pow256(n) > 0
  {
    if n > 0 {
      Pow256Positive(n - 1);
    }
  }

  lemma DivideTwice(v: nat, b: nat)
    requires b > 0
    ensures (v / 256) / b == v / (256 * b)
  {
    var (q, r) := (v / 256, v % 256);
    var (p, t) := (q / b, q % b);
    assert q == b * p + t && t < b;
    assert v == 256 * b * p + (256 * t + r);
    Quotient(v, 256 * b, p, 256 * t + r);
  }

  lemma Quotient(v: nat, d: nat, q: nat, r: nat)
    requires d > 0 && v == d * q + r && r < d
    ensures v / d == q
  {
    var (p, t) := (v / d, v % d);
    assert v == d * p + t && t < d;
    Apart(d, p, q);
    Apart(d, q, p);
  }

  /** Multiples of different numbers are at least `d` apart. */
  lemma Apart(d: nat, p: nat, q: nat)
    ensures p < q ==> d * p + d <= d * q
  {
    if p < q {
      assert d * q == d * (p + 1) + d * (q - p - 1);
    }
  }

  /** Eight bytes that hold a number with its low byte first. */
  predicate Holds(b: seq<byte>, offset: nat, v: nat)
    requires offset + 8 <= |b|
  {
    forall i :: 0 <= i < 8 ==> Pow256(i) > 0 && b[offset + i] as int == (v / Pow256(i)) % 256
  }

  lemma HoldsLe(b: seq<byte>, offset: nat, v: nat)
    requires offset + 8 <= |b| && b[offset..offset + 8] == Le(v, 8)
    ensures Holds(b, offset, v)
  {
    forall i | 0 <= i < 8 ensures Pow256(i) > 0 && b[offset + i] as int == (v / Pow256(i)) % 256 {
      LeAt(v, 8, i);
      assert b[offset + i] == b[offset..offset + 8][i];
    }
  }

  /** Bytes that hold the characters of a text, as far as it and they go, and then zeroes. */
  predicate HoldsText(b: seq<byte>, offset: nat, limit: nat, width: nat, s: string)
    requires limit <= width && offset + width <= |b|
  {
    forall i :: 0 <= i < width ==> b[offset + i] as int == if i < limit && i < |s| then s[i] as int else 0
  }

  lemma HoldsField(b: seq<byte>, offset: nat, limit: nat, width: nat, s: string)
    requires Ascii(s) && limit <= width && offset + width <= |b|
             && b[offset..offset + width] == TextField(s, limit, width)
    ensures HoldsText(b, offset, limit, width, s)
  {
    forall i | 0 <= i < width ensures b[offset + i] as int == if i < limit && i < |s| then s[i] as int else 0 {
      assert b[offset + i] == b[offset..offset + width][i];
    }
  }

  /** The header of an encoded order: the time stamp, and the codes of its side,
      type and status. */
  lemma HeaderBytes(o: WireOrder)
    requires Encodable(o)
    ensures var b := Layout(o);
            && |b| == 156 && Holds(b, 0, if o.timestamp >= 0 then o.timestamp else o.timestamp + TWO_64)
            && (o.side == BUY ==> b[8] == 0) && (o.side == SELL ==> b[8] == 1)
            && (o.kind == LIMIT ==> b[9] == 0) && (o.kind == MARKET ==> b[9] == 1)
            && (o.kind == STOP_LOSS ==> b[9] == 2) && (o.kind == ICEBERG ==> b[9] == 3)
            && (o.kind == TRAILING_STOP ==> b[9] == 4) && (o.kind == FILL_OR_KILL ==> b[9] == 5)
            && (o.status == PENDING ==> b[10] == 0) && (o.status == OPEN ==> b[10] == 1)
            && (o.status == PARTIALLY_FILLED ==> b[10] == 2) && (o.status == FILLED ==> b[10] == 3)
            && (o.status == CANCELLED ==> b[10] == 4)
  {
    hide Layout, Le, Flags, Holds;
    HeaderRead(o);
    HoldsLe(Layout(o), 0, Unsigned(o.timestamp));
  }

  /** The flags and the amounts of an encoded order, an absent one written as zero. */
  lemma AmountBytes(o: WireOrder)
    requires Encodable(o)
    ensures var b := Layout(o);
            && |b| == 156 && b[11] < 16
            && (b[11] % 2 == 1 <==> o.stopPrice.Some?) && (b[11] / 2 % 2 == 1 <==> o.displayQty.Some?)
            && (b[11] / 4 % 2 == 1 <==> o.hiddenQty.Some?) && (b[11] / 8 == 1 <==> o.trailingDelta.Some?)
            && Holds(b, 12, o.price) && Holds(b, 20, o.quantity) && Holds(b, 28, o.filledQuantity)
            && Holds(b, 36, if o.stopPrice.Some? then o.stopPrice.value else 0)
            && Holds(b, 44, if o.displayQty.Some? then o.displayQty.value else 0)
            && Holds(b, 52, if o.hiddenQty.Some? then o.hiddenQty.value else 0)
            && Holds(b, 60, if o.trailingDelta.Some? then o.trailingDelta.value else 0)
  {
    hide Layout, Le, Holds;
    HeaderRead(o);
    DoublesRead(o);
    var b := Layout(o);
    HoldsLe(b, 12, o.price);
    HoldsLe(b, 20, o.quantity);
    HoldsLe(b, 28, o.filledQuantity);
    HoldsLe(b, 36, OrZero(o.stopPrice));
    HoldsLe(b, 44, OrZero(o.displayQty));
    HoldsLe(b, 52, OrZero(o.hiddenQty));
    HoldsLe(b, 60, OrZero(o.trailingDelta));
  }

  /** The texts of an encoded order, each from the beginning of its field. */
  lemma TextBytes(o: WireOrder)
    requires Encodable(o)
    ensures var b := Layout(o);
            && |b| == 156 && HoldsText(b, 68, 15, 16, o.symbol)
            && HoldsText(b, 84, 36, 36, o.id) && HoldsText(b, 120, 36, 36, o.userId)
  {
    hide Layout, TextField, HoldsText;
    TextsRead(o);
    HoldsField(Layout(o), 68, 15, 16, o.symbol);
    HoldsField(Layout(o), 84, 36, 36, o.id);
    HoldsField(Layout(o), 120, 36, 36, o.userId);
  }

  /** Decoding what was encoded: every field comes back, texts cut to their
      field and without trailing NULs. */
  lemma DecodeLayout(o: WireOrder)
    requires Encodable(o)
    ensures |Layout(o)| == BUFFER_SIZE
    ensures Decode(Layout(o)) == o.(symbol := Trim(Take(o.symbol, 15)), id := Trim(Take(o.id, 36)),
                                    userId := Trim(Take(o.userId, 36)))
  {
    HeaderRead(o);
    DoublesRead(o);
    TextsRead(o);
    hide Le, Layout, TextField, Flags, HasFlag, FromLe, Take, Trim, Unsigned, Signed, ReadDouble, KindOf, StatusOf,
         ReadOptional;
    FlagsRead(o);
    CodesRead(o);
    TimestampRead(o.timestamp);
    DoubleRead(o.price);
    DoubleRead(o.quantity);
    DoubleRead(o.filledQuantity);
    OptionalRead(o.stopPrice, Flags(o), 1);
    OptionalRead(o.displayQty, Flags(o), 2);
    OptionalRead(o.hiddenQty, Flags(o), 4);
    OptionalRead(o.trailingDelta, Flags(o), 8);
    TextRead(o.symbol, 15, 16);
    TextRead(o.id, 36, 36);
    TextRead(o.userId, 36, 36);
  }

  /** Decoding never fails: a code that no side, type or status has reads as a
      SELL, a LIMIT order or an OPEN one. */
  lemma UnknownCodes(buf: seq<byte>)
    requires |buf| == BUFFER_SIZE
    ensures Decode(buf).side == BUY <==> buf[8] == 0
    ensures buf[9] > 5 ==> Decode(buf).kind == LIMIT
    ensures buf[10] > 4 ==> Decode(buf).status == OPEN
  {
    hide TextOf, Trim, ReadDouble, ReadOptional, FromLe, Signed;
  }

  /** A text its field can hold and give back. */
  predicate Fits(s: string, limit: nat) {
    |s| <= limit && (s == [] || s[|s| - 1] as int != 0)
  }

  lemma {:induction false} TrimShortens(s: string)
    ensures |Trim(s)| <= |s| && (Trim(s) == s <==> Fits(s, |s|))
  {
    if s != [] && s[|s| - 1] as int == 0 {
      TrimShortens(s[..|s| - 1]);
    }
  }

  lemma FitsExactly(s: string, limit: nat)
    ensures Trim(Take(s, limit)) == s <==> Fits(s, limit)
  {
    TrimShortens(Take(s, limit));
  }

  /** The round trip gives the order back, whatever optional fields it has,
      exactly when symbol and ids fit their fields and end in no NUL. */
  lemma RoundTripExactly(o: WireOrder)
    requires Encodable(o)
    ensures |Layout(o)| == BUFFER_SIZE
    ensures Decode(Layout(o)) == o <==> Fits(o.symbol, 15) && Fits(o.id, 36) && Fits(o.userId, 36)
  {
    DecodeLayout(o);
    FitsExactly(o.symbol, 15);
    FitsExactly(o.id, 36);
    FitsExactly(o.userId, 36);
    hide Trim, Take, Fits, Layout, Decode;
  }

  /** The id of an iceberg slice is its parent's id with more behind it: when the
      parent's fills its field, as a 36-character id does, the slice's is cut and
      never comes back. */
  lemma SliceIdsAreCut(o: WireOrder, parent: string, suffix: string)
    requires Encodable(o) && o.id == parent + suffix && |parent| == 36 && suffix != ""
    ensures |Layout(o)| == BUFFER_SIZE && Decode(Layout(o)) != o
  {
    hide Layout, Decode;
    RoundTripExactly(o);
  }

  // ---------- writing in place ----------

  /** A buffer in which the first `k` fields are written and the rest is zero. */
  ghost predicate Upto(b: seq<byte>, o: WireOrder, k: nat)
    requires Encodable(o) && k <= |WIDTHS| && |OFFSETS| == |WIDTHS| + 1
  {
    && |b| == BUFFER_SIZE && OFFSETS[k] <= BUFFER_SIZE
    && b[..OFFSETS[k]] == Concat(Fields(o)[..k])
    && forall i :: OFFSETS[k] <= i < BUFFER_SIZE ==> b[i] == 0
  }

  /** Bytes of the next field, or of its beginning when the rest of it is zero. */
  ghost predicate Starts(bytes: seq<byte>, field: seq<byte>) {
    |bytes| <= |field| && field == bytes + Zeros(|field| - |bytes|)
  }

  function Overwritten(b: seq<byte>, offset: nat, bytes: seq<byte>): seq<byte>
    requires offset + |bytes| <= |b|
  {
    b[..offset] + bytes + b[offset + |bytes|..]
  }

  lemma NextField(b: seq<byte>, o: WireOrder, k: nat, bytes: seq<byte>)
    requires Encodable(o) && k < |WIDTHS| && |OFFSETS| == |WIDTHS| + 1 && Upto(b, o, k) && Starts(bytes, Fields(o)[k])
    ensures OFFSETS[k] + |bytes| <= |b| && Upto(Overwritten(b, OFFSETS[k], bytes), o, k + 1)
  {
    hide Fields, Le, TextField, Overwritten, Starts;
    OffsetsFollow();
    FieldWidths(o);
    FieldsFill(o, k);
    FieldsFill(o, k + 1);
    ZeroesOverwritten(b, OFFSETS[k], bytes, Fields(o)[k]);
    assert Fields(o)[..k + 1][..k] == Fields(o)[..k];
  }

  /** Bytes that start a field, written over the zeroes behind a prefix, make the field. */
  lemma ZeroesOverwritten(b: seq<byte>, p: nat, bytes: seq<byte>, f: seq<byte>)
    requires Starts(bytes, f) && p + |f| <= |b| && forall i :: p <= i < |b| ==> b[i] == 0
    ensures p + |bytes| <= |b|
    ensures var c := Overwritten(b, p, bytes);
            |c| == |b| && c[..p + |f|] == b[..p] + f && forall i :: p + |f| <= i < |b| ==> c[i] == 0
  {
    var c := Overwritten(b, p, bytes);
    assert b[p + |bytes|..p + |f|] == Zeros(|f| - |bytes|);
    assert c[p + |bytes|..p + |f|] == b[p + |bytes|..p + |f|];
  }

  lemma WholeStarts(field: seq<byte>)
    ensures Starts(field, field)
  {
  }

  /** Write bytes at an offset. */
  method WriteBytes(buf: array<byte>, offset: nat, bytes: seq<byte>)
    requires offset + |bytes| <= buf.Length
    modifies buf
    ensures buf[..] == Overwritten(old(buf[..]), offset, bytes)
  {
    for i := 0 to |bytes|
      invariant forall j :: 0 <= j < i ==> buf[offset + j] == bytes[j]
      invariant forall j :: 0 <= j < buf.Length && !(offset <= j < offset + i) ==> buf[j] == old(buf[j])
    {
      buf[offset + i] := bytes[i];
    }
  }

  /** Write a number in little-endian order. */
  method WriteLe(buf: array<byte>, offset: nat, value: nat, size: nat)
    requires offset + size <= buf.Length
    modifies buf
    ensures buf[..] == Overwritten(old(buf[..]), offset, Le(value, size))
  {
    var rest := value;
    for i := 0 to size
      invariant forall j :: 0 <= j < buf.Length && !(offset <= j < offset + i) ==> buf[j] == old(buf[j])
      invariant forall j :: 0 <= j < i ==> buf[offset + j] == Le(value, size)[j]
      invariant Le(value, size)[i..] == Le(rest, size - i)
    {
      assert Le(value, size)[i] == Le(rest, size - i)[0] && Le(value, size)[i + 1..] == Le(rest, size - i)[1..];
      buf[offset + i] := (rest % 256) as byte;
      rest := rest / 256;
    }
  }

  method WriteField(buf: array<byte>, ghost o: WireOrder, ghost k: nat, offset: nat, bytes: seq<byte>)
    requires Encodable(o) && k < |WIDTHS| && |OFFSETS| == |WIDTHS| + 1 && Upto(buf[..], o, k)
    requires offset == OFFSETS[k] && Starts(bytes, Fields(o)[k])
    modifies buf
    ensures Upto(buf[..], o, k + 1)
  {
    hide Upto, Starts, Fields;
    NextField(buf[..], o, k, bytes);
    WriteBytes(buf, offset, bytes);
  }

  method WriteNumber(buf: array<byte>, ghost o: WireOrder, ghost k: nat, offset: nat, value: nat)
    requires Encodable(o) && k < |WIDTHS| && |OFFSETS| == |WIDTHS| + 1 && Upto(buf[..], o, k)
    requires offset == OFFSETS[k] && Le(value, 8) == Fields(o)[k]
    modifies buf
    ensures Upto(buf[..], o, k + 1)
  {
    WholeStarts(Le(value, 8));
    hide Upto, Starts, Fields;
    NextField(buf[..], o, k, Le(value, 8));
    WriteLe(buf, offset, value, 8);
  }

  method WriteText(buf: array<byte>, ghost o: WireOrder, ghost k: nat, offset: nat, s: string, limit: nat)
    requires Encodable(o) && k < |WIDTHS| && |OFFSETS| == |WIDTHS| + 1 && Upto(buf[..], o, k) && Ascii(s)
    requires offset == OFFSETS[k] && limit <= WIDTHS[k] && Fields(o)[k] == TextField(s, limit, WIDTHS[k])
    modifies buf
    ensures Upto(buf[..], o, k + 1)
  {
    WriteField(buf, o, k, offset, BytesOf(Take(s, limit)));
  }

  /** Fill a zeroed buffer field by field. */
  method Encode(o: WireOrder) returns (buf: array<byte>)
    requires Encodable(o)
    ensures fresh(buf) && buf[..] == Layout(o)
  {
    hide Upto, Starts, Concat, Fields;
    buf := new byte[BUFFER_SIZE](i => 0);
    NothingWritten(buf[..], o);
    WriteHeader(buf, o);
    WriteAmounts(buf, o);
    WriteTexts(buf, o);
    AllWritten(buf[..], o);
  }

  lemma HeaderFields(o: WireOrder)
    requires Encodable(o)
    ensures |Fields(o)| == |WIDTHS|
    ensures Fields(o)[0] == Le(Unsigned(o.timestamp), 8) && Fields(o)[1] == [SideCode(o.side)]
    ensures Fields(o)[2] == [KindCode(o.kind)] && Fields(o)[3] == [StatusCode(o.status)] && Fields(o)[4] == [Flags(o)]
  {
  }

  method WriteHeader(buf: array<byte>, o: WireOrder)
    requires Encodable(o) && |OFFSETS| == |WIDTHS| + 1 && Upto(buf[..], o, 0)
    modifies buf
    ensures Upto(buf[..], o, 5)
  {
    hide Upto, Starts, Concat, Le, TextField, Flags, Fields, Unsigned, SideCode, KindCode, StatusCode;
    HeaderFields(o);
    WriteNumber(buf, o, 0, 0, Unsigned(o.timestamp));
    WriteByte(buf, o, 1, 8, SideCode(o.side));
    WriteByte(buf, o, 2, 9, KindCode(o.kind));
    WriteByte(buf, o, 3, 10, StatusCode(o.status));
    var flags := FlagsOf(o);
    WriteByte(buf, o, 4, 11, flags);
  }

  method WriteAmounts(buf: array<byte>, o: WireOrder)
    requires Encodable(o) && |OFFSETS| == |WIDTHS| + 1 && Upto(buf[..], o, 5)
    modifies buf
    ensures Upto(buf[..], o, 12)
  {
    hide Upto, Starts, Concat, Le, TextField, Flags;
    WriteNumber(buf, o, 5, 12, o.price);
    WriteNumber(buf, o, 6, 20, o.quantity);
    WriteNumber(buf, o, 7, 28, o.filledQuantity);
    WriteNumber(buf, o, 8, 36, OrZero(o.stopPrice));
    WriteNumber(buf, o, 9, 44, OrZero(o.displayQty));
    WriteNumber(buf, o, 10, 52, OrZero(o.hiddenQty));
    WriteNumber(buf, o, 11, 60, OrZero(o.trailingDelta));
  }

  method WriteTexts(buf: array<byte>, o: WireOrder)
    requires Encodable(o) && |OFFSETS| == |WIDTHS| + 1 && Upto(buf[..], o, 12)
    modifies buf
    ensures Upto(buf[..], o, 15)
  {
    hide Upto, Starts, Concat, Le, TextField, Flags;
    WriteText(buf, o, 12, 68, o.symbol, 15);
    WriteText(buf, o, 13, 84, o.id, 36);
    WriteText(buf, o, 14, 120, o.userId, 36);
  }

  method WriteByte(buf: array<byte>, ghost o: WireOrder, ghost k: nat, offset: nat, value: byte)
    requires Encodable(o) && k < |WIDTHS| && |OFFSETS| == |WIDTHS| + 1 && Upto(buf[..], o, k)
    requires offset == OFFSETS[k] && [value] == Fields(o)[k]
    modifies buf
    ensures Upto(buf[..], o, k + 1)
  {
    WholeStarts([value]);
    WriteField(buf, o, k, offset, [value]);
  }

  /** Accumulate one flag per optional field that is present. */
  method FlagsOf(o: WireOrder) returns (flags: byte)
    ensures flags == Flags(o)
    ensures (HasFlag(flags, 1) <==> o.stopPrice.Some?) && (HasFlag(flags, 2) <==> o.displayQty.Some?)
    ensures (HasFlag(flags, 4) <==> o.hiddenQty.Some?) && (HasFlag(flags, 8) <==> o.trailingDelta.Some?)
  {
    FlagsRead(o);
    flags := 0;
    if o.stopPrice.Some? { flags := flags + 1; }
    if o.displayQty.Some? { flags := flags + 2; }
    if o.hiddenQty.Some? { flags := flags + 4; }
    if o.trailingDelta.Some? { flags := flags + 8; }
  }

  lemma NothingWritten(b: seq<byte>, o: WireOrder)
    requires Encodable(o) && |b| == BUFFER_SIZE && forall i :: 0 <= i < |b| ==> b[i] == 0
    ensures |OFFSETS| == |WIDTHS| + 1 && Upto(b, o, 0)
  {
    OffsetsFollow();
    hide Fields;
    assert b[..0] == [];
  }

  lemma AllWritten(b: seq<byte>, o: WireOrder)
    requires Encodable(o) && |OFFSETS| == |WIDTHS| + 1 && Upto(b, o, |WIDTHS|)
    ensures b == Layout(o)
  {
    OffsetsFollow();
    hide Concat;
    var f := Fields(o);
    assert f[..|f|] == f && b[..BUFFER_SIZE] == b;
  }
}
