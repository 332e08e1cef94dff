/** Byte encodings of what a merchant signs: length-prefixed fields, XDR strings
    and 128-bit amounts, each with the reader that undoes it. */
module Encoding {
  import opened Common

  type Byte = x: int | 0 <= x < 256
  type Bytes = seq<Byte>

  const TWO_127: int := 0x8000_0000_0000_0000_0000_0000_0000_0000
  const TWO_128: int := 0x1_0000_0000_0000_0000_0000_0000_0000_0000

  type I128 = x: int | -TWO_127 <= x < TWO_127

  // ── Big-endian integers ───────────────────────────────────────────────────

  function Pow256(n: nat): (p: nat)
    ensures p >= 1
  {
    if n == 0 then 1 else 256 * Pow256(n - 1)
  }

  /** The lowest `width` bytes of `n`, the most significant first. */
  function ToBE(n: int, width: nat): (b: Bytes)
    ensures |b| == width
    decreases width
  {
    if width == 0 then [] else ToBE(n / 256, width - 1) + [n % 256]
  }

  function FromBE(b: Bytes): nat {
    if b == [] then 0 else 256 * FromBE(b[..|b| - 1]) + b[|b| - 1]
  }

  lemma AtLeast(m: int, d: int)
    requires m > 0 && d >= 1
    ensures m * d >= m
  {
  }

  lemma ModUnique(n: int, m: int, k: int, r: int)
    requires m > 0 && n == m * k + r && 0 <= r < m
    ensures n % m == r
  {
    var q := n / m;
    assert n == m * q + n % m;
    assert m * (q - k) == r - n % m;
    if q > k {
      AtLeast(m, q - k);
    } else if q < k {
      assert m * (q - k) == -(m * (k - q));
      AtLeast(m, k - q);
    }
  }

  /** Reading back gives the integer modulo 256^width, negative ones included. */
  lemma {:induction false} FromTo(n: int, width: nat)
    ensures FromBE(ToBE(n, width)) == n % Pow256(width)
    decreases width
  {
    if width > 0 {
      var p := Pow256(width - 1);
      FromTo(n / 256, width - 1);
      assert ToBE(n, width)[..width - 1] == ToBE(n / 256, width - 1);
      OneMoreByte(n, p);
    }
  }

  lemma OneMoreByte(n: int, p: int)
    requires p > 0
    ensures n % (256 * p) == 256 * (n / 256 % p) + n % 256
  {
    var k, s := n / 256 / p, n / 256 % p;
    assert n / 256 == p * k + s;
    assert n == (256 * p) * k + (256 * s + n % 256);
    ModUnique(n, 256 * p, k, 256 * s + n % 256);
  }

  lemma {:induction false} ToFrom(b: Bytes)
    ensures FromBE(b) < Pow256(|b|) && ToBE(FromBE(b), |b|) == b
  {
    if b != [] {
      var front := b[..|b| - 1];
      ToFrom(front);
      assert FromBE(b) / 256 == FromBE(front) && FromBE(b) % 256 == b[|b| - 1];
      assert b == front + [b[|b| - 1]];
    }
  }

  /** The bytes stand in order of weight, the highest first. */
  lemma {:induction false} ByteAt(n: int, width: nat, i: nat)
    requires i < width
    ensures ToBE(n, width)[i] == n / Pow256(width - 1 - i) % 256
    decreases width
  {
    if i < width - 1 {
      ByteAt(n / 256, width - 1, i);
      DivideTwice(n, Pow256(width - 2 - i));
    }
  }

  lemma DivideTwice(n: int, p: int)
    requires p > 0
    ensures n / 256 / p == n / (256 * p)
  {
    var k, r, b := n / 256 / p, n / 256 % p, n % 256;
    assert n / 256 == p * k + r && n == 256 * (n / 256) + b;
    assert 256 * (p * k) == 256 * p * k;
    Quotient(n, 256 * p, k, 256 * r + b);
  }

  lemma Quotient(n: int, m: int, k: int, r: int)
    requires m > 0 && n == m * k + r && 0 <= r < m
    ensures n / m == k
  {
    ModUnique(n, m, k, r);
    assert n == m * (n / m) + n % m;
    assert m * (n / m - k) == 0;
  }

  /** A number below 256 is its last byte after zeros. */
  lemma {:induction false} SmallBE(n: int, width: nat)
    requires 0 <= n < 256
    ensures ToBE(n, width) == if width == 0 then [] else Zeros(width - 1) + [n]
    decreases width
  {
    if width > 0 {
      SmallBE(0, width - 1);
      assert width > 1 ==> Zeros(width - 2) + [0] == Zeros(width - 1);
    }
  }

  /** The integer bounds used throughout are those of 128, 64 and 32 bits. */
  lemma HostBounds()
    ensures I128_MAX == TWO_127 - 1 && 2 * TWO_127 == TWO_128 == Pow256(16)
    ensures U64_MAX + 1 == Pow256(8) && U32_MAX + 1 == Pow256(4)
  {
    Width16();
    Width4();
    assert Pow256(6) == 256 * 256 * Pow256(4);
    assert Pow256(8) == 256 * 256 * Pow256(6);
  }

  lemma Width4()
    ensures Pow256(4) == U32_MAX + 1
  {
    assert Pow256(2) == 65536;
    assert Pow256(3) == 256 * Pow256(2);
  }

  lemma Width16()
    ensures Pow256(16) == TWO_128
  {
    Width4();
    assert Pow256(6) == 256 * 256 * Pow256(4);
    assert Pow256(8) == 256 * 256 * Pow256(6);
    assert Pow256(10) == 256 * 256 * Pow256(8);
    assert Pow256(12) == 256 * 256 * Pow256(10);
    assert Pow256(14) == 256 * 256 * Pow256(12);
    assert Pow256(16) == 256 * 256 * Pow256(14);
  }

  // ── 128-bit amounts ───────────────────────────────────────────────────────

  /** The signed reading of a 16-byte field. */
  function SignedBE(b: Bytes): int {
    var u := FromBE(b);
    if u < TWO_127 then u else u - TWO_128
  }

  /** `amount` reduced to the 128-bit range. */
  function Wrapped(amount: int): (w: I128)
    ensures amount < -TWO_127 || amount >= TWO_127 <==> w != amount
  {
    var u := amount % TWO_128;
    if u < TWO_127 then u else u - TWO_128
  }

  lemma SignedOfBE(amount: int)
    ensures SignedBE(ToBE(amount, 16)) == Wrapped(amount)
  {
    FromTo(amount, 16);
    Width16();
  }

  lemma BEOfSigned(b: Bytes)
    requires |b| == 16
    ensures -TWO_127 <= SignedBE(b) < TWO_127 && ToBE(SignedBE(b), 16) == b
  {
    ToFrom(b);
    Width16();
    SameResidue(SignedBE(b), FromBE(b));
  }

  lemma SameResidue(a: int, u: int)
    requires a == u || a == u - TWO_128 || a == u + TWO_128
    ensures ToBE(a, 16) == ToBE(u, 16)
  {
    FromTo(a, 16);
    FromTo(u, 16);
    Width16();
    var k := u / TWO_128 + if a == u then 0 else if a < u then -1 else 1;
    ModUnique(a, TWO_128, k, u % TWO_128);
    ToFrom(ToBE(a, 16));
    ToFrom(ToBE(u, 16));
  }

  /** The client's byte loop. It is the two's complement of every 128-bit amount, and of
      no other one: a larger integer is silently reduced. */
  method AmountBuffer(amount: int) returns (buffer: array<Byte>)
    ensures fresh(buffer) && buffer.Length == 16 && buffer[..] == ToBE(amount, 16)
    ensures SignedBE(buffer[..]) == amount <==> -TWO_127 <= amount < TWO_127
  {
    hide Wrapped, SignedBE, FromBE;
    buffer := new Byte[16];
    var val := if amount < 0 then amount + TWO_128 else amount;
    ghost var start := val;
    var i := 15;
    while i >= 0
      invariant -1 <= i <= 15
      invariant ToBE(start, 16) == ToBE(val, i + 1) + buffer[i + 1..]
    {
      buffer[i] := val % 256;
      val := val / 256;
      i := i - 1;
    }
    assert buffer[0..] == buffer[..];
    SameResidue(amount, start);
    SignedOfBE(amount);
  }

  // ── Length-prefixed fields ────────────────────────────────────────────────

  function Prefixed(field: Bytes): Bytes {
    ToBE(|field|, 4) + field
  }

  /** The field at the start of `b`, and what follows it. */
  function TakeField(b: Bytes): Option<(Bytes, Bytes)> {
    if |b| < 4 then None else
    var n := FromBE(b[..4]);
    if |b| - 4 < n then None else Some((b[4..4 + n], b[4 + n..]))
  }

  lemma FrameReadBack(length: Bytes, field: Bytes, rest: Bytes)
    requires |length| == 4 && FromBE(length) == |field|
    ensures TakeField(length + field + rest) == Some((field, rest))
  {
    var b := length + field + rest;
    assert b[..4] == length;
    assert b[4..4 + |field|] == field;
    assert b[4 + |field|..] == rest;
  }

  lemma PrefixReadBack(field: Bytes, rest: Bytes)
    requires |field| <= U32_MAX
    ensures TakeField(Prefixed(field) + rest) == Some((field, rest))
  {
    Width4();
    FromTo(|field|, 4);
    FrameReadBack(ToBE(|field|, 4), field, rest);
  }

  lemma FieldRoundTrip(b: Bytes, field: Bytes, rest: Bytes)
    ensures TakeField(b) == Some((field, rest)) <==> |field| <= U32_MAX && b == Prefixed(field) + rest
  {
    if |field| <= U32_MAX {
      PrefixReadBack(field, rest);
    }
    if TakeField(b) == Some((field, rest)) {
      Width4();
      ToFrom(b[..4]);
      assert b == b[..4] + b[4..4 + |field|] + b[4 + |field|..];
    }
  }

  // ── XDR strings (section 4.11 of RFC 4506) ────────────────────────────────

  const SCV_STRING: int := 14

  function Padding(n: nat): nat {
    (4 - n % 4) % 4
  }

  function Zeros(n: nat): Bytes {
    seq(n, _ => 0)
  }

  /** Union tag, length, data, zero bytes up to a multiple of four. */
  function XdrString(s: Bytes): Bytes {
    ToBE(SCV_STRING, 4) + (Prefixed(s) + Zeros(Padding(|s|)))
  }

  /** The strict reader: right tag, exact length, only zero padding. */
  function ReadXdrString(b: Bytes): Option<Bytes> {
    if |b| < 4 || b[..4] != ToBE(SCV_STRING, 4) then None else
    match TakeField(b[4..])
    case None => None
    case Some((s, padding)) => if padding == Zeros(Padding(|s|)) then Some(s) else None
  }

  /** The form byte by byte: the tag 14, the length, the text, and fewer than four zeros that
      bring the whole to a multiple of four. */
  lemma XdrLayout(s: Bytes)
    ensures var b, n := XdrString(s), |s|;
      && |b| % 4 == 0 && 8 + n <= |b| < 8 + n + 4
      && b[..4] == [0, 0, 0, 14] && b[4..8] == ToBE(n, 4) && b[8..8 + n] == s
      && forall i :: 8 + n <= i < |b| ==> b[i] == 0
  {
    var length, zeros := ToBE(|s|, 4), Zeros(Padding(|s|));
    SmallBE(14, 4);
    assert XdrString(s) == ToBE(SCV_STRING, 4) + length + s + zeros;
    Padded(|s|);
  }

  lemma Padded(n: nat)
    ensures Padding(n) < 4 && (8 + n + Padding(n)) % 4 == 0
  {
  }

  lemma XdrRoundTrip(b: Bytes, s: Bytes)
    ensures ReadXdrString(b) == Some(s) <==> |s| <= U32_MAX && b == XdrString(s)
  {
    var tag := ToBE(SCV_STRING, 4);
    FieldRoundTrip(Prefixed(s) + Zeros(Padding(|s|)), s, Zeros(Padding(|s|)));
    assert XdrString(s)[..4] == tag && XdrString(s)[4..] == Prefixed(s) + Zeros(Padding(|s|));
    if ReadXdrString(b) == Some(s) {
      FieldRoundTrip(b[4..], s, Zeros(Padding(|s|)));
      assert b == b[..4] + b[4..];
    }
  }

  // ── The contract's canonical payload ──────────────────────────────────────

  function Payload(orderId: Bytes, amount: I128): Bytes {
    Prefixed(XdrString(orderId)) + Prefixed(ToBE(amount, 16))
  }

  /** Host byte strings hold at most U32_MAX bytes. */
  predicate Fits(orderId: Bytes) {
    |XdrString(orderId)| <= U32_MAX
  }

  function Decode(payload: Bytes): Option<(Bytes, I128)> {
    match TakeField(payload)
    case None => None
    case Some((first, rest)) =>
      match TakeField(rest)
      case None => None
      case Some((second, tail)) =>
        if tail != [] || |second| != 16 then None else
        BEOfSigned(second);
        match ReadXdrString(first)
        case None => None
        case Some(orderId) => Some((orderId, SignedBE(second)))
  }

  /** The payload of (order id, amount) is the one byte string that decodes to it, so
      no two pairs share a payload. */
  lemma PayloadRoundTrip(payload: Bytes, orderId: Bytes, amount: I128)
    ensures Decode(payload) == Some((orderId, amount)) <==> Fits(orderId) && payload == Payload(orderId, amount)
  {
    var id, last := XdrString(orderId), ToBE(amount, 16);
    SignedOfBE(amount);
    if Fits(orderId) && payload == Payload(orderId, amount) {
      FieldRoundTrip(payload, id, Prefixed(last));
      assert Prefixed(last) == Prefixed(last) + [];
      FieldRoundTrip(Prefixed(last), last, []);
      XdrRoundTrip(id, orderId);
    }
    if Decode(payload) == Some((orderId, amount)) {
      var (first, rest) := TakeField(payload).value;
      var (second, tail) := TakeField(rest).value;
      FieldRoundTrip(payload, first, rest);
      FieldRoundTrip(rest, second, tail);
      XdrRoundTrip(first, orderId);
      BEOfSigned(second);
      assert rest == Prefixed(second);
    }
  }

  /** The payload byte by byte: the length of the XDR form, the form, the length 16, the amount. */
  lemma PayloadLayout(orderId: Bytes, amount: I128)
    ensures var id := XdrString(orderId);
      Payload(orderId, amount) == ToBE(|id|, 4) + id + [0, 0, 0, 16] + ToBE(amount, 16)
  {
    SmallBE(16, 4);
    assert Zeros(3) + [16] == [0, 0, 0, 16];
  }

  lemma PayloadInjective(orderId: Bytes, amount: I128, orderId': Bytes, amount': I128)
    requires Fits(orderId) && Fits(orderId') && Payload(orderId, amount) == Payload(orderId', amount')
    ensures orderId == orderId' && amount == amount'
  {
    PayloadRoundTrip(Payload(orderId, amount), orderId, amount);
    PayloadRoundTrip(Payload(orderId, amount), orderId', amount');
  }

  class PayloadBuffer {
    var bytes: Bytes

    constructor ()
      ensures bytes == []
    {
      bytes := [];
    }

    method Append(field: Bytes)
      modifies this
      ensures bytes == old(bytes) + field
    {
      bytes := bytes + field;
    }

    method AppendLengthPrefixed(field: Bytes)
      modifies this
      ensures bytes == old(bytes) + Prefixed(field)
    {
      Append(ToBE(|field|, 4));
      Append(field);
      assert bytes == old(bytes) + Prefixed(field);
    }
  }

  /** The payload is built exactly when the XDR form fits a host byte string, and it
      then decodes to the order id and the amount it was built from. */
  method BuildCanonicalPayload(orderId: Bytes, amount: I128) returns (r: Result<Bytes>)
    ensures r.Ok? <==> Fits(orderId)
    ensures r.Ok? ==> Decode(r.value) == Some((orderId, amount))
  {
    PayloadRoundTrip(Payload(orderId, amount), orderId, amount);
    var orderIdBytes := XdrString(orderId);
    if |orderIdBytes| > U32_MAX {
      return Err(Trap);
    }
    var payload := AppendBoth(orderIdBytes, ToBE(amount, 16));
    return Ok(payload);
  }

  method AppendBoth(first: Bytes, second: Bytes) returns (payload: Bytes)
    ensures payload == Prefixed(first) + Prefixed(second)
  {
    var buffer := new PayloadBuffer();
    buffer.AppendLengthPrefixed(first);
    buffer.AppendLengthPrefixed(second);
    return buffer.bytes;
  }

  // ── The client's payload ──────────────────────────────────────────────────

  /** Network id and contract address come first and have a fixed size. */
  method BuildPaymentPayload(networkId: Bytes, contractId: Bytes, orderId: Bytes, amount: int) returns (payload: Bytes)
    ensures payload == networkId + contractId + XdrString(orderId) + ToBE(amount, 16)
    ensures |orderId| <= U32_MAX ==> ReadPayment(payload, |networkId| + |contractId|) == Some((orderId, Wrapped(amount)))
  {
    var amountBuffer := AmountBuffer(amount);
    payload := networkId + contractId + XdrString(orderId) + amountBuffer[..];
    if |orderId| <= U32_MAX {
      PaymentRoundTrip(networkId + contractId, orderId, amount);
    }
    assert payload == (networkId + contractId) + XdrString(orderId) + ToBE(amount, 16);
  }

  function ReadPayment(payload: Bytes, prefix: nat): Option<(Bytes, int)> {
    if |payload| < prefix + 16 then None else
    match ReadXdrString(payload[prefix..|payload| - 16])
    case None => None
    case Some(orderId) => Some((orderId, SignedBE(payload[|payload| - 16..])))
  }

  lemma PaymentRoundTrip(prefix: Bytes, orderId: Bytes, amount: int)
    requires |orderId| <= U32_MAX
    ensures ReadPayment(prefix + XdrString(orderId) + ToBE(amount, 16), |prefix|) == Some((orderId, Wrapped(amount)))
  {
    var payload := prefix + XdrString(orderId) + ToBE(amount, 16);
    assert payload[|prefix|..|payload| - 16] == XdrString(orderId);
    assert payload[|payload| - 16..] == ToBE(amount, 16);
    XdrRoundTrip(XdrString(orderId), orderId);
    SignedOfBE(amount);
  }
}
