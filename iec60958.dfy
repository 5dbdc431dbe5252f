/** The consumer channel-status sampling-frequency field of IEC 60958-3
    (byte 3, bits 24 to 27), as the standard tabulates it: a bit string
    listed from bit 24 to bit 27. The WM8804 transmits the low four bits of
    its SPDTX4 register as this field, least significant bit first, so the
    code the driver writes must be the field packed LSB-first. */
module Iec60958 {
  import opened ClockPolicy

  /** A bit string written as in the standard's table, '1' for a set bit. */
  function Bits(s: string): (b: seq<bool>)
    ensures |b| == |s|
  {
    if s == [] then [] else [s[0] == '1'] + Bits(s[1..])
  }

  /** The field value meaning "sampling frequency not indicated". */
  const NotIndicated: seq<bool> := Bits("1000")

  /** The standard's sampling-frequency codes, bits 24..27, for the
      frequencies it names in this field. */
  function FsField(rate: nat): Option<seq<bool>> {
    match rate
    case 22050 => Some(Bits("0010"))
    case 24000 => Some(Bits("0110"))
    case 32000 => Some(Bits("1100"))
    case 44100 => Some(Bits("0000"))
    case 48000 => Some(Bits("0100"))
    case 88200 => Some(Bits("0001"))
    case 96000 => Some(Bits("0101"))
    case 176400 => Some(Bits("0011"))
    case 192000 => Some(Bits("0111"))
    case 768000 => Some(Bits("1001"))
    case _ => None
  }

  function Pow2(n: nat): (p: nat)
    ensures p > 0
  {
    if n == 0 then 1 else 2 * Pow2(n - 1)
  }

  /** Packs a bit string into a number, first bit least significant. */
  function Pack(bits: seq<bool>): (v: nat)
    ensures v < Pow2(|bits|)
  {
    if bits == [] then 0 else (if bits[0] then 1 else 0) + 2 * Pack(bits[1..])
  }

  /** The lowest `n` bits of `v`, least significant first: the order in
      which the transmitter sends a register field on the wire. */
  function Unpack(v: nat, n: nat): (bits: seq<bool>)
    ensures |bits| == n
  {
    if n == 0 then [] else [v % 2 == 1] + Unpack(v / 2, n - 1)
  }

  /** Reading a packed field back LSB-first gives the original bit string. */
  lemma {:induction false} UnpackPack(bits: seq<bool>)
    ensures Unpack(Pack(bits), |bits|) == bits
  {
    if bits != [] {
      UnpackPack(bits[1..]);
      var v := Pack(bits);
      assert v % 2 == 1 <==> bits[0];
      assert v / 2 == Pack(bits[1..]);
    }
  }

  /** Packing the lowest `n` bits of a value below 2^n gives the value back. */
  lemma {:induction false} PackUnpack(v: nat, n: nat)
    requires v < Pow2(n)
    ensures Pack(Unpack(v, n)) == v
  {
    if n > 0 {
      PackUnpack(v / 2, n - 1);
      var bits := Unpack(v, n);
      assert bits[1..] == Unpack(v / 2, n - 1);
    }
  }

  /** A four-bit field written as in the standard's table, as a number:
      the first bit weighs 1, the last 8. */
  function NibbleValue(s: string): nat
    requires |s| == 4
  {
    (if s[0] == '1' then 1 else 0) + 2 * (if s[1] == '1' then 1 else 0)
    + 4 * (if s[2] == '1' then 1 else 0) + 8 * (if s[3] == '1' then 1 else 0)
  }

  /** Packing a four-bit field gives its value with the first bit least
      significant. */
  lemma PackNibble(s: string)
    requires |s| == 4
    ensures Pack(Bits(s)) == NibbleValue(s)
  {
    var b := Bits(s);
    forall i | 0 <= i < 4 ensures b[i] == (s[i] == '1') {
      BitsAt(s, i);
    }
    var b1 := b[1..];
    var b2 := b1[1..];
    var b3 := b2[1..];
    assert b3[1..] == [] && b3[0] == b[3] && b2[0] == b[2] && b1[0] == b[1];
    assert Pack(b3) == if b[3] then 1 else 0;
    assert Pack(b2) == (if b[2] then 1 else 0) + 2 * Pack(b3);
    assert Pack(b1) == (if b[1] then 1 else 0) + 2 * Pack(b2);
  }

  /** Each bit of a bit string is the character written at its place. */
  lemma {:induction false} BitsAt(s: string, i: nat)
    requires i < |s|
    ensures Bits(s)[i] == (s[i] == '1')
  {
    if i > 0 {
      BitsAt(s[1..], i - 1);
    }
  }

  /** One row of the comparison: the driver's code for a named rate is the
      standard's field for it, packed LSB-first. */
  lemma NamedRate(rate: nat, code: bv8, field: string)
    requires |field| == 4
    requires SpdifStatusCase(rate) == Some(code)
    requires FsField(rate) == Some(Bits(field))
    requires NibbleValue(field) == code as nat
    ensures SpdifStatusCode(rate) as nat == Pack(FsField(rate).value)
  {
    PackNibble(field);
  }

  /** The code for each rate the driver names, rate by rate. */
  lemma StatusCodeNamed(rate: nat)
    requires rate in SpdifRates
    ensures FsField(rate).Some?
    ensures SpdifStatusCode(rate) as nat == Pack(FsField(rate).value)
  {
    if rate == 32000 {
      NamedRate(32000, 0x03, "1100");
    } else if rate == 44100 {
      NamedRate(44100, 0x00, "0000");
    } else if rate == 48000 {
      NamedRate(48000, 0x02, "0100");
    } else if rate == 88200 {
      NamedRate(88200, 0x08, "0001");
    } else if rate == 96000 {
      NamedRate(96000, 0x0a, "0101");
    } else if rate == 176400 {
      NamedRate(176400, 0x0c, "0011");
    } else {
      NamedRate(192000, 0x0e, "0111");
    }
  }

  /** The code the driver writes for a rate is the field the standard
      assigns to that rate, packed LSB-first; for every rate the driver does
      not name it is the field for "not indicated". */
  lemma StatusCodeIsIecField(rate: nat)
    ensures rate in SpdifRates ==> FsField(rate).Some?
    ensures SpdifStatusCode(rate) as nat
            == Pack(if rate in SpdifRates then FsField(rate).value else NotIndicated)
  {
    if rate in SpdifRates {
      StatusCodeNamed(rate);
    } else {
      SpdifStatusDefault(rate);
      PackNibble("1000");
    }
  }

  /** What the transmitter sends: the low four bits of the driver's code,
      read LSB-first, are the standard's field for the rate, or "not
      indicated" for a rate the driver does not name. */
  lemma TransmittedField(rate: nat)
    ensures rate in SpdifRates ==> FsField(rate).Some?
    ensures Unpack(SpdifStatusCode(rate) as nat, 4)
            == if rate in SpdifRates then FsField(rate).value else NotIndicated
  {
    var field := if rate in SpdifRates then FsField(rate).value else NotIndicated;
    StatusCodeIsIecField(rate);
    UnpackPack(field);
    assert |field| == 4;
  }
}
