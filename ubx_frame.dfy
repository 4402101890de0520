/**
 * UBX frame layout and checksum, as used by the configuration commands that
 * the demonstration program writes to the receiver (u-blox 8/M8 Receiver Description,
 * UBX-13003221, section 32.2 "UBX Frame Structure" and section 32.4
 * "UBX Checksum"; the checksum is the 8-bit Fletcher algorithm of RFC 1145).
 *
 *   0xB5 0x62 | class | id | length (16 bit, little endian) | payload | CK_A CK_B
 *
 * The checksum covers class, id, length and payload, not the sync bytes.
 */
module UbxFrame {

  type byte = x: int | 0 <= x < 256

  const Sync1: byte := 0xB5
  const Sync2: byte := 0x62

  /** The largest payload a 16-bit length field can declare. */
  const MaxPayload: nat := 0xFFFF

  /** Number of bytes a frame adds around its payload: sync (2), class, id, length (2), checksum (2). */
  const Overhead: nat := 8

  // ---------------------------------------------------------------------------
  // Reference definitions of the two checksum bytes, in closed form.
  // ---------------------------------------------------------------------------

  /** The plain sum of the bytes. */
  function Sum(s: seq<byte>): int
  {
    if |s| == 0 then 0 else s[0] + Sum(s[1..])
  }

  /** The bytes weighted by a falling count: the first by `w`, the next by
      `w - 1`, and so on. With `w == |s|` the first of n bytes is counted n
      times and the last once, which is CK_B before reduction modulo 256. */
  function WeightedSum(s: seq<byte>, w: int): int
  {
    if |s| == 0 then 0 else w * s[0] + WeightedSum(s[1..], w - 1)
  }

  lemma {:induction false} SumSnoc(s: seq<byte>, x: byte)
    ensures Sum(s + [x]) == Sum(s) + x
  {
    if |s| == 0 {
      assert s + [x] == [x];
    } else {
      assert (s + [x])[1..] == s[1..] + [x];
      SumSnoc(s[1..], x);
    }
  }

  lemma {:induction false} WeightedSumSnoc(s: seq<byte>, x: byte, w: int)
    ensures WeightedSum(s + [x], w) == WeightedSum(s, w) + (w - |s|) * x
  {
    if |s| == 0 {
      assert s + [x] == [x];
    } else {
      assert (s + [x])[1..] == s[1..] + [x];
      WeightedSumSnoc(s[1..], x, w - 1);
    }
  }

  /** Raising every weight by one adds the plain sum once more. */
  lemma {:induction false} WeightedSumShift(s: seq<byte>, w: int)
    ensures WeightedSum(s, w + 1) == WeightedSum(s, w) + Sum(s)
  {
    if |s| != 0 {
      WeightedSumShift(s[1..], w - 1);
      assert (w + 1) * s[0] == w * s[0] + s[0];
    }
  }

  /** One step of the running checksum keeps it equal to the closed form. */
  lemma ChecksumStep(init: seq<byte>, last: byte, a: byte, b: byte)
    requires a == Sum(init) % 256 && b == WeightedSum(init, |init|) % 256
    ensures (a + last) % 256 == Sum(init + [last]) % 256
    ensures (b + (a + last) % 256) % 256 == WeightedSum(init + [last], |init| + 1) % 256
  {
    var n := |init|;
    var s, w := Sum(init), WeightedSum(init, n);
    SumSnoc(init, last);
    WeightedSumSnoc(init, last, n + 1);
    assert (n + 1 - |init|) * last == last;
    WeightedSumShift(init, n);
    assert WeightedSum(init + [last], n + 1) == w + s + last;
    ResidueStep(s, w, last, a, b);
  }

  /** The step on residues: adding `last` to the plain sum and the new plain
      sum to the weighted sum commutes with reduction modulo 256. */
  lemma ResidueStep(s: int, w: int, last: int, a: int, b: int)
    requires a == s % 256 && b == w % 256
    ensures (a + last) % 256 == (s + last) % 256
    ensures (b + (a + last) % 256) % 256 == (w + s + last) % 256
  {
    ModAdd(s, last);
    calc {
      (b + (a + last) % 256) % 256;
    ==
      (b + (s + last) % 256) % 256;
    == { ModAdd(s + last, b); }
      (b + s + last) % 256;
    == { ModAdd(w, s + last); }
      (w + s + last) % 256;
    }
  }

  /** Adding a multiple of 256 does not change a residue. */
  lemma ModAdd(x: int, y: int)
    ensures (x % 256 + y) % 256 == (x + y) % 256
  {
  }

  // ---------------------------------------------------------------------------
  // The checksum engine.
  // ---------------------------------------------------------------------------

  /** The running two-byte checksum over `s`: for each byte in order,
      CK_A := CK_A + byte and then CK_B := CK_B + CK_A, both modulo 256.
      It is defined on prefixes, so the last byte is the last one folded in. */
  function UbxChecksum(s: seq<byte>): (ck: (byte, byte))
  {
    if |s| == 0 then (0, 0)
    else
      var prev := UbxChecksum(s[..|s| - 1]);
      var a := (prev.0 + s[|s| - 1]) % 256;
      (a, (prev.1 + a) % 256)
  }

  /** The running checksum equals its closed form: CK_A is the byte sum and
      CK_B the weighted byte sum, both modulo 256. */
  lemma {:induction false} ChecksumClosedForm(s: seq<byte>)
    ensures UbxChecksum(s) == (Sum(s) % 256, WeightedSum(s, |s|) % 256)
  {
    if s != [] {
      var init, last := s[..|s| - 1], s[|s| - 1];
      assert s == init + [last];
      ChecksumClosedForm(init);
      ChecksumStep(init, last, UbxChecksum(init).0, UbxChecksum(init).1);
    }
  }

  /** The checksum of a sequence whose two sums are known. */
  lemma ChecksumOfSums(s: seq<byte>, sum: int, wsum: int, ckA: byte, ckB: byte)
    requires Sum(s) == sum && WeightedSum(s, |s|) == wsum
    requires sum % 256 == ckA && wsum % 256 == ckB
    ensures UbxChecksum(s) == (ckA, ckB)
  {
    ChecksumClosedForm(s);
  }

  // ---------------------------------------------------------------------------
  // Little-endian 16-bit fields.
  // ---------------------------------------------------------------------------

  /** The value of a little-endian 16-bit field. */
  function ReadLe16(lo: byte, hi: byte): (n: nat)
    ensures n <= MaxPayload
  {
    lo + 256 * hi
  }

  /** The two bytes, low first, of a 16-bit value. */
  function Le16(n: nat): (r: seq<byte>)
    requires n <= MaxPayload
    ensures |r| == 2 && ReadLe16(r[0], r[1]) == n
  {
    [n % 256, n / 256]
  }

  /** A 16-bit field is determined by its value: there is one way to write each value. */
  lemma Le16Unique(lo: byte, hi: byte)
    ensures Le16(ReadLe16(lo, hi)) == [lo, hi]
  {
    var n := ReadLe16(lo, hi);
    assert n % 256 == lo && n / 256 == hi;
  }

  // ---------------------------------------------------------------------------
  // Frames.
  // ---------------------------------------------------------------------------

  /** The complete frame for a message: sync, class, id, the payload length,
      the payload, then the checksum over everything from class on. */
  function BuildFrame(msgClass: byte, msgId: byte, payload: seq<byte>): (f: seq<byte>)
    requires |payload| <= MaxPayload
    ensures |f| == |payload| + Overhead
    ensures f[0] == Sync1 && f[1] == Sync2
    ensures f[2] == msgClass && f[3] == msgId
    ensures ReadLe16(f[4], f[5]) == |payload|
    ensures f[6..|f| - 2] == payload
    ensures UbxChecksum(f[2..|f| - 2]) == (f[|f| - 2], f[|f| - 1])
  {
    var body := [msgClass, msgId] + Le16(|payload|) + payload;
    var ck := UbxChecksum(body);
    var f := [Sync1, Sync2] + body + [ck.0, ck.1];
    assert f[2..|f| - 2] == body;
    f
  }

  /** Once the checksum of the class-through-payload bytes is known, the frame
      is those bytes between the sync bytes and the two checksum bytes. */
  lemma FrameOfChecksum(msgClass: byte, msgId: byte, payload: seq<byte>, body: seq<byte>, ckA: byte, ckB: byte)
    requires |payload| <= MaxPayload
    requires body == [msgClass, msgId] + Le16(|payload|) + payload
    requires UbxChecksum(body) == (ckA, ckB)
    ensures BuildFrame(msgClass, msgId, payload) == [Sync1, Sync2] + body + [ckA, ckB]
  {
  }

  /** A byte sequence is a well-formed frame when it starts with the sync bytes,
      its length field counts exactly the bytes between header and checksum,
      and its last two bytes are the checksum of class through payload. */
  predicate IsWellFormedUbxFrame(f: seq<byte>)
  {
    && |f| >= Overhead
    && f[0] == Sync1 && f[1] == Sync2
    && ReadLe16(f[4], f[5]) == |f| - Overhead
    && UbxChecksum(f[2..|f| - 2]) == (f[|f| - 2], f[|f| - 1])
  }

  /** Every frame BuildFrame makes is well formed. */
  lemma BuildFrameIsWellFormed(msgClass: byte, msgId: byte, payload: seq<byte>)
    requires |payload| <= MaxPayload
    ensures IsWellFormedUbxFrame(BuildFrame(msgClass, msgId, payload))
  {
  }

  /** The well-formed frames are exactly the frames BuildFrame makes: a
      well-formed frame is rebuilt byte for byte from its own class, id and
      payload, and a sequence that is so rebuilt is well formed. */
  lemma WellFormedIffBuilt(f: seq<byte>)
    ensures IsWellFormedUbxFrame(f) <==>
      (|f| >= Overhead && |f| - Overhead <= MaxPayload
       && f == BuildFrame(f[2], f[3], f[6..|f| - 2]))
  {
    if IsWellFormedUbxFrame(f) {
      var n := |f|;
      var payload := f[6..n - 2];
      var body := f[2..n - 2];
      assert body == [f[2], f[3]] + [f[4], f[5]] + payload;
      Le16Unique(f[4], f[5]);
      FrameOfChecksum(f[2], f[3], payload, body, f[n - 2], f[n - 1]);
      assert f == [f[0], f[1]] + body + [f[n - 2], f[n - 1]];
    }
  }

  /** Class, id and payload can be read back from a built frame. */
  lemma {:induction false} BuildFrameInjective(c1: byte, i1: byte, p1: seq<byte>, c2: byte, i2: byte, p2: seq<byte>)
    requires |p1| <= MaxPayload && |p2| <= MaxPayload
    requires BuildFrame(c1, i1, p1) == BuildFrame(c2, i2, p2)
    ensures c1 == c2 && i1 == i2 && p1 == p2
  {
    var f := BuildFrame(c1, i1, p1);
    assert f[6..|f| - 2] == p1 && f[6..|f| - 2] == p2;
  }
}
