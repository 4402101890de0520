/**
 * The configuration commands the demonstration program sends to the receiver:
 * SetUpGPS turns off the default NMEA sentences and turns on the UBX NAV-PVT
 * message, and SetUpdate1Hz/2Hz/5Hz/10Hz set the navigation solution rate.
 * Each source function writes hard-coded byte arrays. Here each array is a
 * constant written out exactly as in the source, each write is a WriteCall
 * (the array and the byte count handed to write), and lemmas prove that every
 * array is the frame BuildFrame makes from its class, id and payload.
 */
module GpsCommands {
  import opened UbxFrame

  /** UBX class CFG and the two configuration messages used. */
  const ClassCfg: byte := 0x06
  const IdCfgMsg: byte := 0x01
  const IdCfgRate: byte := 0x08

  /** The standard NMEA sentences, as a UBX class and ids. */
  const ClassNmea: byte := 0xF0
  const IdNmeaGga: byte := 0x00
  const IdNmeaGll: byte := 0x01
  const IdNmeaGsa: byte := 0x02
  const IdNmeaGsv: byte := 0x03
  const IdNmeaRmc: byte := 0x04
  const IdNmeaVtg: byte := 0x05

  /** UBX NAV-PVT: navigation position, velocity and time solution. */
  const ClassNav: byte := 0x01
  const IdNavPvt: byte := 0x07

  /** A CFG-MSG payload has the target class and id, then one rate per I/O port. */
  const PortCount: nat := 6

  /** One call `write(buffer, count)` on the serial port. */
  datatype WriteCall = WriteCall(buffer: seq<byte>, count: nat)

  /** CFG-MSG payload: target class, target id, then the output rate on each
      port (0 turns the message off on that port). */
  function CfgMsgPayload(msgClass: byte, msgId: byte, rates: seq<byte>): (p: seq<byte>)
    requires |rates| == PortCount
    ensures |p| == 8
    ensures p[0] == msgClass && p[1] == msgId && p[2..] == rates
  {
    [msgClass, msgId] + rates
  }

  /** CFG-RATE payload: measurement period in ms, navigation rate in
      measurement cycles and time reference, each a little-endian 16-bit field. */
  function CfgRatePayload(measRateMs: nat, navRate: nat, timeRef: nat): (p: seq<byte>)
    requires measRateMs <= MaxPayload && navRate <= MaxPayload && timeRef <= MaxPayload
    ensures |p| == 6
    ensures ReadLe16(p[0], p[1]) == measRateMs
    ensures ReadLe16(p[2], p[3]) == navRate
    ensures ReadLe16(p[4], p[5]) == timeRef
  {
    Le16(measRateMs) + Le16(navRate) + Le16(timeRef)
  }

  /** Rates on all six ports zero: the message is turned off everywhere. */
  const AllPortsOff: seq<byte> := [0, 0, 0, 0, 0, 0]
  /** Rate 1 on port 1 (UART1) only: one message per navigation solution there. */
  const Uart1Only: seq<byte> := [0, 1, 0, 0, 0, 0]

  // ---------------------------------------------------------------------------
  // The arrays of SetUpGPS and SetUpdate1Hz/2Hz/5Hz/10Hz, as written in the source.
  // ---------------------------------------------------------------------------

  const DisableNmeaGll: seq<byte> := [0xB5, 0x62, 0x06, 0x01, 0x08, 0x00, 0xF0, 0x01, 0x00, 0x00, 0x00, 0x00, 0x00, 0x00, 0x00, 0x2A]
  const DisableNmeaGsv: seq<byte> := [0xB5, 0x62, 0x06, 0x01, 0x08, 0x00, 0xF0, 0x03, 0x00, 0x00, 0x00, 0x00, 0x00, 0x00, 0x02, 0x38]
  const DisableNmeaGsa: seq<byte> := [0xB5, 0x62, 0x06, 0x01, 0x08, 0x00, 0xF0, 0x02, 0x00, 0x00, 0x00, 0x00, 0x00, 0x00, 0x01, 0x31]
  const DisableNmeaGga: seq<byte> := [0xB5, 0x62, 0x06, 0x01, 0x08, 0x00, 0xF0, 0x00, 0x00, 0x00, 0x00, 0x00, 0x00, 0x00, 0xFF, 0x23]
  const DisableNmeaVtg: seq<byte> := [0xB5, 0x62, 0x06, 0x01, 0x08, 0x00, 0xF0, 0x05, 0x00, 0x00, 0x00, 0x00, 0x00, 0x00, 0x04, 0x46]
  const DisableNmeaRmc: seq<byte> := [0xB5, 0x62, 0x06, 0x01, 0x08, 0x00, 0xF0, 0x04, 0x00, 0x00, 0x00, 0x00, 0x00, 0x00, 0x03, 0x3F]
  const EnableUbxPvt: seq<byte> := [0xB5, 0x62, 0x06, 0x01, 0x08, 0x00, 0x01, 0x07, 0x00, 0x01, 0x00, 0x00, 0x00, 0x00, 0x18, 0xE1]

  const RateCmd1Hz: seq<byte> := [0xB5, 0x62, 0x06, 0x08, 0x06, 0x00, 0xE8, 0x03, 0x01, 0x00, 0x01, 0x00, 0x01, 0x39]
  const RateCmd2Hz: seq<byte> := [0xB5, 0x62, 0x06, 0x08, 0x06, 0x00, 0xF4, 0x01, 0x01, 0x00, 0x01, 0x00, 0x0B, 0x77]
  const RateCmd5Hz: seq<byte> := [0xB5, 0x62, 0x06, 0x08, 0x06, 0x00, 0xC8, 0x00, 0x01, 0x00, 0x01, 0x00, 0xDE, 0x6A]
  const RateCmd10Hz: seq<byte> := [0xB5, 0x62, 0x06, 0x08, 0x06, 0x00, 0x64, 0x00, 0x01, 0x00, 0x01, 0x00, 0x7A, 0x12]

  // ---------------------------------------------------------------------------
  // What a command frame says.
  // ---------------------------------------------------------------------------

  /** A well-formed CFG-MSG frame setting the per-port rates of `msgClass`/`msgId`. */
  predicate IsCfgMsgFrame(f: seq<byte>, msgClass: byte, msgId: byte, rates: seq<byte>)
  {
    && IsWellFormedUbxFrame(f)
    && |f| == Overhead + 2 + PortCount
    && f[2] == ClassCfg && f[3] == IdCfgMsg
    && f[6] == msgClass && f[7] == msgId
    && f[8..14] == rates
  }

  /** A well-formed CFG-RATE frame with the given measurement period, navigation rate and time reference. */
  predicate IsCfgRateFrame(f: seq<byte>, measRateMs: nat, navRate: nat, timeRef: nat)
  {
    && IsWellFormedUbxFrame(f)
    && |f| == Overhead + 6
    && f[2] == ClassCfg && f[3] == IdCfgRate
    && ReadLe16(f[6], f[7]) == measRateMs
    && ReadLe16(f[8], f[9]) == navRate
    && ReadLe16(f[10], f[11]) == timeRef
  }

  /** Every CFG-MSG frame that BuildFrame makes says what it was built from. */
  lemma CfgMsgFrameSays(msgClass: byte, msgId: byte, rates: seq<byte>)
    requires |rates| == PortCount
    ensures IsCfgMsgFrame(BuildFrame(ClassCfg, IdCfgMsg, CfgMsgPayload(msgClass, msgId, rates)), msgClass, msgId, rates)
  {
    var f := BuildFrame(ClassCfg, IdCfgMsg, CfgMsgPayload(msgClass, msgId, rates));
    assert f[8..14] == f[6..|f| - 2][2..];
  }

  /** Every CFG-RATE frame that BuildFrame makes says what it was built from. */
  lemma CfgRateFrameSays(measRateMs: nat, navRate: nat, timeRef: nat)
    requires measRateMs <= MaxPayload && navRate <= MaxPayload && timeRef <= MaxPayload
    ensures IsCfgRateFrame(BuildFrame(ClassCfg, IdCfgRate, CfgRatePayload(measRateMs, navRate, timeRef)),
                           measRateMs, navRate, timeRef)
  {
    var p := CfgRatePayload(measRateMs, navRate, timeRef);
    var f := BuildFrame(ClassCfg, IdCfgRate, p);
    assert f[6..|f| - 2] == p;
    assert f[6] == p[0] && f[7] == p[1] && f[8] == p[2] && f[9] == p[3] && f[10] == p[4] && f[11] == p[5];
  }

  // ---------------------------------------------------------------------------
  // The frames are the ones BuildFrame makes.
  // ---------------------------------------------------------------------------

  /** A CFG-MSG frame is its fixed header, the payload and the checksum. */
  lemma CfgMsgFrame(msgClass: byte, msgId: byte, rates: seq<byte>, body: seq<byte>, ckA: byte, ckB: byte)
    requires |rates| == PortCount
    requires body == [ClassCfg, IdCfgMsg, 8, 0, msgClass, msgId] + rates
    requires UbxChecksum(body) == (ckA, ckB)
    ensures BuildFrame(ClassCfg, IdCfgMsg, CfgMsgPayload(msgClass, msgId, rates))
            == [Sync1, Sync2] + body + [ckA, ckB]
  {
    var payload := CfgMsgPayload(msgClass, msgId, rates);
    assert Le16(|payload|) == [8, 0];
    FrameOfChecksum(ClassCfg, IdCfgMsg, payload, body, ckA, ckB);
  }

  /** A CFG-RATE frame is its fixed header, the payload and the checksum. */
  lemma CfgRateFrame(measRateMs: nat, navRate: nat, timeRef: nat, body: seq<byte>, ckA: byte, ckB: byte)
    requires measRateMs <= MaxPayload && navRate <= MaxPayload && timeRef <= MaxPayload
    requires body == [ClassCfg, IdCfgRate, 6, 0] + CfgRatePayload(measRateMs, navRate, timeRef)
    requires UbxChecksum(body) == (ckA, ckB)
    ensures BuildFrame(ClassCfg, IdCfgRate, CfgRatePayload(measRateMs, navRate, timeRef))
            == [Sync1, Sync2] + body + [ckA, ckB]
  {
    var payload := CfgRatePayload(measRateMs, navRate, timeRef);
    assert Le16(|payload|) == [6, 0];
    FrameOfChecksum(ClassCfg, IdCfgRate, payload, body, ckA, ckB);
  }

  /** A byte sequence that starts with the sync bytes is those bytes, the
      bytes it has between them and its last two, and its last two bytes. */
  lemma FrameAround(c: seq<byte>, body: seq<byte>, ckA: byte, ckB: byte)
    requires |c| >= 4 && body == c[2..|c| - 2]
    requires c[0] == Sync1 && c[1] == Sync2 && c[|c| - 2] == ckA && c[|c| - 1] == ckB
    ensures c == [Sync1, Sync2] + body + [ckA, ckB]
  {
  }

  // ---------------------------------------------------------------------------
  // Each array of the source is the frame BuildFrame makes. For each array
  // the proof goes in small steps, each its own lemma: the two sums of the
  // checksummed bytes are computed on the literal bytes (LiteralSums), carried
  // over to the array's own bytes (BodyBytes, BodySums), the same bytes are
  // read as header and payload (BodyShape), and the checksum bytes then follow
  // from ChecksumOfSums. Keeping the steps apart keeps the solver from
  // unfolding the running checksum over literal bytes.
  // ---------------------------------------------------------------------------

  lemma GllLiteralSums()
    ensures Sum([0x06, 0x01, 0x08, 0x00, 0xF0, 0x01, 0x00, 0x00, 0x00, 0x00, 0x00, 0x00]) == 256
    ensures WeightedSum([0x06, 0x01, 0x08, 0x00, 0xF0, 0x01, 0x00, 0x00, 0x00, 0x00, 0x00, 0x00], 12) == 2090
  {
  }

  lemma GllBodyBytes(body: seq<byte>)
    requires body == DisableNmeaGll[2..14]
    ensures body == [0x06, 0x01, 0x08, 0x00, 0xF0, 0x01, 0x00, 0x00, 0x00, 0x00, 0x00, 0x00]
  {
  }

  lemma GllBodySums(body: seq<byte>)
    requires body == DisableNmeaGll[2..14]
    ensures Sum(body) == 256 && WeightedSum(body, |body|) == 2090
  {
    GllBodyBytes(body);
    GllLiteralSums();
  }

  lemma GllBodyShape(body: seq<byte>)
    requires body == DisableNmeaGll[2..14]
    ensures body == [ClassCfg, IdCfgMsg, 8, 0, ClassNmea, IdNmeaGll] + AllPortsOff
  {
  }

  /** The array DisableNmeaGll is the frame built from its class, id and payload. */
  lemma GllFrameIsBuilt()
    ensures DisableNmeaGll == BuildFrame(ClassCfg, IdCfgMsg, CfgMsgPayload(ClassNmea, IdNmeaGll, AllPortsOff))
  {
    var body := DisableNmeaGll[2..14];
    GllBodySums(body);
    GllBodyShape(body);
    ChecksumOfSums(body, 256, 2090, 0x00, 0x2A);
    CfgMsgFrame(ClassNmea, IdNmeaGll, AllPortsOff, body, 0x00, 0x2A);
    FrameAround(DisableNmeaGll, body, 0x00, 0x2A);
  }

  lemma GsvLiteralSums()
    ensures Sum([0x06, 0x01, 0x08, 0x00, 0xF0, 0x03, 0x00, 0x00, 0x00, 0x00, 0x00, 0x00]) == 258
    ensures WeightedSum([0x06, 0x01, 0x08, 0x00, 0xF0, 0x03, 0x00, 0x00, 0x00, 0x00, 0x00, 0x00], 12) == 2104
  {
  }

  lemma GsvBodyBytes(body: seq<byte>)
    requires body == DisableNmeaGsv[2..14]
    ensures body == [0x06, 0x01, 0x08, 0x00, 0xF0, 0x03, 0x00, 0x00, 0x00, 0x00, 0x00, 0x00]
  {
  }

  lemma GsvBodySums(body: seq<byte>)
    requires body == DisableNmeaGsv[2..14]
    ensures Sum(body) == 258 && WeightedSum(body, |body|) == 2104
  {
    GsvBodyBytes(body);
    GsvLiteralSums();
  }

  lemma GsvBodyShape(body: seq<byte>)
    requires body == DisableNmeaGsv[2..14]
    ensures body == [ClassCfg, IdCfgMsg, 8, 0, ClassNmea, IdNmeaGsv] + AllPortsOff
  {
  }

  /** The array DisableNmeaGsv is the frame built from its class, id and payload. */
  lemma GsvFrameIsBuilt()
    ensures DisableNmeaGsv == BuildFrame(ClassCfg, IdCfgMsg, CfgMsgPayload(ClassNmea, IdNmeaGsv, AllPortsOff))
  {
    var body := DisableNmeaGsv[2..14];
    GsvBodySums(body);
    GsvBodyShape(body);
    ChecksumOfSums(body, 258, 2104, 0x02, 0x38);
    CfgMsgFrame(ClassNmea, IdNmeaGsv, AllPortsOff, body, 0x02, 0x38);
    FrameAround(DisableNmeaGsv, body, 0x02, 0x38);
  }

  lemma GsaLiteralSums()
    ensures Sum([0x06, 0x01, 0x08, 0x00, 0xF0, 0x02, 0x00, 0x00, 0x00, 0x00, 0x00, 0x00]) == 257
    ensures WeightedSum([0x06, 0x01, 0x08, 0x00, 0xF0, 0x02, 0x00, 0x00, 0x00, 0x00, 0x00, 0x00], 12) == 2097
  {
  }

  lemma GsaBodyBytes(body: seq<byte>)
    requires body == DisableNmeaGsa[2..14]
    ensures body == [0x06, 0x01, 0x08, 0x00, 0xF0, 0x02, 0x00, 0x00, 0x00, 0x00, 0x00, 0x00]
  {
  }

  lemma GsaBodySums(body: seq<byte>)
    requires body == DisableNmeaGsa[2..14]
    ensures Sum(body) == 257 && WeightedSum(body, |body|) == 2097
  {
    GsaBodyBytes(body);
    GsaLiteralSums();
  }

  lemma GsaBodyShape(body: seq<byte>)
    requires body == DisableNmeaGsa[2..14]
    ensures body == [ClassCfg, IdCfgMsg, 8, 0, ClassNmea, IdNmeaGsa] + AllPortsOff
  {
  }

  /** The array DisableNmeaGsa is the frame built from its class, id and payload. */
  lemma GsaFrameIsBuilt()
    ensures DisableNmeaGsa == BuildFrame(ClassCfg, IdCfgMsg, CfgMsgPayload(ClassNmea, IdNmeaGsa, AllPortsOff))
  {
    var body := DisableNmeaGsa[2..14];
    GsaBodySums(body);
    GsaBodyShape(body);
    ChecksumOfSums(body, 257, 2097, 0x01, 0x31);
    CfgMsgFrame(ClassNmea, IdNmeaGsa, AllPortsOff, body, 0x01, 0x31);
    FrameAround(DisableNmeaGsa, body, 0x01, 0x31);
  }

  lemma GgaLiteralSums()
    ensures Sum([0x06, 0x01, 0x08, 0x00, 0xF0, 0x00, 0x00, 0x00, 0x00, 0x00, 0x00, 0x00]) == 255
    ensures WeightedSum([0x06, 0x01, 0x08, 0x00, 0xF0, 0x00, 0x00, 0x00, 0x00, 0x00, 0x00, 0x00], 12) == 2083
  {
  }

  lemma GgaBodyBytes(body: seq<byte>)
    requires body == DisableNmeaGga[2..14]
    ensures body == [0x06, 0x01, 0x08, 0x00, 0xF0, 0x00, 0x00, 0x00, 0x00, 0x00, 0x00, 0x00]
  {
  }

  lemma GgaBodySums(body: seq<byte>)
    requires body == DisableNmeaGga[2..14]
    ensures Sum(body) == 255 && WeightedSum(body, |body|) == 2083
  {
    GgaBodyBytes(body);
    GgaLiteralSums();
  }

  lemma GgaBodyShape(body: seq<byte>)
    requires body == DisableNmeaGga[2..14]
    ensures body == [ClassCfg, IdCfgMsg, 8, 0, ClassNmea, IdNmeaGga] + AllPortsOff
  {
  }

  /** The array DisableNmeaGga is the frame built from its class, id and payload. */
  lemma GgaFrameIsBuilt()
    ensures DisableNmeaGga == BuildFrame(ClassCfg, IdCfgMsg, CfgMsgPayload(ClassNmea, IdNmeaGga, AllPortsOff))
  {
    var body := DisableNmeaGga[2..14];
    GgaBodySums(body);
    GgaBodyShape(body);
    ChecksumOfSums(body, 255, 2083, 0xFF, 0x23);
    CfgMsgFrame(ClassNmea, IdNmeaGga, AllPortsOff, body, 0xFF, 0x23);
    FrameAround(DisableNmeaGga, body, 0xFF, 0x23);
  }

  lemma VtgLiteralSums()
    ensures Sum([0x06, 0x01, 0x08, 0x00, 0xF0, 0x05, 0x00, 0x00, 0x00, 0x00, 0x00, 0x00]) == 260
    ensures WeightedSum([0x06, 0x01, 0x08, 0x00, 0xF0, 0x05, 0x00, 0x00, 0x00, 0x00, 0x00, 0x00], 12) == 2118
  {
  }

  lemma VtgBodyBytes(body: seq<byte>)
    requires body == DisableNmeaVtg[2..14]
    ensures body == [0x06, 0x01, 0x08, 0x00, 0xF0, 0x05, 0x00, 0x00, 0x00, 0x00, 0x00, 0x00]
  {
  }

  lemma VtgBodySums(body: seq<byte>)
    requires body == DisableNmeaVtg[2..14]
    ensures Sum(body) == 260 && WeightedSum(body, |body|) == 2118
  {
    VtgBodyBytes(body);
    VtgLiteralSums();
  }

  lemma VtgBodyShape(body: seq<byte>)
    requires body == DisableNmeaVtg[2..14]
    ensures body == [ClassCfg, IdCfgMsg, 8, 0, ClassNmea, IdNmeaVtg] + AllPortsOff
  {
  }

  /** The array DisableNmeaVtg is the frame built from its class, id and payload. */
  lemma VtgFrameIsBuilt()
    ensures DisableNmeaVtg == BuildFrame(ClassCfg, IdCfgMsg, CfgMsgPayload(ClassNmea, IdNmeaVtg, AllPortsOff))
  {
    var body := DisableNmeaVtg[2..14];
    VtgBodySums(body);
    VtgBodyShape(body);
    ChecksumOfSums(body, 260, 2118, 0x04, 0x46);
    CfgMsgFrame(ClassNmea, IdNmeaVtg, AllPortsOff, body, 0x04, 0x46);
    FrameAround(DisableNmeaVtg, body, 0x04, 0x46);
  }

  lemma RmcLiteralSums()
    ensures Sum([0x06, 0x01, 0x08, 0x00, 0xF0, 0x04, 0x00, 0x00, 0x00, 0x00, 0x00, 0x00]) == 259
    ensures WeightedSum([0x06, 0x01, 0x08, 0x00, 0xF0, 0x04, 0x00, 0x00, 0x00, 0x00, 0x00, 0x00], 12) == 2111
  {
  }

  lemma RmcBodyBytes(body: seq<byte>)
    requires body == DisableNmeaRmc[2..14]
    ensures body == [0x06, 0x01, 0x08, 0x00, 0xF0, 0x04, 0x00, 0x00, 0x00, 0x00, 0x00, 0x00]
  {
  }

  lemma RmcBodySums(body: seq<byte>)
    requires body == DisableNmeaRmc[2..14]
    ensures Sum(body) == 259 && WeightedSum(body, |body|) == 2111
  {
    RmcBodyBytes(body);
    RmcLiteralSums();
  }

  lemma RmcBodyShape(body: seq<byte>)
    requires body == DisableNmeaRmc[2..14]
    ensures body == [ClassCfg, IdCfgMsg, 8, 0, ClassNmea, IdNmeaRmc] + AllPortsOff
  {
  }

  /** The array DisableNmeaRmc is the frame built from its class, id and payload. */
  lemma RmcFrameIsBuilt()
    ensures DisableNmeaRmc == BuildFrame(ClassCfg, IdCfgMsg, CfgMsgPayload(ClassNmea, IdNmeaRmc, AllPortsOff))
  {
    var body := DisableNmeaRmc[2..14];
    RmcBodySums(body);
    RmcBodyShape(body);
    ChecksumOfSums(body, 259, 2111, 0x03, 0x3F);
    CfgMsgFrame(ClassNmea, IdNmeaRmc, AllPortsOff, body, 0x03, 0x3F);
    FrameAround(DisableNmeaRmc, body, 0x03, 0x3F);
  }

  lemma PvtLiteralSums()
    ensures Sum([0x06, 0x01, 0x08, 0x00, 0x01, 0x07, 0x00, 0x01, 0x00, 0x00, 0x00, 0x00]) == 24
    ensures WeightedSum([0x06, 0x01, 0x08, 0x00, 0x01, 0x07, 0x00, 0x01, 0x00, 0x00, 0x00, 0x00], 12) == 225
  {
  }

  lemma PvtBodyBytes(body: seq<byte>)
    requires body == EnableUbxPvt[2..14]
    ensures body == [0x06, 0x01, 0x08, 0x00, 0x01, 0x07, 0x00, 0x01, 0x00, 0x00, 0x00, 0x00]
  {
  }

  lemma PvtBodySums(body: seq<byte>)
    requires body == EnableUbxPvt[2..14]
    ensures Sum(body) == 24 && WeightedSum(body, |body|) == 225
  {
    PvtBodyBytes(body);
    PvtLiteralSums();
  }

  lemma PvtBodyShape(body: seq<byte>)
    requires body == EnableUbxPvt[2..14]
    ensures body == [ClassCfg, IdCfgMsg, 8, 0, ClassNav, IdNavPvt] + Uart1Only
  {
  }

  /** The array EnableUbxPvt is the frame built from its class, id and payload. */
  lemma PvtFrameIsBuilt()
    ensures EnableUbxPvt == BuildFrame(ClassCfg, IdCfgMsg, CfgMsgPayload(ClassNav, IdNavPvt, Uart1Only))
  {
    var body := EnableUbxPvt[2..14];
    PvtBodySums(body);
    PvtBodyShape(body);
    ChecksumOfSums(body, 24, 225, 0x18, 0xE1);
    CfgMsgFrame(ClassNav, IdNavPvt, Uart1Only, body, 0x18, 0xE1);
    FrameAround(EnableUbxPvt, body, 0x18, 0xE1);
  }

  lemma Rate1HzLiteralSums()
    ensures Sum([0x06, 0x08, 0x06, 0x00, 0xE8, 0x03, 0x01, 0x00, 0x01, 0x00]) == 257
    ensures WeightedSum([0x06, 0x08, 0x06, 0x00, 0xE8, 0x03, 0x01, 0x00, 0x01, 0x00], 10) == 1593
  {
  }

  lemma Rate1HzBodyBytes(body: seq<byte>)
    requires body == RateCmd1Hz[2..12]
    ensures body == [0x06, 0x08, 0x06, 0x00, 0xE8, 0x03, 0x01, 0x00, 0x01, 0x00]
  {
  }

  lemma Rate1HzBodySums(body: seq<byte>)
    requires body == RateCmd1Hz[2..12]
    ensures Sum(body) == 257 && WeightedSum(body, |body|) == 1593
  {
    Rate1HzBodyBytes(body);
    Rate1HzLiteralSums();
  }

  lemma Rate1HzBodyShape(body: seq<byte>)
    requires body == RateCmd1Hz[2..12]
    ensures body == [ClassCfg, IdCfgRate, 6, 0] + CfgRatePayload(1000, 1, 1)
  {
  }

  /** The array RateCmd1Hz is the frame built from its class, id and payload. */
  lemma Rate1HzFrameIsBuilt()
    ensures RateCmd1Hz == BuildFrame(ClassCfg, IdCfgRate, CfgRatePayload(1000, 1, 1))
  {
    var body := RateCmd1Hz[2..12];
    Rate1HzBodySums(body);
    Rate1HzBodyShape(body);
    ChecksumOfSums(body, 257, 1593, 0x01, 0x39);
    CfgRateFrame(1000, 1, 1, body, 0x01, 0x39);
    FrameAround(RateCmd1Hz, body, 0x01, 0x39);
  }

  lemma Rate2HzLiteralSums()
    ensures Sum([0x06, 0x08, 0x06, 0x00, 0xF4, 0x01, 0x01, 0x00, 0x01, 0x00]) == 267
    ensures WeightedSum([0x06, 0x08, 0x06, 0x00, 0xF4, 0x01, 0x01, 0x00, 0x01, 0x00], 10) == 1655
  {
  }

  lemma Rate2HzBodyBytes(body: seq<byte>)
    requires body == RateCmd2Hz[2..12]
    ensures body == [0x06, 0x08, 0x06, 0x00, 0xF4, 0x01, 0x01, 0x00, 0x01, 0x00]
  {
  }

  lemma Rate2HzBodySums(body: seq<byte>)
    requires body == RateCmd2Hz[2..12]
    ensures Sum(body) == 267 && WeightedSum(body, |body|) == 1655
  {
    Rate2HzBodyBytes(body);
    Rate2HzLiteralSums();
  }

  lemma Rate2HzBodyShape(body: seq<byte>)
    requires body == RateCmd2Hz[2..12]
    ensures body == [ClassCfg, IdCfgRate, 6, 0] + CfgRatePayload(500, 1, 1)
  {
  }

  /** The array RateCmd2Hz is the frame built from its class, id and payload. */
  lemma Rate2HzFrameIsBuilt()
    ensures RateCmd2Hz == BuildFrame(ClassCfg, IdCfgRate, CfgRatePayload(500, 1, 1))
  {
    var body := RateCmd2Hz[2..12];
    Rate2HzBodySums(body);
    Rate2HzBodyShape(body);
    ChecksumOfSums(body, 267, 1655, 0x0B, 0x77);
    CfgRateFrame(500, 1, 1, body, 0x0B, 0x77);
    FrameAround(RateCmd2Hz, body, 0x0B, 0x77);
  }

  lemma Rate5HzLiteralSums()
    ensures Sum([0x06, 0x08, 0x06, 0x00, 0xC8, 0x00, 0x01, 0x00, 0x01, 0x00]) == 222
    ensures WeightedSum([0x06, 0x08, 0x06, 0x00, 0xC8, 0x00, 0x01, 0x00, 0x01, 0x00], 10) == 1386
  {
  }

  lemma Rate5HzBodyBytes(body: seq<byte>)
    requires body == RateCmd5Hz[2..12]
    ensures body == [0x06, 0x08, 0x06, 0x00, 0xC8, 0x00, 0x01, 0x00, 0x01, 0x00]
  {
  }

  lemma Rate5HzBodySums(body: seq<byte>)
    requires body == RateCmd5Hz[2..12]
    ensures Sum(body) == 222 && WeightedSum(body, |body|) == 1386
  {
    Rate5HzBodyBytes(body);
    Rate5HzLiteralSums();
  }

  lemma Rate5HzBodyShape(body: seq<byte>)
    requires body == RateCmd5Hz[2..12]
    ensures body == [ClassCfg, IdCfgRate, 6, 0] + CfgRatePayload(200, 1, 1)
  {
  }

  /** The array RateCmd5Hz is the frame built from its class, id and payload. */
  lemma Rate5HzFrameIsBuilt()
    ensures RateCmd5Hz == BuildFrame(ClassCfg, IdCfgRate, CfgRatePayload(200, 1, 1))
  {
    var body := RateCmd5Hz[2..12];
    Rate5HzBodySums(body);
    Rate5HzBodyShape(body);
    ChecksumOfSums(body, 222, 1386, 0xDE, 0x6A);
    CfgRateFrame(200, 1, 1, body, 0xDE, 0x6A);
    FrameAround(RateCmd5Hz, body, 0xDE, 0x6A);
  }

  lemma Rate10HzLiteralSums()
    ensures Sum([0x06, 0x08, 0x06, 0x00, 0x64, 0x00, 0x01, 0x00, 0x01, 0x00]) == 122
    ensures WeightedSum([0x06, 0x08, 0x06, 0x00, 0x64, 0x00, 0x01, 0x00, 0x01, 0x00], 10) == 786
  {
  }

  lemma Rate10HzBodyBytes(body: seq<byte>)
    requires body == RateCmd10Hz[2..12]
    ensures body == [0x06, 0x08, 0x06, 0x00, 0x64, 0x00, 0x01, 0x00, 0x01, 0x00]
  {
  }

  lemma Rate10HzBodySums(body: seq<byte>)
    requires body == RateCmd10Hz[2..12]
    ensures Sum(body) == 122 && WeightedSum(body, |body|) == 786
  {
    Rate10HzBodyBytes(body);
    Rate10HzLiteralSums();
  }

  lemma Rate10HzBodyShape(body: seq<byte>)
    requires body == RateCmd10Hz[2..12]
    ensures body == [ClassCfg, IdCfgRate, 6, 0] + CfgRatePayload(100, 1, 1)
  {
  }

  /** The array RateCmd10Hz is the frame built from its class, id and payload. */
  lemma Rate10HzFrameIsBuilt()
    ensures RateCmd10Hz == BuildFrame(ClassCfg, IdCfgRate, CfgRatePayload(100, 1, 1))
  {
    var body := RateCmd10Hz[2..12];
    Rate10HzBodySums(body);
    Rate10HzBodyShape(body);
    ChecksumOfSums(body, 122, 786, 0x7A, 0x12);
    CfgRateFrame(100, 1, 1, body, 0x7A, 0x12);
    FrameAround(RateCmd10Hz, body, 0x7A, 0x12);
  }

  // ---------------------------------------------------------------------------
  // SetUpGPS and SetUpdate1Hz/2Hz/5Hz/10Hz: the writes each one makes.
  // ---------------------------------------------------------------------------

  /** The NMEA sentences SetUpGPS turns off, in the order it writes the commands. */
  const DisabledSentences: seq<byte> := [IdNmeaGll, IdNmeaGsv, IdNmeaGsa, IdNmeaGga, IdNmeaVtg, IdNmeaRmc]

  /** The CFG-MSG frame that turns the NMEA sentence `id` off on every port. */
  function DisableCommand(id: byte): (f: seq<byte>)
  {
    BuildFrame(ClassCfg, IdCfgMsg, CfgMsgPayload(ClassNmea, id, AllPortsOff))
  }

  /** The CFG-MSG frame that turns NAV-PVT on at rate 1 on UART1 only. */
  function EnablePvtCommand(): (f: seq<byte>)
  {
    BuildFrame(ClassCfg, IdCfgMsg, CfgMsgPayload(ClassNav, IdNavPvt, Uart1Only))
  }

  /** The seven writes of SetUpGPS: six CFG-MSG frames that turn an NMEA sentence
      off on every port, then one that turns NAV-PVT on at rate 1 on UART1. Each
      write hands over the whole 16-byte array, and each array is the frame
      that BuildFrame makes. */
  function SetUpGps(): (calls: seq<WriteCall>)
    ensures calls == [ WriteCall(DisableCommand(IdNmeaGll), 16), WriteCall(DisableCommand(IdNmeaGsv), 16),
                       WriteCall(DisableCommand(IdNmeaGsa), 16), WriteCall(DisableCommand(IdNmeaGga), 16),
                       WriteCall(DisableCommand(IdNmeaVtg), 16), WriteCall(DisableCommand(IdNmeaRmc), 16),
                       WriteCall(EnablePvtCommand(), 16) ]
  {
    GllFrameIsBuilt();
    GsvFrameIsBuilt();
    GsaFrameIsBuilt();
    GgaFrameIsBuilt();
    VtgFrameIsBuilt();
    RmcFrameIsBuilt();
    PvtFrameIsBuilt();
    [ WriteCall(DisableNmeaGll, 16), WriteCall(DisableNmeaGsv, 16), WriteCall(DisableNmeaGsa, 16),
      WriteCall(DisableNmeaGga, 16), WriteCall(DisableNmeaVtg, 16), WriteCall(DisableNmeaRmc, 16),
      WriteCall(EnableUbxPvt, 16) ]
  }

  /** Every frame DisableCommand makes is a 16-byte CFG-MSG frame for `id` with all rates zero. */
  lemma DisableCommandSays(id: byte)
    ensures |DisableCommand(id)| == 16
    ensures IsCfgMsgFrame(DisableCommand(id), ClassNmea, id, AllPortsOff)
  {
    CfgMsgFrameSays(ClassNmea, id, AllPortsOff);
  }

  /** The NAV-PVT frame is a 16-byte CFG-MSG frame with rate 1 on UART1 only. */
  lemma EnablePvtCommandSays()
    ensures |EnablePvtCommand()| == 16
    ensures IsCfgMsgFrame(EnablePvtCommand(), ClassNav, IdNavPvt, Uart1Only)
  {
    CfgMsgFrameSays(ClassNav, IdNavPvt, Uart1Only);
  }

  /** What SetUpGPS configures: every write hands over a whole, well-formed
      16-byte CFG-MSG frame; the first six turn the sentences of
      DisabledSentences off on every port; the last turns NAV-PVT on at rate 1
      on UART1 only. */
  predicate TurnsOffNmeaTurnsOnPvt(calls: seq<WriteCall>)
  {
    && |calls| == |DisabledSentences| + 1
    && (forall i :: 0 <= i < |calls| ==> |calls[i].buffer| == calls[i].count == 16)
    && (forall i :: 0 <= i < |DisabledSentences| ==>
          IsCfgMsgFrame(calls[i].buffer, ClassNmea, DisabledSentences[i], AllPortsOff))
    && IsCfgMsgFrame(calls[|DisabledSentences|].buffer, ClassNav, IdNavPvt, Uart1Only)
  }

  /** The seven commands of SetUpGPS, written in this order, configure the receiver as intended. */
  lemma CommandWritesSay(calls: seq<WriteCall>)
    requires calls == [ WriteCall(DisableCommand(IdNmeaGll), 16), WriteCall(DisableCommand(IdNmeaGsv), 16),
                        WriteCall(DisableCommand(IdNmeaGsa), 16), WriteCall(DisableCommand(IdNmeaGga), 16),
                        WriteCall(DisableCommand(IdNmeaVtg), 16), WriteCall(DisableCommand(IdNmeaRmc), 16),
                        WriteCall(EnablePvtCommand(), 16) ]
    ensures TurnsOffNmeaTurnsOnPvt(calls)
  {
    forall i | 0 <= i < |DisabledSentences|
      ensures calls[i] == WriteCall(DisableCommand(DisabledSentences[i]), 16)
      ensures |calls[i].buffer| == calls[i].count == 16
      ensures IsCfgMsgFrame(calls[i].buffer, ClassNmea, DisabledSentences[i], AllPortsOff)
    {
      DisableCommandSays(DisabledSentences[i]);
    }
    EnablePvtCommandSays();
    assert calls[|DisabledSentences|] == WriteCall(EnablePvtCommand(), 16);
  }

  /** SetUpGPS turns the six NMEA sentences off and NAV-PVT on. */
  lemma SetUpGpsDisablesNmeaEnablesPvt()
    ensures TurnsOffNmeaTurnsOnPvt(SetUpGps())
  {
    CommandWritesSay(SetUpGps());
  }

  /** The sentences turned off are pairwise different and are exactly the six
      standard ones GGA, GLL, GSA, GSV, RMC and VTG (ids 0 to 5 of class 0xF0). */
  lemma DisabledSentencesAreTheStandardSix()
    ensures forall i, j :: 0 <= i < j < |DisabledSentences| ==> DisabledSentences[i] != DisabledSentences[j]
    ensures forall id :: id in DisabledSentences <==> 0 <= id <= 5
  {
  }

  /** The per-port rates: the disable frames carry rate 0 on every port, the
      enable frame carries rate 1 on exactly one port (UART1, port 1). */
  lemma PortRates()
    ensures forall p :: 0 <= p < PortCount ==> AllPortsOff[p] == 0
    ensures forall p :: 0 <= p < PortCount ==> (Uart1Only[p] != 0 <==> p == 1)
    ensures Uart1Only[1] == 1
  {
  }

  /** The write of SetUpdate1Hz: a CFG-RATE frame with a 1000 ms measurement period. */
  function SetUpdate1Hz(): (w: WriteCall)
    ensures w.count == |w.buffer|
    ensures w.buffer == BuildFrame(ClassCfg, IdCfgRate, CfgRatePayload(1000, 1, 1))
  {
    Rate1HzFrameIsBuilt();
    WriteCall(RateCmd1Hz, 14)
  }

  /** The write of SetUpdate2Hz: a CFG-RATE frame with a 500 ms measurement period. */
  function SetUpdate2Hz(): (w: WriteCall)
    ensures w.count == |w.buffer|
    ensures w.buffer == BuildFrame(ClassCfg, IdCfgRate, CfgRatePayload(500, 1, 1))
  {
    Rate2HzFrameIsBuilt();
    WriteCall(RateCmd2Hz, 14)
  }

  /** The write of SetUpdate5Hz: a CFG-RATE frame with a 200 ms measurement period. */
  function SetUpdate5Hz(): (w: WriteCall)
    ensures w.count == |w.buffer|
    ensures w.buffer == BuildFrame(ClassCfg, IdCfgRate, CfgRatePayload(200, 1, 1))
  {
    Rate5HzFrameIsBuilt();
    WriteCall(RateCmd5Hz, 14)
  }

  /** The write of SetUpdate10Hz: a CFG-RATE frame with a 100 ms measurement period. */
  function SetUpdate10Hz(): (w: WriteCall)
    ensures w.count == |w.buffer|
    ensures w.buffer == BuildFrame(ClassCfg, IdCfgRate, CfgRatePayload(100, 1, 1))
  {
    Rate10HzFrameIsBuilt();
    WriteCall(RateCmd10Hz, 14)
  }

  /** A write that sets the navigation rate to `hz` solutions per second: it
      hands over a whole, well-formed 14-byte CFG-RATE frame whose measurement
      period times `hz` is one second (1000 ms), with one navigation solution
      per measurement (navRate 1) on GPS time (timeRef 1). */
  predicate SetsUpdateRate(w: WriteCall, hz: nat)
  {
    && |w.buffer| == w.count == 14
    && IsCfgRateFrame(w.buffer, ReadLe16(w.buffer[6], w.buffer[7]), 1, 1)
    && ReadLe16(w.buffer[6], w.buffer[7]) * hz == 1000
  }

  /** A CFG-RATE write with a measurement period of `measRateMs` sets `hz` when
      the two multiply to one second. */
  lemma RateCommandSays(w: WriteCall, measRateMs: nat, hz: nat)
    requires measRateMs <= MaxPayload && measRateMs * hz == 1000
    requires w == WriteCall(BuildFrame(ClassCfg, IdCfgRate, CfgRatePayload(measRateMs, 1, 1)), 14)
    ensures SetsUpdateRate(w, hz)
  {
    CfgRateFrameSays(measRateMs, 1, 1);
  }

  lemma SetUpdate1HzSetsRate()
    ensures SetsUpdateRate(SetUpdate1Hz(), 1)
  {
    RateCommandSays(SetUpdate1Hz(), 1000, 1);
  }

  lemma SetUpdate2HzSetsRate()
    ensures SetsUpdateRate(SetUpdate2Hz(), 2)
  {
    RateCommandSays(SetUpdate2Hz(), 500, 2);
  }

  lemma SetUpdate5HzSetsRate()
    ensures SetsUpdateRate(SetUpdate5Hz(), 5)
  {
    RateCommandSays(SetUpdate5Hz(), 200, 5);
  }

  lemma SetUpdate10HzSetsRate()
    ensures SetsUpdateRate(SetUpdate10Hz(), 10)
  {
    RateCommandSays(SetUpdate10Hz(), 100, 10);
  }
}
