/**
 * How the demonstration program turns the [port] section of its settings file
 * into serial port settings before it opens the receiver's port. Each setting
 * is read as an integer or as a string; strings are compared after they are
 * lower-cased. An unknown value is reported as a critical message: data bits
 * and stop bits then fall back to 8 and to one stop bit, parity falls back to
 * none, and flow control is left with no value at all.
 */
module PortSettings {

  datatype Option<T> = None | Some(value: T)

  datatype DataBits = Data5 | Data6 | Data7 | Data8
  datatype Parity = NoParity | EvenParity | OddParity | SpaceParity | MarkParity
  datatype StopBits = OneStop | TwoStop
  datatype FlowControl = NoFlowControl | HardwareControl | SoftwareControl

  /** A decoded setting, and whether decoding it logged a critical message. */
  datatype Decoded<T> = Decoded(value: T, critical: bool)

  /** The critical messages setup() can log, one per setting. */
  datatype Diagnostic =
    | DeviceConfigurationFailure   // data bits
    | InvalidParity
    | InvalidStopBits
    | InvalidFlowControl

  // ---------------------------------------------------------------------------
  // Lower-casing. Of all characters, only A to Z and U+212A KELVIN SIGN
  // lower-case to a letter of an accepted setting name (the Kelvin sign to
  // 'k'), so these are the characters that matter here.
  // ---------------------------------------------------------------------------

  const KelvinSign: char := '\U{212A}'

  /** A character whose lower-case form is an ASCII letter other than itself. */
  predicate IsUpperToAscii(c: char)
  {
    'A' <= c <= 'Z' || c == KelvinSign
  }

  function LowerChar(c: char): (l: char)
    ensures 'A' <= c <= 'Z' ==> l as int == c as int + 32
    ensures c == KelvinSign ==> l == 'k'
    ensures !IsUpperToAscii(c) ==> l == c
    ensures !IsUpperToAscii(l)
  {
    if 'A' <= c <= 'Z' then (c as int + 32) as char
    else if c == KelvinSign then 'k'
    else c
  }

  /** The string with every upper-case letter replaced by its lower-case one. */
  function ToLower(s: string): (r: string)
    ensures |r| == |s|
    ensures forall i :: 0 <= i < |s| ==> r[i] == LowerChar(s[i])
  {
    if |s| == 0 then [] else [LowerChar(s[0])] + ToLower(s[1..])
  }

  /** No character of `s` lower-cases to a different ASCII letter. */
  predicate IsLowerCase(s: string)
  {
    forall i :: 0 <= i < |s| ==> !IsUpperToAscii(s[i])
  }

  /** Lower-casing leaves a lower-case string alone, and its result is lower case. */
  lemma ToLowerFixesLowerCase(s: string)
    ensures IsLowerCase(ToLower(s))
    ensures IsLowerCase(s) <==> ToLower(s) == s
  {
    if IsLowerCase(s) {
      assert forall i :: 0 <= i < |s| ==> ToLower(s)[i] == s[i];
    }
    if ToLower(s) == s {
      assert forall i :: 0 <= i < |s| ==> !IsUpperToAscii(ToLower(s)[i]);
    }
  }

  lemma ToLowerIdempotent(s: string)
    ensures ToLower(ToLower(s)) == ToLower(s)
  {
    ToLowerFixesLowerCase(s);
    ToLowerFixesLowerCase(ToLower(s));
  }

  /** Two strings that are the same letter for letter, up to case. */
  predicate EqualIgnoringCase(a: string, b: string)
  {
    |a| == |b| && forall i :: 0 <= i < |a| ==> LowerChar(a[i]) == LowerChar(b[i])
  }

  lemma EqualIgnoringCaseIff(a: string, b: string)
    ensures EqualIgnoringCase(a, b) <==> ToLower(a) == ToLower(b)
  {
    if ToLower(a) == ToLower(b) {
      assert forall i :: 0 <= i < |a| ==> ToLower(a)[i] == ToLower(b)[i];
    }
  }

  // ---------------------------------------------------------------------------
  // Data bits: port/data_bits.
  // ---------------------------------------------------------------------------

  function DataBitsCount(d: DataBits): nat
  {
    match d
    case Data5 => 5
    case Data6 => 6
    case Data7 => 7
    case Data8 => 8
  }

  /** 7, 6 and 5 select those sizes; every other value selects 8 data bits, and
      logs "Device configuration failure" unless it is 8. */
  function DecodeDataBits(n: int): (r: Decoded<DataBits>)
    ensures r.critical <==> !(5 <= n <= 8)
    ensures !r.critical ==> DataBitsCount(r.value) == n
    ensures r.critical ==> r.value == Data8
  {
    if n == 7 then Decoded(Data7, false)
    else if n == 6 then Decoded(Data6, false)
    else if n == 5 then Decoded(Data5, false)
    else Decoded(Data8, n != 8)
  }

  lemma DataBitsRoundTrip(d: DataBits)
    ensures DecodeDataBits(DataBitsCount(d)) == Decoded(d, false)
  {
  }

  // ---------------------------------------------------------------------------
  // Parity: port/parity.
  // ---------------------------------------------------------------------------

  function ParityName(p: Parity): string
  {
    match p
    case NoParity => "no"
    case EvenParity => "even"
    case OddParity => "odd"
    case SpaceParity => "space"
    case MarkParity => "mark"
  }

  /** The lower-cased string names a parity, or it does not: then no parity
      is used and "Invalid parity config!" is logged. */
  function DecodeParity(s: string): (r: Decoded<Parity>)
    ensures !r.critical ==> ParityName(r.value) == ToLower(s)
    ensures r.critical ==> r.value == NoParity && forall p :: ParityName(p) != ToLower(s)
  {
    var l := ToLower(s);
    if l == "no" then Decoded(NoParity, false)
    else if l == "even" then Decoded(EvenParity, false)
    else if l == "odd" then Decoded(OddParity, false)
    else if l == "space" then Decoded(SpaceParity, false)
    else if l == "mark" then Decoded(MarkParity, false)
    else
      NotAParityName(l);
      Decoded(NoParity, true)
  }

  lemma NotAParityName(l: string)
    requires l != "no" && l != "even" && l != "odd" && l != "space" && l != "mark"
    ensures forall p :: ParityName(p) != l
  {
    forall p ensures ParityName(p) != l {
      match p
      case NoParity =>
      case EvenParity =>
      case OddParity =>
      case SpaceParity =>
      case MarkParity =>
    }
  }

  /** No parity name has an upper-case letter. */
  lemma ParityNameHasNoUpperCase(p: Parity)
    ensures IsLowerCase(ParityName(p))
  {
  }

  lemma ParityNameIsLowerCase(p: Parity)
    ensures ToLower(ParityName(p)) == ParityName(p)
  {
    ParityNameHasNoUpperCase(p);
    ToLowerFixesLowerCase(ParityName(p));
  }

  lemma ParityRoundTrip(p: Parity)
    ensures DecodeParity(ParityName(p)) == Decoded(p, false)
  {
    ParityNameIsLowerCase(p);
  }

  /** A Kelvin sign spells the k of "mark": it selects mark parity without a message. */
  lemma KelvinSignSpellsMark(s: string)
    requires s == ['M', 'A', 'R', KelvinSign]
    ensures DecodeParity(s) == Decoded(MarkParity, false)
  {
    assert ToLower(s) == "mark";
  }

  // ---------------------------------------------------------------------------
  // Stop bits: port/stop_bits.
  // ---------------------------------------------------------------------------

  function StopBitsCount(b: StopBits): nat
  {
    match b
    case OneStop => 1
    case TwoStop => 2
  }

  /** 2 selects two stop bits; every other value selects one, and logs
      "Invalid stop bits!" unless it is 1. */
  function DecodeStopBits(n: int): (r: Decoded<StopBits>)
    ensures r.critical <==> n != 1 && n != 2
    ensures r.value == TwoStop <==> n == 2
    ensures !r.critical ==> StopBitsCount(r.value) == n
  {
    if n == 2 then Decoded(TwoStop, false) else Decoded(OneStop, n != 1)
  }

  lemma StopBitsRoundTrip(b: StopBits)
    ensures DecodeStopBits(StopBitsCount(b)) == Decoded(b, false)
  {
  }

  // ---------------------------------------------------------------------------
  // Flow control: port/flow_control.
  // ---------------------------------------------------------------------------

  function FlowControlName(f: FlowControl): string
  {
    match f
    case NoFlowControl => "no"
    case HardwareControl => "hardware"
    case SoftwareControl => "software"
  }

  /** The lower-cased string names a flow control, or it does not: then
      "Invalid flow control configuration!" is logged and no flow control is
      chosen (None). */
  function DecodeFlowControl(s: string): (r: Option<FlowControl>)
    ensures r.Some? ==> FlowControlName(r.value) == ToLower(s)
    ensures r.None? ==> forall f :: FlowControlName(f) != ToLower(s)
  {
    var l := ToLower(s);
    if l == "no" then Some(NoFlowControl)
    else if l == "hardware" then Some(HardwareControl)
    else if l == "software" then Some(SoftwareControl)
    else
      NotAFlowControlName(l);
      None
  }

  lemma NotAFlowControlName(l: string)
    requires l != "no" && l != "hardware" && l != "software"
    ensures forall f :: FlowControlName(f) != l
  {
    forall f ensures FlowControlName(f) != l {
      match f
      case NoFlowControl =>
      case HardwareControl =>
      case SoftwareControl =>
    }
  }

  /** No flow control name has an upper-case letter. */
  lemma FlowControlNameHasNoUpperCase(f: FlowControl)
    ensures IsLowerCase(FlowControlName(f))
  {
  }

  lemma FlowControlNameIsLowerCase(f: FlowControl)
    ensures ToLower(FlowControlName(f)) == FlowControlName(f)
  {
    FlowControlNameHasNoUpperCase(f);
    ToLowerFixesLowerCase(FlowControlName(f));
  }

  lemma FlowControlRoundTrip(f: FlowControl)
    ensures DecodeFlowControl(FlowControlName(f)) == Some(f)
  {
    FlowControlNameIsLowerCase(f);
  }

  // ---------------------------------------------------------------------------
  // setup(): all four settings together.
  // ---------------------------------------------------------------------------

  /** The [port] section as setup() reads it: the integers as toInt() returns
      them and the strings before lower-casing. */
  datatype PortConfig = PortConfig(
    name: string,
    baudRate: int,
    dataBits: int,
    parity: string,
    stopBits: int,
    flowControl: string)

  /** The settings applied to the serial port. */
  datatype SerialSettings = SerialSettings(
    name: string,
    baudRate: int,
    dataBits: DataBits,
    parity: Parity,
    stopBits: StopBits,
    flowControl: Option<FlowControl>)

  datatype SetupResult = SetupResult(settings: SerialSettings, log: seq<Diagnostic>)

  /** Every value in the configuration is one setup() accepts. */
  predicate IsValidConfig(c: PortConfig)
  {
    && 5 <= c.dataBits <= 8
    && (exists p :: ParityName(p) == ToLower(c.parity))
    && (c.stopBits == 1 || c.stopBits == 2)
    && (exists f :: FlowControlName(f) == ToLower(c.flowControl))
  }

  /** The position of each message's check in setup(). */
  function Rank(d: Diagnostic): nat
  {
    match d
    case DeviceConfigurationFailure => 0
    case InvalidParity => 1
    case InvalidStopBits => 2
    case InvalidFlowControl => 3
  }

  /** Each message at most once, in the order setup() checks the settings. */
  predicate InCheckOrder(log: seq<Diagnostic>)
  {
    forall i, j :: 0 <= i < j < |log| ==> Rank(log[i]) < Rank(log[j])
  }

  /** The log after one check: `d` is appended when its setting was rejected. */
  function LogIf(log: seq<Diagnostic>, rejected: bool, d: Diagnostic): (r: seq<Diagnostic>)
    requires InCheckOrder(log)
    requires forall x :: x in log ==> Rank(x) < Rank(d)
    ensures InCheckOrder(r)
    ensures forall x :: x in r ==> Rank(x) <= Rank(d)
    ensures forall x :: x in r <==> x in log || (rejected && x == d)
    ensures |r| <= |log| + 1
  {
    if rejected then log + [d] else log
  }

  /** The critical messages logged, in the order setup() checks the settings,
      given which of the four settings were invalid. */
  function CriticalMessages(dataBits: bool, parity: bool, stopBits: bool, flowControl: bool): (log: seq<Diagnostic>)
    ensures DeviceConfigurationFailure in log <==> dataBits
    ensures InvalidParity in log <==> parity
    ensures InvalidStopBits in log <==> stopBits
    ensures InvalidFlowControl in log <==> flowControl
    ensures InCheckOrder(log)
    ensures |log| <= 4
  {
    var log := LogIf([], dataBits, DeviceConfigurationFailure);
    var log := LogIf(log, parity, InvalidParity);
    var log := LogIf(log, stopBits, InvalidStopBits);
    LogIf(log, flowControl, InvalidFlowControl)
  }

  /** setup(): decodes the four settings in order and collects the critical
      messages it logs. Port name and baud rate are passed through. */
  function Setup(c: PortConfig): (r: SetupResult)
    ensures r.settings.name == c.name && r.settings.baudRate == c.baudRate
    ensures r.settings.dataBits == DecodeDataBits(c.dataBits).value
    ensures r.settings.parity == DecodeParity(c.parity).value
    ensures r.settings.stopBits == DecodeStopBits(c.stopBits).value
    ensures r.settings.flowControl == DecodeFlowControl(c.flowControl)
    ensures InCheckOrder(r.log) && |r.log| <= 4
    ensures DeviceConfigurationFailure in r.log <==> !(5 <= c.dataBits <= 8)
    ensures InvalidParity in r.log <==> forall p :: ParityName(p) != ToLower(c.parity)
    ensures InvalidStopBits in r.log <==> c.stopBits != 1 && c.stopBits != 2
    ensures InvalidFlowControl in r.log <==> forall f :: FlowControlName(f) != ToLower(c.flowControl)
  {
    var d := DecodeDataBits(c.dataBits);
    var p := DecodeParity(c.parity);
    var s := DecodeStopBits(c.stopBits);
    var f := DecodeFlowControl(c.flowControl);
    var log := CriticalMessages(d.critical, p.critical, s.critical, f.None?);
    SetupResult(SerialSettings(c.name, c.baudRate, d.value, p.value, s.value, f), log)
  }

  /** setup() logs nothing exactly when every setting is one it accepts. */
  lemma SetupLogsNothingIffValid(c: PortConfig)
    ensures Setup(c).log == [] <==> IsValidConfig(c)
  {
    var log := Setup(c).log;
    if log == [] {
      assert DeviceConfigurationFailure !in log && InvalidParity !in log;
      assert InvalidStopBits !in log && InvalidFlowControl !in log;
    }
  }

  /** Settings that differ only in the case of their letters are decoded alike. */
  lemma DecodingIgnoresCase(a: string, b: string)
    requires EqualIgnoringCase(a, b)
    ensures DecodeParity(a) == DecodeParity(b)
    ensures DecodeFlowControl(a) == DecodeFlowControl(b)
  {
    EqualIgnoringCaseIff(a, b);
  }

  /** A configuration whose strings differ only in letter case sets up the same port. */
  lemma SetupIgnoresCase(c1: PortConfig, c2: PortConfig)
    requires c1.name == c2.name && c1.baudRate == c2.baudRate
    requires c1.dataBits == c2.dataBits && c1.stopBits == c2.stopBits
    requires EqualIgnoringCase(c1.parity, c2.parity)
    requires EqualIgnoringCase(c1.flowControl, c2.flowControl)
    ensures Setup(c1) == Setup(c2)
  {
    DecodingIgnoresCase(c1.parity, c2.parity);
    DecodingIgnoresCase(c1.flowControl, c2.flowControl);
  }
}
