/** The sensor diagnostic script (debug_mhz19c.py): the hex dump of a frame,
    the baud-rate search and the analysis of a reply. */
module Diagnostics {
  import opened Common
  import SerialPort
  import Sensor

  // ---------------------------------------------------------------------
  // hex_dump
  // ---------------------------------------------------------------------

  /** Upper-case hexadecimal digit of 0..15. */
  function HexDigit(d: nat): char
    requires d < 16
  {
    if d < 10 then ('0' as int + d) as char else ('A' as int + d - 10) as char
  }

  /** `f"{b:02X}"`. */
  function HexByte(b: byte): string
  {
    [HexDigit(b / 16), HexDigit(b % 16)]
  }

  function HexTokens(data: seq<byte>): (tokens: seq<string>)
    ensures |tokens| == |data|
    ensures forall i :: 0 <= i < |data| ==> tokens[i] == HexByte(data[i])
  {
    if data == [] then [] else [HexByte(data[0])] + HexTokens(data[1..])
  }

  const NoData: string := "Aucune donnée"

  /** `hex_dump(data)`: `None` and empty data both give the "no data" text. */
  function HexDump(data: Option<seq<byte>>): string
  {
    if data.Some? && data.value != [] then Join(HexTokens(data.value), ' ') else NoData
  }

  /** Value of one hexadecimal digit, in either case. */
  function HexValue(c: char): Option<nat>
  {
    if '0' <= c <= '9' then Some(c as int - '0' as int)
    else if 'A' <= c <= 'F' then Some(c as int - 'A' as int + 10)
    else if 'a' <= c <= 'f' then Some(c as int - 'a' as int + 10)
    else None
  }

  function HexNumeral(s: string): Option<nat>
    decreases |s|
  {
    if s == [] then Some(0)
    else match (HexNumeral(s[..|s| - 1]), HexValue(s[|s| - 1]))
      case (Some(high), Some(low)) => Some(16 * high + low)
      case _ => None
  }

  /** `int(token, 16)` for a token of hexadecimal digits. */
  function ParseHex(token: string): Option<nat>
  {
    if token == [] then None else HexNumeral(token)
  }

  function ParseTokens(tokens: seq<string>): Option<seq<int>>
  {
    if tokens == [] then Some([])
    else match (ParseHex(tokens[0]), ParseTokens(tokens[1..]))
      case (Some(v), Some(vs)) => Some([v] + vs)
      case _ => None
  }

  /** `[int(t, 16) for t in text.split(' ')]`, the reading of a dump. */
  function ParseHexDump(text: string): Option<seq<int>>
  {
    ParseTokens(Split(text, ' '))
  }

  lemma HexValueOfDigit(d: nat)
    requires d < 16
    ensures HexValue(HexDigit(d)) == Some(d)
  {
  }

  lemma HexByteParses(b: byte)
    ensures ParseHex(HexByte(b)) == Some(b as nat)
    ensures ' ' !in HexByte(b)
  {
    var t := HexByte(b);
    var high, low := b / 16, b % 16;
    HexValueOfDigit(high);
    HexValueOfDigit(low);
    assert t[..1] == [HexDigit(high)];
    assert t[..1][..0] == [];
    assert HexNumeral(t[..1]) == Some(high);
    assert HexNumeral(t) == Some(16 * high + low);
    assert 16 * high + low == b;
  }

  lemma {:induction false} ParseHexTokens(data: seq<byte>)
    ensures ParseTokens(HexTokens(data)) == Some(data)
  {
    if data != [] {
      HexByteParses(data[0]);
      ParseHexTokens(data[1..]);
      assert HexTokens(data)[1..] == HexTokens(data[1..]);
      assert [data[0] as int] + data[1..] == data;
    }
  }

  /** Reading a dump back gives the original bytes. */
  lemma HexDumpRoundTrip(data: seq<byte>)
    requires data != []
    ensures ParseHexDump(HexDump(Some(data))) == Some(data)
  {
    var tokens := HexTokens(data);
    forall i | 0 <= i < |tokens| ensures ' ' !in tokens[i] {
      HexByteParses(data[i]);
    }
    SplitJoin(tokens, ' ');
    ParseHexTokens(data);
  }

  lemma {:induction false} JoinPairsLength(tokens: seq<string>)
    requires tokens != []
    requires forall i :: 0 <= i < |tokens| ==> |tokens[i]| == 2
    ensures |Join(tokens, ' ')| == 3 * |tokens| - 1
  {
    if |tokens| > 1 {
      JoinPairsLength(tokens[1..]);
    }
  }

  /** n bytes give n two-digit tokens and n - 1 single spaces. */
  lemma HexDumpLength(data: seq<byte>)
    requires data != []
    ensures |HexDump(Some(data))| == 3 * |data| - 1
  {
    JoinPairsLength(HexTokens(data));
  }

  predicate UpperHexDigit(c: char)
  {
    '0' <= c <= '9' || 'A' <= c <= 'F'
  }

  /** Split on spaces, the dump is exactly one token per byte, each two
      upper-case hexadecimal digits. */
  lemma HexDumpTokens(data: seq<byte>)
    requires data != []
    ensures Split(HexDump(Some(data)), ' ') == HexTokens(data)
    ensures forall i :: 0 <= i < |data| ==>
      |HexTokens(data)[i]| == 2 && UpperHexDigit(HexTokens(data)[i][0]) && UpperHexDigit(HexTokens(data)[i][1])
  {
    var tokens := HexTokens(data);
    forall i | 0 <= i < |tokens| ensures ' ' !in tokens[i] {
      HexByteParses(data[i]);
    }
    SplitJoin(tokens, ' ');
  }

  // ---------------------------------------------------------------------
  // test_different_baudrates
  // ---------------------------------------------------------------------

  const BaudRates: seq<int> := [9600, 4800, 19200, 38400]

  /** The search's acceptance test: 9 bytes or more starting with FF. The
      second header byte is not checked. */
  predicate LooksLikeSensor(response: seq<byte>)
  {
    |response| >= 9 && response[0] == 0xFF
  }

  /** The first rate, in order, whose reply passes the test. */
  function FirstResponsive(rates: seq<int>, replyAt: int -> seq<byte>): Option<int>
  {
    if rates == [] then None
    else if LooksLikeSensor(replyAt(rates[0])) then Some(rates[0])
    else FirstResponsive(rates[1..], replyAt)
  }

  /** A rate is returned exactly when its reply passes and no earlier
      rate's reply does. */
  lemma {:induction false} FirstResponsiveFound(rates: seq<int>, replyAt: int -> seq<byte>, k: nat)
    requires k < |rates|
    requires LooksLikeSensor(replyAt(rates[k]))
    requires forall j :: 0 <= j < k ==> !LooksLikeSensor(replyAt(rates[j]))
    ensures FirstResponsive(rates, replyAt) == Some(rates[k])
  {
    if k > 0 {
      assert !LooksLikeSensor(replyAt(rates[0]));
      forall j | 0 <= j < k - 1 ensures !LooksLikeSensor(replyAt(rates[1..][j])) {
        assert rates[1..][j] == rates[j + 1];
      }
      FirstResponsiveFound(rates[1..], replyAt, k - 1);
    }
  }

  lemma {:induction false} FirstResponsiveSound(rates: seq<int>, replyAt: int -> seq<byte>)
    ensures match FirstResponsive(rates, replyAt)
      case None => forall j :: 0 <= j < |rates| ==> !LooksLikeSensor(replyAt(rates[j]))
      case Some(rate) =>
        (exists k :: 0 <= k < |rates| && rates[k] == rate && LooksLikeSensor(replyAt(rate)) &&
           forall j :: 0 <= j < k ==> !LooksLikeSensor(replyAt(rates[j])))
  {
    if rates != [] && !LooksLikeSensor(replyAt(rates[0])) {
      FirstResponsiveSound(rates[1..], replyAt);
      match FirstResponsive(rates[1..], replyAt)
      case None =>
        forall j | 0 <= j < |rates| ensures !LooksLikeSensor(replyAt(rates[j])) {
          if j > 0 { assert rates[j] == rates[1..][j - 1]; }
        }
      case Some(rate) =>
        var k :| 0 <= k < |rates[1..]| && rates[1..][k] == rate &&
          LooksLikeSensor(replyAt(rate)) &&
          forall j :: 0 <= j < k ==> !LooksLikeSensor(replyAt(rates[1..][j]));
        assert rates[k + 1] == rate;
        forall j | 0 <= j < k + 1 ensures !LooksLikeSensor(replyAt(rates[j])) {
          if j > 0 { assert rates[j] == rates[1..][j - 1]; }
        }
    } else if rates != [] {
      assert rates[0] == rates[0];
    }
  }

  /** The search accepts a reply whose second byte is not 86, which the
      firmware's decoder then rejects. */
  lemma SearchAcceptsWrongCommandByte()
    ensures var reply := [0xFF, 0x00, 0x01, 0xC2, 0, 0, 0, 0, 0];
      LooksLikeSensor(reply) && Sensor.DecodeReply(reply).None?
  {
  }

  /** How many rates the search tries: every one up to and including the
      first whose reply passes, or all of them. */
  function RatesTried(rates: seq<int>, replyAt: int -> seq<byte>): (n: nat)
    ensures n <= |rates|
    ensures FirstResponsive(rates, replyAt).None? ==> n == |rates|
    ensures FirstResponsive(rates, replyAt).Some? ==>
      0 < n && FirstResponsive(rates, replyAt) == Some(rates[n - 1])
  {
    if rates == [] then 0
    else if LooksLikeSensor(replyAt(rates[0])) then 1
    else 1 + RatesTried(rates[1..], replyAt)
  }

  /** `test_different_baudrates()`: for each rate in turn, re-initialise the
      port, drain it, send the read command and look at what came back
      (`replyAt(rate)`); stop at the first rate that passes. */
  method TestDifferentBaudrates(uart: SerialPort.Uart, replyAt: int -> seq<byte>)
    returns (found: Option<int>)
    modifies uart`baud, uart`rx, uart`sent
    ensures found == FirstResponsive(BaudRates, replyAt)
    ensures found.Some? ==> uart.baud == found.value
    ensures |uart.sent| == |old(uart.sent)| + RatesTried(BaudRates, replyAt)
    ensures uart.sent[..|old(uart.sent)|] == old(uart.sent)
    ensures forall j :: |old(uart.sent)| <= j < |uart.sent| ==> uart.sent[j] == Sensor.ReadCommand
  {
    var i := 0;
    while i < |BaudRates|
      invariant 0 <= i <= |BaudRates|
      invariant FirstResponsive(BaudRates, replyAt) == FirstResponsive(BaudRates[i..], replyAt)
      invariant RatesTried(BaudRates, replyAt) == i + RatesTried(BaudRates[i..], replyAt)
      invariant |uart.sent| == |old(uart.sent)| + i
      invariant uart.sent[..|old(uart.sent)|] == old(uart.sent)
      invariant forall j :: |old(uart.sent)| <= j < |uart.sent| ==> uart.sent[j] == Sensor.ReadCommand
    {
      var baudrate := BaudRates[i];
      uart.Init(baudrate);
      SerialPort.Drain(uart);
      uart.Write(Sensor.ReadCommand);
      uart.Receive(replyAt(baudrate));
      var waiting := uart.Any();
      if waiting {
        var response := uart.Read();
        if |response| >= 9 && response[0] == 0xFF {
          return Some(baudrate);
        }
      }
      assert BaudRates[i..][1..] == BaudRates[i + 1..];
      i := i + 1;
    }
    found := None;
  }

  // ---------------------------------------------------------------------
  // reply analysis in test_alternative_commands and main
  // ---------------------------------------------------------------------

  datatype Analysis =
    | Co2Detected(ppm: nat)
    | UnexpectedHeader(first: byte, second: byte)
    | TooShort(length: nat)

  /** The analysis printed for a reply. */
  function AnalyzeResponse(response: seq<byte>): Analysis
  {
    if |response| >= 9 then
      if response[0] == 0xFF && response[1] == 0x86 then Co2Detected(response[2] as int * 256 + response[3] as int)
      else UnexpectedHeader(response[0], response[1])
    else TooShort(|response|)
  }

  /** The diagnostic reports a reading exactly when the firmware would
      decode one, and the same reading. */
  lemma AnalyzeAgreesWithFirmware(response: seq<byte>)
    ensures AnalyzeResponse(response).Co2Detected? <==> Sensor.DecodeReply(response).Some?
    ensures AnalyzeResponse(response).Co2Detected? ==>
      AnalyzeResponse(response).ppm == Sensor.DecodeReply(response).value
    ensures AnalyzeResponse(response).TooShort? <==> |response| < 9
  {
  }

  /** The three "alternative" commands are all the standard read command. */
  const AlternativeCommands: seq<seq<byte>> := [
    [0xFF, 0x01, 0x86, 0x00, 0x00, 0x00, 0x00, 0x00, 0x79],
    [0xFF, 0x01, 0x86, 0x00, 0x00, 0x00, 0x00, 0x00, 0x79],
    [0xFF, 0x01, 0x86, 0x00, 0x00, 0x00, 0x00, 0x00, 0x79]
  ]

  lemma AlternativeCommandsAreTheReadCommand()
    ensures forall i :: 0 <= i < |AlternativeCommands| ==> AlternativeCommands[i] == Sensor.ReadCommand
  {
  }

  /** What `main` does after the basic exchange. */
  datatype NextStep =
    | CheckWiringAndBaudrates        // no reply at all
    | SensorWorks(ppm: nat)          // a decodable reply
    | TryAlternativeCommands         // a reply that is too short or has the wrong header

  /** `test_uart_basic()`: `None` when nothing came back. */
  function BasicExchange(reply: seq<byte>): Option<seq<byte>>
  {
    if |reply| > 0 then Some(reply) else None
  }

  function MainDecision(response: Option<seq<byte>>): NextStep
  {
    match response
    case None => CheckWiringAndBaudrates
    case Some(r) =>
      if |r| >= 9 then
        if r[0] == 0xFF && r[1] == 0x86 then SensorWorks(r[2] as int * 256 + r[3] as int)
        else TryAlternativeCommands
      else TryAlternativeCommands
  }

  /** `main` declares the sensor working exactly when the firmware decodes
      the reply, with the same reading; it falls back to the wiring and
      baud-rate checks only when nothing came back. */
  lemma MainDecisionAgreesWithFirmware(reply: seq<byte>)
    ensures MainDecision(BasicExchange(reply)).SensorWorks? <==> Sensor.DecodeReply(reply).Some?
    ensures MainDecision(BasicExchange(reply)).SensorWorks? ==>
      MainDecision(BasicExchange(reply)).ppm == Sensor.DecodeReply(reply).value
    ensures MainDecision(BasicExchange(reply)) == CheckWiringAndBaudrates <==> reply == []
  {
  }
}
