/** The MH-Z19C exchange of the main firmware (aircarto_complete.py): the
    fixed "read CO2" command, the reply decoder and the status label. */
module Sensor {
  import opened Common
  import opened AirQuality
  import SerialPort

  /** FF 01 86 00 00 00 00 00 79: "read CO2" for sensor 1. */
  const ReadCommand: seq<byte> := [0xFF, 0x01, 0x86, 0x00, 0x00, 0x00, 0x00, 0x00, 0x79]

  /** The sensor's frame checksum: the two's complement of the sum of bytes
      1 to 7. */
  function Checksum(frame: seq<byte>): byte
    requires |frame| == 9
  {
    var sum: int := frame[1] as int + frame[2] + frame[3] + frame[4] + frame[5] + frame[6] + frame[7];
    (256 - sum % 256) % 256
  }

  /** The command is a well-formed 9-byte frame whose last byte is its checksum. */
  lemma ReadCommandWellFormed()
    ensures |ReadCommand| == 9 && ReadCommand[0] == 0xFF
    ensures Checksum(ReadCommand) == ReadCommand[8]
  {
  }

  /** The part of `read_co2` after a reply was read: at least 9 bytes with
      header FF 86, and then bytes 2 and 3 big-endian. The checksum byte is
      not looked at. */
  function DecodeReply(response: seq<byte>): Option<nat>
  {
    if |response| >= 9 then
      if response[0] == 0xFF && response[1] == 0x86 then Some(response[2] as int * 256 + response[3] as int)
      else None
    else None
  }

  /** A reply frame as the sensor builds it: header FF 86, the reading
      big-endian, then five more bytes (two unused, status, checksum...). */
  function EncodeReply(ppm: nat, rest: seq<byte>): (frame: seq<byte>)
    requires ppm < 65536 && |rest| == 5
    ensures |frame| == 9
  {
    [0xFF, 0x86, ppm / 256, ppm % 256] + rest
  }

  /** Whatever the sensor encodes, the firmware decodes. */
  lemma DecodeEncode(ppm: nat, rest: seq<byte>)
    requires ppm < 65536 && |rest| == 5
    ensures DecodeReply(EncodeReply(ppm, rest)) == Some(ppm)
  {
  }

  /** Every accepted reply is an encoded frame, possibly followed by more
      bytes, and the decoded reading fits in 16 bits. */
  lemma DecodeAcceptsOnlyFrames(response: seq<byte>)
    requires DecodeReply(response).Some?
    ensures DecodeReply(response).value < 65536
    ensures response == EncodeReply(DecodeReply(response).value, response[4..9]) + response[9..]
  {
    var ppm := DecodeReply(response).value;
    assert ppm / 256 == response[2] && ppm % 256 == response[3];
  }

  /** Replies that are too short, or whose header is not FF 86, give no reading. */
  lemma DecodeRejects(response: seq<byte>)
    ensures |response| < 9 ==> DecodeReply(response) == None
    ensures |response| >= 9 && (response[0] != 0xFF || response[1] != 0x86) ==>
      DecodeReply(response) == None
  {
  }

  /** Bytes 4 onwards, the checksum among them, never change the reading. */
  lemma DecodeIgnoresTail(a: seq<byte>, b: seq<byte>)
    requires |a| >= 9 && |b| >= 9 && a[..4] == b[..4]
    ensures DecodeReply(a) == DecodeReply(b)
  {
    assert a[0] == b[0] && a[1] == b[1] && a[2] == b[2] && a[3] == b[3];
  }

  /** So a reply with a wrong checksum is accepted. */
  lemma ChecksumNotVerified()
    ensures var bad := EncodeReply(450, [0, 0, 0, 0, 0]);
      Checksum(bad) != bad[8] && DecodeReply(bad) == Some(450)
  {
  }

  /** `read_co2()`: drain stale input, write the command, then decode what
      the sensor sent during the wait (`reply`); `None` when nothing came,
      when it was shorter than 9 bytes or when the header was wrong. */
  method ReadCo2(uart: SerialPort.Uart, reply: seq<byte>) returns (co2: Option<nat>)
    modifies uart`rx, uart`sent
    ensures co2 == DecodeReply(reply)
    ensures uart.sent == old(uart.sent) + [ReadCommand]
    ensures uart.rx == []
  {
    SerialPort.Drain(uart);
    uart.Write(ReadCommand);
    uart.Receive(reply);
    var waiting := uart.Any();
    if waiting {
      var response := uart.Read();
      if |response| > 0 && |response| >= 9 {
        if response[0] == 0xFF && response[1] == 0x86 {
          var high := response[2];
          var low := response[3];
          co2 := Some(high as int * 256 + low as int);
        } else {
          co2 := None;
        }
      } else {
        co2 := None;
      }
    } else {
      co2 := None;
    }
  }

  /** `get_air_quality_status`: the label (the emoji beside it is display only). */
  function AirQualityStatus(co2: Option<int>): (string, string)
  {
    match co2
    case None => ("ERREUR", "---")
    case Some(ppm) =>
      if ppm < 400 then ("EXCELLENT", "\U{1F60A}")
      else if ppm < 600 then ("BON", "\U{1F642}")
      else if ppm < 1000 then ("MOYEN", "\U{1F610}")
      else if ppm < 1500 then ("MAUVAIS", "\U{1F61F}")
      else ("DANGER", "\U{1F6A8}")
  }

  /** The status label is the French name of the reading's band. */
  lemma AirQualityStatusAgrees(co2: Option<int>)
    ensures co2.None? ==> AirQualityStatus(co2) == ("ERREUR", "---")
    ensures co2.Some? ==> AirQualityStatus(co2).0 == FrenchLabel(Classify(co2.value as real))
  {
  }
}
