/** The sensor's UART as state: the bytes waiting in the receive buffer, the
    frames written so far and the configured baud rate. What the sensor sends
    back is an explicit input (`Receive`), in place of the wire and the wait. */
module SerialPort {
  import opened Common

  class Uart {
    var baud: int
    var rx: seq<byte>
    var sent: seq<seq<byte>>

    constructor (baud: int)
      ensures this.baud == baud && rx == [] && sent == []
    {
      this.baud := baud;
      rx := [];
      sent := [];
    }

    /** `uart.init(baudrate=...)`. */
    method Init(baud: int)
      modifies this`baud
      ensures this.baud == baud
    {
      this.baud := baud;
    }

    /** `uart.any()`: is input waiting? */
    method Any() returns (waiting: bool)
      ensures waiting == (|rx| > 0)
    {
      waiting := |rx| > 0;
    }

    /** `uart.read()`: everything waiting, which leaves the buffer empty. */
    method Read() returns (data: seq<byte>)
      modifies this`rx
      ensures data == old(rx) && rx == []
    {
      data := rx;
      rx := [];
    }

    /** `uart.write(frame)`. */
    method Write(frame: seq<byte>)
      modifies this`sent
      ensures sent == old(sent) + [frame]
    {
      sent := sent + [frame];
    }

    /** Bytes arriving from the sensor while the program waits. */
    method Receive(bytes: seq<byte>)
      modifies this`rx
      ensures rx == old(rx) + bytes
    {
      rx := rx + bytes;
    }
  }

  /** `while uart.any(): uart.read()`: throws away stale input. */
  method Drain(uart: Uart)
    modifies uart`rx
    ensures uart.rx == []
  {
    var waiting := uart.Any();
    while waiting
      invariant waiting == (|uart.rx| > 0)
      decreases |uart.rx|
    {
      var _ := uart.Read();
      waiting := uart.Any();
    }
  }
}
