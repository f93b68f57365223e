/** The character-art cat of simple_mascot.py. The OLED is modelled by what
    is drawn on it since the last `fill(0)`: a list of text and line items.
    Time is the `now` argument and the random draw is an argument. */
module SimpleMascot {
  import opened Common
  import MascotImproved

  datatype Item = Text(s: string, x: int, y: int) | HLine(x: int, y: int, w: int)

  /** The display's drawing list. */
  class TextScreen {
    var items: seq<Item>

    constructor ()
      ensures items == []
    {
      items := [];
    }

    /** `oled.fill(0)`. */
    method Clear()
      modifies this`items
      ensures items == []
    {
      items := [];
    }

    /** `oled.text(s, x, y)` and `oled.hline(x, y, w, 1)`. */
    method Draw(item: Item)
      modifies this`items
      ensures items == old(items) + [item]
    {
      items := items + [item];
    }
  }

  datatype Face = Happy | Worried | Panic | Confused

  /** `update_expression(co2_ppm)`. */
  function FaceFor(co2: Option<nat>): Face
  {
    match co2
    case None => Confused
    case Some(ppm) => if ppm < 500 then Happy else if ppm < 1000 then Worried else Panic
  }

  /** `get_message(co2_ppm)`. */
  function GetMessage(co2: Option<nat>): string
  {
    match co2
    case None => "???"
    case Some(ppm) => if ppm < 500 then "Cool!" else if ppm < 1000 then "Bof..." else "HELP!"
  }

  /** Message and face use the same thresholds, so each face has its own
      message. */
  lemma MessageMatchesFace(co2: Option<nat>)
    ensures FaceFor(co2) == Happy <==> GetMessage(co2) == "Cool!"
    ensures FaceFor(co2) == Worried <==> GetMessage(co2) == "Bof..."
    ensures FaceFor(co2) == Panic <==> GetMessage(co2) == "HELP!"
    ensures FaceFor(co2) == Confused <==> GetMessage(co2) == "???"
  {
  }

  /** For a reading, the character cat and the sprite cat of the improved
      mascot show the same mood; they differ only without a reading. */
  lemma AgreesWithImprovedMascot(co2: Option<nat>)
    ensures co2.Some? ==>
      match FaceFor(co2)
      case Happy => MascotImproved.ExpressionFor(co2) == MascotImproved.Happy
      case Worried => MascotImproved.ExpressionFor(co2) == MascotImproved.Worried
      case Panic => MascotImproved.ExpressionFor(co2) == MascotImproved.Panic
      case Confused => false
    ensures co2.None? ==> FaceFor(co2) == Confused && MascotImproved.ExpressionFor(co2) == MascotImproved.Worried
  {
  }

  /** The two text lines of a face. */
  function FaceLines(face: Face, blinking: bool): (string, string)
  {
    match face
    case Happy => (if blinking then "(-.-)" else "(^.^)", " \\./")
    case Worried => (if blinking then "(-.-)" else "(o.o)", " ___")
    case Panic => (if blinking then "(X.X)" else "(@.@)", " oOo")
    case Confused => ("(?.?)", " ___")
  }

  /** Blinking changes the eyes of every face but the confused one. */
  lemma BlinkChangesEyes(face: Face)
    ensures FaceLines(face, true).1 == FaceLines(face, false).1
    ensures FaceLines(face, true).0 == FaceLines(face, false).0 <==> face == Confused
  {
  }

  /** `status[:6]`. */
  function Truncate(status: string): (shown: string)
    ensures |shown| <= 6 && StartsWith(status, shown)
    ensures |status| <= 6 ==> shown == status
  {
    if |status| <= 6 then status else status[..6]
  }

  /** `SimpleMascot`. */
  class Cat {
    const oled: TextScreen
    const x: int
    const y: int
    var expression: Face
    var lastBlink: int

    constructor (oled: TextScreen)
      ensures this.oled == oled && x == 90 && y == 35 && expression == Happy && lastBlink == 0
    {
      this.oled := oled;
      x, y := 90, 35;
      expression := Happy;
      lastBlink := 0;
    }

    /** `update_expression(co2_ppm)`. */
    method UpdateExpression(co2: Option<nat>)
      modifies this`expression
      ensures expression == FaceFor(co2)
    {
      if co2.None? {
        expression := Confused;
      } else if co2.value < 500 {
        expression := Happy;
      } else if co2.value < 1000 {
        expression := Worried;
      } else {
        expression := Panic;
      }
    }

    /** `draw()`: a blink needs more than 3000 ms since the last one and a
        `randint(0, 10)` draw above 8, and only a blink moves `last_blink`. */
    method Draw(now: int, roll: int) returns (blinking: bool)
      modifies this`lastBlink, oled`items
      ensures blinking == (now - old(lastBlink) > 3000 && roll > 8)
      ensures lastBlink == if blinking then now else old(lastBlink)
      ensures oled.items == old(oled.items) +
        [Text(FaceLines(expression, blinking).0, x, y), Text(FaceLines(expression, blinking).1, x, y + 8)]
    {
      blinking := false;
      if now - lastBlink > 3000 {
        if roll > 8 {
          blinking := true;
          lastBlink := now;
        }
      }
      var (eyes, mouth) := FaceLines(expression, blinking);
      oled.Draw(Text(eyes, x, y));
      oled.Draw(Text(mouth, x, y + 8));
    }
  }

  /** The items `draw_simple_display` puts on screen before the cat. */
  function Header(co2: Option<nat>, status: string, wifi: bool, server: bool): seq<Item>
  {
    [Text("AirCarto", 25, 0), Text((if wifi then "W" else "x") + (if server then "S" else "-"), 100, 0), HLine(0, 8, 128)] +
    match co2
    case Some(ppm) => [Text(NatToString(ppm), 5, 12), Text("ppm", 5, 22), Text(Truncate(status), 5, 32)]
    case None => [Text("ERROR", 5, 20)]
  }

  /** `draw_simple_display(oled, mascot, ...)` when `oled` is the mascot's own
      screen: nothing happens without a display; otherwise the screen holds
      the header, the cat's face and the message, the status shows at most
      six characters, and a blink restarts the blink timer. */
  method DrawSimpleDisplay(oled: TextScreen?, mascot: Cat, co2: Option<nat>, status: string,
                           wifi: bool, server: bool, now: int, roll: int)
    requires oled == null || oled == mascot.oled
    modifies mascot.oled`items, mascot`expression, mascot`lastBlink
    ensures oled == null ==>
      mascot.oled.items == old(mascot.oled.items) && mascot.expression == old(mascot.expression) &&
      mascot.lastBlink == old(mascot.lastBlink)
    ensures oled != null ==>
      var blinking := now - old(mascot.lastBlink) > 3000 && roll > 8;
      mascot.expression == FaceFor(co2) &&
      mascot.lastBlink == (if blinking then now else old(mascot.lastBlink)) &&
      oled.items == Header(co2, status, wifi, server) +
        [Text(FaceLines(FaceFor(co2), blinking).0, mascot.x, mascot.y),
         Text(FaceLines(FaceFor(co2), blinking).1, mascot.x, mascot.y + 8),
         Text(GetMessage(co2), 5, 56)]
  {
    if oled == null {
      return;
    }
    oled.Clear();
    oled.Draw(Text("AirCarto", 25, 0));
    oled.Draw(Text((if wifi then "W" else "x") + (if server then "S" else "-"), 100, 0));
    oled.Draw(HLine(0, 8, 128));
    if co2.Some? {
      oled.Draw(Text(NatToString(co2.value), 5, 12));
      oled.Draw(Text("ppm", 5, 22));
      oled.Draw(Text(Truncate(status), 5, 32));
    } else {
      oled.Draw(Text("ERROR", 5, 20));
    }
    assert oled.items == Header(co2, status, wifi, server);
    mascot.UpdateExpression(co2);
    var blinking := mascot.Draw(now, roll);
    oled.Draw(Text(GetMessage(co2), 5, 56));
  }
}
