/** The second-generation cat of aircarto_mascot_improved.py: an object
    whose fields hold the animation state, the frame counter, the time of
    the last update, the blink timer and the expression. Time is the
    `now` argument (`time.ticks_ms()`), random draws are arguments, and
    drawing goes through the bounds-checked blitter. */
module MascotImproved {
  import opened Common
  import opened Display

  const SpriteCols: nat := 16
  const SmallCols: nat := 8
  const TopBit: nat := 15
  const HomeX: int := 96
  const HomeY: int := 40

  /** The 16x16 sprites: one integer per row, the leftmost column in bit 15. */
  const Sprites: map<string, seq<nat>> := map[
    "happy" := [0x0000, 0x07E0, 0x1FF8, 0x3FFC, 0x7FFE, 0x77EE, 0xF7EF, 0xFDBF, 0xFDBF, 0xFFFF, 0xFE7F, 0xFC3F, 0x7FFE, 0x3FFC, 0x1FF8, 0x07E0],
    "blink" := [0x0000, 0x07E0, 0x1FF8, 0x3FFC, 0x7FFE, 0x77EE, 0xF7EF, 0xFFFF, 0xFFFF, 0xFFFF, 0xFE7F, 0xFC3F, 0x7FFE, 0x3FFC, 0x1FF8, 0x07E0],
    "worried" := [0x0000, 0x07E0, 0x1FF8, 0x3FFC, 0x7FFE, 0x77EE, 0xF7EF, 0xF99F, 0xFDBF, 0xFFFF, 0xFE7F, 0xFFFF, 0x7FFE, 0x3FFC, 0x1FF8, 0x07E0],
    "panic" := [0x0000, 0x07E0, 0x1FF8, 0x3FFC, 0x7FFE, 0x77EE, 0xF7EF, 0xF33F, 0xF99F, 0xFFFF, 0xFE7F, 0xF81F, 0x7FFE, 0x3FFC, 0x1FF8, 0x07E0],
    "sleep" := [0x0000, 0x07E0, 0x1FF8, 0x3FFC, 0x7FFE, 0x77EE, 0xF7EF, 0xFFFF, 0xFFFF, 0xFFFF, 0xFE7F, 0xFE7F, 0x7FFE, 0x3FFC, 0x1FF8, 0x07E0]
  ]

  /** The small emoticons: only the top eight bits of a row are drawn. */
  const Heart: seq<nat> := [0x6600, 0xFF00, 0xFF00, 0x7E00, 0x3C00, 0x1800]
  const Exclamation: seq<nat> := [0x6000, 0xF000, 0xF000, 0xF000, 0x6000, 0x0000, 0xF000, 0xF000]

  datatype AnimState = Idle | Blink | HappyBounce | Shake | PanicWave
  datatype Expression = Happy | Worried | Panic

  function ExpressionName(e: Expression): string
  {
    match e
    case Happy => "happy"
    case Worried => "worried"
    case Panic => "panic"
  }

  /** `update_expression(co2_ppm)`. */
  function ExpressionFor(co2: Option<int>): Expression
  {
    match co2
    case None => Worried
    case Some(ppm) => if ppm < 500 then Happy else if ppm < 1000 then Worried else Panic
  }

  function Distress(e: Expression): nat
  {
    match e
    case Happy => 0
    case Worried => 1
    case Panic => 2
  }

  /** More CO2 never makes the cat happier. */
  lemma ExpressionMonotone(a: int, b: int)
    requires a <= b
    ensures Distress(ExpressionFor(Some(a))) <= Distress(ExpressionFor(Some(b)))
  {
  }

  /** `animate_reaction(event)`: the animation an event starts, if any. */
  function Reaction(event: string): Option<AnimState>
  {
    if event == "wifi_connect" then Some(HappyBounce)
    else if event == "wifi_error" then Some(Shake)
    else if event == "co2_danger" then Some(PanicWave)
    else None
  }

  predicate Animated(s: AnimState)
  {
    s.HappyBounce? || s.Shake? || s.PanicWave?
  }

  /** Milliseconds that must pass before an animation advances a frame. */
  function Threshold(s: AnimState): int
    requires Animated(s)
  {
    match s
    case HappyBounce => 150
    case Shake => 100
    case PanicWave => 200
  }

  /** The last frame of an animation; one more returns to idle. */
  function Limit(s: AnimState): int
    requires Animated(s)
  {
    match s
    case HappyBounce => 4
    case Shake => 6
    case PanicWave => 8
  }

  datatype Anim = Anim(state: AnimState, frame: int, blinkTimer: int)

  /** The frame counter never goes negative, nor past its animation's end. */
  predicate WellFormed(a: Anim)
  {
    a.frame >= 0 && (Animated(a.state) ==> a.frame <= Limit(a.state))
  }

  /** The state-dependent part of `update`: `elapsed` is the time since the
      previous update, `roll` the draw of `randint(0, 10)` in `animate_idle`. */
  function Tick(a: Anim, elapsed: int, now: int, roll: int): Anim
  {
    match a.state
    case Idle => if now - a.blinkTimer > 2000 && roll > 8 then Anim(Blink, 0, now) else a
    case Blink => if elapsed > 300 then a.(state := Idle) else a
    case _ =>
      if elapsed > Threshold(a.state) then
        var f := a.frame + 1;
        if f > Limit(a.state) then a.(state := Idle, frame := f) else a.(frame := f)
      else a
  }

  /** An animation advances exactly one frame when enough time has passed,
      and returns to idle once its frame exceeds the limit; a blink ends
      after 300 ms; well-formed states stay well-formed. */
  lemma TickSpec(a: Anim, elapsed: int, now: int, roll: int)
    requires WellFormed(a)
    ensures var b := Tick(a, elapsed, now, roll);
      WellFormed(b) &&
      (Animated(a.state) ==>
        (elapsed > Threshold(a.state) ==>
           (b.frame == a.frame + 1 &&
            (b.state == Idle <==> a.frame == Limit(a.state)) && (b.state != Idle ==> b.state == a.state))) &&
        (elapsed <= Threshold(a.state) ==> b == a)) &&
      (a.state == Blink ==> b.state == (if elapsed > 300 then Idle else Blink) && b.frame == a.frame)
  {
  }

  /** `n` updates, each `elapsed` milliseconds after the last. */
  function Run(a: Anim, n: nat, elapsed: int, now: int, roll: int): Anim
    decreases n
  {
    if n == 0 then a else Run(Tick(a, elapsed, now, roll), n - 1, elapsed, now, roll)
  }

  /** Every reaction ends: updates spaced beyond the threshold bring the cat
      back to idle after the remaining frames. */
  lemma {:induction false} ReactionEnds(a: Anim, elapsed: int, now: int, roll: int)
    requires WellFormed(a) && Animated(a.state) && elapsed > Threshold(a.state)
    ensures Run(a, Limit(a.state) - a.frame + 1, elapsed, now, roll).state == Idle
    decreases Limit(a.state) - a.frame
  {
    var b := Tick(a, elapsed, now, roll);
    if a.frame < Limit(a.state) {
      ReactionEnds(b, elapsed, now, roll);
      assert Limit(b.state) - b.frame + 1 == Limit(a.state) - a.frame;
    } else {
      assert Run(b, 0, elapsed, now, roll) == b;
    }
  }

  /** The draw offset of an animation frame. */
  function Offset(state: AnimState, frame: int): (int, int)
  {
    match state
    case HappyBounce => (0, -(frame % 2) * 2)
    case Shake => ((frame % 2) * 2 - 1, 0)
    case PanicWave => (Trunc(2.0 * (0.5 - Abs(0.5 - (frame % 4) as real / 4.0))), 0)
    case _ => (0, 0)
  }

  function Abs(r: real): real
  {
    if r < 0.0 then -r else r
  }

  /** Bouncing lifts the cat by 0 or 2 pixels, shaking moves it one pixel
      left or right, and the panic wave moves it one pixel right on every
      fourth frame. */
  lemma OffsetSpec(state: AnimState, frame: int)
    ensures state == HappyBounce ==> Offset(state, frame).0 == 0 && Offset(state, frame).1 in {0, -2}
    ensures state == Shake ==> Offset(state, frame).0 in {-1, 1} && Offset(state, frame).1 == 0
    ensures state == PanicWave ==> Offset(state, frame) == (if frame % 4 == 2 then 1 else 0, 0)
    ensures !Animated(state) ==> Offset(state, frame) == (0, 0)
  {
    if state == PanicWave {
      var q := frame % 4;
      assert q == 0 || q == 1 || q == 2 || q == 3;
    }
  }

  /** The sprite drawn: "blink" while blinking, otherwise the expression's. */
  function SpriteName(state: AnimState, e: Expression): (name: string)
    ensures name in Sprites
  {
    if state == Blink then "blink" else ExpressionName(e)
  }

  /** `AirCartoMascotImproved`. */
  class Cat {
    const screen: Framebuffer
    var state: AnimState
    var frame: int
    var lastUpdate: int
    var blinkTimer: int
    var expression: Expression

    ghost predicate Valid()
      reads this
    {
      WellFormed(Anim(state, frame, blinkTimer))
    }

    constructor (screen: Framebuffer, now: int)
      ensures Valid() && this.screen == screen
      ensures state == Idle && frame == 0 && lastUpdate == now && blinkTimer == 0 && expression == Happy
    {
      this.screen := screen;
      state := Idle;
      frame := 0;
      lastUpdate := now;
      blinkTimer := 0;
      expression := Happy;
    }

    /** `update_expression(co2_ppm)`. */
    method UpdateExpression(co2: Option<int>)
      modifies this`expression
      ensures expression == ExpressionFor(co2)
    {
      if co2.None? {
        expression := Worried;
      } else if co2.value < 500 {
        expression := Happy;
      } else if co2.value < 1000 {
        expression := Worried;
      } else {
        expression := Panic;
      }
    }

    /** `animate_reaction(event)`: a known event restarts at frame 0; any
        other event changes nothing. */
    method AnimateReaction(event: string)
      requires Valid()
      modifies this`state, this`frame
      ensures Valid()
      ensures Reaction(event).Some? ==> state == Reaction(event).value && frame == 0
      ensures Reaction(event).None? ==> state == old(state) && frame == old(frame)
    {
      if event == "wifi_connect" {
        state, frame := HappyBounce, 0;
      } else if event == "wifi_error" {
        state, frame := Shake, 0;
      } else if event == "co2_danger" {
        state, frame := PanicWave, 0;
      }
    }

    /** `update(co2_ppm)`: the expression follows a present reading, the
        animation steps by the time since the previous update, and that
        time is recorded. */
    method Update(co2: Option<int>, now: int, roll: int)
      requires Valid()
      modifies this`expression, this`state, this`frame, this`lastUpdate, this`blinkTimer
      ensures Valid()
      ensures expression == if co2.Some? then ExpressionFor(co2) else old(expression)
      ensures Anim(state, frame, blinkTimer) ==
        Tick(Anim(old(state), old(frame), old(blinkTimer)), now - old(lastUpdate), now, roll)
      ensures lastUpdate == now
    {
      if co2.Some? {
        UpdateExpression(co2);
      }
      var elapsed := now - lastUpdate;
      if state == Idle {
        if now - blinkTimer > 2000 && roll > 8 {
          state, frame, blinkTimer := Blink, 0, now;
        }
      } else if state == Blink {
        if elapsed > 300 {
          state := Idle;
        }
      } else if elapsed > Threshold(state) {
        frame := frame + 1;
        if frame > Limit(state) {
          state := Idle;
        }
      }
      lastUpdate := now;
      TickSpec(Anim(old(state), old(frame), old(blinkTimer)), elapsed, now, roll);
    }

    /** `draw()`: the cat at its home position moved by the frame's offset,
        plus the rare heart (when `heartRoll > 195`) for a happy idle cat or
        the exclamation mark for a panicking one. Only on-screen pixels are
        lit and nothing is cleared. */
    method Draw(heartRoll: int)
      requires screen.Valid()
      modifies screen.pixels
      ensures var (dx, dy) := Offset(state, frame);
        var drawX, drawY := HomeX + dx, HomeY + dy;
        forall px, py :: OnScreen(px, py) ==>
          screen.pixels[px, py] ==
            (old(screen.pixels[px, py]) ||
             Covers(Sprites[SpriteName(state, expression)], SpriteCols, TopBit, drawX, drawY, px, py) ||
             (expression == Happy && state == Idle && heartRoll > 195 &&
              Covers(Heart, SmallCols, TopBit, drawX - 12, drawY - 10, px, py)) ||
             (expression == Panic && Covers(Exclamation, SmallCols, TopBit, drawX + 18, drawY - 8, px, py)))
    {
      var (dx, dy) := Offset(state, frame);
      var drawX, drawY := HomeX + dx, HomeY + dy;
      var name := SpriteName(state, expression);
      Blit(screen, Sprites[name], SpriteCols, TopBit, drawX, drawY, true);
      if expression == Happy && state == Idle {
        if heartRoll > 195 {
          Blit(screen, Heart, SmallCols, TopBit, drawX - 12, drawY - 10, true);
        }
      } else if expression == Panic {
        Blit(screen, Exclamation, SmallCols, TopBit, drawX + 18, drawY - 8, true);
      }
    }
  }
}
