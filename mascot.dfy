/** The pixel-art cat of aircarto_mascot.py: its 18x18 sprite table, the
    sprite blitter, the sprite and tip shown on the main screen, and the
    frame arithmetic of the startup and pre-heating animations. Text
    rendering (`oled.text`, `hline`, `rect`) is not modelled; the screen
    holds the sprite layer. */
module Mascot {
  import opened Common
  import opened AirQuality
  import opened Display

  const SpriteSize: nat := 18

  /** The cat sprites: one integer per row, the leftmost column in bit 17. */
  const Sprites: map<string, seq<nat>> := map[
    "normal" := [0x01FC0, 0x07FF0, 0x0FFF8, 0x1FFFC, 0x3FFFE, 0x3EEFE, 0x3FFFE, 0x3FBFE, 0x3F1FE, 0x3FFFE, 0x1FFFC, 0x0FFF8, 0x07FF0, 0x03FE0, 0x01FC0, 0x00F80, 0x00700, 0x00000],
    "sleeping" := [0x01FC0, 0x07FF0, 0x0FFF8, 0x1FFFC, 0x3FFFE, 0x3C03E, 0x3FFFE, 0x3FBFE, 0x3F1FE, 0x3FFFE, 0x1FFFC, 0x0FFF8, 0x07FF0, 0x03FE0, 0x01FC0, 0x00F80, 0x00700, 0x00000],
    "happy" := [0x01FC0, 0x07FF0, 0x0FFF8, 0x1FFFC, 0x3FFFE, 0x3EEFE, 0x3FFFE, 0x3FBFE, 0x3C03E, 0x3FFFE, 0x1FFFC, 0x0FFF8, 0x07FF0, 0x03FE0, 0x01FC0, 0x00F80, 0x00700, 0x00000],
    "worried" := [0x01FC0, 0x07FF0, 0x0FFF8, 0x1FFFC, 0x3FFFE, 0x3CABE, 0x3FFFE, 0x3FBFE, 0x3F5FE, 0x3FFFE, 0x1FFFC, 0x0FFF8, 0x07FF0, 0x03FE0, 0x01FC0, 0x00F80, 0x00700, 0x00000],
    "alert" := [0x05FD0, 0x07FF0, 0x0FFF8, 0x1FFFC, 0x3FFFE, 0x3CFBE, 0x3FFFE, 0x3FBFE, 0x3E0FE, 0x3FFFE, 0x1FFFC, 0x0FFF8, 0x07FF0, 0x03FE0, 0x01FC0, 0x00F80, 0x00700, 0x00000],
    "waking" := [0x01FC0, 0x07FF0, 0x0FFF8, 0x1FFFC, 0x3FFFE, 0x3CEBE, 0x3FFFE, 0x3FBFE, 0x3F5FE, 0x3FFFE, 0x1FFFC, 0x0FFF8, 0x07FF0, 0x03FE0, 0x01FC0, 0x00F80, 0x00700, 0x00000]
  ]

  /** Every sprite is 18 rows of 18 bits. */
  lemma SpritesWellFormed()
    ensures Sprites.Keys == {"normal", "sleeping", "happy", "worried", "alert", "waking"}
    ensures forall name :: name in Sprites ==>
      |Sprites[name]| == SpriteSize && forall r :: 0 <= r < SpriteSize ==> Sprites[name][r] < Pow2(SpriteSize)
  {
    assert Pow2(3) == 8;
    Pow2Add(3, 3);
    Pow2Add(6, 6);
    Pow2Add(12, 6);
  }

  /** `AirCartoMascot`: the screen it draws on and its tip timer. */
  class CatMascot {
    const screen: Framebuffer
    var animationTime: int

    constructor (screen: Framebuffer)
      ensures this.screen == screen && animationTime == 0
    {
      this.screen := screen;
      animationTime := 0;
    }

    /** `draw_sprite(x, y, sprite_data, size)`: pixel (x+col, y+row) is lit
        exactly when bit size-1-col of the row is set and the position is
        left of column 128 and above row 64; nothing is cleared, and there is
        no test for negative positions (the framebuffer ignores those). */
    method DrawSprite(x: int, y: int, sprite: seq<nat>, size: nat)
      requires screen.Valid()
      modifies screen.pixels
      ensures forall px, py :: OnScreen(px, py) ==>
        screen.pixels[px, py] ==
          (old(screen.pixels[px, py]) || Covers(sprite, size, if size > 0 then size - 1 else 0, x, y, px, py))
    {
      Blit(screen, sprite, size, if size > 0 then size - 1 else 0, x, y, false);
    }

    /** `draw_cat_sprite(x, y, name)`: an unknown name draws nothing. */
    method DrawCatSprite(x: int, y: int, name: string)
      requires screen.Valid()
      modifies screen.pixels
      ensures name !in Sprites ==> forall px, py :: OnScreen(px, py) ==> screen.pixels[px, py] == old(screen.pixels[px, py])
      ensures name in Sprites ==> forall px, py :: OnScreen(px, py) ==>
        screen.pixels[px, py] == (old(screen.pixels[px, py]) || Covers(Sprites[name], SpriteSize, SpriteSize - 1, x, y, px, py))
    {
      if name in Sprites {
        DrawSprite(x, y, Sprites[name], SpriteSize);
      }
    }
  }

  /** The cat shown next to a reading; the worried cat when the sensor
      gave nothing. */
  function MainSprite(co2: Option<int>): string
  {
    match co2
    case None => "worried"
    case Some(ppm) =>
      if ppm < 600 then "happy"
      else if ppm < 1000 then "normal"
      else if ppm < 1500 then "worried"
      else "alert"
  }

  /** The main-screen cat merges the two best bands of the reference
      classifier and otherwise follows it band by band. */
  lemma MainSpriteFollowsBands(ppm: int)
    ensures var l := Classify(ppm as real);
      MainSprite(Some(ppm)) ==
        match l
        case Excellent => "happy"
        case Good => "happy"
        case Medium => "normal"
        case Bad => "worried"
        case Danger => "alert"
  {
  }

  /** How many animation ticks each tip of a band stays on screen. */
  function TipPeriod(ppm: int): (p: nat)
    ensures p > 0
  {
    if ppm < 600 then 120 else if ppm < 1000 then 120 else if ppm < 1500 then 100 else 80
  }

  function Tips(ppm: int): (tips: seq<string>)
    ensures |tips| == 4
  {
    if ppm < 600 then ["Excellent", "Parfait", "Ideal", "Top"]
    else if ppm < 1000 then ["Correct", "OK", "Bien", "Normal"]
    else if ppm < 1500 then ["Aerez", "Ventilez", "Ouvrez", "Air frais"]
    else ["URGENT", "AEREZ!", "DANGER", "SORTEZ"]
  }

  /** `get_co2_tip(co2_ppm, animation_time)`. */
  function GetCo2Tip(ppm: int, t: int): string
  {
    Tips(ppm)[(t / TipPeriod(ppm)) % 4]
  }

  /** A tip stays for a whole period, and the four tips come round again
      after four periods. */
  lemma TipRotation(ppm: int, t: int, u: int)
    ensures t / TipPeriod(ppm) == u / TipPeriod(ppm) ==> GetCo2Tip(ppm, t) == GetCo2Tip(ppm, u)
    ensures GetCo2Tip(ppm, t + 4 * TipPeriod(ppm)) == GetCo2Tip(ppm, t)
    ensures GetCo2Tip(ppm, t) in Tips(ppm)
  {
    var p := TipPeriod(ppm);
    assert (t + 4 * p) / p == t / p + 4;
  }

  /** The sprite layer and the tip of `draw_main_display_with_mascot`: the
      screen is cleared, the cat is drawn at (3, 12), and the tip timer
      advances by one. */
  method DrawMainDisplayWithMascot(mascot: CatMascot, co2: Option<int>) returns (sprite: string, tip: string)
    requires mascot.screen.Valid()
    modifies mascot`animationTime, mascot.screen.pixels
    ensures mascot.animationTime == old(mascot.animationTime) + 1
    ensures sprite == MainSprite(co2) && sprite in Sprites
    ensures tip == if co2.None? then "Erreur" else GetCo2Tip(co2.value, mascot.animationTime)
    ensures forall px, py :: OnScreen(px, py) ==>
      mascot.screen.pixels[px, py] == Covers(Sprites[sprite], SpriteSize, SpriteSize - 1, 3, 12, px, py)
  {
    mascot.screen.Fill(false);
    mascot.animationTime := mascot.animationTime + 1;
    sprite := MainSprite(co2);
    mascot.DrawCatSprite(3, 12, sprite);
    if co2.None? {
      tip := "Erreur";
    } else {
      tip := GetCo2Tip(co2.value, mascot.animationTime);
    }
  }

  // ---------------------------------------------------------------------
  // Startup and pre-heating animations, frame by frame
  // ---------------------------------------------------------------------

  const Title: string := "My Pico"

  /** Stars among the first `n` whose x position `20 + 15 * i` is left of 120. */
  function VisibleStars(n: nat): nat
  {
    if n == 0 then 0 else VisibleStars(n - 1) + (if 20 + 15 * (n - 1) < 120 then 1 else 0)
  }

  lemma {:induction false} VisibleStarsAtMostSeven(n: nat)
    ensures VisibleStars(n) == if n < 7 then n else 7
  {
    if n > 0 {
      VisibleStarsAtMostSeven(n - 1);
    }
  }

  datatype StartupView = StartupView(text: string, textX: int, cat: string, stars: nat, continues: bool)

  /** What `draw_startup_animation(frame)` shows and returns. */
  function StartupFrame(frame: nat): StartupView
  {
    var shown := if frame / 10 < |Title| then frame / 10 else |Title|;
    var text := Title[..shown];
    StartupView(text, (128 - |text| * 8) / 2,
                if (frame / 20) % 2 == 0 then "normal" else "waking",
                if frame > 30 then VisibleStars((frame - 30) / 5) else 0,
                frame < 80)
  }

  /** The title appears one letter per ten frames, centred, and is complete
      for the last ten frames; at most seven stars are drawn. */
  lemma StartupSpec(frame: nat)
    ensures var v := StartupFrame(frame);
      StartsWith(Title, v.text) &&
      |v.text| == (if frame / 10 < 7 then frame / 10 else 7) &&
      2 * v.textX + 8 * |v.text| == 128 &&
      (70 <= frame ==> v.text == Title) &&
      (v.continues <==> frame < 80) &&
      v.stars <= 7 && v.cat in Sprites
  {
    if frame > 30 {
      VisibleStarsAtMostSeven((frame - 30) / 5);
    }
  }

  datatype SleepingView = SleepingView(catY: int, zzz: nat, progress: nat, remaining: nat, continues: bool)

  /** What `draw_sleeping_animation(frame)` shows and returns. */
  function SleepingFrame(frame: nat): SleepingView
  {
    var zzzFrames := frame / 20;
    SleepingView(25 + (frame / 15) % 2,
                 (if zzzFrames >= 1 then 1 else 0) + (if zzzFrames >= 2 then 1 else 0) + (if zzzFrames >= 3 then 1 else 0),
                 if 100 < frame * 2 then 100 else frame * 2,
                 if 0 > 30 - frame / 4 then 0 else 30 - frame / 4,
                 frame < 120)
  }

  /** The bar only grows and the countdown only falls; when the animation
      reports its end the bar is full, the countdown is zero and all three
      Z are shown. */
  lemma SleepingSpec(frame: nat, later: nat)
    requires frame <= later
    ensures var v, w := SleepingFrame(frame), SleepingFrame(later);
      v.progress <= w.progress <= 100 && w.remaining <= v.remaining <= 30 &&
      (v.catY == 25 || v.catY == 26) &&
      (!v.continues ==> v.progress == 100 && v.remaining == 0 && v.zzz == 3)
  {
    assert frame / 4 <= later / 4;
  }
}
