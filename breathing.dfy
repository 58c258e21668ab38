/** The breathing exercise: a circle that a repeating timer alternately grows (exhale)
    and shrinks (inhale), with a caption and a colour that follow the phase. */
module Breathing {
  import opened Graphics
  import opened Timers

  /** What the view shows: the circle's scale, the caption and the circle's colour. The
      scale is a CGFloat that only ever holds 1.0 or 1.5, both exact, so `real` models
      its equality test exactly. */
  datatype Breath = Breath(scale: real, breathText: string, breathColor: Color)

  /** The view as first shown: normal size, "Inhale", white. */
  const Start: Breath := Breath(1.0, "Inhale", White)

  /** The exhale phase: enlarged, indigo. */
  const Exhale: Breath := Breath(1.5, "Exhale", Indigo)

  /** The inhale phase as the timer sets it: normal size, mint. */
  const Inhale: Breath := Breath(1.0, "Inhale", Mint)

  /** One timer tick: a circle at normal size enters the exhale phase, any other enters
      the inhale phase. */
  function Tick(b: Breath): (r: Breath)
    ensures r == Exhale || r == Inhale
    ensures r.scale != b.scale
    ensures r.breathText == (if b.scale == 1.0 then "Exhale" else "Inhale")
  {
    if b.scale == 1.0 then Exhale else Inhale
  }

  /** Within the cycle, two ticks return to the same phase. */
  lemma TwoTicksReturn(b: Breath)
    requires b == Exhale || b == Inhale
    ensures Tick(Tick(b)) == b
    ensures Tick(b) != b
  {
  }

  /** From the view's first state the phases alternate: exhale after every odd number of
      ticks, inhale after every even non-zero number. The start is white and the timer's
      inhale phase is mint, so the start itself is never seen again. */
  lemma {:induction false} Alternates(n: nat)
    ensures Repeat(Tick, Start, n) == if n == 0 then Start else if n % 2 == 1 then Exhale else Inhale
    ensures n > 0 ==> Repeat(Tick, Start, n) != Start
    decreases n
  {
    if n > 1 {
      Alternates(n - 2);
      RepeatSplit(Tick, Start, n - 2, 2);
      assert Repeat(Tick, Repeat(Tick, Start, n - 2), 2) == Tick(Tick(Repeat(Tick, Start, n - 2)));
    } else if n == 1 {
      assert Repeat(Tick, Start, 1) == Repeat(Tick, Tick(Start), 0);
    }
  }

  /** The view's animation state. */
  class BreathingExercise {
    var scale: real
    var breathText: string
    var breathColor: Color

    function State(): Breath
      reads this
    {
      Breath(scale, breathText, breathColor)
    }

    constructor ()
      ensures State() == Start
    {
      scale := 1.0;
      breathText := "Inhale";
      breathColor := White;
    }

    /** The body of the repeating timer's callback. */
    method TimerFired()
      modifies this
      ensures State() == Tick(old(State()))
    {
      if scale == 1.0 {
        scale := 1.5;
        breathText := "Exhale";
        breathColor := Indigo;
      } else {
        scale := 1.0;
        breathText := "Inhale";
        breathColor := Mint;
      }
    }
  }
}
