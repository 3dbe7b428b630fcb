/** The loading screen's progress logic (src/ui/LoadingScreen.js): a
    target progress that only grows, the status message chosen from it, a
    displayed progress that eases towards the target each frame, and the
    cycling dots. The DOM writes and the timers are not modelled; each
    timer callback is a method. */
module Loading {
  import opened Common

  /** The status messages, in order. */
  const MESSAGES: seq<string> := [
    "Préparation du terrain",
    "Pansage du cheval",
    "Chargement de la nature",
    "Placement des pensions",
    "Derniers préparatifs"
  ]

  /** `Math.round`: the nearest integer, halves rounding up. */
  function Round(x: real): (n: int)
    ensures n as real - 0.5 <= x < n as real + 0.5
  {
    (x + 0.5).Floor
  }

  /** The message index for a target progress:
      `min(floor(target * MESSAGES.length), MESSAGES.length - 1)`. */
  function MessageIndex(target: real): (i: int)
    requires 0.0 <= target
    ensures 0 <= i < |MESSAGES|
  {
    if (target * 5.0).Floor < 4 then (target * 5.0).Floor else 4
  }

  /** The message never moves back while the target grows; it reaches the
      last message at 80 % and before that each fifth has its own. */
  lemma MessageIndexMonotone(s: real, t: real)
    requires 0.0 <= s <= t
    ensures MessageIndex(s) <= MessageIndex(t)
    ensures t >= 0.8 ==> MessageIndex(t) == 4
    ensures t < 0.8 ==> MessageIndex(t) as real <= t * 5.0 < MessageIndex(t) as real + 1.0
  {
    assert s * 5.0 <= t * 5.0;
  }

  /** A displayed progress in [0, 1] shows as a percentage in [0, 100]. */
  lemma PercentBounds(display: real)
    requires 0.0 <= display <= 1.0
    ensures 0 <= Round(display * 100.0) <= 100
  {
  }

  /** `'.'.repeat(n)`. */
  function Dots(n: nat): (s: string)
    ensures |s| == n
    ensures forall i :: 0 <= i < n ==> s[i] == '.'
  {
    if n == 0 then "" else Dots(n - 1) + "."
  }

  class LoadingScreen {
    /** `_targetProgress`. */
    var targetProgress: real
    /** `_displayProgress`. */
    var displayProgress: real
    /** `_msgIndex`. */
    var msgIndex: int
    /** `_dotCount`. */
    var dotCount: int

    /** The display never overshoots the target, the message index is the
        one the target selects, and the dot count is in 0..3. */
    ghost predicate Valid()
      reads this
    {
      && 0.0 <= displayProgress <= targetProgress
      && msgIndex == MessageIndex(targetProgress)
      && 0 <= dotCount < 4
    }

    constructor ()
      ensures Valid()
      ensures targetProgress == 0.0 && displayProgress == 0.0 && msgIndex == 0 && dotCount == 0
    {
      targetProgress := 0.0;
      displayProgress := 0.0;
      msgIndex := 0;
      dotCount := 0;
    }

    /** The dot timer: the count advances modulo 4 and that many dots
        show. */
    method TickDots() returns (dots: string)
      requires Valid()
      modifies this`dotCount
      ensures Valid()
      ensures dotCount == (old(dotCount) + 1) % 4
      ensures old(dotCount) < 3 ==> dotCount == old(dotCount) + 1
      ensures old(dotCount) == 3 ==> dotCount == 0
      ensures dots == Dots(dotCount) && |dots| <= 3
    {
      dotCount := (dotCount + 1) % 4;
      dots := Dots(dotCount);
    }

    /** `setProgress(progress)`: the target keeps the larger of its value
        and `progress`; the message is swapped exactly when the index the
        target selects differs from the current one. */
    method SetProgress(progress: real) returns (swapped: Option<string>)
      requires Valid()
      modifies this`targetProgress, this`msgIndex
      ensures Valid()
      ensures targetProgress == Max(old(targetProgress), progress)
      ensures old(targetProgress) <= targetProgress
      ensures msgIndex == MessageIndex(targetProgress) && old(msgIndex) <= msgIndex
      ensures msgIndex != old(msgIndex) ==> swapped == Some(MESSAGES[msgIndex])
      ensures msgIndex == old(msgIndex) ==> swapped.None?
    {
      MessageIndexMonotone(targetProgress, Max(targetProgress, progress));
      targetProgress := Max(targetProgress, progress);
      var newIndex := MessageIndex(targetProgress);
      swapped := None;
      if newIndex != msgIndex {
        msgIndex := newIndex;
        swapped := Some(MESSAGES[newIndex]);
      }
    }

    /** One animation frame: with a gap above 0.001 the display moves 6 %
        of the way to the target, otherwise it lands on the target; the
        percentage shown is the rounded display. The display never passes
        the target and never moves away from it. */
    method Step() returns (pct: int)
      requires Valid()
      modifies this`displayProgress
      ensures Valid()
      ensures var gap := targetProgress - old(displayProgress);
        && (Abs(gap) > 0.001 ==> displayProgress == old(displayProgress) + gap * 0.06)
        && (Abs(gap) <= 0.001 ==> displayProgress == targetProgress)
      ensures old(displayProgress) <= displayProgress <= targetProgress
      ensures pct == Round(displayProgress * 100.0)
      ensures targetProgress <= 1.0 ==> 0 <= pct <= 100
    {
      var diff := targetProgress - displayProgress;
      if Abs(diff) > 0.001 {
        displayProgress := displayProgress + diff * 0.06;
      } else {
        displayProgress := targetProgress;
      }
      pct := Round(displayProgress * 100.0);
      if targetProgress <= 1.0 {
        PercentBounds(displayProgress);
      }
    }
  }
}
