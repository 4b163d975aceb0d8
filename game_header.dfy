/** The in-game header: the round progress and the countdown display. */
module GameHeader {
  import opened Basics
  import ProgressBar

  /** `(currentRound / totalRounds) * 100`: on a running game it lies in
      [0, 100] and reaches 100 on the last round. */
  function Progress(currentRound: int, totalRounds: int): (p: real)
    requires totalRounds != 0
    ensures currentRound == totalRounds ==> p == 100.0
    ensures 0 <= currentRound <= totalRounds ==> 0.0 <= p <= 100.0
  {
    var c, t := currentRound as real, totalRounds as real;
    assert 0 <= currentRound <= totalRounds ==> 0.0 <= c / t <= 1.0 by {
      if 0 <= currentRound <= totalRounds {
        QuotientAtMostOne(c, t);
      }
    }
    assert currentRound == totalRounds ==> c / t == 1.0 by {
      if currentRound == totalRounds {
        SelfQuotient(t);
      }
    }
    (c / t) * 100.0
  }

  lemma SelfQuotient(t: real)
    requires t != 0.0
    ensures t / t == 1.0
  {
  }

  lemma QuotientAtMostOne(c: real, t: real)
    requires 0.0 <= c <= t && t > 0.0
    ensures 0.0 <= c / t <= 1.0
  {
    assert c / t * t == c;
  }

  /** On a running game, the progress bar draws the progress unclamped. */
  lemma ProgressNeedsNoClamping(currentRound: int, totalRounds: int)
    requires 0 <= currentRound <= totalRounds && totalRounds > 0
    ensures ProgressBar.Clamp(Some(Progress(currentRound, totalRounds))) == Progress(currentRound, totalRounds)
  {
  }

  datatype TextColor = Gray | Red

  /** `timeClass`: red for five seconds or less, gray otherwise and when
      there is no time. */
  function TimeClass(time: Option<real>): (c: TextColor)
    ensures c == Red <==> time.Some? && time.value <= 5.0
  {
    match time
    case None => Gray
    case Some(t) => if t <= 5.0 then Red else Gray
  }

  /** `Math.max(0, Math.floor(timeLeftSec))`: never negative, even once the
      countdown has overshot. */
  function DisplayedSeconds(t: real): (s: int)
    ensures s >= 0
    ensures t >= 0.0 ==> s == t.Floor
    ensures t < 1.0 ==> s == 0
  {
    var f := t.Floor;
    if f >= 0 then f else 0
  }

  /** The timer as drawn: shown only for a numeric time, with its seconds
      and colour. */
  datatype Timer = Timer(seconds: int, color: TextColor)

  function TimerView(timeLeftSec: Option<real>): (v: Option<Timer>)
    ensures v.None? <==> timeLeftSec.None?
    ensures v.Some? ==> v.value.seconds == DisplayedSeconds(timeLeftSec.value) && v.value.color == TimeClass(timeLeftSec)
  {
    match timeLeftSec
    case None => None
    case Some(t) => Some(Timer(DisplayedSeconds(t), TimeClass(timeLeftSec)))
  }

  /** A red timer reads between 0 and 5 seconds, and a gray one reads at
      least 5: the colour change happens as the display reaches 5. */
  lemma RedTimerReadsAtMostFive(timeLeftSec: Option<real>)
    requires timeLeftSec.Some?
    ensures TimerView(timeLeftSec).value.color == Red ==> 0 <= TimerView(timeLeftSec).value.seconds <= 5
    ensures TimerView(timeLeftSec).value.color == Gray ==> TimerView(timeLeftSec).value.seconds >= 5
  {
  }
}
