/** The guess map: a click places a pending marker, Confirm reports it to
    the game and clears it, Clear just clears it. */
module WorldMap {
  import opened Basics
  import opened GameTypes

  /** The map component's `position` state next to its `disabled` prop. */
  class GuessMap {
    const disabled: bool
    var position: Option<Coord>

    /** No marker is pending when the map mounts. */
    constructor (disabled: bool)
      ensures this.disabled == disabled && position.None?
    {
      this.disabled := disabled;
      position := None;
    }

    /** `handlePositionClick`: the click replaces any pending marker, unless
        the map is disabled. */
    method HandlePositionClick(pos: Coord)
      modifies this
      ensures disabled ==> position == old(position)
      ensures !disabled ==> position == Some(pos)
    {
      if !disabled {
        position := Some(pos);
      }
    }

    /** `handleConfirmGuess`: `onGuess` is called (the result is `Some`)
        exactly when a marker is pending, with its coordinates; afterwards
        nothing is pending. */
    method HandleConfirmGuess() returns (onGuess: Option<Coord>)
      modifies this
      ensures onGuess == old(position)
      ensures position.None?
    {
      onGuess := None;
      if position.Some? {
        onGuess := Some(position.value);
        position := None;
      }
    }

    /** `handleClearGuess`. */
    method HandleClearGuess()
      modifies this
      ensures position.None?
    {
      position := None;
    }

    /** The marker is drawn exactly while a position is pending. */
    predicate ShowsMarker()
      reads this
    {
      position.Some?
    }

    /** The Confirm and Clear buttons. */
    predicate ShowsButtons()
      reads this
    {
      !disabled && position.Some?
    }

    /** The "click on the map" hint. */
    predicate ShowsHint()
      reads this
    {
      !disabled && position.None?
    }
  }

  /** Two clicks, then Confirm twice: the guess is the second click, it is
      reported once, and a second Confirm reports nothing. */
  method ClickTwiceThenConfirm(a: Coord, b: Coord) returns (first: Option<Coord>, second: Option<Coord>, buttonsAfter: bool)
    ensures first == Some(b)
    ensures second.None?
    ensures !buttonsAfter
  {
    var m := new GuessMap(false);
    m.HandlePositionClick(a);
    m.HandlePositionClick(b);
    first := m.HandleConfirmGuess();
    second := m.HandleConfirmGuess();
    buttonsAfter := m.ShowsButtons();
  }

  /** A disabled map ignores clicks, so no marker is drawn, Confirm reports
      nothing and no button or hint is ever shown. */
  method ClickDisabledMap(a: Coord) returns (guess: Option<Coord>, marker: bool, buttons: bool, hint: bool)
    ensures guess.None? && !marker && !buttons && !hint
  {
    var m := new GuessMap(true);
    m.HandlePositionClick(a);
    marker := m.ShowsMarker();
    buttons := m.ShowsButtons();
    hint := m.ShowsHint();
    guess := m.HandleConfirmGuess();
  }

  /** Clear after a click discards the marker: the marker drawn after the
      click is gone, the hint is back and a Confirm reports nothing. */
  method ClickThenClear(a: Coord) returns (markerBefore: bool, markerAfter: bool, hint: bool, guess: Option<Coord>)
    ensures markerBefore && !markerAfter
    ensures hint && guess.None?
  {
    var m := new GuessMap(false);
    m.HandlePositionClick(a);
    markerBefore := m.ShowsMarker();
    m.HandleClearGuess();
    markerAfter := m.ShowsMarker();
    hint := m.ShowsHint();
    guess := m.HandleConfirmGuess();
  }
}
