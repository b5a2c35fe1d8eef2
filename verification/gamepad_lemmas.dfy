/**
  Properties of the key tables, the wire encodings and the axis state
  machine that relate them to independent definitions.
 */
module GamepadLemmas {
  import opened InputCodes
  import opened Gamepad

  /** Encoding a press state and converting it back gives the same state, so
      a button record carries the raw key value unchanged. */
  lemma ButtonStateRoundTrip(s: ButtonState)
    ensures ButtonStateFrom(ButtonStateValue(s)) == Some(s)
  {
  }

  /** Decoding an axis value and encoding a level are inverse. */
  lemma LevelRoundTrip(l: Level, v: int)
    ensures LevelOf(LevelValue(l)) == Some(l)
    ensures LevelOf(v) == Some(l) <==> LevelValue(l) == v
  {
  }

  /** Distinct buttons are reported under distinct codes. */
  lemma ButtonCodeInjective(b1: GamepadButton, b2: GamepadButton)
    ensures ButtonCode(b1) == ButtonCode(b2) <==> b1 == b2
  {
  }

  /** The direction keys pair up: two different direction keys that move
      the same axis request opposite extremes, and no direction key requests
      the centre on a press. */
  lemma DirectionKeysPairUp(k1: int, k2: int)
    requires DirectionKey(k1).Some? && DirectionKey(k2).Some? && k1 != k2
    requires DirectionKey(k1).value.axis == DirectionKey(k2).value.axis
    ensures DirectionKey(k1).value.level != Neutral
    ensures DirectionKey(k1).value.level != DirectionKey(k2).value.level
  {
  }

  /** Each axis has a key for each extreme. */
  lemma DirectionKeysCoverBothExtremes(a: Axis, l: Level)
    requires l != Neutral
    ensures exists k :: DirectionKey(k) == Some(StickAction(a, l))
  {
    var k := match (a, l)
      case (Vertical, Low) => KEY_W as int
      case (Vertical, _) => KEY_S as int
      case (Horizontal, Low) => KEY_A as int
      case (Horizontal, _) => KEY_D as int;
    assert DirectionKey(k) == Some(StickAction(a, l));
  }

  /** No key is in both tables, whatever its press state. */
  lemma TablesDisjoint(key: int, s: ButtonState)
    ensures MapButton(key).Some? ==> MapStick(key, s).None?
  {
  }

  /** Direction of a level as a sign. */
  function Direction(l: Level): int
  {
    match l
    case Low => -1
    case Neutral => 0
    case High => 1
  }

  /** The level of a sign. */
  function LevelOfSign(n: int): Level
  {
    if n < 0 then Low else if n == 0 then Neutral else High
  }

  /** An arithmetic reading of the axis state machine: a request for the
      centre wins; any other request adds its direction to the current one
      and the axis takes the sign of the sum, so opposite directions cancel. */
  lemma NextIsSignOfSum(cur: Level, req: Level)
    ensures Next(cur, req) ==
      if req == Neutral then Neutral else LevelOfSign(Direction(cur) + Direction(req))
  {
  }

  /** The state machine never moves an axis from one extreme straight to the
      other; it passes through the centre. */
  lemma NextNeverFlips(cur: Level, req: Level)
    ensures Direction(cur) * Direction(Next(cur, req)) >= 0
  {
  }

  /** A request repeated once always takes effect: the first may only cancel
      the opposite extreme to the centre, and from the centre every request
      takes effect. (So the machine is not idempotent in general.) */
  lemma NextSecondRequestTakesEffect(cur: Level, req: Level)
    ensures Next(Next(cur, req), req) == req
    ensures Next(Next(cur, req), req) != Next(cur, req) <==> cur != Neutral && req != Neutral && cur != req
  {
  }

  /** Whatever happened before, releasing a key (requesting the centre) and
      then pressing one gives the pressed direction. */
  lemma NextReleaseThenPress(cur: Level, req: Level)
    ensures Next(Next(cur, Neutral), req) == req
  {
  }
}
