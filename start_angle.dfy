/** The four directions the full-circle seekbar can start drawing its progress from
    (StartAngle.kt), and the lookup from the integer stored in the layout attributes. */
module StartAngles {
  import opened Wrappers

  datatype StartAngle = Top | Left | Right | Bottom

  /** The direction in canvas degrees: 0 points right and angles grow clockwise, so TOP is
      a quarter turn back. */
  function Degrees(a: StartAngle): (d: real)
    ensures d in {-270.0, -180.0, -90.0, 0.0}
  {
    match a
    case Top => -90.0
    case Left => -180.0
    case Right => 0.0
    case Bottom => -270.0
  }

  /** Different directions have different angles. */
  lemma DegreesInjective(a: StartAngle, b: StartAngle)
    requires Degrees(a) == Degrees(b)
    ensures a == b
  {
  }

  /** The exception `get` throws for an index outside 0..3. */
  datatype AngleError = InvalidStartAngleIndex(index: int)

  /** The position of a direction in the attribute enumeration: LEFT, TOP, RIGHT, BOTTOM. */
  function IndexOf(a: StartAngle): (i: int)
    ensures 0 <= i <= 3
  {
    match a
    case Left => 0
    case Top => 1
    case Right => 2
    case Bottom => 3
  }

  /** StartAngle.get: the direction stored under an attribute index, or the invalid-argument
      error for any other index. */
  function Get(index: int): (r: Result<StartAngle, AngleError>)
    ensures r.Success? <==> 0 <= index <= 3
    ensures r.Failure? ==> r.error == InvalidStartAngleIndex(index)
    ensures r.Success? ==> IndexOf(r.value) == index
  {
    if index == 0 then Success(Left)
    else if index == 1 then Success(Top)
    else if index == 2 then Success(Right)
    else if index == 3 then Success(Bottom)
    else Failure(InvalidStartAngleIndex(index))
  }

  /** Every direction is reachable from exactly one index: Get on 0..3 is a bijection. */
  lemma GetIsBijection(a: StartAngle, i: int)
    ensures Get(IndexOf(a)) == Success(a)
    ensures Get(i) == Success(a) <==> i == IndexOf(a)
  {
  }
}
