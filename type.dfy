/** Plain geometry values shared by the display interface. */
module Types {

  /** A rectangle given by its top-left corner and its extent. */
  datatype Rect2 = Rect2(x: int, y: int, width: int, height: int)

  /** The value-initialised Rect2 `{}`: every member 0. */
  const ZeroRect2 := Rect2(0, 0, 0, 0)
}
