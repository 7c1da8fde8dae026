/** The one property of UIColor the recipe reads: whether it is translucent. */
module Colors {

  /**
   A colour either converts to RGBA components (`getRed(_:green:blue:alpha:)`
   succeeds) or does not (a pattern colour, say).
   */
  datatype Color =
    | Rgba(red: real, green: real, blue: real, alpha: real)
    | NonRgb

  /**
   `isTranslucent`: alpha strictly below 1 when the components can be read;
   a colour whose components cannot be read counts as not translucent.
   */
  predicate IsTranslucent(c: Color)
  {
    match c
    case Rgba(_, _, _, alpha) => alpha < 1.0
    case NonRgb => false
  }
}
