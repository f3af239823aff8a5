/**
 * The status badge: a palette name picks the theme's colour, any other
 * string is used as the background as it is, and the label is white.
 */
module CustomBadge {

  /** The theme palette names, compared as exact strings. */
  const PaletteColors: seq<string> := ["primary", "secondary", "error", "warning", "info", "success"]

  predicate IsPaletteColor(color: string) {
    color in PaletteColors
  }

  /** The badge background: a palette entry of the theme, or a CSS colour taken literally. */
  datatype Background = ThemeColor(name: string) | Literal(css: string)

  datatype Badge = Badge(caption: string, background: Background, textColor: string)

  const White: string := "white"

  /** The rendered badge for `color` and `text`. */
  function BadgeOf(color: string, text: string): (b: Badge)
    ensures b.caption == text && b.textColor == White
    ensures b.background.ThemeColor? <==> IsPaletteColor(color)
    ensures b.background.ThemeColor? ==> b.background.name == color
    ensures b.background.Literal? ==> b.background.css == color
  {
    Badge(text, if IsPaletteColor(color) then ThemeColor(color) else Literal(color), White)
  }
}
