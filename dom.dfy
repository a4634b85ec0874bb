/**
 * The two properties of `document.body.style` that the modal code writes.
 * Both the portfolio section and the case-detail modal hold a reference to
 * the same body, so it is an object here and not a value.
 */
module Dom {

  /** `body.style.overflow`: `''` (the stylesheet default) or `'hidden'`. */
  datatype Overflow = Unset | Hidden

  /** `body.style.paddingRight`: `''` or `` `${width}px` ``. */
  datatype Padding = NoPadding | Px(width: int)

  class BodyStyle {
    var overflow: Overflow
    var paddingRight: Padding

    constructor ()
      ensures overflow == Unset && paddingRight == NoPadding
    {
      overflow := Unset;
      paddingRight := NoPadding;
    }

    /** The page can be scrolled and carries no compensating padding. */
    predicate Released()
      reads this
    {
      overflow == Unset && paddingRight == NoPadding
    }
  }
}
