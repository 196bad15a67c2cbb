/** The parts of the browser the router and the header touch, stated as
    values: the location fragment as a mutable object, element boxes, and the
    scrolling a handler asks for. */
module Browser {

  /** `window.location`; only its `hash` is read or written. */
  class Location {
    var hash: string

    constructor (initial: string)
      ensures hash == initial
    {
      hash := initial;
    }
  }

  /** `getBoundingClientRect()` of an element, in whole pixels. */
  datatype Rect = Rect(top: int, bottom: int)

  /** The elements on the page that carry an `id`, by id. */
  type Dom = map<string, Rect>

  /** The scrolling a handler requests: none, a smooth scroll to the top of
      the page, or `scrollIntoView` on the element with the given id. */
  datatype ScrollAction = NoScroll | ScrollTop | ScrollIntoView(id: string)
}
