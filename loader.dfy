/**
 * The spinner that can be told to show only on the first load: it starts
 * visible exactly when it was asked to, and once hidden it never returns.
 */
module Loader {

  class Loader {
    var showLoader: bool
    var isVisible: bool
    var onlyFirstLoad: bool
    /** The visibility the loader was first rendered with. */
    const initiallyVisible: bool

    /** The spinner can only be showing if it was showing at first. */
    ghost predicate Valid()
      reads this
    {
      showLoader ==> initiallyVisible
    }

    /** The first render: the state starts as the given visibility; the effect then changes nothing. */
    constructor (isVisible: bool, onlyFirstLoad: bool)
      ensures Valid()
      ensures showLoader == isVisible && initiallyVisible == isVisible
      ensures this.isVisible == isVisible && this.onlyFirstLoad == onlyFirstLoad
    {
      showLoader := isVisible;
      this.isVisible := isVisible;
      this.onlyFirstLoad := onlyFirstLoad;
      initiallyVisible := isVisible;
    }

    /**
     * A render with new props and the effect after it: hidden and first-load
     * only turns the spinner off; nothing turns it on again. Running the
     * effect when the props did not change repeats a step that already
     * happened, so it is run on every render here.
     */
    method Render(isVisible: bool, onlyFirstLoad: bool)
      requires Valid()
      modifies this
      ensures Valid()
      ensures this.isVisible == isVisible && this.onlyFirstLoad == onlyFirstLoad
      ensures showLoader == (old(showLoader) && !(!isVisible && onlyFirstLoad))
      ensures showLoader ==> old(showLoader)
      ensures !onlyFirstLoad ==> showLoader == old(showLoader)
      ensures !isVisible && onlyFirstLoad ==> Display() == "none"
      ensures old(Display()) == "none" ==> Display() == "none"
    {
      this.isVisible := isVisible;
      this.onlyFirstLoad := onlyFirstLoad;
      if !isVisible && onlyFirstLoad {
        showLoader := false;
      }
    }

    /** The CSS `display` of the spinner's box. */
    function Display(): (d: string)
      reads this
      ensures d == "flex" <==> showLoader
    {
      if showLoader then "flex" else "none"
    }
  }
}
