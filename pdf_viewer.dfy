/**
 * The CV viewer of the listing: which page is shown, at which zoom, and the
 * error that replaces the document when it fails to load. Zoom levels are
 * kept in quarters of the natural size, so the options 0.5 … 2 are the
 * integers 2 … 8 and a step of 0.25 is a step of 1.
 */
module PdfViewer {
  import opened Wrappers
  import opened Text

  /** 50%, 75%, 100%, 125%, 150% and 200%, in quarters. */
  const ZoomOptions: seq<int> := [2, 3, 4, 5, 6, 8]
  const MinZoom: int := 2
  const MaxZoom: int := 8
  const InitialZoom: int := 4

  const LoadErrorMessage: string := "No se pudo cargar el PDF. Por favor, intenta descargarlo."

  function Dist(a: int, b: int): nat {
    if a < b then b - a else a - b
  }

  /** How `reduce` settles two options at the same distance from the target. */
  datatype TieRule = KeepEarlier | TakeLater

  /**
   * The option nearest to `t`, folded from the left: a later option replaces
   * the one kept so far when it is strictly nearer (`KeepEarlier`, the
   * comparison the viewer writes) or also when it is as near (`TakeLater`).
   */
  function Nearest(options: seq<int>, t: int, tie: TieRule): (r: int)
    requires |options| > 0
    ensures r in options
    ensures forall o :: o in options ==> Dist(r, t) <= Dist(o, t)
  {
    if |options| == 1 then options[0]
    else
      var a := Nearest(options[..|options| - 1], t, tie);
      var b := options[|options| - 1];
      assert forall o :: o in options ==> o in options[..|options| - 1] || o == b;
      if Dist(b, t) < Dist(a, t) || (tie == TakeLater && Dist(b, t) == Dist(a, t)) then b else a
  }

  /**
   * Among the options nearest to `t`, `KeepEarlier` returns the first one:
   * every option before it is strictly farther.
   */
  lemma {:induction false} KeepEarlierIsFirst(options: seq<int>, t: int) returns (i: nat)
    requires |options| > 0
    ensures i < |options| && options[i] == Nearest(options, t, KeepEarlier)
    ensures forall k :: 0 <= k < i ==> Dist(options[k], t) > Dist(options[i], t)
  {
    if |options| == 1 {
      i := 0;
    } else {
      var init := options[..|options| - 1];
      var j := KeepEarlierIsFirst(init, t);
      var last := |options| - 1;
      if Dist(options[last], t) < Dist(init[j], t) {
        i := last;
        forall k | 0 <= k < last ensures Dist(options[k], t) > Dist(options[i], t) {
          assert options[k] == init[k];
          assert init[k] in init;
        }
      } else {
        i := j;
        forall k | 0 <= k < i ensures Dist(options[k], t) > Dist(options[i], t) {
          assert options[k] == init[k];
        }
      }
    }
  }

  /**
   * Among the options nearest to `t`, `TakeLater` returns the last one:
   * every option after it is strictly farther.
   */
  lemma {:induction false} TakeLaterIsLast(options: seq<int>, t: int) returns (i: nat)
    requires |options| > 0
    ensures i < |options| && options[i] == Nearest(options, t, TakeLater)
    ensures forall k :: i < k < |options| ==> Dist(options[k], t) > Dist(options[i], t)
  {
    if |options| == 1 {
      i := 0;
    } else {
      var init := options[..|options| - 1];
      var j := TakeLaterIsLast(init, t);
      var last := |options| - 1;
      if Dist(options[last], t) <= Dist(init[j], t) {
        i := last;
      } else {
        i := j;
        forall k | i < k < |options| ensures Dist(options[k], t) > Dist(options[i], t) {
          if k < last {
            assert options[k] == init[k];
          }
        }
      }
    }
  }

  /** The zoom-in handler: a quarter up, snapped to an option, at most 200%. */
  function ZoomInWith(q: int, tie: TieRule): int {
    var snapped := Nearest(ZoomOptions, q + 1, tie);
    if snapped < MaxZoom then snapped else MaxZoom
  }

  /** The zoom-in handler with the comparison the viewer writes. */
  function ZoomInAsWritten(q: int): int {
    ZoomInWith(q, KeepEarlier)
  }

  /** The zoom-in handler with a tie going to the larger option. */
  function ZoomIn(q: int): int {
    ZoomInWith(q, TakeLater)
  }

  /** The zoom-out handler: a quarter down, snapped to an option, at least 50%. */
  function ZoomOut(q: int): int {
    var snapped := Nearest(ZoomOptions, q - 1, KeepEarlier);
    if snapped > MinZoom then snapped else MinZoom
  }

  /** Both handlers always land on one of the offered levels. */
  lemma ZoomStaysOnOptions(q: int, tie: TieRule)
    ensures ZoomInWith(q, tie) in ZoomOptions && ZoomOut(q) in ZoomOptions
  {
  }

  /** A target that is itself a level snaps to that level. */
  lemma NearestOfOption(t: int, tie: TieRule)
    requires t in ZoomOptions
    ensures Nearest(ZoomOptions, t, tie) == t
  {
  }

  /** 175% lies halfway between 150% and 200%: the tie rule alone decides. */
  lemma NearestOfSeven(tie: TieRule)
    ensures Nearest(ZoomOptions, 7, tie) == if tie == KeepEarlier then 6 else 8
  {
    var init := ZoomOptions[..5];
    assert init == [2, 3, 4, 5, 6];
    var a := Nearest(init, 7, tie);
    assert Dist(a, 7) <= Dist(init[4], 7);
    assert a == 6;
  }

  /**
   * As written, zooming in from 125% or below reaches the next level, but
   * from 150% the target 175% is as near to 150% as to 200%, the earlier
   * option is kept and the level does not change, although the button is
   * enabled there.
   */
  lemma AsWrittenZoomInStuck()
    ensures forall i :: 0 <= i < 4 ==> ZoomInAsWritten(ZoomOptions[i]) == ZoomOptions[i + 1]
    ensures ZoomInAsWritten(6) == 6 && 6 < MaxZoom
  {
    forall i | 0 <= i < 4 ensures ZoomInAsWritten(ZoomOptions[i]) == ZoomOptions[i + 1] {
      NearestOfOption(ZoomOptions[i + 1], KeepEarlier);
    }
    NearestOfSeven(KeepEarlier);
  }

  /** With ties going up, a zoom-in below 200% moves to the next larger level. */
  lemma ZoomInSteps(q: int)
    requires q in ZoomOptions && q < MaxZoom
    ensures ZoomIn(q) in ZoomOptions && q < ZoomIn(q)
    ensures forall o :: o in ZoomOptions && q < o ==> ZoomIn(q) <= o
  {
    if q == 6 {
      NearestOfSeven(TakeLater);
    } else {
      NearestOfOption(q + 1, TakeLater);
    }
  }

  /** At 200% a zoom-in stays at 200%. */
  lemma ZoomInAtMax()
    ensures ZoomIn(MaxZoom) == MaxZoom
  {
  }

  /** A zoom-out above 50% moves to the next smaller level. */
  lemma ZoomOutSteps(q: int)
    requires q in ZoomOptions && q > MinZoom
    ensures ZoomOut(q) in ZoomOptions && ZoomOut(q) < q
    ensures forall o :: o in ZoomOptions && o < q ==> o <= ZoomOut(q)
  {
    if q == 8 {
      NearestOfSeven(KeepEarlier);
    } else {
      NearestOfOption(q - 1, KeepEarlier);
    }
  }

  /** At 50% a zoom-out stays at 50%. */
  lemma ZoomOutAtMin()
    ensures ZoomOut(MinZoom) == MinZoom
  {
    assert Dist(Nearest(ZoomOptions, MinZoom - 1, KeepEarlier), MinZoom - 1) <= Dist(ZoomOptions[0], MinZoom - 1);
  }

  /** `numPages || 1`: no count yet, or a count of zero, means one page. */
  function PageCount(numPages: Option<nat>): (n: nat)
    ensures n >= 1
    ensures numPages.Some? && numPages.value > 0 ==> n == numPages.value
  {
    if numPages.Some? && numPages.value != 0 then numPages.value else 1
  }

  /** `s` begins with `p`. */
  predicate IsPrefix(p: string, s: string) {
    |p| <= |s| && s[..|p|] == p
  }

  /** The longest run of digits at the start of `s`. */
  function LeadingDigits(s: string): (r: string)
    ensures AllDigits(r) && IsPrefix(r, s)
    ensures |r| < |s| ==> !IsDigit(s[|r|])
  {
    if s == [] || !IsDigit(s[0]) then [] else [s[0]] + LeadingDigits(s[1..])
  }

  /** `parseInt(s)` on the text of a number input: an optional sign, then digits; `NaN` is `None`. */
  function ParseInt(s: string): (r: Option<int>)
    ensures r.Some? <==> (|s| > 0 && (s[0] == '-' || s[0] == '+') && |s| > 1 && IsDigit(s[1])) || (|s| > 0 && IsDigit(s[0]))
  {
    if |s| > 0 && (s[0] == '-' || s[0] == '+') then
      var ds := LeadingDigits(s[1..]);
      if ds == [] then None
      else if s[0] == '-' then Some(-(DigitsValue(ds) as int))
      else Some(DigitsValue(ds))
    else
      var ds := LeadingDigits(s);
      if ds == [] then None else Some(DigitsValue(ds))
  }

  /** The page the typed text selects, if the viewer accepts it. */
  function TypedPage(s: string, numPages: Option<nat>): (r: Option<nat>)
    ensures r.Some? ==> 1 <= r.value <= PageCount(numPages)
    ensures r.Some? <==> ParseInt(s).Some? && 1 <= ParseInt(s).value <= PageCount(numPages)
    ensures r.Some? ==> r.value == ParseInt(s).value
  {
    match ParseInt(s)
    case Some(n) => if 1 <= n <= PageCount(numPages) then Some(n as nat) else None
    case None => None
  }

  /** The digits of a number are read back whole. */
  lemma {:induction false} LeadingDigitsOfDigits(s: string)
    requires AllDigits(s)
    ensures LeadingDigits(s) == s
  {
    if s != [] {
      LeadingDigitsOfDigits(s[1..]);
    }
  }

  /** Typing the decimal text of a page selects exactly that page when it exists. */
  lemma TypedPageOfNumber(k: nat, numPages: Option<nat>)
    ensures TypedPage(NatToString(k), numPages) == (if 1 <= k <= PageCount(numPages) then Some(k) else None)
  {
    var s := NatToString(k);
    LeadingDigitsOfDigits(s);
    DigitsValueOfNatToString(k);
    assert ParseInt(s) == Some(k);
  }

  /** Emptied or cleared text parses to nothing and never changes the page. */
  lemma TypedPageRejectsEmpty(numPages: Option<nat>)
    ensures TypedPage("", numPages) == None && TypedPage("-", numPages) == None
  {
  }

  /** A previous page, never below the first. */
  function PrevPage(p: int): (r: int)
    ensures r >= 1 && (p > 1 ==> r == p - 1) && (p <= 1 ==> r == 1)
  {
    if p - 1 > 1 then p - 1 else 1
  }

  /** A next page, never beyond the page count. */
  function NextPage(p: int, numPages: Option<nat>): (r: int)
    ensures r <= PageCount(numPages)
    ensures p < PageCount(numPages) ==> r == p + 1
    ensures p >= PageCount(numPages) ==> r == PageCount(numPages)
  {
    if p + 1 < PageCount(numPages) then p + 1 else PageCount(numPages)
  }

  class Viewer {
    var numPages: Option<nat>
    var pageNumber: int
    var scale: int
    var error: Option<string>

    /** The page shown exists and the zoom is one of the offered levels. */
    ghost predicate Valid()
      reads this
    {
      1 <= pageNumber <= PageCount(numPages) && scale in ZoomOptions
    }

    constructor ()
      ensures Valid()
      ensures numPages == None && pageNumber == 1 && scale == InitialZoom && error == None
    {
      numPages := None;
      pageNumber := 1;
      scale := InitialZoom;
      error := None;
    }

    /** The document reports its page count; the viewer returns to the first page. */
    method LoadSucceeded(n: nat)
      requires Valid()
      modifies this
      ensures Valid()
      ensures numPages == Some(n) && pageNumber == 1
      ensures scale == old(scale) && error == old(error)
    {
      numPages := Some(n);
      pageNumber := 1;
    }

    /** The document failed: the viewer shows the message instead. */
    method LoadFailed()
      requires Valid()
      modifies this
      ensures Valid()
      ensures error == Some(LoadErrorMessage)
      ensures numPages == old(numPages) && pageNumber == old(pageNumber) && scale == old(scale)
    {
      error := Some(LoadErrorMessage);
    }

    /** The previous-page button, disabled on the first page. */
    method GoToPrevPage()
      requires Valid() && pageNumber > 1
      modifies this
      ensures Valid()
      ensures pageNumber == old(pageNumber) - 1
      ensures numPages == old(numPages) && scale == old(scale) && error == old(error)
    {
      pageNumber := PrevPage(pageNumber);
    }

    /** The next-page button, disabled on the last page. */
    method GoToNextPage()
      requires Valid() && pageNumber < PageCount(numPages)
      modifies this
      ensures Valid()
      ensures pageNumber == old(pageNumber) + 1
      ensures numPages == old(numPages) && scale == old(scale) && error == old(error)
    {
      pageNumber := NextPage(pageNumber, numPages);
    }

    method GoToFirstPage()
      requires Valid() && pageNumber > 1
      modifies this
      ensures Valid()
      ensures pageNumber == 1
      ensures numPages == old(numPages) && scale == old(scale) && error == old(error)
    {
      pageNumber := 1;
    }

    method GoToLastPage()
      requires Valid() && pageNumber < PageCount(numPages)
      modifies this
      ensures Valid()
      ensures pageNumber == PageCount(numPages)
      ensures numPages == old(numPages) && scale == old(scale) && error == old(error)
    {
      pageNumber := PageCount(numPages);
    }

    /** Typing in the page box: an accepted page is shown, anything else is ignored. */
    method TypePage(s: string)
      requires Valid()
      modifies this
      ensures Valid()
      ensures TypedPage(s, numPages).Some? ==> pageNumber == TypedPage(s, numPages).value
      ensures TypedPage(s, numPages).None? ==> pageNumber == old(pageNumber)
      ensures numPages == old(numPages) && scale == old(scale) && error == old(error)
    {
      var typed := TypedPage(s, numPages);
      if typed.Some? {
        pageNumber := typed.value;
      }
    }

    /** The zoom-in button, disabled at 200%. */
    method ZoomInButton()
      requires Valid() && scale < MaxZoom
      modifies this
      ensures Valid()
      ensures scale == ZoomIn(old(scale)) && scale > old(scale)
      ensures numPages == old(numPages) && pageNumber == old(pageNumber) && error == old(error)
    {
      ZoomInSteps(scale);
      scale := ZoomIn(scale);
    }

    /** The zoom-out button, disabled at 50%. */
    method ZoomOutButton()
      requires Valid() && scale > MinZoom
      modifies this
      ensures Valid()
      ensures scale == ZoomOut(old(scale)) && scale < old(scale)
      ensures numPages == old(numPages) && pageNumber == old(pageNumber) && error == old(error)
    {
      ZoomOutSteps(scale);
      scale := ZoomOut(scale);
    }

    /** Picking a level in the zoom select. */
    method SelectZoom(q: int)
      requires Valid() && q in ZoomOptions
      modifies this
      ensures Valid()
      ensures scale == q
      ensures numPages == old(numPages) && pageNumber == old(pageNumber) && error == old(error)
    {
      scale := q;
    }
  }
}
