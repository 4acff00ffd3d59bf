/**
 * Private helpers shared by every widget: the rectangle overlap test used for
 * clipping and hit testing, and the guard conventions that public operations
 * use to return a failure value instead of acting.
 */
module GuiPrivate {

  datatype Option<T> = None | Some(value: T)

  /** An opaque widget handle; `None` stands for a NULL handle. */
  type Handle = nat

  /** The part of the process-wide GUI object that the parameter guard reads. */
  datatype Gui = Gui(initialized: bool)

  /** A rectangle given by its corner coordinates, both corners included. */
  datatype Rect = Rect(x1: int, y1: int, x2: int, y2: int)

  predicate WellFormed(r: Rect) {
    r.x1 <= r.x2 && r.y1 <= r.y2
  }

  /** Point (x, y) lies in the closed rectangle r. */
  predicate Contains(r: Rect, x: int, y: int) {
    r.x1 <= x <= r.x2 && r.y1 <= y <= r.y2
  }

  /** Rectangle `inner` lies inside rectangle `outer`. */
  predicate Encloses(outer: Rect, inner: Rect) {
    outer.x1 <= inner.x1 && inner.x2 <= outer.x2 && outer.y1 <= inner.y1 && inner.y2 <= outer.y2
  }

  /** The two rectangles cover each other in any way: not one of them lies
      strictly left of, right of, above or below the other. A mismatch
      guarantees that no point lies in both, so skipping a widget whose
      rectangle does not match never skips a visible pixel. */
  function RectMatch(a: Rect, b: Rect): (m: bool)
    ensures !m ==> forall x, y :: Contains(a, x, y) ==> !Contains(b, x, y)
  {
    !(a.x1 > b.x2 || a.y1 > b.y2 || b.x1 > a.x2 || b.y1 > a.y2)
  }

  /** For well-formed rectangles the overlap test agrees with the geometric
      meaning: they match exactly when some point lies in both. */
  lemma RectMatchIffCommonPoint(a: Rect, b: Rect)
    requires WellFormed(a) && WellFormed(b)
    ensures RectMatch(a, b) <==> exists x, y :: Contains(a, x, y) && Contains(b, x, y)
  {
    if RectMatch(a, b) {
      var x := if a.x1 < b.x1 then b.x1 else a.x1;
      var y := if a.y1 < b.y1 then b.y1 else a.y1;
      assert Contains(a, x, y) && Contains(b, x, y);
    }
  }

  lemma RectMatchSymmetric(a: Rect, b: Rect)
    ensures RectMatch(a, b) == RectMatch(b, a)
  {
  }

  /** Rectangles that share only a vertical edge still match, because the
      intervals are closed. */
  lemma SharedEdgeMatches(a: Rect, b: Rect)
    requires WellFormed(a) && WellFormed(b)
    requires a.x2 == b.x1 && a.y1 == b.y1 && a.y2 == b.y2
    ensures RectMatch(a, b)
  {
  }

  /** Rectangles that touch only at one corner match too. */
  lemma SharedCornerMatches(a: Rect, b: Rect)
    requires WellFormed(a) && WellFormed(b)
    requires a.x2 == b.x1 && a.y2 == b.y1
    ensures RectMatch(a, b)
    ensures forall x, y :: Contains(a, x, y) && Contains(b, x, y) ==> x == a.x2 && y == a.y2
  {
  }

  /** A well-formed rectangle matches every rectangle that encloses it,
      itself included. */
  lemma RectMatchEnclosing(a: Rect, b: Rect)
    requires WellFormed(a) && Encloses(b, a)
    ensures RectMatch(a, b) && RectMatch(b, a)
  {
  }

  /** The parameter guard: a public operation whose condition `c` fails, or
      that runs before the GUI is initialized, returns `failure` at once;
      otherwise it goes on to compute `body`. */
  function AssertParams<T>(c: bool, gui: Gui, failure: T, body: T): (r: T)
    ensures !c || !gui.initialized ==> r == failure
    ensures c && gui.initialized ==> r == body
  {
    if !c || !gui.initialized then failure else body
  }
}
