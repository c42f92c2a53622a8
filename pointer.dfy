/**
 * Pointer input of the background scene and the camera's easing toward it.
 *
 * The mouse-move handler maps the pointer's pixel position into [-1, 1] on
 * each axis (y flipped, so the top edge is +1); every frame the camera moves
 * 5% of the way toward three times that offset.
 */
module Pointer {

  /** How far the camera may move off centre per unit of pointer offset. */
  const PointerScale: real := 3.0
  /** Fraction of the remaining distance the camera covers per frame. */
  const Smoothing: real := 0.05
  /** Fraction of the distance that remains after one frame. */
  const Remaining: real := 0.95

  /** Horizontal pointer position in [-1, 1]: the left edge is -1, the right
      edge +1, and only positions on the window map into that range. */
  function NormalizeX(clientX: real, innerWidth: real): (mouseX: real)
    requires innerWidth > 0.0
    ensures -1.0 <= mouseX <= 1.0 <==> 0.0 <= clientX <= innerWidth
    ensures clientX == 0.0 ==> mouseX == -1.0
    ensures clientX == innerWidth ==> mouseX == 1.0
  {
    RatioInUnit(clientX, innerWidth);
    (clientX / innerWidth) * 2.0 - 1.0
  }

  /** Vertical pointer position in [-1, 1], sign flipped: the top edge is +1,
      the bottom edge -1. */
  function NormalizeY(clientY: real, innerHeight: real): (mouseY: real)
    requires innerHeight > 0.0
    ensures -1.0 <= mouseY <= 1.0 <==> 0.0 <= clientY <= innerHeight
    ensures clientY == 0.0 ==> mouseY == 1.0
    ensures clientY == innerHeight ==> mouseY == -1.0
  {
    RatioInUnit(clientY, innerHeight);
    -(clientY / innerHeight) * 2.0 + 1.0
  }

  /** A position lies on a span exactly when its ratio to the span lies in
      [0, 1]. */
  lemma RatioInUnit(c: real, span: real)
    requires span > 0.0
    ensures 0.0 <= c / span <= 1.0 <==> 0.0 <= c <= span
  {
    assert c / span * span == c;
  }

  /** The pixel column a normalised horizontal position came from. */
  function ClientX(mouseX: real, innerWidth: real): real
  {
    (mouseX + 1.0) / 2.0 * innerWidth
  }

  /** The pixel row a normalised vertical position came from. */
  function ClientY(mouseY: real, innerHeight: real): real
  {
    (1.0 - mouseY) / 2.0 * innerHeight
  }

  /** Normalisation loses nothing: it is undone by ClientX and ClientY, in
      both directions. */
  lemma NormalizeRoundTrip(clientX: real, clientY: real, mouseX: real, mouseY: real, innerWidth: real, innerHeight: real)
    requires innerWidth > 0.0 && innerHeight > 0.0
    ensures ClientX(NormalizeX(clientX, innerWidth), innerWidth) == clientX
    ensures ClientY(NormalizeY(clientY, innerHeight), innerHeight) == clientY
    ensures NormalizeX(ClientX(mouseX, innerWidth), innerWidth) == mouseX
    ensures NormalizeY(ClientY(mouseY, innerHeight), innerHeight) == mouseY
  {
    var a := clientX / innerWidth;
    assert a * innerWidth == clientX;
    var b := clientY / innerHeight;
    assert b * innerHeight == clientY;
  }

  /** Where the camera heads for a pointer offset. */
  function Goal(mouse: real): real { mouse * PointerScale }

  /** One frame of camera easing on one axis.  The camera never overshoots:
      it ends between where it was and its goal, and the distance left is
      exactly 0.95 of the distance before. */
  function Ease(position: real, mouse: real): (next: real)
    ensures Goal(mouse) - next == Remaining * (Goal(mouse) - position)
    ensures position <= Goal(mouse) ==> position <= next <= Goal(mouse)
    ensures Goal(mouse) <= position ==> Goal(mouse) <= next <= position
  {
    position + (mouse * PointerScale - position) * Smoothing
  }

  /** The camera position after n frames with the pointer held still. */
  function EaseFrames(position: real, mouse: real, n: nat): real
    decreases n
  {
    if n == 0 then position else EaseFrames(Ease(position, mouse), mouse, n - 1)
  }

  function Power(b: real, n: nat): real
    decreases n
  {
    if n == 0 then 1.0 else b * Power(b, n - 1)
  }

  /** With the pointer held still, the distance to the goal after n frames is
      0.95^n of the starting distance, and the camera stays on its starting
      side of the goal. */
  lemma {:induction false} EaseFramesGap(position: real, mouse: real, n: nat)
    ensures Goal(mouse) - EaseFrames(position, mouse, n) == Power(Remaining, n) * (Goal(mouse) - position)
    ensures position <= Goal(mouse) ==> position <= EaseFrames(position, mouse, n) <= Goal(mouse)
    ensures Goal(mouse) <= position ==> Goal(mouse) <= EaseFrames(position, mouse, n) <= position
    decreases n
  {
    if n > 0 {
      var next := Ease(position, mouse);
      EaseFramesGap(next, mouse, n - 1);
      calc {
        Goal(mouse) - EaseFrames(position, mouse, n);
        Goal(mouse) - EaseFrames(next, mouse, n - 1);
        Power(Remaining, n - 1) * (Goal(mouse) - next);
        Power(Remaining, n - 1) * (Remaining * (Goal(mouse) - position));
        Power(Remaining, n) * (Goal(mouse) - position);
      }
    }
  }
}
