/** The arrow-key flags of the paddle input and the paddle moves they select. */
module Controls {
  import opened Geometry

  const ArrowLeft: string := "ArrowLeft"
  const ArrowRight: string := "ArrowRight"

  /** Whether each arrow key is currently held. */
  datatype Keys = Keys(leftDown: bool, rightDown: bool)

  /** Before any key event both flags read as not held. */
  const NoKeys: Keys := Keys(false, false)

  /** What the paddle does on one tick. */
  datatype Move = Left | Right | Stay

  /** Key-down sets the matching flag; any other key code changes nothing. */
  function OnKeyDown(k: Keys, code: string): (r: Keys)
    ensures code == ArrowLeft ==> r.leftDown && r.rightDown == k.rightDown
    ensures code == ArrowRight ==> r.rightDown && r.leftDown == k.leftDown
    ensures code != ArrowLeft && code != ArrowRight ==> r == k
  {
    if code == ArrowLeft then k.(leftDown := true)
    else if code == ArrowRight then k.(rightDown := true)
    else k
  }

  /** Key-up clears the matching flag; any other key code changes nothing. */
  function OnKeyUp(k: Keys, code: string): (r: Keys)
    ensures code == ArrowLeft ==> !r.leftDown && r.rightDown == k.rightDown
    ensures code == ArrowRight ==> !r.rightDown && r.leftDown == k.leftDown
    ensures code != ArrowLeft && code != ArrowRight ==> r == k
  {
    if code == ArrowLeft then k.(leftDown := false)
    else if code == ArrowRight then k.(rightDown := false)
    else k
  }

  /** The tick's move: left while the left arrow is held, even if the right one is too. */
  function Choose(k: Keys): (m: Move)
    ensures m == Left <==> k.leftDown
    ensures m == Right <==> !k.leftDown && k.rightDown
    ensures m == Stay <==> !k.leftDown && !k.rightDown
  {
    if k.leftDown then Left
    else if k.rightDown then Right
    else Stay
  }

  /** The paddle's centre after a move; only x changes, by exactly PaddleSpeed, unclamped. */
  function Moved(p: Point, m: Move): (r: Point)
    ensures r.y == p.y
    ensures m == Left ==> r.x == p.x - PaddleSpeed
    ensures m == Right ==> r.x == p.x + PaddleSpeed
    ensures m == Stay ==> r == p
  {
    match m
    case Left => p.(x := p.x - PaddleSpeed)
    case Right => p.(x := p.x + PaddleSpeed)
    case Stay => p
  }

  /** A key-up undoes the key-down of the same code. */
  lemma KeyUpUndoesKeyDown(k: Keys, code: string)
    ensures OnKeyUp(OnKeyDown(k, code), code) == OnKeyUp(k, code)
  {
  }

  /** Moving right undoes moving left and vice versa. */
  lemma MovesAreInverse(p: Point)
    ensures Moved(Moved(p, Left), Right) == p
    ensures Moved(Moved(p, Right), Left) == p
  {
  }
}
