/**
  The shared shape-selection store: the current shape, the hand factor
  written by the gesture classifier and the UI-visibility flag. Every action
  of the store is a function from the old state record to the new one.
*/
module Store {
  import opened Shapes

  datatype AppState = AppState(currentShape: ShapeType, handFactor: real, showUI: bool)

  /** The fixed cycling order: Text, Heart, Snow, Fireworks, Rabbit, Rose, then back to Text. */
  const ShapeOrder: seq<ShapeType> := [Text, Heart, Snow, Fireworks, Rabbit, Rose]

  /** Array.prototype.indexOf: the first position of x in s, or -1 when x is absent. */
  function IndexOf(s: seq<ShapeType>, x: ShapeType): (r: int)
    ensures -1 <= r < |s|
  {
    IndexFrom(s, x, 0)
  }

  /** The linear scan behind IndexOf, started at position k. */
  function IndexFrom(s: seq<ShapeType>, x: ShapeType, k: nat): (r: int)
    requires k <= |s|
    ensures -1 <= r < |s|
    decreases |s| - k
  {
    if k == |s| then -1
    else if s[k] == x then k
    else IndexFrom(s, x, k + 1)
  }

  /** IndexOf yields -1 exactly when x is absent, and otherwise its first occurrence. */
  lemma IndexOfCorrect(s: seq<ShapeType>, x: ShapeType)
    ensures IndexOf(s, x) == -1 <==> x !in s
    ensures 0 <= IndexOf(s, x) ==> s[IndexOf(s, x)] == x && forall j :: 0 <= j < IndexOf(s, x) ==> s[j] != x
  {
    IndexFromCorrect(s, x, 0);
  }

  lemma {:induction false} IndexFromCorrect(s: seq<ShapeType>, x: ShapeType, k: nat)
    requires k <= |s|
    requires forall j :: 0 <= j < k ==> s[j] != x
    ensures IndexFrom(s, x, k) == -1 <==> x !in s
    ensures 0 <= IndexFrom(s, x, k) ==>
      k <= IndexFrom(s, x, k) && s[IndexFrom(s, x, k)] == x &&
      forall j :: 0 <= j < IndexFrom(s, x, k) ==> s[j] != x
    decreases |s| - k
  {
    if k < |s| && s[k] != x {
      IndexFromCorrect(s, x, k + 1);
    }
  }

  /** The place of each shape in ShapeOrder, written out shape by shape. */
  function Position(x: ShapeType): (i: nat)
    ensures i < |ShapeOrder| && ShapeOrder[i] == x
  {
    match x
    case Text => 0
    case Heart => 1
    case Snow => 2
    case Fireworks => 3
    case Rabbit => 4
    case Rose => 5
  }

  /** Every shape occurs in the order exactly once, so indexOf never yields -1. */
  lemma OrderIsPermutation(x: ShapeType)
    ensures IndexOf(ShapeOrder, x) == Position(x)
    ensures forall i :: 0 <= i < |ShapeOrder| && ShapeOrder[i] == x ==> i == Position(x)
  {
    IndexOfCorrect(ShapeOrder, x);
    assert ShapeOrder[Position(x)] == x;
  }

  /** The store's state when the application starts. */
  function Initial(): (st: AppState)
    ensures st.currentShape == Text && st.handFactor == 1.0 && st.showUI
  {
    AppState(Text, 1.0, true)
  }

  /** Explicit selection: always allowed, from any shape to any shape. */
  function SetShape(st: AppState, shape: ShapeType): (r: AppState)
    ensures r.currentShape == shape
    ensures r.handFactor == st.handFactor && r.showUI == st.showUI
  {
    st.(currentShape := shape)
  }

  /** Advance to the shape after the current one in ShapeOrder, wrapping around. */
  function NextShape(st: AppState): (r: AppState)
    ensures r.handFactor == st.handFactor && r.showUI == st.showUI
  {
    var currentIndex := IndexOf(ShapeOrder, st.currentShape);
    var nextIndex := (currentIndex + 1) % |ShapeOrder|;
    st.(currentShape := ShapeOrder[nextIndex])
  }

  /** The store keeps the factor verbatim: it does no clamping of its own. */
  function SetHandFactor(st: AppState, factor: real): (r: AppState)
    ensures r.handFactor == factor
    ensures r.currentShape == st.currentShape && r.showUI == st.showUI
  {
    st.(handFactor := factor)
  }

  function ToggleUI(st: AppState): (r: AppState)
    ensures r.showUI != st.showUI
    ensures r.currentShape == st.currentShape && r.handFactor == st.handFactor
  {
    st.(showUI := !st.showUI)
  }

  /** An independent table of the cycle, written shape by shape. */
  function Successor(s: ShapeType): ShapeType
  {
    match s
    case Text => Heart
    case Heart => Snow
    case Snow => Fireworks
    case Fireworks => Rabbit
    case Rabbit => Rose
    case Rose => Text
  }

  /** The inverse of Successor. */
  function Predecessor(s: ShapeType): ShapeType
  {
    match s
    case Text => Rose
    case Heart => Text
    case Snow => Heart
    case Fireworks => Snow
    case Rabbit => Fireworks
    case Rose => Rabbit
  }

  /** nextShape follows the documented order Text, Heart, Snow, Fireworks, Rabbit, Rose, Text. */
  lemma NextShapeFollowsOrder(st: AppState)
    ensures NextShape(st).currentShape == Successor(st.currentShape)
    ensures NextShape(st).currentShape == ShapeOrder[(Position(st.currentShape) + 1) % |ShapeOrder|]
  {
    OrderIsPermutation(st.currentShape);
    match st.currentShape
    case Text => case Heart => case Snow => case Fireworks => case Rabbit => case Rose =>
  }

  /** One step of nextShape moves one place along the order. */
  lemma NextShapePosition(st: AppState)
    ensures Position(NextShape(st).currentShape) == (Position(st.currentShape) + 1) % |ShapeOrder|
  {
    NextShapeFollowsOrder(st);
    match st.currentShape
    case Text => case Heart => case Snow => case Fireworks => case Rabbit => case Rose =>
  }

  /** nextShape is a bijection on shapes: Predecessor undoes it on both sides. */
  lemma NextShapeIsBijection(st: AppState)
    ensures Predecessor(NextShape(st).currentShape) == st.currentShape
    ensures NextShape(st.(currentShape := Predecessor(st.currentShape))) == st
  {
    NextShapeFollowsOrder(st);
    NextShapeFollowsOrder(st.(currentShape := Predecessor(st.currentShape)));
    match st.currentShape
    case Text => case Heart => case Snow => case Fireworks => case Rabbit => case Rose =>
  }

  lemma NextShapeInjective(a: AppState, b: AppState)
    requires NextShape(a) == NextShape(b)
    ensures a == b
  {
    NextShapeIsBijection(a);
    NextShapeIsBijection(b);
  }

  /** n applications of a store action. */
  function Iterate(f: AppState -> AppState, st: AppState, n: nat): AppState
  {
    if n == 0 then st else f(Iterate(f, st, n - 1))
  }

  /** n applications of nextShape. */
  function NextShapeN(st: AppState, n: nat): AppState
  {
    Iterate(NextShape, st, n)
  }

  /** An action that moves one place along the order moves n places in n steps. */
  lemma {:induction false} IterateAdvances(f: AppState -> AppState, st: AppState, n: nat)
    requires forall x :: Position(f(x).currentShape) == (Position(x.currentShape) + 1) % |ShapeOrder|
    ensures Position(Iterate(f, st, n).currentShape) == (Position(st.currentShape) + n) % |ShapeOrder|
  {
    if n > 0 {
      IterateAdvances(f, st, n - 1);
      ModStep(Position(st.currentShape) + (n - 1));
    }
  }

  /** After n steps the current shape is n places further along the order. */
  lemma NextShapeNPosition(st: AppState, n: nat)
    ensures Position(NextShapeN(st, n).currentShape) == (Position(st.currentShape) + n) % |ShapeOrder|
  {
    forall x: AppState
      ensures Position(NextShape(x).currentShape) == (Position(x.currentShape) + 1) % |ShapeOrder|
    {
      NextShapePosition(x);
    }
    IterateAdvances(NextShape, st, n);
  }

  /** Cycling never touches the other two fields of the store. */
  lemma {:induction false} NextShapeNKeepsOtherFields(st: AppState, n: nat)
    ensures NextShapeN(st, n).handFactor == st.handFactor && NextShapeN(st, n).showUI == st.showUI
  {
    if n > 0 {
      NextShapeNKeepsOtherFields(st, n - 1);
    }
  }

  lemma ModStep(a: nat)
    ensures (a % |ShapeOrder| + 1) % |ShapeOrder| == (a + 1) % |ShapeOrder|
  {
    var q, r := a / 6, a % 6;
    assert a == 6 * q + r;
    if r < 5 {
      assert a + 1 == 6 * q + (r + 1);
    } else {
      assert a + 1 == 6 * (q + 1);
    }
  }

  /** Six steps close the cycle: the whole state is back where it started. */
  lemma CycleCloses(st: AppState)
    ensures NextShapeN(st, 6) == st
  {
    NextShapeNPosition(st, 6);
    NextShapeNKeepsOtherFields(st, 6);
    OrderIsPermutation(NextShapeN(st, 6).currentShape);
    OrderIsPermutation(st.currentShape);
  }

  /** The cycle has no shorter period: fewer than six steps always move the shape. */
  lemma NoShorterCycle(st: AppState, n: nat)
    requires 0 < n < 6
    ensures NextShapeN(st, n).currentShape != st.currentShape
  {
    NextShapeNPosition(st, n);
  }

  lemma ToggleUITwice(st: AppState)
    ensures ToggleUI(ToggleUI(st)) == st
  {
  }

  /** A later selection overrides an earlier one. */
  lemma SetShapeOverrides(st: AppState, a: ShapeType, b: ShapeType)
    ensures SetShape(SetShape(st, a), b) == SetShape(st, b)
  {
  }

  /** Actions on different fields commute. */
  lemma IndependentActionsCommute(st: AppState, f: real)
    ensures ToggleUI(NextShape(st)) == NextShape(ToggleUI(st))
    ensures SetHandFactor(NextShape(st), f) == NextShape(SetHandFactor(st, f))
    ensures SetHandFactor(ToggleUI(st), f) == ToggleUI(SetHandFactor(st, f))
  {
  }
}
