/** The drawing operations of package painter and the texture they draw on:
    a closed set of variants, each applied to a texture by `Apply`, which
    tells whether the operation makes the frame ready to be shown. */
module Ops {

  /** The colours the operations fill with, as tags: Green is
      RGBA(0,255,0,255) and Yellow is RGBA(255,255,0,255). */
  datatype Color = White | Green | Black | Yellow

  /** image.Rectangle: the pixels [x0,x1) x [y0,y1). */
  datatype Rect = Rect(x0: int, y0: int, x1: int, y1: int) {
    function Dx(): int { x1 - x0 }
    function Dy(): int { y1 - y0 }
    predicate WellFormed() { x0 <= x1 && y0 <= y1 }
    predicate Within(outer: Rect) {
      outer.x0 <= x0 && x1 <= outer.x1 && outer.y0 <= y0 && y1 <= outer.y1
    }
  }

  /** image.Rect: the rectangle with the given corners, swapped where needed
      so that it is well-formed. */
  function MakeRect(x0: int, y0: int, x1: int, y1: int): (r: Rect)
    ensures r.WellFormed()
    ensures {r.x0, r.x1} == {x0, x1} && {r.y0, r.y1} == {y0, y1}
    ensures x0 <= x1 && y0 <= y1 ==> r == Rect(x0, y0, x1, y1)
  {
    var (lx, hx) := if x0 <= x1 then (x0, x1) else (x1, x0);
    var (ly, hy) := if y0 <= y1 then (y0, y1) else (y1, y0);
    Rect(lx, ly, hx, hy)
  }

  /** Go's conversion `int(x)` of a float: truncation toward zero. */
  function Trunc(x: real): (n: int)
    ensures 0.0 <= x ==> n as real <= x < n as real + 1.0
    ensures x <= 0.0 ==> n as real - 1.0 < x <= n as real
  {
    if 0.0 <= x then x.Floor else -((-x).Floor)
  }

  /** The pixel coordinate of a normalised coordinate along an extent of the
      texture, `int(v * float64(extent))`. */
  function Scale(v: real, extent: int): (p: int)
    ensures 0.0 <= v <= 1.0 && 0 <= extent ==> 0 <= p <= extent
  {
    if 0.0 <= v <= 1.0 && 0 <= extent then ScaleWithin(v, extent as real); Trunc(v * extent as real)
    else Trunc(v * extent as real)
  }

  lemma ScaleWithin(v: real, e: real)
    requires 0.0 <= v <= 1.0 && 0.0 <= e
    ensures 0.0 <= v * e <= e
  {
    assert e - v * e == (1.0 - v) * e;
  }

  /** One call of Texture.Fill as recorded by the test texture; the draw
      mode is always draw.Src and is not recorded. */
  datatype FillCall = FillCall(rect: Rect, color: Color)

  /** A screen.Texture as the test mock implements it: fixed bounds and the
      log of every fill made on it, oldest first. */
  class Texture {
    const bounds: Rect
    var fills: seq<FillCall>

    constructor (width: nat, height: nat)
      ensures bounds == Rect(0, 0, width, height) && fills == []
    {
      bounds := Rect(0, 0, width, height);
      fills := [];
    }

    method Fill(r: Rect, c: Color)
      modifies this
      ensures fills == old(fills) + [FillCall(r, c)]
    {
      fills := fills + [FillCall(r, c)];
    }
  }

  /** The bodies that OperationFunc values wrap in this repository: the stop
      request posted by Loop.StopAndWait, and closures that record in a list
      that they ran (the event-loop tests). */
  datatype Action = RequestStop | Record(name: string)

  /** The labels recorded by a run of actions, in order. */
  function Labels(acts: seq<Action>): seq<string>
  {
    if acts == [] then []
    else
      var last := acts[|acts| - 1];
      Labels(acts[..|acts| - 1]) + (if last.Record? then [last.name] else [])
  }

  lemma {:induction false} LabelsAppend(a: seq<Action>, b: seq<Action>)
    ensures Labels(a + b) == Labels(a) + Labels(b)
    decreases |b|
  {
    if b == [] {
      assert a + b == a;
    } else {
      var b' := b[..|b| - 1];
      assert (a + b)[..|a + b| - 1] == a + b';
      LabelsAppend(a, b');
    }
  }

  /** The variables the wrapped closures write: the loop's stopReq flag and
      the list of recorded labels. */
  class Captures {
    var stopReq: bool
    var executed: seq<string>

    constructor ()
      ensures !stopReq && executed == []
    {
      stopReq := false;
      executed := [];
    }

    method Run(a: Action)
      modifies this
      ensures stopReq == (old(stopReq) || a == RequestStop)
      ensures executed == old(executed) + Labels([a])
    {
      match a
      case RequestStop => stopReq := true;
      case Record(name) => executed := executed + [name];
    }
  }

  /** Background rectangle in normalised texture coordinates. */
  datatype BgRect = BgRect(x1: real, y1: real, x2: real, y2: real)

  /** Centre of a figure in normalised texture coordinates. */
  datatype Figure = Figure(x: real, y: real)

  /** The Operation interface and its implementations. */
  datatype Operation =
    | OperationFunc(action: Action)
    | OperationList(ops: seq<Operation>)
    | UpdateOp
    | WhiteFill
    | GreenFill
    | Reset
    | BgRectOp(rect: BgRect)
    | FigureOp(figure: Figure)

  /** The result of Do: whether the operation makes the frame ready. */
  predicate Ready(op: Operation)
  {
    match op
    case UpdateOp => true
    case OperationList(ops) => ListReady(ops)
    case _ => false
  }

  /** OperationList.Do's result: the flag its loop raises for a ready member. */
  predicate ListReady(ops: seq<Operation>)
  {
    ops != [] && (ListReady(ops[..|ops| - 1]) || Ready(ops[|ops| - 1]))
  }

  const FigureSize := 300
  const HalfSize := FigureSize / 2
  const BarWidth := FigureSize / 5

  /** The vertical and the horizontal bar of the figure whose centre is the
      pixel (cx, cy). Both lie in the 300x300 box centred on the centre; the
      horizontal bar is centred on it, the vertical bar spans the box's height
      along its left edge. */
  function CrossBars(cx: int, cy: int): (bars: (Rect, Rect))
    ensures bars.0.WellFormed() && bars.1.WellFormed()
    ensures bars.0.Dx() == BarWidth == 60 && bars.0.Dy() == FigureSize == 300
    ensures bars.1.Dx() == FigureSize && bars.1.Dy() == BarWidth
    ensures bars.0.y0 + bars.0.y1 == 2 * cy
    ensures bars.1.x0 + bars.1.x1 == 2 * cx && bars.1.y0 + bars.1.y1 == 2 * cy
    ensures bars.0.x0 == bars.1.x0 == cx - HalfSize
    ensures var box := Rect(cx - HalfSize, cy - HalfSize, cx + HalfSize, cy + HalfSize);
            bars.0.Within(box) && bars.1.Within(box)
  {
    var vertical := MakeRect(cx - HalfSize, cy - HalfSize, cx - HalfSize + BarWidth, cy + HalfSize);
    var horizontal := MakeRect(cx - HalfSize, cy - BarWidth / 2, cx + HalfSize, cy + BarWidth / 2);
    (vertical, horizontal)
  }

  /** The pixel rectangle a BgRect fills on a texture with the given bounds. */
  function BgRectPixels(r: BgRect, bounds: Rect): Rect
  {
    MakeRect(Scale(r.x1, bounds.Dx()), Scale(r.y1, bounds.Dy()),
             Scale(r.x2, bounds.Dx()), Scale(r.y2, bounds.Dy()))
  }

  /** The fills Do makes on a texture with the given bounds, in order. */
  function Fills(op: Operation, bounds: Rect): seq<FillCall>
  {
    match op
    case OperationFunc(_) => []
    case OperationList(ops) => ListFills(ops, bounds)
    case UpdateOp => []
    case WhiteFill => [FillCall(bounds, White)]
    case GreenFill => [FillCall(bounds, Green)]
    case Reset => [FillCall(bounds, Black)]
    case BgRectOp(r) => [FillCall(BgRectPixels(r, bounds), Black)]
    case FigureOp(f) =>
      var bars := CrossBars(Scale(f.x, bounds.Dx()), Scale(f.y, bounds.Dy()));
      [FillCall(bars.0, Yellow), FillCall(bars.1, Yellow)]
  }

  function ListFills(ops: seq<Operation>, bounds: Rect): seq<FillCall>
  {
    if ops == [] then []
    else ListFills(ops[..|ops| - 1], bounds) + Fills(ops[|ops| - 1], bounds)
  }

  /** The wrapped closures Do runs, in order. */
  function Actions(op: Operation): seq<Action>
  {
    match op
    case OperationFunc(a) => [a]
    case OperationList(ops) => ListActions(ops)
    case _ => []
  }

  function ListActions(ops: seq<Operation>): seq<Action>
  {
    if ops == [] then []
    else ListActions(ops[..|ops| - 1]) + Actions(ops[|ops| - 1])
  }

  /** Do: applies `op` to texture `t`; the closures it runs write `env`. */
  method Apply(op: Operation, t: Texture, env: Captures) returns (ready: bool)
    modifies t, env
    ensures ready == Ready(op)
    ensures t.fills == old(t.fills) + Fills(op, t.bounds)
    ensures env.executed == old(env.executed) + Labels(Actions(op))
    ensures env.stopReq == (old(env.stopReq) || RequestStop in Actions(op))
    decreases op, 1
  {
    match op
    case OperationFunc(a) =>
      env.Run(a);
      ready := false;
    case OperationList(ops) =>
      ready := ApplyList(ops, t, env);
    case UpdateOp =>
      ready := true;
    case WhiteFill =>
      t.Fill(t.bounds, White);
      ready := false;
    case GreenFill =>
      t.Fill(t.bounds, Green);
      ready := false;
    case Reset =>
      t.Fill(t.bounds, Black);
      ready := false;
    case BgRectOp(r) =>
      var x1 := Scale(r.x1, t.bounds.Dx());
      var y1 := Scale(r.y1, t.bounds.Dy());
      var x2 := Scale(r.x2, t.bounds.Dx());
      var y2 := Scale(r.y2, t.bounds.Dy());
      t.Fill(MakeRect(x1, y1, x2, y2), Black);
      ready := false;
    case FigureOp(f) =>
      var centerX := Scale(f.x, t.bounds.Dx());
      var centerY := Scale(f.y, t.bounds.Dy());
      var bars := CrossBars(centerX, centerY);
      t.Fill(bars.0, Yellow);
      t.Fill(bars.1, Yellow);
      ready := false;
  }

  /** OperationList.Do: applies every member in order, without stopping at
      a ready one, and is ready iff some member was. */
  method ApplyList(ops: seq<Operation>, t: Texture, env: Captures) returns (ready: bool)
    modifies t, env
    ensures ready == Ready(OperationList(ops))
    ensures t.fills == old(t.fills) + ListFills(ops, t.bounds)
    ensures env.executed == old(env.executed) + Labels(ListActions(ops))
    ensures env.stopReq == (old(env.stopReq) || RequestStop in ListActions(ops))
    decreases ops, 0
  {
    ready := false;
    var i := 0;
    ghost var drawn: seq<FillCall>, acts: seq<Action>, labels: seq<string> := [], [], [];
    while i < |ops|
      invariant 0 <= i <= |ops|
      invariant ready == ListReady(ops[..i])
      invariant drawn == ListFills(ops[..i], t.bounds) && acts == ListActions(ops[..i])
      invariant t.fills == old(t.fills) + drawn
      invariant labels == Labels(acts)
      invariant env.executed == old(env.executed) + labels
      invariant env.stopReq == (old(env.stopReq) || RequestStop in acts)
    {
      var r := Apply(ops[i], t, env);
      if r {
        ready := true;
      }
      ListStep(ops, i, t.bounds);
      LabelsAppend(acts, Actions(ops[i]));
      AppendAssoc(old(t.fills), drawn, Fills(ops[i], t.bounds));
      AppendAssoc(old(env.executed), labels, Labels(Actions(ops[i])));
      drawn, acts := drawn + Fills(ops[i], t.bounds), acts + Actions(ops[i]);
      labels := labels + Labels(Actions(ops[i]));
      i := i + 1;
    }
    assert ops[..|ops|] == ops;
  }

  lemma AppendAssoc<T>(a: seq<T>, b: seq<T>, c: seq<T>)
    ensures (a + b) + c == a + (b + c)
  {
  }

  /** A list prefix grows by one operation: its fills, closures and labels
      grow by that operation's. */
  lemma ListStep(ops: seq<Operation>, i: nat, bounds: Rect)
    requires i < |ops|
    ensures ListFills(ops[..i + 1], bounds) == ListFills(ops[..i], bounds) + Fills(ops[i], bounds)
    ensures ListActions(ops[..i + 1]) == ListActions(ops[..i]) + Actions(ops[i])
    ensures Labels(ListActions(ops[..i + 1])) == Labels(ListActions(ops[..i])) + Labels(Actions(ops[i]))
    ensures ListReady(ops[..i + 1]) <==> ListReady(ops[..i]) || Ready(ops[i])
  {
    assert ops[..i + 1][..i] == ops[..i];
    LabelsAppend(ListActions(ops[..i]), Actions(ops[i]));
  }

  /** What each single (non-list) operation does: UpdateOp alone is ready and
      draws nothing; an OperationFunc runs its closure once and draws nothing;
      the three background fills cover the whole texture in their colour;
      BgRect fills one black rectangle and Figure two yellow ones. */
  lemma LeafEffects(op: Operation, bounds: Rect)
    requires !op.OperationList?
    ensures Ready(op) <==> op == UpdateOp
    ensures op.OperationFunc? ==> Actions(op) == [op.action] && Fills(op, bounds) == []
    ensures !op.OperationFunc? ==> Actions(op) == []
    ensures op == UpdateOp ==> Fills(op, bounds) == []
    ensures op == WhiteFill ==> Fills(op, bounds) == [FillCall(bounds, White)]
    ensures op == GreenFill ==> Fills(op, bounds) == [FillCall(bounds, Green)]
    ensures op == Reset ==> Fills(op, bounds) == [FillCall(bounds, Black)]
    ensures op.BgRectOp? ==> |Fills(op, bounds)| == 1 && Fills(op, bounds)[0].color == Black
    ensures op.FigureOp? ==> |Fills(op, bounds)| == 2
                             && Fills(op, bounds)[0].color == Fills(op, bounds)[1].color == Yellow
  {
  }

  /** A background rectangle given in [0,1] coordinates is filled inside the
      bounds of a texture whose origin is (0,0). */
  lemma BgRectWithinTexture(r: BgRect, width: nat, height: nat)
    requires 0.0 <= r.x1 <= 1.0 && 0.0 <= r.y1 <= 1.0 && 0.0 <= r.x2 <= 1.0 && 0.0 <= r.y2 <= 1.0
    ensures Fills(BgRectOp(r), Rect(0, 0, width, height))
            == [FillCall(BgRectPixels(r, Rect(0, 0, width, height)), Black)]
    ensures BgRectPixels(r, Rect(0, 0, width, height)).Within(Rect(0, 0, width, height))
  {
  }

  /** Applying the list a + b is applying a and then b: the fills and the
      closures run concatenate, and the list is ready iff either part is. */
  lemma ListAppend(a: seq<Operation>, b: seq<Operation>, bounds: Rect)
    ensures ListFills(a + b, bounds) == ListFills(a, bounds) + ListFills(b, bounds)
    ensures ListActions(a + b) == ListActions(a) + ListActions(b)
    ensures Ready(OperationList(a + b)) <==> Ready(OperationList(a)) || Ready(OperationList(b))
  {
    ListFillsAppend(a, b, bounds);
    ListActionsAppend(a, b);
    ReadyAppend(a, b);
  }

  lemma {:induction false} ListFillsAppend(a: seq<Operation>, b: seq<Operation>, bounds: Rect)
    ensures ListFills(a + b, bounds) == ListFills(a, bounds) + ListFills(b, bounds)
    decreases |b|
  {
    if b == [] {
      assert a + b == a;
    } else {
      var b', x := b[..|b| - 1], b[|b| - 1];
      assert (a + b)[..|a + b| - 1] == a + b' && (a + b)[|a + b| - 1] == x;
      assert ListFills(a + b, bounds) == ListFills(a + b', bounds) + Fills(x, bounds);
      ListFillsAppend(a, b', bounds);
      assert ListFills(b, bounds) == ListFills(b', bounds) + Fills(x, bounds);
    }
  }

  lemma {:induction false} ListActionsAppend(a: seq<Operation>, b: seq<Operation>)
    ensures ListActions(a + b) == ListActions(a) + ListActions(b)
    decreases |b|
  {
    if b == [] {
      assert a + b == a;
    } else {
      var b', x := b[..|b| - 1], b[|b| - 1];
      assert (a + b)[..|a + b| - 1] == a + b' && (a + b)[|a + b| - 1] == x;
      assert ListActions(a + b) == ListActions(a + b') + Actions(x);
      ListActionsAppend(a, b');
      assert ListActions(b) == ListActions(b') + Actions(x);
    }
  }

  lemma {:induction false} ReadyAppend(a: seq<Operation>, b: seq<Operation>)
    ensures ListReady(a + b) <==> ListReady(a) || ListReady(b)
    decreases |b|
  {
    if b == [] {
      assert a + b == a;
    } else {
      var b', x := b[..|b| - 1], b[|b| - 1];
      assert (a + b)[..|a + b| - 1] == a + b' && (a + b)[|a + b| - 1] == x;
      ReadyAppend(a, b');
    }
  }

  /** OperationList.Do is ready iff some member is: it does not stop at the
      first ready member, and a later one cannot clear the flag. */
  lemma {:induction false} ListReadyAny(ops: seq<Operation>)
    ensures ListReady(ops) <==> exists k :: 0 <= k < |ops| && Ready(ops[k])
    decreases |ops|
  {
    if ops != [] {
      var init := ops[..|ops| - 1];
      ListReadyAny(init);
      if ListReady(init) {
        var k :| 0 <= k < |init| && Ready(init[k]);
        assert ops[k] == init[k];
      }
      if exists k :: 0 <= k < |ops| && Ready(ops[k]) {
        var k :| 0 <= k < |ops| && Ready(ops[k]);
        if k < |init| {
          assert init[k] == ops[k];
        }
      }
    }
  }

  /** The single operations an operation performs, with every nested list
      flattened, in application order. */
  function Leaves(op: Operation): (leaves: seq<Operation>)
    ensures forall k :: 0 <= k < |leaves| ==> !leaves[k].OperationList?
  {
    match op
    case OperationList(ops) => ListLeaves(ops)
    case _ => [op]
  }

  function ListLeaves(ops: seq<Operation>): (leaves: seq<Operation>)
    ensures forall k :: 0 <= k < |leaves| ==> !leaves[k].OperationList?
  {
    if ops == [] then []
    else ListLeaves(ops[..|ops| - 1]) + Leaves(ops[|ops| - 1])
  }

  /** Nesting lists changes nothing: an operation draws exactly what its
      flattened leaves draw, runs the same closures, and is ready iff one of
      its leaves is UpdateOp. The empty list in particular is not ready. */
  lemma {:induction false} FlattenAgrees(op: Operation, bounds: Rect)
    ensures Fills(op, bounds) == ListFills(Leaves(op), bounds)
    ensures Actions(op) == ListActions(Leaves(op))
    ensures Ready(op) <==> UpdateOp in Leaves(op)
    decreases op, 1
  {
    match op
    case OperationList(ops) =>
      ListFlattenAgrees(ops, bounds);
    case _ =>
      assert [op][..0] == [];
  }

  lemma {:induction false} ListFlattenAgrees(ops: seq<Operation>, bounds: Rect)
    ensures ListFills(ops, bounds) == ListFills(ListLeaves(ops), bounds)
    ensures ListActions(ops) == ListActions(ListLeaves(ops))
    ensures Ready(OperationList(ops)) <==> UpdateOp in ListLeaves(ops)
    decreases ops, 0
  {
    if ops != [] {
      var init, last := ops[..|ops| - 1], ops[|ops| - 1];
      assert last in ops;
      ListFlattenAgrees(init, bounds);
      FlattenAgrees(last, bounds);
      ListAppend(ListLeaves(init), Leaves(last), bounds);
      ListAppend(init, [last], bounds);
      assert init + [last] == ops;
      assert [last][..0] == [];
      assert ListReady([last]) <==> Ready(last) by {
        assert [last][..0] == [];
      }
    }
  }
}
