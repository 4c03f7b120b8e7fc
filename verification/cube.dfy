/**
 The cube engine: the N×N×N grid of piece colours stored as one flat sequence,
 its initial colouring, the face-move to layer-turn mapping and the (empty)
 layer turn.
 */
module Cubes {
  import opened Faces
  import opened Pieces
  import opened Options

  /** Grid coordinates of a piece; equality is componentwise. */
  datatype Location = Location(x: nat, y: nat, z: nat)

  /** One quarter turn of one layer. */
  datatype Turn = Turn(layerType: Direction, layerIndex: nat, clockwise: bool)

  /** The face moves that are mapped to layer turns. */
  datatype SideMove = U | F | R | B | L | D | M

  /** The turns one face move issues on a cube with `n` layers; `prime` asks
      for the counterclockwise variant. */
  function MoveTurns(n: nat, m: SideMove, prime: bool): (turns: seq<Turn>)
    requires n >= 1
    ensures m != M ==> |turns| == 1
    ensures forall k :: 0 <= k < |turns| ==> turns[k].layerIndex < n
    ensures m == M && n % 2 == 0 ==> turns == []
    ensures m == M && n % 2 == 1 ==> |turns| == if n == 1 then 0 else n - 2
    ensures m == M ==> forall k :: 0 <= k < |turns| ==>
      turns[k].layerType == Vertical && turns[k].clockwise == !prime && 0 < turns[k].layerIndex < n - 1
    ensures m == M ==> forall k, k' :: 0 <= k < k' < |turns| ==> turns[k].layerIndex < turns[k'].layerIndex
  {
    if m != M then [OuterTurn(n, m, prime)]
    else if n % 2 == 0 || n == 1 then []
    else seq(n - 2, k requires 0 <= k < n - 2 => Turn(Vertical, k + 1, !prime))
  }

  /** The single turn of an outer face move. */
  function OuterTurn(n: nat, m: SideMove, prime: bool): Turn
    requires n >= 1 && m != M
  {
    match m
    case U => Turn(Horizontal, n - 1, !prime)
    case F => Turn(Depthical, n - 1, !prime)
    case R => Turn(Vertical, n - 1, !prime)
    case B => Turn(Depthical, 0, prime)
    case L => Turn(Vertical, 0, prime)
    case D => Turn(Horizontal, 0, prime)
  }

  /** The face whose stickers an outer face move carries along. */
  function MovedFace(m: SideMove): (f: Face)
    requires m != M
    ensures f != Face.None
  {
    match m
    case U => Top
    case F => Front
    case R => Right
    case B => Back
    case L => Left
    case D => Bottom
  }

  /** The coordinate a layer type selects: a horizontal layer is a slice of
      constant y, a vertical one of constant x, a depthical one of constant z. */
  function LayerCoordinate(d: Direction, loc: Location): nat
  {
    match d
    case Horizontal => loc.y
    case Vertical => loc.x
    case Depthical => loc.z
  }

  /** True when the piece at `loc` lies on the outer face `f`. */
  predicate OnFace(n: nat, f: Face, loc: Location)
  {
    match f
    case Top => loc.y == n - 1
    case Bottom => loc.y == 0
    case Right => loc.x == n - 1
    case Left => loc.x == 0
    case Front => loc.z == n - 1
    case Back => loc.z == 0
    case None => false
  }

  /** The sign of one coordinate of an axis direction. */
  datatype Sign = Minus | Zero | Plus

  function Value(a: Sign): int
  {
    match a
    case Minus => -1
    case Zero => 0
    case Plus => 1
  }

  /** The sign of a product. */
  function Times(a: Sign, b: Sign): (r: Sign)
    ensures Value(r) == Value(a) * Value(b)
  {
    if a == Zero || b == Zero then Zero
    else if a == b then Plus
    else Minus
  }

  /** An axis direction in grid coordinates: x grows to the right, y upwards
      and z towards the front, a right-handed frame. */
  datatype Vector = Vector(x: Sign, y: Sign, z: Sign)

  /** The outward normal of an outer face, read off the constructor's painting:
      Right is the x = N-1 layer, Top the y = N-1 layer, Front the z = N-1 layer. */
  function Normal(f: Face): Vector
    requires f != Face.None
  {
    match f
    case Top => Vector(Zero, Plus, Zero)
    case Bottom => Vector(Zero, Minus, Zero)
    case Right => Vector(Plus, Zero, Zero)
    case Left => Vector(Minus, Zero, Zero)
    case Front => Vector(Zero, Zero, Plus)
    case Back => Vector(Zero, Zero, Minus)
  }

  /** The components of the cross product `a × b`. */
  function Cross(a: Vector, b: Vector): (int, int, int)
  {
    (Value(Times(a.y, b.z)) - Value(Times(a.z, b.y)),
     Value(Times(a.z, b.x)) - Value(Times(a.x, b.z)),
     Value(Times(a.x, b.y)) - Value(Times(a.y, b.x)))
  }

  function Dot(a: Vector, b: Vector): int
  {
    Value(Times(a.x, b.x)) + Value(Times(a.y, b.y)) + Value(Times(a.z, b.z))
  }

  function Components(a: Vector): (int, int, int)
  {
    (Value(a.x), Value(a.y), Value(a.z))
  }

  function Negate(c: (int, int, int)): (int, int, int)
  {
    (-c.0, -c.1, -c.2)
  }

  /** Every outer face move turns its face clockwise as seen from outside that
      face, and its prime counterclockwise. A clockwise quarter turn seen
      from outside the face with normal `u` sends a perpendicular direction
      `v` to `-(u × v)`, a counterclockwise one to `u × v`; here `v` is the
      side face a sticker leaves and the result the face the table sends it to. */
  lemma OuterMovesTurnClockwise(n: nat, m: SideMove, prime: bool, a: Face)
    requires n >= 1 && m != M && a != Face.None
    requires Dot(Normal(MovedFace(m)), Normal(a)) == 0
    ensures var t := MoveTurns(n, m, prime)[0];
      var w := Components(Normal(Destination(Slot(a), t.layerType, t.clockwise)));
      !prime ==> w == Negate(Cross(Normal(MovedFace(m)), Normal(a)))
    ensures var t := MoveTurns(n, m, prime)[0];
      var w := Components(Normal(Destination(Slot(a), t.layerType, t.clockwise)));
      prime ==> w == Cross(Normal(MovedFace(m)), Normal(a))
  {
    assert MoveTurns(n, m, prime)[0] == OuterTurn(n, m, prime);
    match m
    case U => SenseOfU(n, prime, a);
    case F => SenseOfF(n, prime, a);
    case R => SenseOfR(n, prime, a);
    case B => SenseOfB(n, prime, a);
    case L => SenseOfL(n, prime, a);
    case D => SenseOfD(n, prime, a);
  }

  // The sense of each outer move, one move at a time.

  lemma SenseOfU(n: nat, prime: bool, a: Face)
    requires n >= 1 && a != Face.None
    requires Dot(Normal(MovedFace(U)), Normal(a)) == 0
    ensures var t := OuterTurn(n, U, prime);
      var w := Components(Normal(Destination(Slot(a), t.layerType, t.clockwise)));
      w == if prime then Cross(Normal(MovedFace(U)), Normal(a)) else Negate(Cross(Normal(MovedFace(U)), Normal(a)))
  {
  }

  lemma SenseOfF(n: nat, prime: bool, a: Face)
    requires n >= 1 && a != Face.None
    requires Dot(Normal(MovedFace(F)), Normal(a)) == 0
    ensures var t := OuterTurn(n, F, prime);
      var w := Components(Normal(Destination(Slot(a), t.layerType, t.clockwise)));
      w == if prime then Cross(Normal(MovedFace(F)), Normal(a)) else Negate(Cross(Normal(MovedFace(F)), Normal(a)))
  {
  }

  lemma SenseOfR(n: nat, prime: bool, a: Face)
    requires n >= 1 && a != Face.None
    requires Dot(Normal(MovedFace(R)), Normal(a)) == 0
    ensures var t := OuterTurn(n, R, prime);
      var w := Components(Normal(Destination(Slot(a), t.layerType, t.clockwise)));
      w == if prime then Cross(Normal(MovedFace(R)), Normal(a)) else Negate(Cross(Normal(MovedFace(R)), Normal(a)))
  {
  }

  lemma SenseOfB(n: nat, prime: bool, a: Face)
    requires n >= 1 && a != Face.None
    requires Dot(Normal(MovedFace(B)), Normal(a)) == 0
    ensures var t := OuterTurn(n, B, prime);
      var w := Components(Normal(Destination(Slot(a), t.layerType, t.clockwise)));
      w == if prime then Cross(Normal(MovedFace(B)), Normal(a)) else Negate(Cross(Normal(MovedFace(B)), Normal(a)))
  {
  }

  lemma SenseOfL(n: nat, prime: bool, a: Face)
    requires n >= 1 && a != Face.None
    requires Dot(Normal(MovedFace(L)), Normal(a)) == 0
    ensures var t := OuterTurn(n, L, prime);
      var w := Components(Normal(Destination(Slot(a), t.layerType, t.clockwise)));
      w == if prime then Cross(Normal(MovedFace(L)), Normal(a)) else Negate(Cross(Normal(MovedFace(L)), Normal(a)))
  {
  }

  lemma SenseOfD(n: nat, prime: bool, a: Face)
    requires n >= 1 && a != Face.None
    requires Dot(Normal(MovedFace(D)), Normal(a)) == 0
    ensures var t := OuterTurn(n, D, prime);
      var w := Components(Normal(Destination(Slot(a), t.layerType, t.clockwise)));
      w == if prime then Cross(Normal(MovedFace(D)), Normal(a)) else Negate(Cross(Normal(MovedFace(D)), Normal(a)))
  {
  }

  /** The prime variant of every face move turns the same layers in the other sense. */
  lemma PrimeFlipsSense(n: nat, m: SideMove)
    requires n >= 1
    ensures |MoveTurns(n, m, true)| == |MoveTurns(n, m, false)|
    ensures forall k :: 0 <= k < |MoveTurns(n, m, true)| ==>
      MoveTurns(n, m, true)[k].layerType == MoveTurns(n, m, false)[k].layerType &&
      MoveTurns(n, m, true)[k].layerIndex == MoveTurns(n, m, false)[k].layerIndex &&
      MoveTurns(n, m, true)[k].clockwise == !MoveTurns(n, m, false)[k].clockwise
  {
  }

  /** An outer face move turns exactly the layer of pieces lying on its face,
      about the axis that keeps that face's stickers on that face. */
  lemma OuterMoveTurnsItsFace(n: nat, m: SideMove, prime: bool, loc: Location)
    requires n >= 1 && m != M
    ensures var t := MoveTurns(n, m, prime)[0];
      && (LayerCoordinate(t.layerType, loc) == t.layerIndex <==> OnFace(n, MovedFace(m), loc))
      && Destination(Slot(MovedFace(m)), t.layerType, t.clockwise) == MovedFace(m)
  {
  }

  /** The cube: its layer count and one piece per cell, cell (x, y, z) at flat
      index z·N² + y·N + x. */
  datatype Cube = Cube(layers: nat, pieces: seq<PieceColors>)

  /** The layer count the cube was built with. */
  function GetSize(c: Cube): (size: nat)
    ensures size == c.layers
  {
    c.layers
  }

  /** The row-major offset z·n² + y·n + x, written in Horner form. */
  function Index(n: nat, x: nat, y: nat, z: nat): nat
  {
    (z * n + y) * n + x
  }

  /** The colours of a freshly made piece: every face black. */
  function BlackPiece(): PieceColors
  {
    PieceColors([Black, Black, Black, Black, Black, Black])
  }

  /** Paints face `f` with `c` when `onShell` holds, and leaves the piece
      alone otherwise. */
  function PaintIf(p: PieceColors, onShell: bool, f: Face, c: FaceColor): (r: PieceColors)
    requires f != Face.None
    ensures Get(r, f) == if onShell then c else Get(p, f)
    ensures forall g :: g != Face.None && g != f ==> Get(r, g) == Get(p, g)
  {
    if onShell then Set(p, f, c) else p
  }

  /** The initial colours of the piece at (x, y, z): the outer faces get their
      colours, with `back` painted on the back face, and the rest stay black. */
  function Paint(n: nat, x: nat, y: nat, z: nat, back: FaceColor): (p: PieceColors)
    ensures x == 0 ==> Get(p, Left) == Orange
    ensures x != 0 ==> Get(p, Left) == Black
    ensures x == n - 1 ==> Get(p, Right) == Red
    ensures x != n - 1 ==> Get(p, Right) == Black
    ensures y == 0 ==> Get(p, Bottom) == Yellow
    ensures y != 0 ==> Get(p, Bottom) == Black
    ensures y == n - 1 ==> Get(p, Top) == White
    ensures y != n - 1 ==> Get(p, Top) == Black
    ensures z == 0 ==> Get(p, Back) == back
    ensures z != 0 ==> Get(p, Back) == Black
    ensures z == n - 1 ==> Get(p, Front) == Green
    ensures z != n - 1 ==> Get(p, Front) == Black
  {
    var p0 := BlackPiece();
    var p1 := PaintIf(p0, x == 0, Left, Orange);
    var p2 := PaintIf(p1, x == n - 1, Right, Red);
    var p3 := PaintIf(p2, y == 0, Bottom, Yellow);
    var p4 := PaintIf(p3, y == n - 1, Top, White);
    var p5 := PaintIf(p4, z == 0, Back, back);
    PaintIf(p5, z == n - 1, Front, Green)
  }

  /** The back colour as the constructor writes it: Black, the colour every
      unpainted sticker already has. */
  const WrittenBackColor: FaceColor := Black

  /** The back colour the constructor evidently intends: Blue, the side colour
      the solver's corners and the relation cycle expect opposite Green. */
  const BackColor: FaceColor := Blue

  /** The constructor: N³ pieces in z, y, x order, then painted with `back`
      on the back face. As written it paints `WrittenBackColor`; the
      evidently intended cube is the one painted with `BackColor`. */
  function NewCube(n: nat, back: FaceColor): (c: Cube)
    requires n >= 1
    ensures GetSize(c) == n && |c.pieces| == n * n * n
  {
    Cube(n, seq(n * n * n, i requires 0 <= i < n * n * n =>
      Paint(n, i % n, (i / n) % n, i / (n * n), back)))
  }

  /** The piece at (x, y, z), present iff the flat index is below the piece count. */
  function GetPiece(c: Cube, x: nat, y: nat, z: nat): (r: Option<PieceColors>)
    ensures r.Some? <==> Index(c.layers, x, y, z) < |c.pieces|
    ensures r.Some? ==> r.value == c.pieces[Index(c.layers, x, y, z)]
  {
    var i := Index(c.layers, x, y, z);
    if i < |c.pieces| then Some(c.pieces[i]) else Option.None
  }

  /** Overwrites the cell at (x, y, z); an out-of-range index changes nothing. */
  function SetPiece(c: Cube, x: nat, y: nat, z: nat, p: PieceColors): (r: Cube)
    ensures r.layers == c.layers && |r.pieces| == |c.pieces|
    ensures Index(c.layers, x, y, z) >= |c.pieces| ==> r == c
    ensures Index(c.layers, x, y, z) < |c.pieces| ==> GetPiece(r, x, y, z) == Some(p)
    ensures forall i :: 0 <= i < |c.pieces| && i != Index(c.layers, x, y, z) ==> r.pieces[i] == c.pieces[i]
  {
    var i := Index(c.layers, x, y, z);
    if i < |c.pieces| then Cube(c.layers, c.pieces[i := p]) else c
  }

  /** The layer turn: an empty stub in the source, so no piece moves. */
  function TurnSide(c: Cube, t: Turn): (r: Cube)
    ensures r == c
  {
    c
  }

  /** Issues the turns of a face move one after another; since each turn is
      the stub, no face move changes the grid. */
  function ApplyTurns(c: Cube, turns: seq<Turn>): (r: Cube)
    ensures r == c
    decreases |turns|
  {
    if turns == [] then c else ApplyTurns(TurnSide(c, turns[0]), turns[1..])
  }

  /** A positive multiple of a positive number is at least that number. */
  lemma MultipleAtLeast(k: int, n: int)
    requires k >= 1 && n > 0
    ensures k * n >= n
  {
    assert k * n == (k - 1) * n + n;
    assert (k - 1) * n >= 0;
  }

  /** Division and remainder are determined by any quotient/remainder split. */
  lemma DivModUnique(a: int, q: int, r: int, n: int)
    requires n > 0 && 0 <= r < n && a == q * n + r
    ensures a / n == q && a % n == r
  {
    var q', r' := a / n, a % n;
    assert a == q' * n + r';
    if q' > q {
      assert (q' - q) * n == q' * n - q * n;
      MultipleAtLeast(q' - q, n);
    } else if q' < q {
      assert (q - q') * n == q * n - q' * n;
      MultipleAtLeast(q - q', n);
    }
  }

  /** Multiplication by a natural number is monotonic. */
  lemma MultiplyMonotonic(a: nat, b: nat, m: nat)
    requires a <= b
    ensures a * m <= b * m
  {
    var d := b - a;
    assert b * m == a * m + d * m;
  }

  /** A row-major offset stays below the product of the extents. */
  lemma RowMajorBound(a: nat, b: nat, n: nat, m: nat)
    requires a < n && b < m
    ensures a * m + b < n * m
  {
    assert a * m + m == (a + 1) * m;
    MultiplyMonotonic(a + 1, n, m);
  }

  /** In-range coordinates give an in-range index, and the index decodes back to them. */
  lemma IndexDecodes(n: nat, x: nat, y: nat, z: nat)
    requires x < n && y < n && z < n
    ensures Index(n, x, y, z) < n * n * n
    ensures Index(n, x, y, z) % n == x
    ensures (Index(n, x, y, z) / n) % n == y
    ensures Index(n, x, y, z) / (n * n) == z
  {
    var i := Index(n, x, y, z);
    var row := z * n + y;
    DivModUnique(i, row, x, n);
    DivModUnique(row, z, y, n);
    RowMajorBound(y, x, n, n);
    assert i == z * (n * n) + (y * n + x) by {
      assert row * n == (z * n) * n + y * n;
      assert (z * n) * n == z * (n * n);
    }
    DivModUnique(i, z, y * n + x, n * n);
    RowMajorBound(z, y * n + x, n, n * n);
    assert n * (n * n) == n * n * n;
  }

  /** Distinct in-range coordinates give distinct indices. */
  lemma IndexInjective(n: nat, a: Location, b: Location)
    requires a.x < n && a.y < n && a.z < n && b.x < n && b.y < n && b.z < n
    requires Index(n, a.x, a.y, a.z) == Index(n, b.x, b.y, b.z)
    ensures a == b
  {
    IndexDecodes(n, a.x, a.y, a.z);
    IndexDecodes(n, b.x, b.y, b.z);
  }

  /** The built cube holds, at the cell of every in-range (x, y, z), the piece
      painted for those coordinates. */
  lemma NewCubeLayout(n: nat, back: FaceColor, x: nat, y: nat, z: nat)
    requires n >= 1 && x < n && y < n && z < n
    ensures GetPiece(NewCube(n, back), x, y, z) == Some(Paint(n, x, y, z, back))
  {
    IndexDecodes(n, x, y, z);
  }

  /** The lookup tests only the flat index: x = N on row 0 reads the first
      piece of row 1. */
  lemma GetAliasesAcrossRows(c: Cube)
    requires c.layers >= 1
    ensures GetPiece(c, c.layers, 0, 0) == GetPiece(c, 0, 1, 0)
  {
  }

  /** On a cube with N³ pieces the lookup succeeds exactly for flat indices below N³. */
  lemma GetPresentIffIndexInRange(c: Cube, x: nat, y: nat, z: nat)
    requires |c.pieces| == c.layers * c.layers * c.layers
    ensures GetPiece(c, x, y, z).Some? <==> Index(c.layers, x, y, z) < c.layers * c.layers * c.layers
  {
  }

  /** Writing one in-range cell leaves every other in-range cell as it was. */
  lemma SetLeavesOtherCells(c: Cube, a: Location, b: Location, p: PieceColors)
    requires |c.pieces| == c.layers * c.layers * c.layers
    requires a.x < c.layers && a.y < c.layers && a.z < c.layers
    requires b.x < c.layers && b.y < c.layers && b.z < c.layers
    requires a != b
    ensures GetPiece(SetPiece(c, a.x, a.y, a.z, p), b.x, b.y, b.z) == GetPiece(c, b.x, b.y, b.z)
  {
    var n := c.layers;
    IndexDecodes(n, b.x, b.y, b.z);
    if Index(n, a.x, a.y, a.z) == Index(n, b.x, b.y, b.z) {
      IndexInjective(n, a, b);
    }
  }

  /** A piece with no coordinate on the outer shell stays black on all six faces. */
  lemma InteriorIsBlack(n: nat, x: nat, y: nat, z: nat, back: FaceColor)
    requires 0 < x < n - 1 && 0 < y < n - 1 && 0 < z < n - 1
    ensures Paint(n, x, y, z, back) == BlackPiece()
  {
    var p := Paint(n, x, y, z, back);
    assert p.colors[0] == Get(p, Top);
    assert p.colors[1] == Get(p, Front);
    assert p.colors[2] == Get(p, Right);
    assert p.colors[3] == Get(p, Back);
    assert p.colors[4] == Get(p, Left);
    assert p.colors[5] == Get(p, Bottom);
  }
}
