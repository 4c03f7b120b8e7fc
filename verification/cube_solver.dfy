/** The layer-by-layer solver's corner planner. The solver's turns do not yet
    move any piece, so every routine is modelled as a planner that returns the
    moves it issues; the cube queries it makes are its inputs. To state what
    the plans achieve, a reference geometry tracks one corner sticker through
    the turns: where its piece goes and which face the sticker then shows. */
module Solver {
  import opened Faces
  import opened Pieces
  import opened Options
  import Cubes

  /** The moves the solver issues; a trailing `'` is the counterclockwise
      variant, `U2` a half turn of the top face, `z2` a whole-cube half turn. */
  datatype Move = U | U' | U2 | L | L' | R | R' | F | F' | B | B' | z2

  /** The move that undoes `m`. */
  function Inverse(m: Move): Move
  {
    match m
    case U => U'
    case U' => U
    case U2 => U2
    case L => L'
    case L' => L
    case R => R'
    case R' => R
    case F => F'
    case F' => F
    case B => B'
    case B' => B
    case z2 => z2
  }

  /** The outer face a move turns; `z2` turns the whole cube. */
  function MoveFace(m: Move): Face
  {
    match m
    case U | U' | U2 => Top
    case L | L' => Left
    case R | R' => Right
    case F | F' => Front
    case B | B' => Back
    case z2 => Face.None
  }

  /** A quarter turn of the top face. */
  predicate QuarterU(m: Move)
  {
    m == U || m == U'
  }

  // ---------------------------------------------------------------------------
  // Tracking one corner sticker

  /** A cell of an `n`-layer cube. */
  predicate InGrid(n: nat, loc: Cubes.Location)
  {
    loc.x < n && loc.y < n && loc.z < n
  }

  /** Where a turn about axis `d` carries a cell of the turning layer. Each
      case rotates the two other coordinates a quarter turn, in the sense that
      carries a sticker to the face the sticker table sends it to. */
  function TurnCell(n: nat, d: Direction, clockwise: bool, loc: Cubes.Location): (r: Cubes.Location)
    requires InGrid(n, loc)
    ensures InGrid(n, r)
    ensures Cubes.LayerCoordinate(d, r) == Cubes.LayerCoordinate(d, loc)
  {
    var m := n - 1;
    match d
    case Horizontal =>
      if clockwise then Cubes.Location(m - loc.z, loc.y, loc.x) else Cubes.Location(loc.z, loc.y, m - loc.x)
    case Vertical =>
      if clockwise then Cubes.Location(loc.x, loc.z, m - loc.y) else Cubes.Location(loc.x, m - loc.z, loc.y)
    case Depthical =>
      if clockwise then Cubes.Location(loc.y, m - loc.x, loc.z) else Cubes.Location(m - loc.y, loc.x, loc.z)
  }

  /** A sticker on an outer face of its cell is still on the outside after a
      turn, on the face the sticker table names: the cell geometry and the
      relabelling table agree. */
  lemma TurnCellFollowsStickers(n: nat, d: Direction, clockwise: bool, loc: Cubes.Location, f: Face)
    requires InGrid(n, loc) && f != Face.None && Cubes.OnFace(n, f, loc)
    ensures Cubes.OnFace(n, Destination(Slot(f), d, clockwise), TurnCell(n, d, clockwise, loc))
  {
  }

  /** The clockwise and counterclockwise cell maps undo each other. */
  lemma TurnCellUndo(n: nat, d: Direction, clockwise: bool, loc: Cubes.Location)
    requires InGrid(n, loc)
    ensures TurnCell(n, d, !clockwise, TurnCell(n, d, clockwise, loc)) == loc
  {
  }

  /** A tracked sticker: the cell of its piece and the face it shows. */
  datatype Tracked = Tracked(loc: Cubes.Location, face: Face)

  /** A tracked sticker inside the grid, on an outer face of its cell. */
  predicate Outside(n: nat, s: Tracked)
  {
    InGrid(n, s.loc) && s.face != Face.None && Cubes.OnFace(n, s.face, s.loc)
  }

  /** One layer turn applied to a tracked sticker: a piece of the turning
      layer moves, and its sticker is relabelled by the sticker table; any
      other piece stays. */
  function TrackTurn(n: nat, t: Cubes.Turn, s: Tracked): (r: Tracked)
    requires Outside(n, s)
    ensures Outside(n, r)
  {
    if Cubes.LayerCoordinate(t.layerType, s.loc) == t.layerIndex then
      TurnCellFollowsStickers(n, t.layerType, t.clockwise, s.loc, s.face);
      Tracked(TurnCell(n, t.layerType, t.clockwise, s.loc), Destination(Slot(s.face), t.layerType, t.clockwise))
    else s
  }

  /** The layer turn a quarter move issues: the top layer turns about the
      horizontal axis, left and right about the vertical axis, front and back
      about the depth axis; the far-side faces (left, back) turn
      counterclockwise on their unprimed move. */
  function QuarterTurn(n: nat, m: Move): Cubes.Turn
    requires n >= 1 && m != z2 && m != U2
  {
    match m
    case U => Cubes.Turn(Horizontal, n - 1, true)
    case U' => Cubes.Turn(Horizontal, n - 1, false)
    case L => Cubes.Turn(Vertical, 0, false)
    case L' => Cubes.Turn(Vertical, 0, true)
    case R => Cubes.Turn(Vertical, n - 1, true)
    case R' => Cubes.Turn(Vertical, n - 1, false)
    case F => Cubes.Turn(Depthical, n - 1, true)
    case F' => Cubes.Turn(Depthical, n - 1, false)
    case B => Cubes.Turn(Depthical, 0, false)
    case B' => Cubes.Turn(Depthical, 0, true)
  }

  /** The face move behind a quarter move, and whether it is primed. */
  function SideMoveOf(m: Move): Cubes.SideMove
    requires m != z2 && m != U2
  {
    match m
    case U | U' => Cubes.U
    case L | L' => Cubes.L
    case R | R' => Cubes.R
    case F | F' => Cubes.F
    case B | B' => Cubes.B
  }

  predicate Primed(m: Move)
  {
    m == U' || m == L' || m == R' || m == F' || m == B'
  }

  /** Each quarter move issues exactly the one turn the cube's face-move
      mapping gives for its face and sense. */
  lemma QuarterTurnsFollowFaceMoves(n: nat, m: Move)
    requires n >= 1 && m != z2 && m != U2
    ensures Cubes.MoveTurns(n, SideMoveOf(m), Primed(m)) == [QuarterTurn(n, m)]
  {
  }

  /** One face move applied to a tracked sticker; a half turn is the quarter
      turn twice. */
  function Step(n: nat, m: Move, s: Tracked): (r: Tracked)
    requires n >= 1 && m != z2 && Outside(n, s)
    ensures Outside(n, r)
  {
    if m == U2 then TrackTurn(n, QuarterTurn(n, U), TrackTurn(n, QuarterTurn(n, U), s))
    else TrackTurn(n, QuarterTurn(n, m), s)
  }

  /** Face moves (no whole-cube turn). */
  predicate FaceMoves(moves: seq<Move>)
  {
    forall k :: 0 <= k < |moves| ==> moves[k] != z2
  }

  /** A move sequence applied in order to a tracked sticker. */
  function Track(n: nat, moves: seq<Move>, s: Tracked): (r: Tracked)
    requires n >= 1 && FaceMoves(moves) && Outside(n, s)
    ensures Outside(n, r)
    decreases |moves|
  {
    if moves == [] then s else Track(n, moves[1..], Step(n, moves[0], s))
  }

  /** Face moves stay face moves when concatenated. */
  lemma FaceMovesConcat(a: seq<Move>, b: seq<Move>)
    requires FaceMoves(a) && FaceMoves(b)
    ensures FaceMoves(a + b)
  {
    forall k | 0 <= k < |a + b|
      ensures (a + b)[k] != z2
    {
      if k < |a| {
        assert (a + b)[k] == a[k];
      } else {
        assert (a + b)[k] == b[k - |a|];
      }
    }
  }

  /** Running two sequences one after the other is running their concatenation. */
  lemma {:induction false} TrackConcat(n: nat, a: seq<Move>, b: seq<Move>, s: Tracked)
    requires n >= 1 && FaceMoves(a) && FaceMoves(b) && Outside(n, s)
    ensures FaceMoves(a + b)
    ensures Track(n, a + b, s) == Track(n, b, Track(n, a, s))
    decreases |a|
  {
    FaceMovesConcat(a, b);
    if a == [] {
      assert a + b == b;
    } else {
      assert (a + b)[1..] == a[1..] + b;
      assert FaceMoves(a[1..]) by {
        forall k | 0 <= k < |a[1..]|
          ensures a[1..][k] != z2
        {
          assert a[1..][k] == a[k + 1];
        }
      }
      TrackConcat(n, a[1..], b, Step(n, a[0], s));
    }
  }

  // ---------------------------------------------------------------------------
  // The corner planner

  /** A column of corner cells: x and z are each 0 or N-1. */
  predicate CornerColumn(n: nat, loc: Cubes.Location)
  {
    (loc.x == 0 || loc.x == n - 1) && (loc.z == 0 || loc.z == n - 1)
  }

  /** The moves that lift a corner, and where the corner then is. */
  datatype Lift = Lift(moves: seq<Move>, location: Cubes.Location)

  /** Lifts a bottom corner to the top layer: the side face on the corner's
      x side turns it up, a quarter turn of the top moves it aside, and the
      side face turns back. Only the four corner columns are handled. */
  function MoveCornerToTop(n: nat, loc: Cubes.Location): (r: Lift)
    requires n >= 1 && CornerColumn(n, loc)
    ensures r.location == Cubes.Location(n - 1 - loc.x, n - 1, loc.z)
    ensures |r.moves| == 3 && FaceMoves(r.moves)
    ensures QuarterU(r.moves[1]) && r.moves[2] == Inverse(r.moves[0])
    ensures MoveFace(r.moves[0]) == if loc.x == 0 then Left else Right
  {
    var m := n - 1;
    if loc.x == 0 && loc.z == 0 then Lift([L, U, L'], Cubes.Location(m, m, 0))
    else if loc.x == m && loc.z == 0 then Lift([R', U', R], Cubes.Location(0, m, 0))
    else if loc.x == m && loc.z == m then Lift([R, U, R'], Cubes.Location(0, m, m))
    else Lift([L', U', L], Cubes.Location(m, m, m))
  }

  /** Turns the top layer so that a top corner sits above (destX, destZ):
      nothing when it is already there, a quarter turn when one coordinate
      already agrees, a half turn otherwise. */
  function MoveCornerOnTopToPosition(loc: Cubes.Location, destX: nat, destZ: nat): (r: seq<Move>)
    ensures r == [] <==> loc.x == destX && loc.z == destZ
    ensures |r| <= 1 && FaceMoves(r)
    ensures r == [U2] <==> loc.x != destX && loc.z != destZ
    ensures |r| == 1 && r[0] != U2 ==> QuarterU(r[0])
  {
    if loc.x == destX && loc.z == destZ then []
    else if loc.x == destX then
      if loc.x == 0 then [if loc.z > destZ then U else U']
      else [if loc.z < destZ then U else U']
    else if loc.z == destZ then
      if loc.z == 0 then [if loc.x < destX then U else U']
      else [if loc.x > destX then U else U']
    else [U2]
  }

  /** The side face on a top corner's x side, and on its z side. */
  function XSide(loc: Cubes.Location): Face
  {
    if loc.x == 0 then Left else Right
  }

  function ZSide(loc: Cubes.Location): Face
  {
    if loc.z == 0 then Back else Front
  }

  /** The faces the inserter handles for a top corner: its top face and its
      two side faces. */
  predicate InsertFaceAllowed(loc: Cubes.Location, face: Face)
  {
    face == Top || face == XSide(loc) || face == ZSide(loc)
  }

  /** Inserts a top corner into the cell below it, given the face that shows
      the bottom colour: a side face turns down with a quarter top turn in
      between; the top face needs the seven-move sequence. The four quadrant
      tests cover every location. */
  function InsertCornerToBottom(loc: Cubes.Location, face: Face): (r: seq<Move>)
    requires InsertFaceAllowed(loc, face)
    ensures FaceMoves(r) && 3 <= |r| <= 7
    ensures face != Top ==> (|r| == 3 && MoveFace(r[0]) == face
      && QuarterU(r[1]) && r[2] == Inverse(r[0]))
    ensures face == Top ==> (|r| == 7 && MoveFace(r[0]) == XSide(loc)
      && r[1] == U2 && r[2] == Inverse(r[0]) && QuarterU(r[3])
      && r[4] == r[0] && r[5] == Inverse(r[3]) && r[6] == Inverse(r[0]))
  {
    if loc.x == 0 && loc.z == 0 then
      match face
      case Back => [B', U', B]
      case Left => [L, U, L']
      case Top => [L, U2, L', U', L, U, L']
    else if loc.x != 0 && loc.z == 0 then
      match face
      case Back => [B, U, B']
      case Right => [R', U', R]
      case Top => [R', U2, R, U, R', U', R]
    else if loc.x != 0 && loc.z != 0 then
      match face
      case Front => [F', U', F]
      case Right => [R, U, R']
      case Top => [R, U2, R', U', R, U, R']
    else
      match face
      case Front => [F, U, F']
      case Left => [L', U', L]
      case Top => [L', U2, L, U, L', U', L]
  }

  // ---------------------------------------------------------------------------
  // What the plans achieve

  /** The lift carries a bottom corner to the location it reports. */
  lemma LiftReachesReportedLocation(n: nat, loc: Cubes.Location, f: Face)
    requires n >= 2 && CornerColumn(n, loc) && loc.y == 0 && Outside(n, Tracked(loc, f))
    ensures Track(n, MoveCornerToTop(n, loc).moves, Tracked(loc, f)).loc == MoveCornerToTop(n, loc).location
  {
  }

  /** The top turn puts a top corner above any destination corner column. */
  lemma AlignReachesDestination(n: nat, loc: Cubes.Location, f: Face, destX: nat, destZ: nat)
    requires n >= 2 && CornerColumn(n, loc) && loc.y == n - 1 && Outside(n, Tracked(loc, f))
    requires CornerColumn(n, Cubes.Location(destX, 0, destZ))
    ensures Track(n, MoveCornerOnTopToPosition(loc, destX, destZ), Tracked(loc, f)).loc
      == Cubes.Location(destX, n - 1, destZ)
  {
  }

  /** Running a sequence one move at a time. */
  lemma TrackFirst(n: nat, moves: seq<Move>, s: Tracked)
    requires n >= 1 && FaceMoves(moves) && Outside(n, s) && moves != []
    ensures FaceMoves(moves[1..])
    ensures Track(n, moves, s) == Track(n, moves[1..], Step(n, moves[0], s))
  {
    assert FaceMoves(moves[1..]) by {
      forall k | 0 <= k < |moves[1..]|
        ensures moves[1..][k] != z2
      {
        assert moves[1..][k] == moves[k + 1];
      }
    }
  }

  /** Three moves run one after another. */
  lemma TrackThree(n: nat, a: Move, b: Move, c: Move, s: Tracked)
    requires n >= 1 && a != z2 && b != z2 && c != z2 && Outside(n, s)
    ensures FaceMoves([a, b, c])
    ensures Track(n, [a, b, c], s) == Step(n, c, Step(n, b, Step(n, a, s)))
  {
    TrackFirst(n, [a, b, c], s);
    assert [a, b, c][1..] == [b, c];
    TrackFirst(n, [b, c], Step(n, a, s));
    assert [b, c][1..] == [c];
    TrackFirst(n, [c], Step(n, b, Step(n, a, s)));
    assert [c][1..] == [];
  }

  /** Four moves run one after another. */
  lemma TrackFour(n: nat, a: Move, b: Move, c: Move, d: Move, s: Tracked)
    requires n >= 1 && a != z2 && b != z2 && c != z2 && d != z2 && Outside(n, s)
    ensures FaceMoves([a, b, c, d])
    ensures Track(n, [a, b, c, d], s) == Step(n, d, Step(n, c, Step(n, b, Step(n, a, s))))
  {
    TrackFirst(n, [a, b, c, d], s);
    assert [a, b, c, d][1..] == [b, c, d];
    TrackThree(n, b, c, d, Step(n, a, s));
  }

  /** Seven moves run one after another. */
  lemma TrackSeven(n: nat, a: Move, b: Move, c: Move, d: Move, e: Move, f: Move, g: Move, s: Tracked)
    requires n >= 1 && a != z2 && b != z2 && c != z2 && d != z2 && e != z2 && f != z2 && g != z2
    requires Outside(n, s)
    ensures FaceMoves([a, b, c, d, e, f, g])
    ensures Track(n, [a, b, c, d, e, f, g], s)
      == Step(n, g, Step(n, f, Step(n, e, Step(n, d, Step(n, c, Step(n, b, Step(n, a, s)))))))
  {
    var moves := [a, b, c, d, e, f, g];
    var s1 := Step(n, a, s);
    var s2 := Step(n, b, s1);
    var s3 := Step(n, c, s2);
    TrackFirst(n, moves, s);
    assert moves[1..] == [b, c, d, e, f, g];
    TrackFirst(n, [b, c, d, e, f, g], s1);
    assert [b, c, d, e, f, g][1..] == [c, d, e, f, g];
    TrackFirst(n, [c, d, e, f, g], s2);
    assert [c, d, e, f, g][1..] == [d, e, f, g];
    TrackFour(n, d, e, f, g, s3);
  }

  /** Insertion through the back face above the left back bottom corner. */
  lemma InsertThroughBackAtLeftBack(n: nat, loc: Cubes.Location)
    requires n >= 2 && loc == Cubes.Location(0, n - 1, 0)
    ensures Track(n, InsertCornerToBottom(loc, Back), Tracked(loc, Back))
      == Tracked(Cubes.Location(loc.x, 0, loc.z), Bottom)
  {
    var m := n - 1;
    var s0 := Tracked(Cubes.Location(0, m, 0), Back);
    assert InsertCornerToBottom(loc, Back) == [B', U', B];
    TrackThree(n, B', U', B, s0);
    assert Step(n, B', s0) == Tracked(Cubes.Location(m, m, 0), Back);
    assert Step(n, U', Tracked(Cubes.Location(m, m, 0), Back)) == Tracked(Cubes.Location(0, m, 0), Left);
    assert Step(n, B, Tracked(Cubes.Location(0, m, 0), Left)) == Tracked(Cubes.Location(0, 0, 0), Bottom);
  }

  /** Insertion through the left face above the left back bottom corner. */
  lemma InsertThroughLeftAtLeftBack(n: nat, loc: Cubes.Location)
    requires n >= 2 && loc == Cubes.Location(0, n - 1, 0)
    ensures Track(n, InsertCornerToBottom(loc, Left), Tracked(loc, Left))
      == Tracked(Cubes.Location(loc.x, 0, loc.z), Bottom)
  {
    var m := n - 1;
    var s0 := Tracked(Cubes.Location(0, m, 0), Left);
    assert InsertCornerToBottom(loc, Left) == [L, U, L'];
    TrackThree(n, L, U, L', s0);
    assert Step(n, L, s0) == Tracked(Cubes.Location(0, m, m), Left);
    assert Step(n, U, Tracked(Cubes.Location(0, m, m), Left)) == Tracked(Cubes.Location(0, m, 0), Back);
    assert Step(n, L', Tracked(Cubes.Location(0, m, 0), Back)) == Tracked(Cubes.Location(0, 0, 0), Bottom);
  }

  /** The first three moves of the insertion from the top above the left back
      bottom corner: the sticker ends on a side face of another top corner. */
  lemma TopInsertionOpensAtLeftBack(n: nat)
    requires n >= 2
    ensures Step(n, L', Step(n, U2, Step(n, L, Tracked(Cubes.Location(0, n - 1, 0), Top))))
      == Tracked(Cubes.Location(n - 1, n - 1, 0), Back)
  {
    var m := n - 1;
    assert Step(n, L, Tracked(Cubes.Location(0, m, 0), Top)) == Tracked(Cubes.Location(0, m, m), Front);
    assert Step(n, U2, Tracked(Cubes.Location(0, m, m), Front)) == Tracked(Cubes.Location(m, m, 0), Back);
    assert Step(n, L', Tracked(Cubes.Location(m, m, 0), Back)) == Tracked(Cubes.Location(m, m, 0), Back);
  }

  /** The last four moves of the insertion from the top above the left back
      bottom corner: the sticker comes round and down to the bottom. */
  lemma TopInsertionClosesAtLeftBack(n: nat)
    requires n >= 2
    ensures Step(n, L', Step(n, U, Step(n, L, Step(n, U', Tracked(Cubes.Location(n - 1, n - 1, 0), Back)))))
      == Tracked(Cubes.Location(0, 0, 0), Bottom)
  {
    var m := n - 1;
    assert Step(n, U', Tracked(Cubes.Location(m, m, 0), Back)) == Tracked(Cubes.Location(0, m, 0), Left);
    assert Step(n, L, Tracked(Cubes.Location(0, m, 0), Left)) == Tracked(Cubes.Location(0, m, m), Left);
    assert Step(n, U, Tracked(Cubes.Location(0, m, m), Left)) == Tracked(Cubes.Location(0, m, 0), Back);
    assert Step(n, L', Tracked(Cubes.Location(0, m, 0), Back)) == Tracked(Cubes.Location(0, 0, 0), Bottom);
  }

  /** Insertion from the top face above the left back bottom corner. */
  lemma InsertFromTopAtLeftBack(n: nat, loc: Cubes.Location)
    requires n >= 2 && loc == Cubes.Location(0, n - 1, 0)
    ensures Track(n, InsertCornerToBottom(loc, Top), Tracked(loc, Top))
      == Tracked(Cubes.Location(loc.x, 0, loc.z), Bottom)
  {
    var moves := InsertCornerToBottom(loc, Top);
    assert moves == [L, U2, L', U', L, U, L'];
    TrackSeven(n, L, U2, L', U', L, U, L', Tracked(loc, Top));
    TopInsertionOpensAtLeftBack(n);
    TopInsertionClosesAtLeftBack(n);
  }

  /** Insertion through the back face above the right back bottom corner. */
  lemma InsertThroughBackAtRightBack(n: nat, loc: Cubes.Location)
    requires n >= 2 && loc == Cubes.Location(n - 1, n - 1, 0)
    ensures Track(n, InsertCornerToBottom(loc, Back), Tracked(loc, Back))
      == Tracked(Cubes.Location(loc.x, 0, loc.z), Bottom)
  {
    var m := n - 1;
    var s0 := Tracked(Cubes.Location(m, m, 0), Back);
    assert InsertCornerToBottom(loc, Back) == [B, U, B'];
    TrackThree(n, B, U, B', s0);
    assert Step(n, B, s0) == Tracked(Cubes.Location(0, m, 0), Back);
    assert Step(n, U, Tracked(Cubes.Location(0, m, 0), Back)) == Tracked(Cubes.Location(m, m, 0), Right);
    assert Step(n, B', Tracked(Cubes.Location(m, m, 0), Right)) == Tracked(Cubes.Location(m, 0, 0), Bottom);
  }

  /** Insertion through the right face above the right back bottom corner. */
  lemma InsertThroughRightAtRightBack(n: nat, loc: Cubes.Location)
    requires n >= 2 && loc == Cubes.Location(n - 1, n - 1, 0)
    ensures Track(n, InsertCornerToBottom(loc, Right), Tracked(loc, Right))
      == Tracked(Cubes.Location(loc.x, 0, loc.z), Bottom)
  {
    var m := n - 1;
    var s0 := Tracked(Cubes.Location(m, m, 0), Right);
    assert InsertCornerToBottom(loc, Right) == [R', U', R];
    TrackThree(n, R', U', R, s0);
    assert Step(n, R', s0) == Tracked(Cubes.Location(m, m, m), Right);
    assert Step(n, U', Tracked(Cubes.Location(m, m, m), Right)) == Tracked(Cubes.Location(m, m, 0), Back);
    assert Step(n, R, Tracked(Cubes.Location(m, m, 0), Back)) == Tracked(Cubes.Location(m, 0, 0), Bottom);
  }

  /** The first three moves of the insertion from the top above the right back
      bottom corner: the sticker ends on a side face of another top corner. */
  lemma TopInsertionOpensAtRightBack(n: nat)
    requires n >= 2
    ensures Step(n, R, Step(n, U2, Step(n, R', Tracked(Cubes.Location(n - 1, n - 1, 0), Top))))
      == Tracked(Cubes.Location(0, n - 1, 0), Back)
  {
    var m := n - 1;
    assert Step(n, R', Tracked(Cubes.Location(m, m, 0), Top)) == Tracked(Cubes.Location(m, m, m), Front);
    assert Step(n, U2, Tracked(Cubes.Location(m, m, m), Front)) == Tracked(Cubes.Location(0, m, 0), Back);
    assert Step(n, R, Tracked(Cubes.Location(0, m, 0), Back)) == Tracked(Cubes.Location(0, m, 0), Back);
  }

  /** The last four moves of the insertion from the top above the right back
      bottom corner: the sticker comes round and down to the bottom. */
  lemma TopInsertionClosesAtRightBack(n: nat)
    requires n >= 2
    ensures Step(n, R, Step(n, U', Step(n, R', Step(n, U, Tracked(Cubes.Location(0, n - 1, 0), Back)))))
      == Tracked(Cubes.Location(n - 1, 0, 0), Bottom)
  {
    var m := n - 1;
    assert Step(n, U, Tracked(Cubes.Location(0, m, 0), Back)) == Tracked(Cubes.Location(m, m, 0), Right);
    assert Step(n, R', Tracked(Cubes.Location(m, m, 0), Right)) == Tracked(Cubes.Location(m, m, m), Right);
    assert Step(n, U', Tracked(Cubes.Location(m, m, m), Right)) == Tracked(Cubes.Location(m, m, 0), Back);
    assert Step(n, R, Tracked(Cubes.Location(m, m, 0), Back)) == Tracked(Cubes.Location(m, 0, 0), Bottom);
  }

  /** Insertion from the top face above the right back bottom corner. */
  lemma InsertFromTopAtRightBack(n: nat, loc: Cubes.Location)
    requires n >= 2 && loc == Cubes.Location(n - 1, n - 1, 0)
    ensures Track(n, InsertCornerToBottom(loc, Top), Tracked(loc, Top))
      == Tracked(Cubes.Location(loc.x, 0, loc.z), Bottom)
  {
    var moves := InsertCornerToBottom(loc, Top);
    assert moves == [R', U2, R, U, R', U', R];
    TrackSeven(n, R', U2, R, U, R', U', R, Tracked(loc, Top));
    TopInsertionOpensAtRightBack(n);
    TopInsertionClosesAtRightBack(n);
  }

  /** Insertion through the front face above the right front bottom corner. */
  lemma InsertThroughFrontAtRightFront(n: nat, loc: Cubes.Location)
    requires n >= 2 && loc == Cubes.Location(n - 1, n - 1, n - 1)
    ensures Track(n, InsertCornerToBottom(loc, Front), Tracked(loc, Front))
      == Tracked(Cubes.Location(loc.x, 0, loc.z), Bottom)
  {
    var m := n - 1;
    var s0 := Tracked(Cubes.Location(m, m, m), Front);
    assert InsertCornerToBottom(loc, Front) == [F', U', F];
    TrackThree(n, F', U', F, s0);
    assert Step(n, F', s0) == Tracked(Cubes.Location(0, m, m), Front);
    assert Step(n, U', Tracked(Cubes.Location(0, m, m), Front)) == Tracked(Cubes.Location(m, m, m), Right);
    assert Step(n, F, Tracked(Cubes.Location(m, m, m), Right)) == Tracked(Cubes.Location(m, 0, m), Bottom);
  }

  /** Insertion through the right face above the right front bottom corner. */
  lemma InsertThroughRightAtRightFront(n: nat, loc: Cubes.Location)
    requires n >= 2 && loc == Cubes.Location(n - 1, n - 1, n - 1)
    ensures Track(n, InsertCornerToBottom(loc, Right), Tracked(loc, Right))
      == Tracked(Cubes.Location(loc.x, 0, loc.z), Bottom)
  {
    var m := n - 1;
    var s0 := Tracked(Cubes.Location(m, m, m), Right);
    assert InsertCornerToBottom(loc, Right) == [R, U, R'];
    TrackThree(n, R, U, R', s0);
    assert Step(n, R, s0) == Tracked(Cubes.Location(m, m, 0), Right);
    assert Step(n, U, Tracked(Cubes.Location(m, m, 0), Right)) == Tracked(Cubes.Location(m, m, m), Front);
    assert Step(n, R', Tracked(Cubes.Location(m, m, m), Front)) == Tracked(Cubes.Location(m, 0, m), Bottom);
  }

  /** The first three moves of the insertion from the top above the right front
      bottom corner: the sticker ends on a side face of another top corner. */
  lemma TopInsertionOpensAtRightFront(n: nat)
    requires n >= 2
    ensures Step(n, R', Step(n, U2, Step(n, R, Tracked(Cubes.Location(n - 1, n - 1, n - 1), Top))))
      == Tracked(Cubes.Location(0, n - 1, n - 1), Front)
  {
    var m := n - 1;
    assert Step(n, R, Tracked(Cubes.Location(m, m, m), Top)) == Tracked(Cubes.Location(m, m, 0), Back);
    assert Step(n, U2, Tracked(Cubes.Location(m, m, 0), Back)) == Tracked(Cubes.Location(0, m, m), Front);
    assert Step(n, R', Tracked(Cubes.Location(0, m, m), Front)) == Tracked(Cubes.Location(0, m, m), Front);
  }

  /** The last four moves of the insertion from the top above the right front
      bottom corner: the sticker comes round and down to the bottom. */
  lemma TopInsertionClosesAtRightFront(n: nat)
    requires n >= 2
    ensures Step(n, R', Step(n, U, Step(n, R, Step(n, U', Tracked(Cubes.Location(0, n - 1, n - 1), Front)))))
      == Tracked(Cubes.Location(n - 1, 0, n - 1), Bottom)
  {
    var m := n - 1;
    assert Step(n, U', Tracked(Cubes.Location(0, m, m), Front)) == Tracked(Cubes.Location(m, m, m), Right);
    assert Step(n, R, Tracked(Cubes.Location(m, m, m), Right)) == Tracked(Cubes.Location(m, m, 0), Right);
    assert Step(n, U, Tracked(Cubes.Location(m, m, 0), Right)) == Tracked(Cubes.Location(m, m, m), Front);
    assert Step(n, R', Tracked(Cubes.Location(m, m, m), Front)) == Tracked(Cubes.Location(m, 0, m), Bottom);
  }

  /** Insertion from the top face above the right front bottom corner. */
  lemma InsertFromTopAtRightFront(n: nat, loc: Cubes.Location)
    requires n >= 2 && loc == Cubes.Location(n - 1, n - 1, n - 1)
    ensures Track(n, InsertCornerToBottom(loc, Top), Tracked(loc, Top))
      == Tracked(Cubes.Location(loc.x, 0, loc.z), Bottom)
  {
    var moves := InsertCornerToBottom(loc, Top);
    assert moves == [R, U2, R', U', R, U, R'];
    TrackSeven(n, R, U2, R', U', R, U, R', Tracked(loc, Top));
    TopInsertionOpensAtRightFront(n);
    TopInsertionClosesAtRightFront(n);
  }

  /** Insertion through the front face above the left front bottom corner. */
  lemma InsertThroughFrontAtLeftFront(n: nat, loc: Cubes.Location)
    requires n >= 2 && loc == Cubes.Location(0, n - 1, n - 1)
    ensures Track(n, InsertCornerToBottom(loc, Front), Tracked(loc, Front))
      == Tracked(Cubes.Location(loc.x, 0, loc.z), Bottom)
  {
    var m := n - 1;
    var s0 := Tracked(Cubes.Location(0, m, m), Front);
    assert InsertCornerToBottom(loc, Front) == [F, U, F'];
    TrackThree(n, F, U, F', s0);
    assert Step(n, F, s0) == Tracked(Cubes.Location(m, m, m), Front);
    assert Step(n, U, Tracked(Cubes.Location(m, m, m), Front)) == Tracked(Cubes.Location(0, m, m), Left);
    assert Step(n, F', Tracked(Cubes.Location(0, m, m), Left)) == Tracked(Cubes.Location(0, 0, m), Bottom);
  }

  /** Insertion through the left face above the left front bottom corner. */
  lemma InsertThroughLeftAtLeftFront(n: nat, loc: Cubes.Location)
    requires n >= 2 && loc == Cubes.Location(0, n - 1, n - 1)
    ensures Track(n, InsertCornerToBottom(loc, Left), Tracked(loc, Left))
      == Tracked(Cubes.Location(loc.x, 0, loc.z), Bottom)
  {
    var m := n - 1;
    var s0 := Tracked(Cubes.Location(0, m, m), Left);
    assert InsertCornerToBottom(loc, Left) == [L', U', L];
    TrackThree(n, L', U', L, s0);
    assert Step(n, L', s0) == Tracked(Cubes.Location(0, m, 0), Left);
    assert Step(n, U', Tracked(Cubes.Location(0, m, 0), Left)) == Tracked(Cubes.Location(0, m, m), Front);
    assert Step(n, L, Tracked(Cubes.Location(0, m, m), Front)) == Tracked(Cubes.Location(0, 0, m), Bottom);
  }

  /** The first three moves of the insertion from the top above the left front
      bottom corner: the sticker ends on a side face of another top corner. */
  lemma TopInsertionOpensAtLeftFront(n: nat)
    requires n >= 2
    ensures Step(n, L, Step(n, U2, Step(n, L', Tracked(Cubes.Location(0, n - 1, n - 1), Top))))
      == Tracked(Cubes.Location(n - 1, n - 1, n - 1), Front)
  {
    var m := n - 1;
    assert Step(n, L', Tracked(Cubes.Location(0, m, m), Top)) == Tracked(Cubes.Location(0, m, 0), Back);
    assert Step(n, U2, Tracked(Cubes.Location(0, m, 0), Back)) == Tracked(Cubes.Location(m, m, m), Front);
    assert Step(n, L, Tracked(Cubes.Location(m, m, m), Front)) == Tracked(Cubes.Location(m, m, m), Front);
  }

  /** The last four moves of the insertion from the top above the left front
      bottom corner: the sticker comes round and down to the bottom. */
  lemma TopInsertionClosesAtLeftFront(n: nat)
    requires n >= 2
    ensures Step(n, L, Step(n, U', Step(n, L', Step(n, U, Tracked(Cubes.Location(n - 1, n - 1, n - 1), Front)))))
      == Tracked(Cubes.Location(0, 0, n - 1), Bottom)
  {
    var m := n - 1;
    assert Step(n, U, Tracked(Cubes.Location(m, m, m), Front)) == Tracked(Cubes.Location(0, m, m), Left);
    assert Step(n, L', Tracked(Cubes.Location(0, m, m), Left)) == Tracked(Cubes.Location(0, m, 0), Left);
    assert Step(n, U', Tracked(Cubes.Location(0, m, 0), Left)) == Tracked(Cubes.Location(0, m, m), Front);
    assert Step(n, L, Tracked(Cubes.Location(0, m, m), Front)) == Tracked(Cubes.Location(0, 0, m), Bottom);
  }

  /** Insertion from the top face above the left front bottom corner. */
  lemma InsertFromTopAtLeftFront(n: nat, loc: Cubes.Location)
    requires n >= 2 && loc == Cubes.Location(0, n - 1, n - 1)
    ensures Track(n, InsertCornerToBottom(loc, Top), Tracked(loc, Top))
      == Tracked(Cubes.Location(loc.x, 0, loc.z), Bottom)
  {
    var moves := InsertCornerToBottom(loc, Top);
    assert moves == [L', U2, L, U, L', U', L];
    TrackSeven(n, L', U2, L, U, L', U', L, Tracked(loc, Top));
    TopInsertionOpensAtLeftFront(n);
    TopInsertionClosesAtLeftFront(n);
  }

  /** The inserter takes a top corner into the cell below it with the
      tracked sticker, whichever allowed face it started on, on the bottom. */
  lemma InsertPlacesCorner(n: nat, loc: Cubes.Location, face: Face)
    requires n >= 2 && CornerColumn(n, loc) && loc.y == n - 1 && InsertFaceAllowed(loc, face)
    ensures Outside(n, Tracked(loc, face))
    ensures Track(n, InsertCornerToBottom(loc, face), Tracked(loc, face))
      == Tracked(Cubes.Location(loc.x, 0, loc.z), Bottom)
  {
    if loc.x == 0 && loc.z == 0 {
      if face == Top { InsertFromTopAtLeftBack(n, loc); }
      else if face == Back { InsertThroughBackAtLeftBack(n, loc); }
      else { InsertThroughLeftAtLeftBack(n, loc); }
    } else if loc.z == 0 {
      if face == Top { InsertFromTopAtRightBack(n, loc); }
      else if face == Back { InsertThroughBackAtRightBack(n, loc); }
      else { InsertThroughRightAtRightBack(n, loc); }
    } else if loc.x != 0 {
      if face == Top { InsertFromTopAtRightFront(n, loc); }
      else if face == Front { InsertThroughFrontAtRightFront(n, loc); }
      else { InsertThroughRightAtRightFront(n, loc); }
    } else {
      if face == Top { InsertFromTopAtLeftFront(n, loc); }
      else if face == Front { InsertThroughFrontAtLeftFront(n, loc); }
      else { InsertThroughLeftAtLeftFront(n, loc); }
    }
  }

  /** A top corner's sticker on an outer face shows on one of the faces the
      inserter handles. */
  lemma TopCornerFacesAreInsertable(n: nat, s: Tracked)
    requires n >= 2 && Outside(n, s) && CornerColumn(n, s.loc) && s.loc.y == n - 1
    ensures InsertFaceAllowed(s.loc, s.face)
  {
  }

  // ---------------------------------------------------------------------------
  // Placing one corner

  /** The moves that bring a corner above its destination: a lift when it is
      on the bottom layer, then the top turn. */
  function LiftAndAlign(n: nat, corner: Cubes.Location, dest: Cubes.Location): (r: seq<Move>)
    requires n >= 1 && (corner.y == 0 ==> CornerColumn(n, corner))
    ensures FaceMoves(r)
    ensures |r| <= 4 && (corner.y == 0 <==> |r| >= 3)
    ensures corner.y == 0 ==>
      var lift := MoveCornerToTop(n, corner);
      r[..3] == lift.moves && r[3..] == MoveCornerOnTopToPosition(lift.location, dest.x, dest.z)
    ensures corner.y != 0 ==> r == MoveCornerOnTopToPosition(corner, dest.x, dest.z)
  {
    var lift := if corner.y == 0 then MoveCornerToTop(n, corner) else Lift([], corner);
    FaceMovesConcat(lift.moves, MoveCornerOnTopToPosition(lift.location, dest.x, dest.z));
    lift.moves + MoveCornerOnTopToPosition(lift.location, dest.x, dest.z)
  }

  /** The moves placing one corner, from the answers to the solver's queries:
      `placed` says the corner already sits at its destination with the bottom
      colour down, `insertFace` is the face of the piece above the destination
      that shows the bottom colour. */
  function PlanCorner(n: nat, corner: Cubes.Location, dest: Cubes.Location, placed: bool, insertFace: Face): (r: seq<Move>)
    requires n >= 1
    requires !placed ==> (corner.y == 0 ==> CornerColumn(n, corner))
    requires !placed ==> InsertFaceAllowed(Cubes.Location(dest.x, n - 1, dest.z), insertFace)
    ensures FaceMoves(r)
    ensures r == [] <==> placed
    ensures !placed ==> 3 <= |r| <= 11
    ensures !placed ==>
      var ins := InsertCornerToBottom(Cubes.Location(dest.x, n - 1, dest.z), insertFace);
      |r| >= |ins| && r[|r| - |ins|..] == ins
    ensures !placed ==>
      r == LiftAndAlign(n, corner, dest) + InsertCornerToBottom(Cubes.Location(dest.x, n - 1, dest.z), insertFace)
  {
    if placed then []
    else
      var ins := InsertCornerToBottom(Cubes.Location(dest.x, n - 1, dest.z), insertFace);
      FaceMovesConcat(LiftAndAlign(n, corner, dest), ins);
      LiftAndAlign(n, corner, dest) + ins
  }

  /** A destination of the first layer: a bottom corner cell. */
  predicate BottomCorner(n: nat, dest: Cubes.Location)
  {
    CornerColumn(n, dest) && dest.y == 0
  }

  /** A corner cell on the top or bottom layer. */
  predicate CornerCell(n: nat, loc: Cubes.Location)
  {
    CornerColumn(n, loc) && (loc.y == 0 || loc.y == n - 1)
  }

  /** Lifting and aligning a corner sticker brings it above the destination,
      on a face the inserter handles. */
  lemma {:induction false} LiftAndAlignReachesSlot(n: nat, corner: Cubes.Location, f: Face, dest: Cubes.Location)
    requires n >= 2 && CornerCell(n, corner) && Outside(n, Tracked(corner, f)) && BottomCorner(n, dest)
    ensures Track(n, LiftAndAlign(n, corner, dest), Tracked(corner, f)).loc == Cubes.Location(dest.x, n - 1, dest.z)
    ensures InsertFaceAllowed(Cubes.Location(dest.x, n - 1, dest.z), Track(n, LiftAndAlign(n, corner, dest), Tracked(corner, f)).face)
  {
    var s0 := Tracked(corner, f);
    var lift := if corner.y == 0 then MoveCornerToTop(n, corner) else Lift([], corner);
    var align := MoveCornerOnTopToPosition(lift.location, dest.x, dest.z);
    if corner.y == 0 {
      LiftReachesReportedLocation(n, corner, f);
    }
    var s1 := Track(n, lift.moves, s0);
    assert s1.loc == lift.location;
    AlignReachesDestination(n, s1.loc, s1.face, dest.x, dest.z);
    TrackConcat(n, lift.moves, align, s0);
    var s2 := Track(n, align, s1);
    TopCornerFacesAreInsertable(n, s2);
  }

  /** The corner plan, with the insertion face read off the tracked sticker,
      leaves the corner at its destination with the sticker on the bottom; a
      corner already in place gets no moves. */
  lemma {:induction false} PlanCornerPlacesCorner(n: nat, corner: Cubes.Location, f: Face, dest: Cubes.Location)
    requires n >= 2 && CornerCell(n, corner) && Outside(n, Tracked(corner, f)) && BottomCorner(n, dest)
    ensures var placed := corner == dest && f == Bottom;
      var face := Track(n, LiftAndAlign(n, corner, dest), Tracked(corner, f)).face;
      && (!placed ==> InsertFaceAllowed(Cubes.Location(dest.x, n - 1, dest.z), face))
      && Track(n, PlanCorner(n, corner, dest, placed, face), Tracked(corner, f)) == Tracked(dest, Bottom)
  {
    var s0 := Tracked(corner, f);
    var placed := corner == dest && f == Bottom;
    LiftAndAlignReachesSlot(n, corner, f, dest);
    var pre := LiftAndAlign(n, corner, dest);
    var s2 := Track(n, pre, s0);
    if !placed {
      var above := Cubes.Location(dest.x, n - 1, dest.z);
      var ins := InsertCornerToBottom(above, s2.face);
      InsertPlacesCorner(n, above, s2.face);
      TrackConcat(n, pre, ins, s0);
      assert Tracked(above, s2.face) == s2;
      assert Cubes.Location(above.x, 0, above.z) == dest;
    }
  }

  // ---------------------------------------------------------------------------
  // The solver's entry points, reading the cube

  /** The cube's search for the cell of the piece with three given colours,
      supplied by the caller; its definition is not part of this model. */
  type Locator = (FaceColor, FaceColor, FaceColor) -> Option<Cubes.Location>

  /** The corner already sits at its destination with the bottom colour on
      its bottom face. */
  predicate CornerPlaced(c: Cubes.Cube, corner: Cubes.Location, dest: Cubes.Location, bottomColor: FaceColor)
    requires corner == dest ==> Cubes.GetPiece(c, dest.x, dest.y, dest.z).Some?
  {
    corner == dest && Get(Cubes.GetPiece(c, dest.x, dest.y, dest.z).value, Bottom) == bottomColor
  }

  /** Every query placing one corner succeeds and no unreachable branch is
      taken: a bottom corner is in a corner column, and the piece above the
      destination shows the bottom colour on a face the inserter handles. */
  predicate SolveCornerDefined(c: Cubes.Cube, corner: Cubes.Location, dest: Cubes.Location, bottomColor: FaceColor)
  {
    var n := Cubes.GetSize(c);
    n >= 1
    && (corner == dest ==> Cubes.GetPiece(c, dest.x, dest.y, dest.z).Some?)
    && (!CornerPlaced(c, corner, dest, bottomColor) ==>
          (corner.y == 0 ==> CornerColumn(n, corner))
          && match Cubes.GetPiece(c, dest.x, n - 1, dest.z)
             case Some(above) => InsertFaceAllowed(Cubes.Location(dest.x, n - 1, dest.z), GetFaceByColor(above, bottomColor))
             case None => false)
  }

  /** The insertion into `dest` of an `n`-layer cube, for the piece `above`
      it: the one for the face on which that piece shows the bottom colour. */
  function Insertion(n: nat, dest: Cubes.Location, above: PieceColors, bottomColor: FaceColor): (r: seq<Move>)
    requires n >= 1 && InsertFaceAllowed(Cubes.Location(dest.x, n - 1, dest.z), GetFaceByColor(above, bottomColor))
    ensures FaceMoves(r) && 3 <= |r| <= 7
  {
    InsertCornerToBottom(Cubes.Location(dest.x, n - 1, dest.z), GetFaceByColor(above, bottomColor))
  }

  /** Places one corner, found at `corner` by the colour search. The turns do
      not move pieces, so every query reads the cube as it was: the insertion
      face is read from the piece the cube holds above the destination. */
  function SolveCorner(c: Cubes.Cube, corner: Cubes.Location, dest: Cubes.Location, bottomColor: FaceColor): (r: seq<Move>)
    requires SolveCornerDefined(c, corner, dest, bottomColor)
    ensures FaceMoves(r) && |r| <= 11
    ensures r == [] <==> CornerPlaced(c, corner, dest, bottomColor)
    ensures !CornerPlaced(c, corner, dest, bottomColor) ==>
      var n := Cubes.GetSize(c);
      var above := Cubes.GetPiece(c, dest.x, n - 1, dest.z).value;
      r == LiftAndAlign(n, corner, dest) + Insertion(n, dest, above, bottomColor)
      && r == PlanCorner(n, corner, dest, false, GetFaceByColor(above, bottomColor))
  {
    var n := Cubes.GetSize(c);
    if CornerPlaced(c, corner, dest, bottomColor) then []
    else PlanCorner(n, corner, dest, false, GetFaceByColor(Cubes.GetPiece(c, dest.x, n - 1, dest.z).value, bottomColor))
  }


  /** The four first-layer corners of a 2×2×2 cube, by colours, and their
      destinations: all White-bottomed, around the bottom layer. */
  function FirstLayerColors(k: nat): (r: (FaceColor, FaceColor, FaceColor))
    requires k < 4
    ensures r.0 == White && (r.1 == Red || r.1 == Orange) && (r.2 == Green || r.2 == Blue)
  {
    [(White, Red, Green), (White, Orange, Green), (White, Orange, Blue), (White, Red, Blue)][k]
  }

  function FirstLayerDest(last: nat, k: nat): (d: Cubes.Location)
    requires k < 4
    ensures d.y == 0 && (d.x == 0 || d.x == last) && (d.z == 0 || d.z == last)
    ensures forall j :: 0 <= j < k && last > 0 ==> FirstLayerDest(last, j) != d
  {
    [Cubes.Location(0, 0, last), Cubes.Location(last, 0, last), Cubes.Location(last, 0, 0), Cubes.Location(0, 0, 0)][k]
  }

  /** Each destination is the cell where the corner of those colours sits on
      the constructor's cube (with Blue at the back) once that cube is turned
      upside down about the front-back axis: the cell (N-1-x, N-1, z) of the
      painted cube carries White on top, the second colour on the side face
      that the half turn brings to x, the third on the face at z. */
  lemma FirstLayerDestIsHomeTurnedOver(n: nat, k: nat)
    requires n >= 2 && k < 4
    ensures var d := FirstLayerDest(n - 1, k);
      var p := Cubes.Paint(n, n - 1 - d.x, n - 1, d.z, Cubes.BackColor);
      && Get(p, Top) == FirstLayerColors(k).0
      && (d.x == 0 ==> Get(p, Right) == FirstLayerColors(k).1)
      && (d.x == n - 1 ==> Get(p, Left) == FirstLayerColors(k).1)
      && (d.z == n - 1 ==> Get(p, Front) == FirstLayerColors(k).2)
      && (d.z == 0 ==> Get(p, Back) == FirstLayerColors(k).2)
  {
  }

  /** On a freshly built cube no first-layer corner counts as placed: the
      bottom layer shows Yellow underneath, not White. */
  lemma FreshCubeHasNoPlacedCorner(n: nat, back: FaceColor, corner: Cubes.Location, k: nat)
    requires n >= 1 && k < 4
    ensures var d := FirstLayerDest(n - 1, k);
      Cubes.GetPiece(Cubes.NewCube(n, back), d.x, d.y, d.z).Some?
    ensures !CornerPlaced(Cubes.NewCube(n, back), corner, FirstLayerDest(n - 1, k), White)
  {
    var d := FirstLayerDest(n - 1, k);
    Cubes.NewCubeLayout(n, back, d.x, d.y, d.z);
  }

  /** Where the colour search finds corner `k` of the first layer. */
  function FirstLayerFound(locate: Locator, k: nat): Option<Cubes.Location>
    requires k < 4
  {
    locate(FirstLayerColors(k).0, FirstLayerColors(k).1, FirstLayerColors(k).2)
  }

  predicate Solve2x2Defined(c: Cubes.Cube, locate: Locator)
  {
    Cubes.GetSize(c) >= 1
    && forall k :: 0 <= k < 4 ==>
      FirstLayerFound(locate, k).Some?
      && SolveCornerDefined(c, FirstLayerFound(locate, k).value, FirstLayerDest(Cubes.GetSize(c) - 1, k), White)
  }

  /** The moves for corner `k` of the first layer. */
  function FirstLayerCorner(c: Cubes.Cube, locate: Locator, k: nat): (r: seq<Move>)
    requires k < 4 && Solve2x2Defined(c, locate)
    ensures FaceMoves(r) && |r| <= 11
    ensures r == [] <==> CornerPlaced(c, FirstLayerFound(locate, k).value, FirstLayerDest(Cubes.GetSize(c) - 1, k), White)
    ensures r == SolveCorner(c, FirstLayerFound(locate, k).value, FirstLayerDest(Cubes.GetSize(c) - 1, k), White)
  {
    SolveCorner(c, FirstLayerFound(locate, k).value, FirstLayerDest(Cubes.GetSize(c) - 1, k), White)
  }

  /** The 2×2×2 solve: the four first-layer corners in turn. Nothing is issued
      exactly when all four are already placed. */
  function Solve2x2(c: Cubes.Cube, locate: Locator): (r: seq<Move>)
    requires Solve2x2Defined(c, locate)
    ensures FaceMoves(r) && |r| <= 44
    ensures r == [] <==> (FirstLayerCorner(c, locate, 0) == [] && FirstLayerCorner(c, locate, 1) == []
                          && FirstLayerCorner(c, locate, 2) == [] && FirstLayerCorner(c, locate, 3) == [])
    ensures r == FirstLayerCorner(c, locate, 0) + FirstLayerCorner(c, locate, 1)
      + FirstLayerCorner(c, locate, 2) + FirstLayerCorner(c, locate, 3)
  {
    var a, b, d, e := FirstLayerCorner(c, locate, 0), FirstLayerCorner(c, locate, 1),
      FirstLayerCorner(c, locate, 2), FirstLayerCorner(c, locate, 3);
    FaceMovesConcat(a, b);
    FaceMovesConcat(a + b, d);
    FaceMovesConcat(a + b + d, e);
    a + b + d + e
  }

  /** The solver's entry point: nothing for a solved cube or a size other
      than 2 and 3; the 2×2×2 solve; for 3×3×3 only the whole-cube turn the
      solver starts with. Whether the cube is solved is supplied. */
  function Solve(c: Cubes.Cube, solved: bool, locate: Locator): (r: seq<Move>)
    requires !solved && Cubes.GetSize(c) == 2 ==> Solve2x2Defined(c, locate)
    ensures solved || (Cubes.GetSize(c) != 2 && Cubes.GetSize(c) != 3) ==> r == []
    ensures !solved && Cubes.GetSize(c) == 3 ==> r == [z2]
    ensures !solved && Cubes.GetSize(c) == 2 ==> r == Solve2x2(c, locate) && FaceMoves(r) && |r| <= 44
  {
    if solved then []
    else if Cubes.GetSize(c) == 2 then Solve2x2(c, locate)
    else if Cubes.GetSize(c) == 3 then [z2]
    else []
  }
}
