/**
 The sticker colours of one piece and the table that relabels them when the
 piece turns about one of the three axes.
 */
module Pieces {
  import opened Faces

  /** Six colours indexed by `Slot`. */
  type Colors = s: seq<FaceColor> | |s| == 6
    witness [FaceColor.None, FaceColor.None, FaceColor.None, FaceColor.None, FaceColor.None, FaceColor.None]

  datatype PieceColors = PieceColors(colors: Colors)

  /** The relabelling table: `TransitionTable[i][axis][0]` is the face that the
      sticker on face `FaceAt(i)` moves to on a clockwise turn, `[1]` on a
      counterclockwise one. */
  const TransitionTable: seq<seq<seq<Face>>> := [
    // top
    [[Top, Top], [Back, Front], [Right, Left]],
    // front
    [[Left, Right], [Top, Bottom], [Front, Front]],
    // right
    [[Front, Back], [Right, Right], [Bottom, Top]],
    // back
    [[Right, Left], [Bottom, Top], [Back, Back]],
    // left
    [[Back, Front], [Left, Left], [Top, Bottom]],
    // bottom
    [[Bottom, Bottom], [Front, Back], [Left, Right]]
  ]

  /** The face that the sticker on face `FaceAt(i)` moves to. */
  function Destination(i: nat, d: Direction, clockwise: bool): (f: Face)
    requires i < 6
    ensures f != Face.None
  {
    TransitionTable[i][AxisIndex(d)][if clockwise then 0 else 1]
  }

  /** The slot that the sticker in slot `i` moves to. */
  function Dest(i: nat, d: Direction, clockwise: bool): (j: nat)
    requires i < 6
    ensures j < 6
  {
    Slot(Destination(i, d, clockwise))
  }

  /** The clockwise and counterclockwise columns of every axis undo each other. */
  lemma ColumnsAreMutuallyInverse()
    ensures forall i: nat, d, clockwise :: i < 6 ==> Dest(Dest(i, d, clockwise), d, !clockwise) == i
  {
    forall i: nat, d, clockwise | i < 6
      ensures Dest(Dest(i, d, clockwise), d, !clockwise) == i
    {
      assert i in {0, 1, 2, 3, 4, 5};
    }
  }

  /** Every column of the table sends the six faces to six distinct faces. */
  lemma ColumnsArePermutations(d: Direction, clockwise: bool, i: nat, k: nat)
    requires i < 6 && k < 6 && i != k
    ensures Destination(i, d, clockwise) != Destination(k, d, clockwise)
  {
    ColumnsAreMutuallyInverse();
    assert Dest(Dest(i, d, clockwise), d, !clockwise) == i;
    assert Dest(Dest(k, d, clockwise), d, !clockwise) == k;
  }

  /** The colours after the piece turns: the sticker on slot `i` ends on slot
      `Dest(i, d, clockwise)`. */
  function Rotate(p: PieceColors, d: Direction, clockwise: bool): (r: PieceColors)
    ensures forall i: nat :: i < 6 ==> r.colors[Dest(i, d, clockwise)] == p.colors[i]
  {
    ColumnsAreMutuallyInverse();
    PieceColors(seq(6, j requires 0 <= j < 6 => p.colors[Dest(j, d, !clockwise)]))
  }

  /** The table-driven scatter of the source: each old colour is written to the
      slot its face moves to. */
  method HandleRotation(p: PieceColors, d: Direction, clockwise: bool) returns (r: PieceColors)
    ensures forall i: nat :: i < 6 ==> r.colors[Dest(i, d, clockwise)] == p.colors[i]
    ensures r == Rotate(p, d, clockwise)
  {
    ColumnsAreMutuallyInverse();
    // The source starts from an uninitialised array; every slot is overwritten.
    var next: seq<FaceColor> := p.colors;
    for i := 0 to 6
      invariant |next| == 6
      invariant forall k: nat :: k < i ==> next[Dest(k, d, clockwise)] == p.colors[k]
    {
      next := next[Dest(i, d, clockwise) := p.colors[i]];
    }
    r := PieceColors(next);
    var spec := Rotate(p, d, clockwise);
    forall j | 0 <= j < 6
      ensures r.colors[j] == spec.colors[j]
    {
      var i := Dest(j, d, !clockwise);
      assert Dest(i, d, clockwise) == j;
    }
  }

  /** Reading face `f` (the const `operator[]`). */
  function Get(p: PieceColors, f: Face): (c: FaceColor)
    requires f != Face.None
    ensures c == p.colors[Slot(f)]
  {
    p.colors[Slot(f)]
  }

  /** Writing face `f` through the non-const `operator[]`. */
  function Set(p: PieceColors, f: Face, c: FaceColor): (r: PieceColors)
    requires f != Face.None
    ensures Get(r, f) == c
    ensures forall g :: g != Face.None && g != f ==> Get(r, g) == Get(p, g)
  {
    PieceColors(p.colors[Slot(f) := c])
  }

  /** The default constructor. */
  function Default(): (p: PieceColors)
    ensures forall f :: f != Face.None ==> Get(p, f) == FaceColor.None
  {
    PieceColors([FaceColor.None, FaceColor.None, FaceColor.None, FaceColor.None, FaceColor.None, FaceColor.None])
  }

  /** The array constructor: face `f` reads the array's entry at `Slot(f)`, and
      `GetColors` returns the array itself. */
  function FromArray(a: Colors): (p: PieceColors)
    ensures forall f :: f != Face.None ==> Get(p, f) == a[Slot(f)]
    ensures GetColors(p) == a
  {
    PieceColors(a)
  }

  /** The six colours in slot order: entry `Slot(f)` is what face `f` reads. */
  function GetColors(p: PieceColors): (a: Colors)
    ensures forall f :: f != Face.None ==> a[Slot(f)] == Get(p, f)
  {
    p.colors
  }

  /** The first face, from slot `i` on, that shows colour `c`. */
  function FirstFaceFrom(p: PieceColors, c: FaceColor, i: nat): (f: Face)
    requires i <= 6
    ensures f == Face.None <==> c !in p.colors[i..]
    ensures f != Face.None ==>
      i <= Slot(f) && p.colors[Slot(f)] == c && forall j :: i <= j < Slot(f) ==> p.colors[j] != c
    decreases 6 - i
  {
    if i == 6 then Face.None
    else if p.colors[i] == c then FaceAt(i)
    else
      assert p.colors[i..] == [p.colors[i]] + p.colors[i + 1..];
      FirstFaceFrom(p, c, i + 1)
  }

  /** The lowest-slot face that shows colour `c`, or `None` if no face does. */
  function GetFaceByColor(p: PieceColors, c: FaceColor): (f: Face)
    ensures f == Face.None <==> c !in p.colors
    ensures f != Face.None ==> Get(p, f) == c
    ensures f != Face.None ==> forall g :: g != Face.None && Slot(g) < Slot(f) ==> Get(p, g) != c
  {
    assert p.colors[0..] == p.colors;
    FirstFaceFrom(p, c, 0)
  }

  /** Turning clockwise and then counterclockwise about the same axis, or the
      other way round, restores the colours. */
  lemma RotateUndo(p: PieceColors, d: Direction, clockwise: bool)
    ensures Rotate(Rotate(p, d, clockwise), d, !clockwise) == p
  {
    var r := Rotate(Rotate(p, d, clockwise), d, !clockwise);
    forall j | 0 <= j < 6
      ensures r.colors[j] == p.colors[j]
    {
      ColumnsAreMutuallyInverse();
      assert Dest(Dest(j, d, clockwise), d, !clockwise) == j;
    }
  }

  /** Applying one column four times is the identity on slots. */
  lemma DestOrderFour(i: nat, d: Direction, clockwise: bool)
    requires i < 6
    ensures Dest(Dest(Dest(Dest(i, d, clockwise), d, clockwise), d, clockwise), d, clockwise) == i
  {
    if i == 0 {} else if i == 1 {} else if i == 2 {} else if i == 3 {} else if i == 4 {} else {}
  }

  /** Applying the clockwise column twice equals applying the counterclockwise one twice. */
  lemma DestHalfTurn(i: nat, d: Direction)
    requires i < 6
    ensures Dest(Dest(i, d, true), d, true) == Dest(Dest(i, d, false), d, false)
  {
    if i == 0 {} else if i == 1 {} else if i == 2 {} else if i == 3 {} else if i == 4 {} else {}
  }

  /** Slot `j` after a turn holds the colour gathered through the opposite column. */
  lemma RotateAt(p: PieceColors, d: Direction, clockwise: bool, j: nat)
    requires j < 6
    ensures Rotate(p, d, clockwise).colors[j] == p.colors[Dest(j, d, !clockwise)]
  {
  }

  /** Four quarter turns in the same sense restore the colours. */
  lemma RotateOrderFour(p: PieceColors, d: Direction, clockwise: bool)
    ensures Rotate(Rotate(Rotate(Rotate(p, d, clockwise), d, clockwise), d, clockwise), d, clockwise) == p
  {
    var p1 := Rotate(p, d, clockwise);
    var p2 := Rotate(p1, d, clockwise);
    var p3 := Rotate(p2, d, clockwise);
    var p4 := Rotate(p3, d, clockwise);
    forall j | 0 <= j < 6
      ensures p4.colors[j] == p.colors[j]
    {
      var j1 := Dest(j, d, !clockwise);
      var j2 := Dest(j1, d, !clockwise);
      var j3 := Dest(j2, d, !clockwise);
      DestOrderFour(j, d, !clockwise);
      RotateAt(p3, d, clockwise, j);
      RotateAt(p2, d, clockwise, j1);
      RotateAt(p1, d, clockwise, j2);
      RotateAt(p, d, clockwise, j3);
    }
  }

  /** A half turn is the same whichever sense its two quarter turns take. */
  lemma HalfTurnEitherWay(p: PieceColors, d: Direction)
    ensures Rotate(Rotate(p, d, true), d, true) == Rotate(Rotate(p, d, false), d, false)
  {
    var cw, ccw := Rotate(p, d, true), Rotate(p, d, false);
    var a, b := Rotate(cw, d, true), Rotate(ccw, d, false);
    forall j | 0 <= j < 6
      ensures a.colors[j] == b.colors[j]
    {
      DestHalfTurn(j, d);
      RotateAt(cw, d, true, j);
      RotateAt(p, d, true, Dest(j, d, false));
      RotateAt(ccw, d, false, j);
      RotateAt(p, d, false, Dest(j, d, true));
    }
  }

  /** Each axis leaves the two faces it turns about in place. */
  lemma RotateKeepsAxisFaces(p: PieceColors, d: Direction, clockwise: bool)
    ensures d == Horizontal ==>
      Get(Rotate(p, d, clockwise), Top) == Get(p, Top) && Get(Rotate(p, d, clockwise), Bottom) == Get(p, Bottom)
    ensures d == Vertical ==>
      Get(Rotate(p, d, clockwise), Right) == Get(p, Right) && Get(Rotate(p, d, clockwise), Left) == Get(p, Left)
    ensures d == Depthical ==>
      Get(Rotate(p, d, clockwise), Front) == Get(p, Front) && Get(Rotate(p, d, clockwise), Back) == Get(p, Back)
  {
    match d
    case Horizontal =>
      RotateAt(p, d, clockwise, 0);
      RotateAt(p, d, clockwise, 5);
    case Vertical =>
      RotateAt(p, d, clockwise, 2);
      RotateAt(p, d, clockwise, 4);
    case Depthical =>
      RotateAt(p, d, clockwise, 1);
      RotateAt(p, d, clockwise, 3);
  }

  /** A clockwise horizontal turn sends Front to Left, Right to Front, Back to
      Right and Left to Back. */
  lemma HorizontalClockwiseCycle(p: PieceColors)
    ensures Get(Rotate(p, Horizontal, true), Left) == Get(p, Front)
    ensures Get(Rotate(p, Horizontal, true), Front) == Get(p, Right)
    ensures Get(Rotate(p, Horizontal, true), Right) == Get(p, Back)
    ensures Get(Rotate(p, Horizontal, true), Back) == Get(p, Left)
  {
    var r := Rotate(p, Horizontal, true);
    assert r.colors[Dest(1, Horizontal, true)] == p.colors[1];
    assert r.colors[Dest(2, Horizontal, true)] == p.colors[2];
    assert r.colors[Dest(3, Horizontal, true)] == p.colors[3];
    assert r.colors[Dest(4, Horizontal, true)] == p.colors[4];
  }

  /** The multiset of six colours as a sum of singletons. */
  lemma SixColourBag(c: Colors)
    ensures multiset(c) == multiset{c[0]} + multiset{c[1]} + multiset{c[2]} + multiset{c[3]} + multiset{c[4]} + multiset{c[5]}
  {
    assert c == [c[0]] + [c[1]] + [c[2]] + [c[3]] + [c[4]] + [c[5]];
  }

  /** Gathering six colours through a permutation of the slots keeps their multiset. */
  lemma GatherKeepsColours(c: Colors, r: Colors, a: nat, b: nat, e: nat, f: nat, g: nat, h: nat)
    requires [a, b, e, f, g, h] in {[0, 2, 3, 4, 1, 5], [0, 4, 1, 2, 3, 5], [1, 5, 2, 0, 4, 3],
                                    [3, 0, 2, 5, 4, 1], [4, 1, 0, 3, 5, 2], [2, 1, 5, 3, 0, 4]}
    requires r == [c[a], c[b], c[e], c[f], c[g], c[h]]
    ensures multiset(r) == multiset(c)
  {
    SixColourBag(c);
    SixColourBag(r);
  }

  /** A turn only moves stickers around: the multiset of colours is kept. */
  lemma RotateKeepsColours(p: PieceColors, d: Direction, clockwise: bool)
    ensures multiset(Rotate(p, d, clockwise).colors) == multiset(p.colors)
  {
    var c := p.colors;
    var r := Rotate(p, d, clockwise).colors;
    var s := [Dest(0, d, !clockwise), Dest(1, d, !clockwise), Dest(2, d, !clockwise),
              Dest(3, d, !clockwise), Dest(4, d, !clockwise), Dest(5, d, !clockwise)];
    assert s in {[0, 2, 3, 4, 1, 5], [0, 4, 1, 2, 3, 5], [1, 5, 2, 0, 4, 3],
                 [3, 0, 2, 5, 4, 1], [4, 1, 0, 3, 5, 2], [2, 1, 5, 3, 0, 4]} by {
      match d
      case Horizontal =>
      case Vertical =>
      case Depthical =>
    }
    assert r == [c[s[0]], c[s[1]], c[s[2]], c[s[3]], c[s[4]], c[s[5]]];
    GatherKeepsColours(c, r, s[0], s[1], s[2], s[3], s[4], s[5]);
  }
}
