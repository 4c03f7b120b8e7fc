/**
 Patterns of descriptors sampled around the top layer's border ring, the
 letter encoding of the static case tables, and the rotation matcher.
 */
module Patterns {
  import opened Faces
  import opened Pieces
  import opened Options
  import Cubes

  /** What one ring position records: orientation descriptors for OLL
      patterns, relational descriptors for PLL patterns. */
  datatype Descriptor = DontCare | BaseColor | Same | LeftNeighbor | RightNeighbor | Opposite

  /** A pattern: the cube size it was made for and its descriptors. The
      letter constructor derives the size from the text length, so the two
      need not agree. */
  datatype ColorPattern = ColorPattern(cubeSize: nat, colors: seq<Descriptor>)

  /** The vector constructor: the descriptors are kept as given and the cube
      size is a quarter of their count, rounded down. */
  function FromDescriptors(v: seq<Descriptor>): (p: ColorPattern)
    ensures p.colors == v
    ensures 4 * p.cubeSize <= |v| < 4 * p.cubeSize + 4
  {
    ColorPattern(|v| / 4, v)
  }

  /** Equal sizes do not mean equal lengths: 8 and 11 descriptors both give size 2. */
  lemma SizeDoesNotFixLength()
    ensures FromDescriptors(seq(8, _ => Same)).cubeSize == FromDescriptors(seq(11, _ => Same)).cubeSize
  {
  }

  // ---------------------------------------------------------------------------
  // Letter encoding

  /** The descriptor a table letter stands for; other characters stand for nothing. */
  function DescriptorOfLetter(ch: char): (r: Option<Descriptor>)
    ensures r.Some? <==> ch in "DBSLRO"
    ensures r.Some? ==> Letter(r.value) == ch
  {
    match ch
    case 'D' => Some(DontCare)
    case 'B' => Some(BaseColor)
    case 'S' => Some(Same)
    case 'L' => Some(LeftNeighbor)
    case 'R' => Some(RightNeighbor)
    case 'O' => Some(Opposite)
    case _ => Option.None
  }

  /** The letter that encodes a descriptor. */
  function Letter(d: Descriptor): char
  {
    match d
    case DontCare => 'D'
    case BaseColor => 'B'
    case Same => 'S'
    case LeftNeighbor => 'L'
    case RightNeighbor => 'R'
    case Opposite => 'O'
  }

  /** Letters and descriptors correspond one to one. */
  lemma LetterBijection(d: Descriptor, ch: char)
    ensures DescriptorOfLetter(Letter(d)) == Some(d)
    ensures DescriptorOfLetter(ch) == Some(d) ==> Letter(d) == ch
  {
  }

  /** Every character of `s` is one of the six table letters. */
  predicate AllLetters(s: string)
  {
    forall k :: 0 <= k < |s| ==> DescriptorOfLetter(s[k]).Some?
  }

  /** The descriptors of the alphabet letters of `s`, in order; other
      characters are skipped. */
  function Letters(s: string): (v: seq<Descriptor>)
    ensures |v| <= |s|
    ensures AllLetters(s) ==> |v| == |s| && forall k :: 0 <= k < |s| ==> v[k] == DescriptorOfLetter(s[k]).value
  {
    if s == [] then []
    else
      var rest := Letters(s[1..]);
      assert forall k :: 1 <= k < |s| ==> s[1..][k - 1] == s[k];
      match DescriptorOfLetter(s[0])
      case Some(d) => [d] + rest
      case None => rest
  }

  /** The string constructor: the cube size comes from the text length,
      even when characters outside the alphabet are skipped. */
  function Parse(s: string): (p: ColorPattern)
    ensures p.cubeSize == |s| / 4 && |p.colors| <= |s|
    ensures AllLetters(s) ==>
      |p.colors| == |s| && forall k :: 0 <= k < |s| ==> p.colors[k] == DescriptorOfLetter(s[k]).value
  {
    ColorPattern(|s| / 4, Letters(s))
  }

  /** Reading a text in two parts reads each part in turn. */
  lemma {:induction false} LettersConcat(a: string, b: string)
    ensures Letters(a + b) == Letters(a) + Letters(b)
    decreases |a|
  {
    if a == [] {
      assert a + b == b;
    } else {
      assert (a + b)[0] == a[0];
      assert (a + b)[1..] == a[1..] + b;
      LettersConcat(a[1..], b);
      match DescriptorOfLetter(a[0])
      case Some(d) =>
        assert Letters(a + b) == [d] + Letters(a[1..] + b);
        assert Letters(a) == [d] + Letters(a[1..]);
      case None =>
        assert Letters(a + b) == Letters(a[1..] + b);
        assert Letters(a) == Letters(a[1..]);
    }
  }

  /** A character outside the alphabet adds no descriptor wherever it stands,
      though it still counts towards the size. */
  lemma ParseSkipsOtherCharacters(a: string, ch: char, b: string)
    requires DescriptorOfLetter(ch) == Option.None
    ensures Parse(a + [ch] + b).colors == Parse(a + b).colors
    ensures Parse(a + [ch] + b).cubeSize == (|a| + |b| + 1) / 4
  {
    LettersConcat(a + [ch], b);
    LettersConcat(a, [ch]);
    LettersConcat(a, b);
    assert Letters([ch]) == [] by {
      assert [ch][0] == ch && [ch][1..] == [];
    }
  }

  /** Writes descriptors as table letters. */
  function Render(v: seq<Descriptor>): (s: string)
    ensures |s| == |v|
  {
    if v == [] then [] else [Letter(v[0])] + Render(v[1..])
  }

  lemma {:induction false} LettersOfRender(v: seq<Descriptor>)
    ensures Letters(Render(v)) == v
    decreases |v|
  {
    if v != [] {
      var s := Render(v);
      assert s[1..] == Render(v[1..]);
      LettersOfRender(v[1..]);
      LetterBijection(v[0], s[0]);
      assert v == [v[0]] + v[1..];
    }
  }

  /** Parsing the letters of a descriptor sequence gives the pattern the
      vector constructor builds from it. */
  lemma ParseRender(v: seq<Descriptor>)
    ensures Parse(Render(v)) == FromDescriptors(v)
  {
    LettersOfRender(v);
  }

  // ---------------------------------------------------------------------------
  // Matching

  /** Rotation `i` of `q`, the ring read from position N·i on, agrees with `p`
      at every position. */
  predicate RotationMatches(p: ColorPattern, q: ColorPattern, i: nat)
    requires |p.colors| <= |q.colors|
  {
    forall j :: 0 <= j < |p.colors| ==> p.colors[j] == q.colors[RotatedIndex(p, i, j)]
  }

  /** The position of `q` compared with position `j` of `p` at rotation `i`. */
  function RotatedIndex(p: ColorPattern, i: nat, j: nat): (k: nat)
    requires j < |p.colors|
    ensures k < |p.colors|
  {
    (p.cubeSize * i + j) % |p.colors|
  }

  /** The inner comparison loop, from position `j` on. */
  function AgreesFrom(p: ColorPattern, q: ColorPattern, i: nat, j: nat): (b: bool)
    requires |p.colors| <= |q.colors| && j <= |p.colors|
    ensures b <==> forall t :: j <= t < |p.colors| ==> p.colors[t] == q.colors[RotatedIndex(p, i, t)]
    decreases |p.colors| - j
  {
    j == |p.colors| || (p.colors[j] == q.colors[RotatedIndex(p, i, j)] && AgreesFrom(p, q, i, j + 1))
  }

  /** The outer loop over rotations `i`, `i + 1`, …, 3; 5 when none agrees. */
  function FirstRotationFrom(p: ColorPattern, q: ColorPattern, i: nat): (r: nat)
    requires |p.colors| <= |q.colors| && i <= 4
    ensures r == 5 || i <= r < 4
    ensures r < 4 ==> RotationMatches(p, q, r)
    ensures forall k :: i <= k < 4 && k < r ==> !RotationMatches(p, q, k)
    decreases 4 - i
  {
    if i == 4 then 5
    else if AgreesFrom(p, q, i, 0) then i
    else FirstRotationFrom(p, q, i + 1)
  }

  /** How many quarter turns of the top layer make `q` read like `p`: the
      least such count below 4, 5 when there is none, and 0 when the cube
      sizes differ. Positions are compared by plain equality. */
  function Match(p: ColorPattern, q: ColorPattern): (r: nat)
    requires p.cubeSize == q.cubeSize ==> |p.colors| <= |q.colors|
    ensures r == 0 || r == 1 || r == 2 || r == 3 || r == 5
    ensures p.cubeSize != q.cubeSize ==> r == 0
    ensures p.cubeSize == q.cubeSize && r < 4 ==> RotationMatches(p, q, r)
    ensures p.cubeSize == q.cubeSize ==> forall k :: 0 <= k < 4 && k < r ==> !RotationMatches(p, q, k)
  {
    if p.cubeSize != q.cubeSize then 0 else FirstRotationFrom(p, q, 0)
  }

  lemma RotatedByZero(p: ColorPattern, j: nat)
    requires j < |p.colors|
    ensures RotatedIndex(p, 0, j) == j
  {
    assert p.cubeSize * 0 == 0;
  }

  /** A pattern matches itself without turning. */
  lemma MatchSelf(p: ColorPattern)
    ensures Match(p, p) == 0
  {
    forall j | 0 <= j < |p.colors|
      ensures RotatedIndex(p, 0, j) == j
    {
      RotatedByZero(p, j);
    }
    assert RotationMatches(p, p, 0);
  }

  /** `s` read cyclically from position `m` on. */
  function Shift<T>(s: seq<T>, m: nat): (r: seq<T>)
    ensures |r| == |s|
  {
    seq(|s|, j requires 0 <= j < |s| => s[(m + j) % |s|])
  }

  /** If `p` is `q` turned by `k` quarter turns, the match reports at most `k`
      turns (fewer when the ring is periodic). */
  lemma MatchFindsShift(p: ColorPattern, q: ColorPattern, k: nat)
    requires p.cubeSize == q.cubeSize && |p.colors| == |q.colors| && k < 4
    requires p.colors == Shift(q.colors, p.cubeSize * k)
    ensures Match(p, q) <= k
  {
    assert RotationMatches(p, q, k);
  }

  /** A DONT_CARE position is compared like any other: it is not a wildcard. */
  lemma DontCareIsNotWildcard()
    ensures Match(ColorPattern(1, [DontCare, DontCare, DontCare, DontCare]),
                  ColorPattern(1, [Same, Same, Same, Same])) == 5
  {
    var p := ColorPattern(1, [DontCare, DontCare, DontCare, DontCare]);
    var q := ColorPattern(1, [Same, Same, Same, Same]);
    forall k | 0 <= k < 4
      ensures !RotationMatches(p, q, k)
    {
      assert p.colors[0] != q.colors[RotatedIndex(p, k, 0)];
    }
  }

  // ---------------------------------------------------------------------------
  // Relational descriptors

  /** Position of a side colour on the Green → Red → Blue → Orange cycle. */
  function CyclePosition(c: FaceColor): Option<nat>
  {
    match c
    case Green => Some(0)
    case Red => Some(1)
    case Blue => Some(2)
    case Orange => Some(3)
    case _ => Option.None
  }

  /** The descriptor for a forward step of `step` places around the cycle. */
  function RelationOfStep(step: nat): Descriptor
    requires step < 4
  {
    [Same, RightNeighbor, Opposite, LeftNeighbor][step]
  }

  /** The relation between two adjacent stickers, read left to right. A Black
      left colour is outside the source's case analysis. */
  function DescriptorOf(left: FaceColor, right: FaceColor): (d: Descriptor)
    requires left != Black
    ensures d != BaseColor
  {
    match left
    case Green =>
      (match right
       case Green => Same
       case Red => RightNeighbor
       case Blue => Opposite
       case Orange => LeftNeighbor
       case _ => DontCare)
    case Red =>
      (match right
       case Green => LeftNeighbor
       case Red => Same
       case Blue => RightNeighbor
       case Orange => Opposite
       case _ => DontCare)
    case Blue =>
      (match right
       case Green => Opposite
       case Red => LeftNeighbor
       case Blue => Same
       case Orange => RightNeighbor
       case _ => DontCare)
    case Orange =>
      (match right
       case Green => RightNeighbor
       case Red => Opposite
       case Blue => LeftNeighbor
       case Orange => Same
       case _ => DontCare)
    case White => DontCare
    case Yellow => DontCare
    case None => DontCare
  }

  /** For two side colours the descriptor depends only on the step between
      them around the cycle. */
  lemma DescriptorFollowsCycle(left: FaceColor, right: FaceColor)
    requires CyclePosition(left).Some? && CyclePosition(right).Some?
    ensures DescriptorOf(left, right) ==
      RelationOfStep((CyclePosition(right).value - CyclePosition(left).value) % 4)
  {
  }

  /** The relation of a non-side colour, on either side, is DONT_CARE. */
  lemma DescriptorOfNonSide(left: FaceColor, right: FaceColor)
    requires left != Black
    requires CyclePosition(left).None? || CyclePosition(right).None?
    ensures DescriptorOf(left, right) == DontCare
  {
  }

  /** Exchanging the two colours exchanges the two neighbour relations and
      keeps SAME and OPPOSITE. */
  lemma DescriptorSwap(left: FaceColor, right: FaceColor)
    requires CyclePosition(left).Some? && CyclePosition(right).Some?
    ensures DescriptorOf(right, left) ==
      match DescriptorOf(left, right)
      case LeftNeighbor => RightNeighbor
      case RightNeighbor => LeftNeighbor
      case other => other
  {
  }

  // ---------------------------------------------------------------------------
  // Sampling the top layer

  /** The cube as the samplers see it: colours by location. */
  type CubeView = Cubes.Location -> PieceColors

  /** Position `i` of ring side `s` (front, right, back, left), walking the top
      layer's border anticlockwise seen from above. */
  function RingLocation(n: nat, s: nat, i: nat): Cubes.Location
    requires n >= 1 && s < 4 && i < n
  {
    match s
    case 0 => Cubes.Location(i, n - 1, n - 1)
    case 1 => Cubes.Location(n - 1, n - 1, n - 1 - i)
    case 2 => Cubes.Location(n - 1 - i, n - 1, 0)
    case 3 => Cubes.Location(0, n - 1, i)
  }

  /** The face a ring side reads. */
  function SideFace(s: nat): (f: Face)
    requires s < 4
    ensures f != Face.None
  {
    [Front, Right, Back, Left][s]
  }

  /** The side before ring side `s`, whose sticker the corner at position 0 also shows. */
  function PreviousFace(s: nat): (f: Face)
    requires s < 4
    ensures f != Face.None
  {
    [Left, Front, Right, Back][s]
  }

  /** The ring walks the top layer's border: every sampled piece is in range,
      on the top layer and on the side it reads; position 0 of a side is the
      corner shared with the previous side. */
  lemma RingReadsTopBorder(n: nat, s: nat, i: nat)
    requires n >= 1 && s < 4 && i < n
    ensures var loc := RingLocation(n, s, i);
      && loc.x < n && loc.y < n && loc.z < n
      && Cubes.OnFace(n, Top, loc)
      && Cubes.OnFace(n, SideFace(s), loc)
      && (i == 0 ==> Cubes.OnFace(n, PreviousFace(s), loc))
  {
  }

  /** The sticker sampled at ring position `i` of side `s`. */
  function RingSticker(view: CubeView, n: nat, s: nat, i: nat): FaceColor
    requires n >= 1 && s < 4 && i < n
  {
    Get(view(RingLocation(n, s, i)), SideFace(s))
  }

  /** The left colour the PLL sampler compares at ring position `i` of side
      `s`: the corner's previous-side sticker at position 0, otherwise the
      neighbouring sticker on the same side. */
  function PllLeft(view: CubeView, n: nat, s: nat, i: nat): FaceColor
    requires n >= 1 && s < 4 && i < n
  {
    if i == 0 then Get(view(RingLocation(n, s, 0)), PreviousFace(s))
    else Get(view(RingLocation(n, s, i - 1)), SideFace(s))
  }

  /** The PLL sampler stays inside the relational case analysis. */
  predicate PllDefined(view: CubeView, n: nat)
    requires n >= 1
  {
    forall s, i :: 0 <= s < 4 && 0 <= i < n ==> PllLeft(view, n, s, i) != Black
  }

  function Orientation(c: FaceColor, ollColor: FaceColor): Descriptor
  {
    if c == ollColor then BaseColor else DontCare
  }

  /** One side of the OLL pattern: BASE_COLOR where the ring sticker shows
      the OLL colour, DONT_CARE elsewhere. */
  function SideOrientations(view: CubeView, n: nat, s: nat, ollColor: FaceColor): (v: seq<Descriptor>)
    requires n >= 1 && s < 4
    ensures |v| == n
    ensures forall i :: 0 <= i < n ==> (v[i] == BaseColor <==> RingSticker(view, n, s, i) == ollColor)
    ensures forall i :: 0 <= i < n ==> (v[i] == DontCare <==> RingSticker(view, n, s, i) != ollColor)
  {
    seq(n, i requires 0 <= i < n => Orientation(RingSticker(view, n, s, i), ollColor))
  }

  /** The OLL pattern: front row, right column, back row and left column of
      the top layer in turn. */
  function OllPattern(view: CubeView, n: nat, ollColor: FaceColor): (p: ColorPattern)
    requires n >= 1
    ensures p.cubeSize == n && |p.colors| == 4 * n
    ensures forall k :: 0 <= k < |p.colors| ==> p.colors[k] == BaseColor || p.colors[k] == DontCare
  {
    FromDescriptors(SideOrientations(view, n, 0, ollColor) + SideOrientations(view, n, 1, ollColor)
      + SideOrientations(view, n, 2, ollColor) + SideOrientations(view, n, 3, ollColor))
  }

  /** Position `i` of each of four sides of length `n`, laid end to end. */
  lemma FourSides<T>(v0: seq<T>, v1: seq<T>, v2: seq<T>, v3: seq<T>, n: nat, i: nat)
    requires |v0| == n && |v1| == n && |v2| == n && |v3| == n && i < n
    ensures (v0 + v1 + v2 + v3)[i] == v0[i]
    ensures (v0 + v1 + v2 + v3)[n + i] == v1[i]
    ensures (v0 + v1 + v2 + v3)[2 * n + i] == v2[i]
    ensures (v0 + v1 + v2 + v3)[3 * n + i] == v3[i]
  {
    var a := v0 + v1;
    var b := a + v2;
    assert |a| == 2 * n && |b| == 3 * n;
    assert a[i] == v0[i] && a[n + i] == v1[i];
    assert b[i] == a[i] && b[n + i] == a[n + i] && b[2 * n + i] == v2[i];
  }

  /** Position `i` of each ring side of the OLL pattern is BASE_COLOR exactly
      when the sticker sampled there shows the OLL colour. */
  lemma OllPatternReadsRing(view: CubeView, n: nat, ollColor: FaceColor, i: nat)
    requires n >= 1 && i < n
    ensures OllPattern(view, n, ollColor).colors[i] == BaseColor <==> RingSticker(view, n, 0, i) == ollColor
    ensures OllPattern(view, n, ollColor).colors[n + i] == BaseColor <==> RingSticker(view, n, 1, i) == ollColor
    ensures OllPattern(view, n, ollColor).colors[2 * n + i] == BaseColor <==> RingSticker(view, n, 2, i) == ollColor
    ensures OllPattern(view, n, ollColor).colors[3 * n + i] == BaseColor <==> RingSticker(view, n, 3, i) == ollColor
  {
    FourSides(SideOrientations(view, n, 0, ollColor), SideOrientations(view, n, 1, ollColor),
      SideOrientations(view, n, 2, ollColor), SideOrientations(view, n, 3, ollColor), n, i);
  }

  /** One side of the PLL pattern: at each position, the relation between the
      previous sticker and the sticker there. */
  function SideRelations(view: CubeView, n: nat, s: nat): (v: seq<Descriptor>)
    requires n >= 1 && s < 4 && PllDefined(view, n)
    ensures |v| == n
    ensures forall i :: 0 <= i < n ==> v[i] == DescriptorOf(PllLeft(view, n, s, i), RingSticker(view, n, s, i))
  {
    seq(n, i requires 0 <= i < n && PllLeft(view, n, s, i) != Black =>
      DescriptorOf(PllLeft(view, n, s, i), RingSticker(view, n, s, i)))
  }

  /** The PLL pattern: the relations around the ring. It never holds
      BASE_COLOR. */
  function PllPattern(view: CubeView, n: nat): (p: ColorPattern)
    requires n >= 1 && PllDefined(view, n)
    ensures p.cubeSize == n && |p.colors| == 4 * n
    ensures forall k :: 0 <= k < |p.colors| ==> p.colors[k] != BaseColor
  {
    FromDescriptors(SideRelations(view, n, 0) + SideRelations(view, n, 1)
      + SideRelations(view, n, 2) + SideRelations(view, n, 3))
  }

  /** Position `i` of each ring side of the PLL pattern relates the sticker
      sampled there to the one before it. */
  lemma PllPatternReadsRing(view: CubeView, n: nat, i: nat)
    requires n >= 1 && PllDefined(view, n) && i < n
    ensures PllPattern(view, n).colors[i] == DescriptorOf(PllLeft(view, n, 0, i), RingSticker(view, n, 0, i))
    ensures PllPattern(view, n).colors[n + i] == DescriptorOf(PllLeft(view, n, 1, i), RingSticker(view, n, 1, i))
    ensures PllPattern(view, n).colors[2 * n + i] == DescriptorOf(PllLeft(view, n, 2, i), RingSticker(view, n, 2, i))
    ensures PllPattern(view, n).colors[3 * n + i] == DescriptorOf(PllLeft(view, n, 3, i), RingSticker(view, n, 3, i))
  {
    FourSides(SideRelations(view, n, 0), SideRelations(view, n, 1),
      SideRelations(view, n, 2), SideRelations(view, n, 3), n, i);
  }

  // ---------------------------------------------------------------------------
  // The constructor's colouring seen by the samplers

  /** The grid the constructor paints, as a view, with `back` on the back face. */
  function PaintedView(n: nat, back: FaceColor): CubeView
  {
    (loc: Cubes.Location) => Cubes.Paint(n, loc.x, loc.y, loc.z, back)
  }

  /** The view reads, at every in-range cell, the piece the constructor
      builds there when it paints `back` on the back face. */
  lemma PaintedViewReadsNewCube(n: nat, back: FaceColor, loc: Cubes.Location)
    requires n >= 1 && loc.x < n && loc.y < n && loc.z < n
    ensures Cubes.GetPiece(Cubes.NewCube(n, back), loc.x, loc.y, loc.z) == Some(PaintedView(n, back)(loc))
  {
    Cubes.NewCubeLayout(n, back, loc.x, loc.y, loc.z);
  }

  /** As the constructor is written, the back face is painted Black, so the PLL sampler's first
      comparison on the left side (the back sticker of the back-left corner)
      falls outside the relational case analysis on every cube size. */
  lemma PllSamplerFailsOnBuiltCube(n: nat)
    requires n >= 1
    ensures PllLeft(PaintedView(n, Cubes.WrittenBackColor), n, 3, 0) == Black
    ensures !PllDefined(PaintedView(n, Cubes.WrittenBackColor), n)
  {
  }

  /** One side of the PLL pattern of a solved top layer: the corner relates
      to the previous side as its right neighbour, the rest of the edge is the
      same colour. */
  function SolvedSide(n: nat): (v: seq<Descriptor>)
    requires n >= 1
    ensures |v| == n && v[0] == RightNeighbor
    ensures forall i :: 0 < i < n ==> v[i] == Same
  {
    [RightNeighbor] + seq(n - 1, _ => Same)
  }

  /** The side colour the constructor paints, side by side around the ring. */
  function PaintedSideColor(s: nat, back: FaceColor): FaceColor
    requires s < 4
  {
    [Green, Red, back, Orange][s]
  }

  /** The ring side before side `s`. */
  function PreviousSide(s: nat): (r: nat)
    requires s < 4
    ensures r < 4 && (r + 1) % 4 == s
  {
    if s == 0 then 3 else s - 1
  }

  /** The constructor's piece at a ring position shows the side's colour on
      the side it is read from. */
  lemma PaintedRingPiece(n: nat, back: FaceColor, s: nat, i: nat)
    requires n >= 1 && s < 4 && i < n
    ensures Get(Cubes.Paint(n, RingLocation(n, s, i).x, RingLocation(n, s, i).y, RingLocation(n, s, i).z, back), SideFace(s))
      == PaintedSideColor(s, back)
  {
    var loc := RingLocation(n, s, i);
    var p := Cubes.Paint(n, loc.x, loc.y, loc.z, back);
    if s == 0 {
      assert loc.z == n - 1 && Get(p, Front) == Green;
    } else if s == 1 {
      assert loc.x == n - 1 && Get(p, Right) == Red;
    } else if s == 2 {
      assert loc.z == 0 && Get(p, Back) == back;
    } else {
      assert loc.x == 0 && Get(p, Left) == Orange;
    }
  }

  /** The constructor's corner at position 0 of a side shows the previous
      side's colour on the previous face. */
  lemma PaintedRingCorner(n: nat, back: FaceColor, s: nat)
    requires n >= 1 && s < 4
    ensures Get(Cubes.Paint(n, RingLocation(n, s, 0).x, RingLocation(n, s, 0).y, RingLocation(n, s, 0).z, back), PreviousFace(s))
      == PaintedSideColor(PreviousSide(s), back)
  {
    var loc := RingLocation(n, s, 0);
    var p := Cubes.Paint(n, loc.x, loc.y, loc.z, back);
    if s == 0 {
      assert loc.x == 0 && Get(p, Left) == Orange;
    } else if s == 1 {
      assert loc.z == n - 1 && Get(p, Front) == Green;
    } else if s == 2 {
      assert loc.x == n - 1 && Get(p, Right) == Red;
    } else {
      assert loc.z == 0 && Get(p, Back) == back;
    }
  }

  /** On a freshly built cube every ring sticker shows its side's colour, and
      the sticker before position 0 shows the previous side's colour. */
  lemma PaintedRing(n: nat, back: FaceColor, s: nat, i: nat)
    requires n >= 1 && s < 4 && i < n
    ensures RingSticker(PaintedView(n, back), n, s, i) == PaintedSideColor(s, back)
    ensures PllLeft(PaintedView(n, back), n, s, i)
      == if i == 0 then PaintedSideColor(PreviousSide(s), back) else PaintedSideColor(s, back)
  {
    var view := PaintedView(n, back);
    var loc := RingLocation(n, s, i);
    assert view(loc) == Cubes.Paint(n, loc.x, loc.y, loc.z, back);
    PaintedRingPiece(n, back, s, i);
    if i == 0 {
      PaintedRingCorner(n, back, s);
    } else {
      var prev := RingLocation(n, s, i - 1);
      assert view(prev) == Cubes.Paint(n, prev.x, prev.y, prev.z, back);
      PaintedRingPiece(n, back, s, i - 1);
    }
  }

  /** With Blue at the back, no side of the ring, nor the side before it, is
      painted Black. */
  lemma IntendedSideColours(s: nat)
    requires s < 4
    ensures PaintedSideColor(s, Cubes.BackColor) != Black
    ensures PaintedSideColor(PreviousSide(s), Cubes.BackColor) != Black
  {
  }

  /** With the back face painted Blue, the PLL sampler stays inside the
      relational case analysis on a freshly built cube. */
  lemma IntendedCubeIsPllDefined(n: nat)
    requires n >= 1
    ensures PllDefined(PaintedView(n, Cubes.BackColor), n)
  {
    forall s, i | 0 <= s < 4 && 0 <= i < n
      ensures PllLeft(PaintedView(n, Cubes.BackColor), n, s, i) != Black
    {
      PaintedRing(n, Cubes.BackColor, s, i);
      IntendedSideColours(s);
    }
  }

  /** With Blue at the back, each side colour is the right neighbour of the
      one before it around the ring, and the same as itself. */
  lemma IntendedColourRelations(s: nat)
    requires s < 4
    ensures DescriptorOf(PaintedSideColor(PreviousSide(s), Blue), PaintedSideColor(s, Blue)) == RightNeighbor
    ensures DescriptorOf(PaintedSideColor(s, Blue), PaintedSideColor(s, Blue)) == Same
  {
    if s == 0 {
    } else if s == 1 {
    } else if s == 2 {
    } else {
    }
  }

  /** Each side of the PLL pattern of the intended freshly built cube is the
      solved side. */
  lemma IntendedSideRelations(n: nat, s: nat)
    requires n >= 1 && s < 4 && PllDefined(PaintedView(n, Cubes.BackColor), n)
    ensures SideRelations(PaintedView(n, Cubes.BackColor), n, s) == SolvedSide(n)
  {
    var v := SideRelations(PaintedView(n, Cubes.BackColor), n, s);
    forall i | 0 <= i < n
      ensures v[i] == SolvedSide(n)[i]
    {
      PaintedRing(n, Blue, s, i);
      IntendedColourRelations(s);
    }
  }

  /** With the back face painted Blue, the PLL sampler is defined on a freshly
      built cube, and reads the solved pattern on every side. */
  lemma PllOnIntendedCube(n: nat)
    requires n >= 1
    ensures PllDefined(PaintedView(n, Cubes.BackColor), n)
    ensures PllPattern(PaintedView(n, Cubes.BackColor), n).colors == SolvedSide(n) + SolvedSide(n) + SolvedSide(n) + SolvedSide(n)
  {
    IntendedCubeIsPllDefined(n);
    IntendedSideRelations(n, 0);
    IntendedSideRelations(n, 1);
    IntendedSideRelations(n, 2);
    IntendedSideRelations(n, 3);
  }

  /** On a freshly built cube the top face is White and no ring sticker is,
      so the OLL pattern for White is DONT_CARE everywhere. */
  lemma OllOfSolvedTopIsAllDontCare(n: nat, back: FaceColor)
    requires n >= 1 && back != White
    ensures OllPattern(PaintedView(n, back), n, White).colors == seq(4 * n, _ => DontCare)
  {
    var view := PaintedView(n, back);
    var none := seq(n, _ => DontCare);
    forall s | 0 <= s < 4
      ensures SideOrientations(view, n, s, White) == none
    {
      forall i | 0 <= i < n
        ensures SideOrientations(view, n, s, White)[i] == DontCare
      {
        PaintedRing(n, back, s, i);
      }
    }
    assert none + none + none + none == seq(4 * n, _ => DontCare);
  }
}
