# Rubik's cube core, modelled in Dafny

This project models the logic at the core of a small C++ Rubik's cube program. The graphics are not modelled. The model covers:

- **Piece colours** (`Pieces`, in `piece_colors.dfy`). Each piece keeps six sticker colours, indexed by face in the order Top, Front, Right, Back, Left, Bottom. When a layer turns about one of three axes (horizontal, vertical, "depthical"), a fixed table says which face each sticker moves to. A search returns the first face that shows a given colour.
- **The cube engine** (`Cubes`, in `cube.dfy`):
  - an N×N×N grid of pieces stored as one flat sequence; cell (x, y, z) is at index z·N² + y·N + x;
  - the constructor's colouring;
  - bounds-checked reads and writes;
  - the mapping from face moves (U, F, R, B, L, D and M) to layer turns;
  - the layer turn itself, which is an empty stub in the program.
- **Colour patterns** (`Patterns`, in `color_pattern.dfy`):
  - descriptor sequences read from the letter strings of the OLL/PLL case tables, or built from descriptor vectors;
  - the matcher, which finds how many quarter turns of the top layer make two patterns agree;
  - the OLL and PLL samplers, which read the border ring of the top layer;
  - the relation table between two neighbouring side colours.
- **The corner solver** (`Solver`, in `cube_solver.dfy`):
  - the entry point;
  - the 2×2×2 first-layer solve, one corner at a time. Each corner is lifted from the bottom, turned above its destination and inserted.

Because the layer turn does nothing in the program, the solver's routines are modelled as **planners** that return the list of moves they issue. The answers to the cube queries they make are inputs.

To state what a plan achieves, `Solver` has a reference geometry. It tracks one corner sticker through a sequence of turns: which cell the piece goes to and which face the sticker then shows. The geometry rotates a cell's coordinates about the turning axis. `Solver.TurnCellFollowsStickers` proves it agrees with the piece's relabelling table. `Solver.QuarterTurnsFollowFaceMoves` proves each move issues exactly the layer turn that the cube's face-move mapping gives. With this geometry, `Solver.PlanCornerPlacesCorner` proves that the corner plan puts the tracked sticker on the bottom face of the destination corner, for every start corner, every start face and every destination.

Shared types are in `faces.dfy` (`Face`, `FaceColor`, `Direction`) and in `options.dfy` (`Option`).

## Model

| member | source | states |
|---|---|---|
| `Pieces.Rotate` | src/Piece/PieceColors.cpp:34-44 | After a turn, the colour that was on slot i is on the slot that the table's column for this axis and sense sends face i to. |
| `Pieces.HandleRotation` | src/Piece/PieceColors.cpp:34-44 | The loop that writes each old colour to the slot its face moves to gives exactly the relabelled piece `Rotate` describes. |
| `Pieces.ColumnsAreMutuallyInverse` | src/Piece/PieceColors.cpp:3-29 | For every axis, the clockwise column and the counterclockwise column of the table undo each other. |
| `Pieces.ColumnsArePermutations` | src/Piece/PieceColors.cpp:3-29 | Every column of the table sends distinct faces to distinct faces. |
| `Pieces.RotateUndo` | src/Piece/PieceColors.cpp:34-44 | A turn followed by the opposite turn about the same axis restores the piece. |
| `Pieces.RotateOrderFour` | src/Piece/PieceColors.cpp:34-44 | Four quarter turns in the same sense restore the piece. |
| `Pieces.HalfTurnEitherWay` | src/Piece/PieceColors.cpp:34-44 | Two clockwise turns give the same piece as two counterclockwise turns. |
| `Pieces.RotateKeepsAxisFaces` | src/Piece/PieceColors.cpp:3-29 | A turn about an axis keeps the colours of the two faces that axis passes through. |
| `Pieces.HorizontalClockwiseCycle` | src/Piece/PieceColors.cpp:3-29 | A clockwise horizontal turn moves Front to Left, Right to Front, Back to Right and Left to Back. |
| `Pieces.RotateKeepsColours` | src/Piece/PieceColors.cpp:34-44 | A turn only moves stickers: the multiset of the six colours is unchanged. |
| `Pieces.Get` | src/Piece/PieceColors.hpp:20 | Reading a face gives the colour stored in that face's slot. |
| `Pieces.Set` | src/Piece/PieceColors.hpp:19 | Writing one face changes that face to the new colour and no other face. |
| `Pieces.Default` | src/Piece/PieceColors.cpp:31-32 | A default piece shows `None` on every face. |
| `Pieces.FromArray` | src/Piece/PieceColors.hpp:16-17 | A piece built from an array reads each face from the array, and `GetColors` gives the array back. |
| `Pieces.GetColors` | src/Piece/PieceColors.hpp:22 | The returned array holds, at each face's slot, the colour that face reads. |
| `Pieces.GetFaceByColor` | src/Piece/PieceColors.hpp:23-30 | Returns `None` if and only if no face shows the colour. Otherwise the returned face shows it, and no face earlier in slot order does. |
| `Cubes.MoveTurns` | src/Cube/Cube.hpp:27-40 | Each outer move issues one turn of an outer layer. M issues the vertical turns of the inner layers 1..N-2 in increasing order, in the opposite sense of `prime`, and nothing on an even cube. The sense of each outer move is stated by `Cubes.OuterMovesTurnClockwise`. |
| `Cubes.OuterMovesTurnClockwise` | src/Cube/Cube.hpp:27-38 | Seen from outside its face, each unprimed outer move (U, F, R, B, L and D alike) turns that face clockwise, and its prime counterclockwise. This is stated with face normals: a side sticker in direction v goes to the face in direction −(u × v), or u × v for the prime, where u is the moved face's normal. |
| `Cubes.PrimeFlipsSense` | src/Cube/Cube.hpp:27-40 | The primed variant of a move turns the same layers about the same axes in the other sense. |
| `Cubes.OuterMoveTurnsItsFace` | src/Cube/Cube.hpp:27-32 | An outer move turns exactly the layer of pieces lying on its face, and the turn keeps that face's stickers on that face. |
| `Cubes.Paint` | src/Cube/Cube.cpp:28-45 | Outer faces get Orange (left), Red (right), Yellow (bottom), White (top), the back colour and Green (front). All other faces stay black. |
| `Cubes.GetSize` | src/Cube/Cube.hpp:42 | The size is the layer count the cube was built with. |
| `Cubes.NewCube` | src/Cube/Cube.cpp:16-25 | The built cube reports N as its size and has N³ pieces. The back colour is a parameter: `Cubes.WrittenBackColor` (Black) as written, `Cubes.BackColor` (Blue) as corrected in Findings. |
| `Cubes.NewCubeLayout` | src/Cube/Cube.cpp:16-45 | The built cube holds, at every in-range cell, the piece painted for that cell's coordinates, with the given back colour on the back face. |
| `Cubes.InteriorIsBlack` | src/Piece/Piece.cpp:19-24 | A piece with no coordinate on the outer shell stays black on all six faces. |
| `Cubes.GetPiece` | src/Cube/Cube.cpp:55-62 | A read succeeds exactly when the flat index z·N² + y·N + x is below the piece count, and then gives the piece stored at that index. |
| `Cubes.IndexInjective` | src/Cube/Cube.cpp:55-62 | Distinct in-range coordinates give distinct flat indices. |
| `Cubes.GetPresentIffIndexInRange` | src/Cube/Cube.cpp:55-62 | On a cube with N³ pieces, a read succeeds exactly when the flat index is below N³. |
| `Cubes.GetAliasesAcrossRows` | src/Cube/Cube.cpp:55-62 | Only the flat index is checked, so x = N on row 0 reads the first piece of row 1. |
| `Cubes.SetPiece` | src/Cube/Cube.cpp:64-71 | An out-of-range write leaves the cube unchanged. An in-range write makes the cell read back the new piece and keeps every other index. |
| `Cubes.SetLeavesOtherCells` | src/Cube/Cube.cpp:64-71 | Writing one in-range cell leaves every other in-range cell as it was. |
| `Cubes.TurnSide` | src/Cube/Cube.cpp:48-53 | The layer turn leaves the cube as it was. |
| `Cubes.ApplyTurns` | src/Cube/Cube.hpp:27-40 | Issuing any list of turns leaves the cube as it was. This only composes the stub of `Cubes.TurnSide`, which carries the point. |
| `Patterns.FromDescriptors` | src/ColorPattern/ColorPattern.hpp:27-28 | The descriptors are kept as given, and the cube size is the largest s with 4·s not above their count. |
| `Patterns.SizeDoesNotFixLength` | src/ColorPattern/ColorPattern.hpp:27-28 | Vectors of 8 and of 11 descriptors both give cube size 2. |
| `Patterns.DescriptorOfLetter` | src/ColorPattern/ColorPattern.cpp:10-30 | A character stands for a descriptor exactly when it is one of D, B, S, L, R and O, and then it is that descriptor's letter. |
| `Patterns.LetterBijection` | src/ColorPattern/ColorPattern.cpp:10-30 | The six letters and the six descriptors correspond one to one. |
| `Patterns.Letters` | src/ColorPattern/ColorPattern.cpp:8-31 | At most one descriptor per character. When every character is a letter of the alphabet, descriptor k is the one character k stands for. |
| `Patterns.LettersConcat` | src/ColorPattern/ColorPattern.cpp:8-31 | The descriptors of a text in two parts are those of the first part followed by those of the second. |
| `Patterns.Parse` | src/ColorPattern/ColorPattern.cpp:4-32 | The cube size is the text length divided by four, even when characters are skipped. On a text of alphabet letters only, there is one descriptor per character, in order, each the one its letter stands for. |
| `Patterns.ParseSkipsOtherCharacters` | src/ColorPattern/ColorPattern.cpp:8-31 | A character outside the alphabet adds no descriptor, at any position in the text, while it still counts towards the size. |
| `Patterns.ParseRender` | src/ColorPattern/ColorPattern.cpp:4-32 | Parsing the letters of a descriptor sequence gives the pattern the vector constructor builds from that sequence. |
| `Patterns.AgreesFrom` | src/ColorPattern/ColorPattern.cpp:45-53 | The inner loop succeeds if and only if every remaining position agrees with the other pattern at the rotated index. |
| `Patterns.FirstRotationFrom` | src/ColorPattern/ColorPattern.cpp:42-60 | Returns the first rotation that agrees, or 5 when none does. Every earlier rotation disagrees. |
| `Patterns.Match` | src/ColorPattern/ColorPattern.cpp:34-61 | Returns 0 when the sizes differ. Otherwise it returns the least number of quarter turns below 4 under which the patterns agree at every position, or 5 when no such number exists. |
| `Patterns.MatchSelf` | src/ColorPattern/ColorPattern.cpp:34-61 | A pattern matches itself with no turn. |
| `Patterns.MatchFindsShift` | src/ColorPattern/ColorPattern.cpp:42-57 | If one pattern is the other read k quarter turns further on, the match reports at most k turns. |
| `Patterns.DontCareIsNotWildcard` | src/ColorPattern/ColorPattern.cpp:48 | An all-DONT_CARE pattern does not match an all-SAME pattern under any rotation. |
| `Patterns.DescriptorOf` | src/ColorPattern/ColorPattern.cpp:165-244 | The relation between two neighbouring colours is never BASE_COLOR. A Black left colour is excluded, as in the source, where it is unreachable. |
| `Patterns.DescriptorFollowsCycle` | src/ColorPattern/ColorPattern.cpp:165-236 | For two side colours, the relation depends only on the forward step between them on the cycle Green, Red, Blue, Orange: SAME, RIGHT_NEIGHBOR, OPPOSITE or LEFT_NEIGHBOR. |
| `Patterns.DescriptorOfNonSide` | src/ColorPattern/ColorPattern.cpp:165-242 | A White, Yellow or unset colour on either side gives DONT_CARE. |
| `Patterns.DescriptorSwap` | src/ColorPattern/ColorPattern.cpp:165-236 | Swapping the two side colours swaps LEFT_NEIGHBOR and RIGHT_NEIGHBOR, and keeps SAME and OPPOSITE. |
| `Patterns.RingReadsTopBorder` | src/ColorPattern/ColorPattern.cpp:69-83 | Every sampled cell is in range, on the top layer and on the side it reads. Position 0 of a side is the corner it shares with the previous side. |
| `Patterns.SideOrientations` | src/ColorPattern/ColorPattern.cpp:69-83 | Each side has N entries. An entry is BASE_COLOR exactly when the sampled sticker shows the OLL colour, and DONT_CARE otherwise. |
| `Patterns.OllPattern` | src/ColorPattern/ColorPattern.cpp:63-86 | The OLL pattern has size N and 4·N entries, each BASE_COLOR or DONT_CARE. |
| `Patterns.OllPatternReadsRing` | src/ColorPattern/ColorPattern.cpp:63-86 | Entry k·N + i is BASE_COLOR exactly when position i of side k shows the OLL colour, for front, right, back and left in turn. |
| `Patterns.SideRelations` | src/ColorPattern/ColorPattern.cpp:94-160 | Each entry relates the sticker before it (across the corner at position 0) to the sticker sampled there. |
| `Patterns.PllPattern` | src/ColorPattern/ColorPattern.cpp:88-163 | The PLL pattern has size N and 4·N entries, and none of them is BASE_COLOR. |
| `Patterns.PllPatternReadsRing` | src/ColorPattern/ColorPattern.cpp:88-163 | Entry k·N + i of the PLL pattern is the relation at position i of side k. |
| `Patterns.PaintedViewReadsNewCube` | src/Cube/Cube.cpp:16-45 | The painted view the samplers read is, at every in-range cell, the piece the constructor builds there with the same back colour. |
| `Patterns.PaintedRing` | src/Cube/Cube.cpp:28-45 | On a freshly built cube every ring sticker shows its side's colour. The sticker before position 0 shows the previous side's colour. |
| `Patterns.PllSamplerFailsOnBuiltCube` | src/Cube/Cube.cpp:41-42 | As built, the first comparison on the left side reads the Black back sticker. The PLL sampler is therefore outside its case analysis on every cube size. |
| `Patterns.PllOnIntendedCube` | src/ColorPattern/ColorPattern.cpp:88-163 | With Blue painted on the back, the PLL sampler is defined on a freshly built cube. Every side reads RIGHT_NEIGHBOR at the corner and SAME along the edge. |
| `Patterns.OllOfSolvedTopIsAllDontCare` | src/ColorPattern/ColorPattern.cpp:63-86 | On a freshly built cube, the White OLL pattern is DONT_CARE everywhere. |
| `Solver.TurnCellFollowsStickers` | src/Piece/PieceColors.cpp:3-29 | The tracking geometry moves a sticker on an outer face to the outer face that the relabelling table names. |
| `Solver.TurnCellUndo` | src/Cube/Cube.hpp:25 | In the tracking geometry, a clockwise turn and a counterclockwise turn of a cell undo each other. |
| `Solver.QuarterTurnsFollowFaceMoves` | src/Cube/Cube.hpp:27-31 | Each quarter move the solver issues is the single layer turn the cube's face-move mapping gives. |
| `Solver.TrackConcat` | src/CubeSolver/CubeSolver.cpp:47-53 | Running two move lists one after the other is running their concatenation. |
| `Solver.MoveCornerToTop` | src/CubeSolver/CubeSolver.cpp:56-84 | Three moves: the side face on the corner's x side, a quarter top turn, then that side face undone. The reported location is the top cell with x mirrored. |
| `Solver.LiftReachesReportedLocation` | src/CubeSolver/CubeSolver.cpp:56-84 | The lift carries a bottom corner to exactly the location it reports. |
| `Solver.MoveCornerOnTopToPosition` | src/CubeSolver/CubeSolver.cpp:85-111 | No move exactly when the corner is already above the destination. U2 exactly when both coordinates differ. Otherwise a single quarter top turn. |
| `Solver.AlignReachesDestination` | src/CubeSolver/CubeSolver.cpp:85-111 | From any top corner, the chosen top turn brings the corner above any destination corner. |
| `Solver.InsertCornerToBottom` | src/CubeSolver/CubeSolver.cpp:112-212 | A sticker on a side face gives the three-move insertion through that face. A sticker on top gives the seven-move sequence on the corner's x side. |
| `Solver.InsertPlacesCorner` | src/CubeSolver/CubeSolver.cpp:112-212 | For each of the four top corners and each of its three outer faces, the insertion puts the corner in the cell below, with the tracked sticker on the bottom. |
| `Solver.TopCornerFacesAreInsertable` | src/CubeSolver/CubeSolver.cpp:112-212 | Any outer sticker of a top corner is on one of the three faces the inserter handles. |
| `Solver.LiftAndAlignReachesSlot` | src/CubeSolver/CubeSolver.cpp:45-50 | The lift and the top turn bring any corner sticker above its destination, on a face the inserter handles. |
| `Solver.LiftAndAlign` | src/CubeSolver/CubeSolver.cpp:45-50 | At most four face moves. A bottom corner gets the three-move lift of `Solver.MoveCornerToTop` followed by the top turn from the location the lift reports. A top corner gets only the top turn from where it is. |
| `Solver.PlanCorner` | src/CubeSolver/CubeSolver.cpp:37-54 | No move exactly when the corner is already placed. Otherwise the plan is the lift and alignment of `Solver.LiftAndAlign` followed by the insertion for the slot above the destination, 3 to 11 moves in all. |
| `Solver.PlanCornerPlacesCorner` | src/CubeSolver/CubeSolver.cpp:37-54 | If the insertion face is read from the tracked sticker, the plan leaves the corner in its destination cell with that sticker on the bottom. A placed corner gets no moves. |
| `Solver.CornerPlaced` | src/CubeSolver/CubeSolver.cpp:41-43 | The early-return test: the found corner is at its destination and the piece there shows the bottom colour on its Bottom face. Its behaviour on a fresh cube is stated by `Solver.FreshCubeHasNoPlacedCorner`. |
| `Solver.FreshCubeHasNoPlacedCorner` | src/CubeSolver/CubeSolver.cpp:41-43 | On a freshly built cube, whatever its back colour, the destination cell of every first-layer corner is present, and no corner counts as placed there with White down. The bottom shows Yellow. |
| `Solver.SolveCorner` | src/CubeSolver/CubeSolver.cpp:37-54 | No move exactly when the found corner is at its destination with the bottom colour down. Otherwise the plan is `Solver.PlanCorner` for a corner not yet placed, with the insertion face read from the piece above the destination (the face on which it shows the bottom colour). That is the lift and alignment of `Solver.LiftAndAlign`, then that insertion. |
| `Solver.FirstLayerColors` | src/CubeSolver/CubeSolver.cpp:25-28 | Each first-layer corner is White with Red or Orange and with Green or Blue. |
| `Solver.FirstLayerDest` | src/CubeSolver/CubeSolver.cpp:23-28 | Each destination is a bottom-layer corner cell, and the four destinations are distinct. |
| `Solver.FirstLayerDestIsHomeTurnedOver` | src/CubeSolver/CubeSolver.cpp:23-28 | Each destination is where the corner of those colours sits on the freshly painted cube with Blue at the back, once it is turned upside down about the front-back axis. That turn brings White to the bottom. |
| `Solver.FirstLayerCorner` | src/CubeSolver/CubeSolver.cpp:25-28 | The plan for corner k is `Solver.SolveCorner` for the cell the colour search finds for the k-th colour triple, the k-th destination and White as bottom colour. It is empty exactly when that corner is already placed. |
| `Solver.Solve2x2` | src/CubeSolver/CubeSolver.cpp:21-29 | The plans for corners 0, 1, 2 and 3 in that order (Red-Green, Orange-Green, Orange-Blue, Red-Blue), at most 44 moves, and none exactly when all four are already placed. |
| `Solver.Solve` | src/CubeSolver/CubeSolver.cpp:8-34 | A solved cube, or a size other than 2 and 3, gets no moves. Size 3 gets only the whole-cube turn z2. Size 2 gets exactly the first-layer solve `Solver.Solve2x2`. |

## Left out

- Rendering, and everything else that depends on the graphics library, is not modelled: drawing, piece positions, vertices and sizes, the GUI, the program's entry point, the animated axial rotation and the scrambler. None of it decides any colour, pattern or move.
- Unsigned 32-bit arithmetic is not modelled. Sizes and coordinates are unbounded naturals. Members that compute `size - 1` either require at least one layer or, like `Cubes.Paint`, `Cubes.OnFace` and `Solver.CornerColumn`, compute it on naturals, where 0 − 1 is −1. With a cube of 0 layers the source instead wraps `size - 1` around to 2³²-1.
- `Cubes.TurnSide` is the empty stub of the source. No piece moves and no piece colour is relabelled. The tracking geometry in `Solver` is therefore a reference definition derived from the relabelling table, not a model of a layer turn in the source. `Solver.TurnCellFollowsStickers` ties it to the table.
- The cube methods the solver and the samplers call are not defined in the cube class: the solved test, the colour search that locates a piece, the piece-colour read and issuing a move. The piece reads are missing too. The cube's grid holds `Piece` objects (src/Cube/Cube.hpp:58), and `Piece` has only `SetFaceColor` and `Draw` (src/Piece/Piece.hpp:11-41): no colour getter, no `GetFaceColor` and no `GetFaceByColor`. `Cube::Get` takes three coordinates (src/Cube/Cube.hpp:44-45) and has no location overload, yet the solver calls `Get(location)` and then those reads (src/CubeSolver/CubeSolver.cpp:42, 117-120 and the other three corner cases).
  - The model's grid therefore holds `Pieces.PieceColors` (Black by default, as `Piece` initialises its colours), a location read is `Cubes.GetPiece` at its coordinates, and `GetFaceColor`/`GetFaceByColor` on a piece are `Pieces.Get`/`Pieces.GetFaceByColor`.
  - The solved test and the colour search become inputs: a `solved` flag and a `Locator` function.
  - The piece-colour read becomes a `CubeView` function.
  - Issuing a move becomes the plan that is returned.
- `Solver.Step`: the half turn `U2` is taken to be the quarter turn `U` issued twice. The source's move type, which would say how `U2` is issued, is not part of this model.
- `Solver.Solve`: only the whole-cube half turn `z2` of the 3×3×3 solve is present in the source. The later stages and the OLL/PLL case tables are missing there and so are missing here.
- `Solver.SolveCorner`: the solver's queries read the cube as it stands. Since the turns are stubs, each query sees the unmoved cube. The end-to-end placement property is stated on the tracked sticker in `Solver.PlanCornerPlacesCorner`, not on the cube's contents.
- `Patterns.Parse`: each character of the text counts once towards the cube size. The source takes the size from `std::string::size()`, which counts bytes, so a character outside ASCII counts once per byte of its UTF-8 encoding there. On ASCII text the two agree.
- `Patterns.ParseSkipsOtherCharacters`: the skipped character adds one to the length used for the size. In the source it adds its number of UTF-8 bytes.
- `Patterns.Match` requires that, when the sizes agree, the pattern is no longer than the other. The source wraps the compared index by the pattern's own length, so on a longer pattern it can read the other pattern out of range: whenever a rotation agrees up to an index at or past the other pattern's length, which every full match does. The model excludes the whole case, including inputs where the source mismatches first and returns 5.
- `Patterns.Match` compares positions by plain equality, as the source does. A DONT_CARE position is not a wildcard, although its name suggests one.
- `Solver.SolveCorner` requires that the found corner's destination, and the cell above it, hold a piece. In the source an empty optional there throws (`bad_optional_access`). The model has no exceptions and leaves that failure out.
- `Solver.Solve2x2` requires the colour search to find each of the four first-layer corners. In the source a failed search throws `bad_optional_access`, and the model leaves that failure out.
- `Solver.MoveCornerToTop` requires a cell in one of the four corner columns; neither the model nor the source tests its height. In the source any other cell reaches an unreachable marker, and the model leaves that path out.
- `Solver.InsertCornerToBottom` requires a bottom-colour face that the cell's quadrant case handles: Top, or the cell's x-side or z-side face. The four quadrant tests cover every cell. In the source any other face reaches the switch's unreachable default, and the model leaves that path out.
- `Patterns.DescriptorOf`, `Patterns.SideRelations` and `Patterns.PllPattern` require no Black left colour. In the source that case reaches an unreachable marker.
- The face and direction headers are not part of this model. The face order Top, Front, Right, Back, Left, Bottom is taken from the table's comments and from the casts in the colour search.

## Findings

| source | as written | input that shows it | evidently intended | confidence | as-written member | corrected member |
|---|---|---|---|---|---|---|
| src/Cube/Cube.cpp:41-42 | The constructor paints the back face Black, the colour every unpainted sticker already has. | Any freshly built cube, e.g. N = 2. The PLL sampler's first comparison on the Left side reads the Black back sticker of the back-left top corner, which the relation table marks unreachable. | The back face is painted Blue, the fourth side colour of the relation cycle and of the solver's corners, so the PLL sampler reads the solved pattern. `Cubes.NewCube` takes the back colour: `Cubes.WrittenBackColor` (Black) is the colour as written and `Cubes.BackColor` (Blue) the correction. | not executed | `Patterns.PllSamplerFailsOnBuiltCube` | `Patterns.PllOnIntendedCube` |
