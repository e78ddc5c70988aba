# Fog-of-war chess: a verified model of the move and visibility core

The game is chess played under a fog of war. Each player sees only the
squares their own pieces stand on, plus the squares those pieces could move
to. This project models four parts of the game in Dafny:

- the move generator (`getPossibleMoves` with its `addIfOnBoard` helper);
- the visibility calculation (`calculateVisibility`);
- the starting position (`INITIAL_BOARD`);
- the two UI steps that use them: applying a move in the top-level
  component (`handleMove`), and the board component's selection logic,
  possible-moves memo and "draw a piece only if it is visible" filter.

Modules follow the source files:

- `ChessTypes` (`types.dfy`): pieces, colours, the 8×8 board as a value,
  squares as `(row, column)` pairs, the game status and the match record.
- `ChessEngine` (`chess_engine.dfy`), for `services/chessEngine.ts`.
  - Specification functions:
    - `Moves` (the list of target squares, in the source's push order);
    - `Visible`;
    - `InitialBoard`.
  - Methods that mirror the source's loops:
    - `GetPossibleMoves`, with its helpers `AddIfOnBoard`, `AddEachOffset`,
      `AddPawnMoves`, `AddCaptures`, `AddCaptureAt`, `AddSlide` and
      `AddSlides`;
    - `CalculateVisibility`, with `AddAll`.
  - Each method is proved equal to its function.
- `ChessRules` (`chess_rules.dfy`): what the move list means, stated
  independently of how it is built.
  - Rules per kind of piece:
    - knight jumps and king steps;
    - pawn pushes and diagonal captures;
    - a slider travels along each of its directions. It stops on the first
      occupied square: it includes an enemy square and excludes a friendly
      one.
  - Soundness: every target is on the board and never holds a friendly
    piece.
  - No piece's move list contains a square twice.
  - The visibility rule.
- `InitialPosition` (`initial_position.dfy`):
  - the layout of `INITIAL_BOARD`;
  - concrete move lists on it;
  - White's view of it at the start;
  - two small rook positions.
- `App` (`app.dfy`): the state cells that `handleMove` touches, as a class.
  It also holds the board-update function and what it does to every square
  and to the piece count.
- `ChessBoardView` (`chess_board.dfy`):
  - the selection cell and `handleSquareClick`, as a class;
  - the possible-moves memo;
  - the render filter.

The board is a value (`seq<seq<Option<Piece>>>`). As a result, the move
generator and the visibility calculation provably leave the board they are
given untouched. `handleMove` copies the board row by row (App.tsx:50) and
writes only to that fresh copy, so no board the engine has read is ever
changed; the model's `MovedBoard` is that copy with its two writes.

## Model

| member | source | states |
|---|---|---|
| ChessEngine.InitialBoard | services/chessEngine.ts:4-19 | the starting board is eight rows of eight squares |
| ChessEngine.Steps | services/chessEngine.ts:59-63 | defines the list the forEach over an offset table builds (the knight's here, the king's at lines 79-83): addIfOnBoard's target for each offset, in table order |
| ChessEngine.Target | services/chessEngine.ts:29-32 | defines what addIfOnBoard pushes: the square itself when it is on the board and holds no friendly piece, nothing otherwise |
| ChessEngine.Forward | services/chessEngine.ts:26 | defines the pawn direction: -1 (towards row 0) for white, +1 for black |
| ChessEngine.OnStartRank | services/chessEngine.ts:45 | defines where a double push may start: row 6 for white, row 1 for black |
| ChessEngine.PawnMoves | services/chessEngine.ts:40-56 | defines a pawn's list: its pushes followed by its captures one row ahead |
| ChessEngine.CaptureAt | services/chessEngine.ts:52-54 | defines one diagonal's contribution: the square when it is on the board and holds an enemy piece |
| ChessEngine.Captures | services/chessEngine.ts:50-56 | defines the capture loop's list: one CaptureAt per column delta, in the order -1, 1 |
| ChessEngine.Directions | services/chessEngine.ts:68-70 | defines the direction table: the rook's four for a rook, the bishop's four for a bishop, and the queen's eight otherwise (the source's last branch) |
| ChessEngine.Slides | services/chessEngine.ts:65-77 | defines a slider's list: the ray of each direction of its table, in table order |
| ChessEngine.Ray | services/chessEngine.ts:71-76 | defines one direction's while loop: the square's addIfOnBoard target, then the rest of the slide only when the square was on the board and empty |
| ChessEngine.Pushes | services/chessEngine.ts:42-48 | defines a pawn's pushes: one square ahead when it is on the board and empty, then two ahead from the start rank when that square is empty too |
| ChessEngine.Moves | services/chessEngine.ts:21-87 | defines getPossibleMoves' list in its push order: nothing for an empty square, otherwise the pawn, knight, king or slider list of the piece standing there |
| ChessEngine.Visible | services/chessEngine.ts:89-102 | defines calculateVisibility's set: the squares of the viewer's pieces and every square in one of their move lists |
| ChessEngine.AddIfOnBoard | services/chessEngine.ts:28-37 | an on-board square that is empty or holds an enemy is appended, and nothing else is; the result is "keep going" exactly when the square was on the board and empty |
| ChessEngine.AddEachOffset | services/chessEngine.ts:59-63 | the forEach over an offset table (the knight's here, the king's at lines 79-83) appends exactly the offsets' on-board, non-friendly targets, in table order |
| ChessEngine.AddPawnMoves | services/chessEngine.ts:40-56 | a pawn's list is its forward pushes followed by its diagonal captures |
| ChessEngine.AddCaptureAt | services/chessEngine.ts:51-55 | one diagonal appends the square exactly when it is on the board and holds an enemy piece |
| ChessEngine.AddCaptures | services/chessEngine.ts:50-56 | the loop over the column deltas -1 and 1 appends the captures of both diagonals in that order |
| ChessEngine.AddSlide | services/chessEngine.ts:71-76 | the while loop along one direction appends exactly that direction's ray: empty squares, then the blocking enemy square if there is one |
| ChessEngine.AddSlides | services/chessEngine.ts:65-77 | the forEach over a slider's direction table appends the rays of all its directions, in table order |
| ChessEngine.GetPossibleMoves | services/chessEngine.ts:21-87 | the returned list equals the specification `Moves` of the square (which the `ChessRules` lemmas characterise) |
| ChessEngine.AddAll | services/chessEngine.ts:97 | adding a move list to the set leaves exactly the old members plus the list's squares |
| ChessEngine.SeenStep | services/chessEngine.ts:91-100 | one more square of the double loop adds that square and its moves when it holds a piece of the viewer's colour, and nothing otherwise |
| ChessEngine.CalculateVisibility | services/chessEngine.ts:89-102 | a square is in the returned set exactly when it holds one of the viewer's pieces or is a target of one of them |
| ChessRules.RayCons | services/chessEngine.ts:71-76 | one loop turn of a slide: past an empty square the slide continues from the next square; an enemy square ends it inclusively; a friendly or off-board square ends it with nothing |
| ChessRules.RayAt | services/chessEngine.ts:72-74 | the i-th square of a slide is i unit steps along the direction from where it started |
| ChessRules.RaySquare | services/chessEngine.ts:29-34 | every square of a slide is on the board and not friendly, and every square but the last is empty |
| ChessRules.RayEndsFrom | services/chessEngine.ts:73 | a slide of n squares ends for a reason: its last square holds an enemy piece, or the square after it is off the board or holds a friendly piece |
| ChessRules.RayIsSlide | services/chessEngine.ts:71-76 | the ray along d is the squares one, two, … steps from the source; all but the last are empty; the last is on the board and not friendly; and it ends at the first blocking square |
| ChessRules.RayMember | services/chessEngine.ts:71-76 | a square is on the ray exactly when some k steps along d reach it with every square before it empty and it not friendly |
| ChessRules.RayCoversReach | services/chessEngine.ts:73 | every square a slide could reach is within the ray's length |
| ChessRules.SlideBlocked | services/chessEngine.ts:73 | when the first square along a direction is not empty, no slide in that direction goes past it |
| ChessRules.SlidesMember | services/chessEngine.ts:71 | a square is in a slider's list exactly when it is on the ray of one of its directions |
| ChessRules.RookDirectionsOrthogonal | services/chessEngine.ts:68 | the rook's table is exactly the four orthogonal unit steps |
| ChessRules.BishopDirectionsDiagonal | services/chessEngine.ts:69 | the bishop's table is exactly the four diagonal unit steps |
| ChessRules.QueenDirectionsAll | services/chessEngine.ts:70 | the queen's table is exactly all eight unit steps |
| ChessRules.SliderRule | services/chessEngine.ts:65-77 | rook, bishop and queen: a square is a move exactly when it lies along one of the piece's directions, with every square before it empty, and it does not hold a friendly piece |
| ChessRules.StepsMember | services/chessEngine.ts:28-37 | a square is a target of an offset table exactly when it is on the board, not friendly, and its offset from the source is in the table |
| ChessRules.KnightOffsetsAreJumps | services/chessEngine.ts:60 | the knight's table is exactly the eight (±1, ±2) / (±2, ±1) jumps |
| ChessRules.KnightRule | services/chessEngine.ts:59-63 | knight: a square is a move exactly when it is on the board, not friendly, and a knight's jump away |
| ChessRules.KingOffsetsAreSteps | services/chessEngine.ts:80 | the king's table is exactly the eight neighbouring offsets |
| ChessRules.KingRule | services/chessEngine.ts:79-83 | king: a square is a move exactly when it is on the board, not friendly, and adjacent (no castling) |
| ChessRules.PawnRule | services/chessEngine.ts:40-56 | pawn: a move is one square forward onto an empty square; or two forward from the start rank (row 6 for white, row 1 for black) with both squares empty; or one square diagonally forward onto an enemy |
| ChessRules.PawnCaptures | services/chessEngine.ts:50-56 | the capture loop yields exactly the two diagonal squares ahead that hold an enemy |
| ChessRules.MovesSound | services/chessEngine.ts:21-37 | an empty square has no moves; otherwise every move is on the board, never onto a friendly piece, never the source square |
| ChessRules.StepsDistinct | services/chessEngine.ts:59-63 | a table of distinct offsets yields a list without duplicates |
| ChessRules.StepMovesDistinct | services/chessEngine.ts:59-83 | knight and king move lists contain no square twice |
| ChessRules.RayDistinct | services/chessEngine.ts:71-76 | one direction's slide lists no square twice |
| ChessRules.RaysApart | services/chessEngine.ts:71-76 | the slides of two different directions share no square |
| ChessRules.SlidesApart | services/chessEngine.ts:71-76 | a square on the slides of some directions is not on the slide of a direction outside that table |
| ChessRules.SlidesDistinct | services/chessEngine.ts:65-77 | a direction table without repeats yields a slider list without duplicates |
| ChessRules.PushesColumn | services/chessEngine.ts:42-48 | a pawn's pushes are distinct squares in its own column |
| ChessRules.CapturesColumns | services/chessEngine.ts:50-56 | a pawn's captures are distinct squares, each exactly one column to the left or right of the pawn |
| ChessRules.PawnMovesDistinct | services/chessEngine.ts:40-56 | a pawn's pushes and captures contain no square twice |
| ChessRules.MovesDistinct | services/chessEngine.ts:21-87 | for every piece, the move list contains no square twice |
| ChessRules.VisibilityRule | services/chessEngine.ts:89-102 | a viewer's own pieces are always visible; any other square is visible exactly when one of the viewer's pieces can move to it; visible squares are on the board |
| InitialPosition.InitialLayout | services/chessEngine.ts:4-19 | black's pieces R,N,B,Q,K,B,N,R on row 0 and pawns on row 1; rows 2 to 5 empty; white's pawns on row 6 and the same back rank on row 7 |
| InitialPosition.InitialMirror | services/chessEngine.ts:4-19 | the two sides start as colour-swapped mirror images across the middle of the board |
| InitialPosition.InitialKnightMoves | services/chessEngine.ts:59-63 | at the start White's knight on (7, 1) moves to exactly (5, 0) and (5, 2) |
| InitialPosition.InitialPawnMoves | services/chessEngine.ts:40-56 | at the start each white pawn moves to exactly one and two squares ahead, in that order |
| InitialPosition.WhiteMovesStayHome | services/chessEngine.ts:21-87 | at the start every move of a white piece lands on rows 4 to 7 |
| InitialPosition.WhiteSliderStaysHome | services/chessEngine.ts:65-77 | at the start White's rooks, bishops and queen cannot leave the two home rows |
| InitialPosition.BackRankNeighbour | services/chessEngine.ts:4-19 | at the start every neighbour of a square on White's back rank is occupied or off the board |
| InitialPosition.InitialWhiteView | services/chessEngine.ts:89-102 | at the start White sees exactly rows 4 to 7: no black piece is visible |
| InitialPosition.WhiteSeesHome | services/chessEngine.ts:89-102 | at the start White sees rows 6 and 7 through its own pieces and rows 4 and 5 through its pawns' pushes |
| InitialPosition.WhiteSeesOnlyHome | services/chessEngine.ts:89-102 | at the start every square White sees is on the board in rows 4 to 7 |
| InitialPosition.RookSlideOntoEnemy | services/chessEngine.ts:71-76 | a rook's slide towards an enemy pawn includes the pawn's square and stops there |
| InitialPosition.RookSlideBeforeFriend | services/chessEngine.ts:71-76 | a rook's slide towards a friendly pawn stops on the square before it |
| App.Place | App.tsx:59-60 | writing one square of the copied board keeps it eight by eight |
| App.MovedBoard | App.tsx:50-60 | the copied board after both writes is still eight by eight |
| App.HoldsKing | App.tsx:55 | defines the game-ending test: the destination holds a king of either colour |
| App.MovedBoardSquares | App.tsx:50-60 | after a move the source square is empty, the destination holds the moved piece, and every other square is unchanged |
| App.PiecesPlace | App.tsx:59-60 | writing one square changes the piece count by what was removed and what was written |
| App.MovedBoardPieces | App.tsx:50-60 | a move to another square captures exactly one piece when the destination was occupied and none otherwise |
| App.App.constructor | App.tsx:10-17 | the app starts in the lobby with no match |
| App.App.HandleMove | App.tsx:47-71 | no match: nothing changes; otherwise the match gets the moved board and the other colour's turn, and the status becomes game-over exactly when the destination held a king, and is unchanged otherwise |
| ChessBoardView.RenderedPieces | components/ChessBoard.tsx:60-89 | a square shows its piece only when visible to the user's colour; the user's own pieces are always shown; an enemy piece is shown exactly when one of the user's pieces can move onto it |
| ChessBoardView.ChessBoard.constructor | components/ChessBoard.tsx:15 | the board starts with nothing selected |
| ChessBoardView.ChessBoard.PossibleMoves | components/ChessBoard.tsx:19-22 | no selection gives no moves; otherwise every possible move is on the board and differs from the selection |
| ChessBoardView.ChessBoard.HandleSquareClick | components/ChessBoard.tsx:24-42 | outside the user's turn in a game in progress, nothing happens. A click on a possible move of the selection issues that move and clears the selection. Any other click selects the square if it holds one of the user's pieces and clears the selection otherwise. An issued move is always a sound move of a piece |

## Left out

- Network and persistence: `firebaseService.submitMove`, login, matchmaking, the leaderboard, and the random assignment of the user's colour (App.tsx:22-45, 66). They are calls into code outside this model.
- The tactical "whisper" text requested from the generative-text service after each move (App.tsx:68-70). It is I/O into external code.
- Asynchrony: `useCallback`'s captured `match`, and React's batching of the `setGameState`/`setMatch` updates. `HandleMove` applies both updates at once to the state it is given.
- The score and high score in the game state (App.tsx:12-13). `handleMove` does not touch them.
- The match's player, status and winner fields (types.ts:27-36). `handleMove` carries them over unchanged. The model's `ChessMatch` keeps only the fields the move logic reads or writes.
- Memoisation: `useMemo` caching is modelled as recomputing the value, which gives the same result.
- Calling `calculateVisibility` twice on an unchanged board gives the same set. This follows from `CalculateVisibility`'s postcondition, which fixes the set exactly. It is not a separate lemma, because lemmas cannot call methods.
- Presentation:
  - the move-target dots (ChessBoard.tsx:64, 84-86);
  - piece glyphs and colours (44-53);
  - square shading and fog styling (65-81);
  - the coordinate labels (91-96).
- String keys: the `"r,c"` strings of the visibility set are modelled as `(row, column)` pairs. On squares of the board the two encodings are in one-to-one correspondence.
- Aliasing: `INITIAL_BOARD`'s pawn rows repeat one shared piece object (`Array(8).fill`), and `handleMove` shares piece objects between the old and new boards. Pieces are never mutated, so a value model loses nothing.
- App.App.HandleMove: assumes both squares are on the board whenever a match exists, because its callers pass only clicked squares. For an off-board square the source would index `undefined` or write outside the rows.
- ChessEngine.GetPossibleMoves: assumes the source square is on the board. In the source an off-board row throws on `board[r][c]`, while an on-board row with an off-board column reads `undefined` and returns `[]` (services/chessEngine.ts:22-23); the model does not cover either case. Off-board target squares are handled and modelled.
- The 3-D runner mini-game and its components are not part of this model.
