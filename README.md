# Two-player chess session: server seats and turns, client board rules

This project models a small networked chess game. One server process holds a
single shared game: two seats (white and black), each empty or held by one
connection, and one position owned by the chess rules library. Three socket
handlers change that state. **Connection** seats a newcomer in the first open
seat, white first, or makes it a spectator. **Move** lets only the occupant of
the side to move submit a move, and reports the rules library's verdict.
**Disconnect** frees the leaver's seat and re-announces the board. The browser
client turns a drag from one board cell to another into a move request. It
colours the squares and decides from its role which pieces can be dragged and
whether the board is drawn flipped.

The modules:

- `Wrappers`: the `Option` type, standing for JavaScript's `null`.
- `Protocol`: sides, connection ids, move requests, and the emitted events with
  their recipients (`One(id)` or `All`). The rules library is modelled as an
  `Engine<P>` value holding three functions over an abstract position type `P`:
  `turn`, `tryMove` (returns `Accepted(next)`, `Rejected` or `Threw`) and `fen`.
- `App`: the session state, each handler as a function from the old state to
  the new state plus the list of emitted events in order, the lemmas about
  them, and the class `GameServer`, whose methods update the fields in place.
  Each method is proved equal to its function.
- `AppTrace`: runs any sequence of events through the handlers one at a time,
  as the single event loop does, and proves properties over whole runs.
  Seat exclusivity holds throughout a run. Observers are never promoted.
  Seats go out in arrival order.
- `ChessGame`: the client's cell-to-square naming and its inverse,
  square shades, the draggable and flip rules, the glyph table, the 8×8
  board-building loop, and the class `Client` holding the drag state, the role
  and the client's copy of the position.

Notes on the source's handlers:

- A rules-library exception sends an `error` event with the text
  "Invalid move" (app.js:62-64). This is a different event from
  `invalidMove`.
- The disconnect handler re-announces the board with a `boardState` event
  (app.js:82).
- Admission writes only to a seat it has just found open (app.js:29-36), so
  a seat is never "already occupied" when it is assigned.

Connection ids are modelled as non-empty strings, which the socket transport
guarantees. So the source's `!players.white` test means exactly "white is
`null`". The source does not enforce seat exclusivity. The model proves it is
preserved whenever a connecting id holds no seat yet, and the transport's fresh
ids guarantee that.

## Model

| member | source | states |
|---|---|---|
| `Protocol.SideCode` | app.js:31-35 | white is sent as "w" and black as "b", one character each, and the code determines the side |
| `App.Connection` | app.js:28-40 | the position is untouched; exactly one event goes out, to the newcomer only; it is a player role exactly when a seat was open, and then the newcomer occupies that side; it is a spectator role exactly when nothing changed |
| `App.ConnectionTakesWhite` | app.js:29-32 | with white open, the newcomer takes white, black and the position are unchanged, and the only event is `playerRole "w"` to the newcomer |
| `App.ConnectionTakesBlack` | app.js:33-36 | with white held and black open, the newcomer takes black, white is unchanged, and the only event is `playerRole "b"` to the newcomer |
| `App.ConnectionSpectates` | app.js:37-39 | with both seats held, nothing changes and the only event is `spectatorRole` to the newcomer |
| `App.ConnectionKeepsExclusive` | app.js:29-36 | admitting an id that holds no seat keeps "no id holds both seats" |
| `App.MoveRequest` | app.js:43-66 | a move request never changes the seats, and every event it emits goes to everyone or to the submitter |
| `App.UnauthorisedMoveIgnored` | app.js:45-50 | a request from anyone but the occupant of the side to move changes nothing and emits nothing; this covers an empty seat and a spectator |
| `App.SilentIffUnauthorised` | app.js:45-64 | a request emits nothing if and only if the submitter is not the occupant of the side to move |
| `App.AcceptedMoveBroadcast` | app.js:52-56 | an accepted move by the turn owner sets the position to the library's result, keeps the seats, and emits to everyone the unmodified move and then `boardState` with the new position's FEN |
| `App.RejectedMoveReported` | app.js:58-60 | a rejected move changes nothing and emits only `invalidMove` with the request, to the submitter; nothing is broadcast |
| `App.ThrowingMoveReported` | app.js:62-64 | a throwing rules call changes nothing and emits only `error "Invalid move"` to the submitter; nothing is broadcast |
| `App.PositionChangesOnlyOnAcceptance` | app.js:49-56 | if the position changes, the submitter owned the turn and the library accepted the move with exactly that result |
| `App.Disconnect` | app.js:69-83 | the position is unchanged, and exactly one `boardState` with the current FEN is broadcast, whoever left |
| `App.DisconnectFreesOwnSeat` | app.js:73-79 | white is cleared if the leaver held it; otherwise black is cleared if the leaver held it; the other seat is untouched; with exclusive seats the leaver holds no seat afterwards |
| `App.DisconnectKeepsExclusive` | app.js:73-79 | disconnect preserves seat exclusivity |
| `App.DisconnectIdempotent` | app.js:73-79 | with exclusive seats, a second disconnect of the same id leaves the seats as the first did |
| `App.DisconnectTwiceWithoutExclusive` | app.js:73-79 | without exclusivity the else-if matters: an id holding both seats loses white on the first disconnect and black only on the second |
| `App.FreedSeatGoesToNextNewcomer` | app.js:29-75 | after the white player leaves, the next newcomer is told `playerRole "w"` and takes white, and black is kept |
| `App.OnlyConnectionFillsSeats` | app.js:43-83 | move requests leave both seats as they were; disconnects only empty seats, never fill one |
| `App.GameServer.constructor` | app.js:9-15 | the server starts with both seats open and the library's starting position |
| `App.GameServer.OnConnection` | app.js:25-40 | the new fields and the emitted events are those of `Connection`; exclusivity is kept when the id held no seat |
| `App.GameServer.OnMove` | app.js:43-66 | the new position and the emitted events are those of `MoveRequest`; the seat fields are not touched |
| `App.GameServer.OnDisconnect` | app.js:69-83 | the new seats and the emitted events are those of `Disconnect`; with exclusive seats before, they stay exclusive and the leaver holds none |
| `AppTrace.HandleSeatsOnlyNewcomer` | app.js:29-36 | after any one event, a seated id was seated before or is the id that just connected |
| `AppTrace.HandleKeepsExclusive` | app.js:29-79 | every handler preserves exclusivity, given that the id of a connect event holds no seat yet |
| `AppTrace.RunKeepsExclusive` | app.js:25-83 | over any run of events whose connect ids are distinct and not already seated, seat exclusivity holds at the end |
| `AppTrace.NoSeatWithoutConnect` | app.js:29-39 | an id without a seat never gains one in a run unless the run connects that id; seats freed by disconnects never go to an existing spectator |
| `AppTrace.FullSeatsMakeSpectators` | app.js:37-39 | while both seats are held, any run of connects leaves the state unchanged and tells each newcomer, in order, that it is a spectator |
| `AppTrace.Handle` | app.js:25-83 | dispatches one event to its handler; only a move can change the position, and a move never changes the seats |
| `AppTrace.Run` | app.js:25-83 | handles events one at a time, in order, concatenating their emissions; a run with no move keeps the position, and a run of moves only keeps the seats |
| `AppTrace.AdmissionOrder` | app.js:29-39 | from open seats, a run of connects tells the first id it is white, the second that it is black, and every later id that it is a spectator, each privately and in order; afterwards white holds the first id, black the second (or stays open with one id), and the position is the start |
| `ChessGame.SquareName` | public/js/chessgame.js:111-112 | a cell's name has two characters, a file letter 'a'..'h' then a rank digit '1'..'8' |
| `ChessGame.ParseSquare` | public/js/chessgame.js:111-112 | the inverse of the naming: a string names a cell exactly when it is a file letter followed by a rank digit, and that cell's name is the string |
| `ChessGame.SquareNameRoundTrip` | public/js/chessgame.js:111-112 | parsing a cell's name gives back the cell |
| `ChessGame.SquareNameInjective` | public/js/chessgame.js:111-112 | distinct cells of the 8×8 grid have distinct names |
| `ChessGame.SquareNameCorners` | public/js/chessgame.js:111-112 | row 0 is rank 8 and column 0 is file a: the top-left cell is a8 and the bottom-right cell is h1 |
| `ChessGame.MoveFor` | public/js/chessgame.js:110-114 | the built move always asks for queen promotion, and its from and to squares denote exactly the source and target cells |
| `ChessGame.ShadeOf` | public/js/chessgame.js:18 | a cell is light exactly when its row and column have the same parity |
| `ChessGame.ShadeAlternates` | public/js/chessgame.js:18 | light exactly when row plus column is even, so neighbouring cells in a row or a column have opposite shades |
| `ChessGame.ShadeMatchesSquare` | public/js/chessgame.js:18 | a cell is dark exactly when its file number and its rank have the same parity, so a1 is dark |
| `ChessGame.InitializeBoard` | public/js/chessgame.js:12-30 | the nested loops create 64 cells in row-major order; cell i is at row i/8, column i%8, shaded by the rule |
| `ChessGame.Draggable` | public/js/chessgame.js:51 | a piece is draggable exactly when the role is "w" and the piece is white, or the role is "b" and the piece is black |
| `ChessGame.Flipped` | public/js/chessgame.js:61 | when the board is flipped, exactly the black pieces are draggable; when it is not, no black piece is |
| `ChessGame.PlayerDragsOwnPieces` | public/js/chessgame.js:51-61 | a client holding role "w" or "b" can drag exactly the pieces of its colour, and its board is flipped exactly when it is black |
| `ChessGame.SpectatorDragsNothing` | public/js/chessgame.js:51-61 | with a null role no piece is draggable and the board is not flipped |
| `ChessGame.PieceGlyph` | public/js/chessgame.js:128-143 | every table entry is a single glyph, so the result is empty exactly when the type is not in the table |
| `ChessGame.GlyphInjective` | public/js/chessgame.js:128-143 | different types in the table get different glyphs |
| `ChessGame.LowerCaseTypesUseOutlineGlyphs` | public/js/chessgame.js:128-143 | the lower-case types p, n, b, r, q, k get the outline glyphs U+2654..U+2659, whatever the piece's colour |
| `ChessGame.Client.constructor` | public/js/chessgame.js:5-7 | no drag in progress, no role, the library's starting position |
| `ChessGame.Client.OnPlayerRole` | public/js/chessgame.js:148-151 | the role becomes the string the server sent |
| `ChessGame.Client.OnSpectatorRole` | public/js/chessgame.js:153-156 | the role becomes null, after which no piece is draggable and the board is not flipped |
| `ChessGame.Client.OnDragStart` | public/js/chessgame.js:67-74 | the dragged piece and its source cell are recorded together |
| `ChessGame.Client.OnDragEnd` | public/js/chessgame.js:79-82 | the dragged piece and the source cell are both null afterwards |
| `ChessGame.Client.OnDrop` | public/js/chessgame.js:94-104 | with no dragged piece, no move is sent and nothing changes; otherwise the move from the source cell to the drop cell is tried locally and sent exactly when accepted |
| `ChessGame.Client.HandleMove` | public/js/chessgame.js:109-123 | the move for the two cells is applied to the local position and returned for sending if the library accepts it; otherwise nothing is sent and the position is kept |

## Left out

- The chess rules library: move legality, FEN output and FEN loading. It is the abstract `Engine<P>`, so properties of chess itself are not modelled. These include "the side to move alternates after an accepted move" and "a loaded FEN re-serialises identically".
- Express page serving, templates, static files and `server.listen`: I/O plumbing.
- The move payload: the server relays whatever value the client sent (app.js:43, 52, 55), and the rules library also accepts move strings in standard algebraic notation. The model's payload is always a record of from, to and an optional promotion. No proved property depends on its shape.
- The socket transport: emissions are returned as ordered lists and not sent; event registration and delivery are not modelled.
- Logging with `console.log` and `console.error`.
- DOM work: element creation, classes, `innerHTML`, `dataTransfer`, `querySelectorAll`, and the drawing in `renderBoard`. Only its draggable and flip rules are kept.
- `ChessGame.InitializeBoard`: instead of appending elements to the board, it returns the cells in creation order with their row, column and shade; the drag-over and drop listeners are not modelled.
- The `parseInt` of dataset strings in the drag and drop handlers: cells arrive as integers on the board, a precondition. This hides one case, observed by reading and not executed: `onDrop` reads the drop target's dataset (public/js/chessgame.js:98-101). On a square holding a piece the target is the piece element, which has no row or column. `parseInt` then yields NaN, and the `to` field is not a square name. Unless the page's stylesheet, which is not part of this model, keeps pointer events off pieces, a capture made by dragging never reaches the server.
- The browser's own rule that only draggable elements start a drag: `OnDragStart` accepts any piece.
- The client's `boardState` handler, which calls the library's FEN loader, and its `move` handler, which hands a move object to that loader.
- `ChessGame.Client.HandleMove`: a library exception escapes the drop handler uncaught in the browser; the model treats it like a rejection (nothing sent, position kept), which is what the user sees.
- `ChessGame.PieceGlyph`: JavaScript object lookup also finds inherited keys such as "toString"; the model's table holds only the twelve own entries. The rules library produces only the six lower-case types, all of them in the table, so the upper-case entries are never looked up and black pieces are drawn with the outline glyphs too.
