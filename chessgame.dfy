/**
 * The browser client: board cells and their square names, the colouring of
 * squares, which pieces are draggable and when the board is flipped, the piece
 * glyph table, and the drag state that turns a drop into a move request.
 */
module ChessGame {
  import opened Wrappers
  import opened Protocol

  /** A board cell: row 0 is rank 8 (the top of an unflipped board), column 0 is file a. */
  datatype Cell = Cell(row: int, col: int)

  predicate OnBoard(c: Cell)
  {
    0 <= c.row < 8 && 0 <= c.col < 8
  }

  // ---- Square names ----

  /** The algebraic name of a cell: the file letter, then the rank digit. */
  function SquareName(c: Cell): (s: string)
    requires OnBoard(c)
    ensures |s| == 2 && 'a' <= s[0] <= 'h' && '1' <= s[1] <= '8'
  {
    [(97 + c.col) as char, ('0' as int + 8 - c.row) as char]
  }

  /** The cell a square name denotes, if it is one of the 64 names. */
  function ParseSquare(s: string): (r: Option<Cell>)
    ensures r.Some? ==> OnBoard(r.value) && SquareName(r.value) == s
    ensures r.None? <==> !(|s| == 2 && 'a' <= s[0] <= 'h' && '1' <= s[1] <= '8')
  {
    if |s| == 2 && 'a' <= s[0] <= 'h' && '1' <= s[1] <= '8' then
      Some(Cell(8 - (s[1] as int - '0' as int), s[0] as int - 'a' as int))
    else
      None
  }

  lemma SquareNameRoundTrip(c: Cell)
    requires OnBoard(c)
    ensures ParseSquare(SquareName(c)) == Some(c)
  {
  }

  /** Distinct cells have distinct names. */
  lemma SquareNameInjective(c: Cell, d: Cell)
    requires OnBoard(c) && OnBoard(d) && SquareName(c) == SquareName(d)
    ensures c == d
  {
    SquareNameRoundTrip(c);
    SquareNameRoundTrip(d);
  }

  /** The corners: the top-left cell is a8 and the bottom-right cell is h1. */
  lemma SquareNameCorners()
    ensures SquareName(Cell(0, 0)) == "a8" && SquareName(Cell(7, 7)) == "h1"
    ensures SquareName(Cell(6, 4)) == "e2" && SquareName(Cell(4, 4)) == "e4"
  {
  }

  /** The move request the client builds for a drag from one cell to another. */
  function MoveFor(source: Cell, target: Cell): (m: Move)
    requires OnBoard(source) && OnBoard(target)
    ensures m.promotion == Some("q")
    ensures ParseSquare(m.from) == Some(source) && ParseSquare(m.to) == Some(target)
  {
    SquareNameRoundTrip(source);
    SquareNameRoundTrip(target);
    Move(SquareName(source), SquareName(target), Some("q"))
  }

  // ---- Square colours ----

  datatype Shade = Light | Dark

  /** Light when row plus column is even; the same for any integers in JavaScript's remainder. */
  function ShadeOf(row: int, col: int): (r: Shade)
    ensures r == Light <==> row % 2 == col % 2
  {
    if (row + col) % 2 == 0 then Light else Dark
  }

  /** Horizontally and vertically adjacent cells have opposite shades. */
  lemma ShadeAlternates(row: int, col: int)
    ensures ShadeOf(row, col) != ShadeOf(row, col + 1)
    ensures ShadeOf(row, col) != ShadeOf(row + 1, col)
  {
  }

  /**
   * The colouring in chess terms: a square is dark exactly when its file number
   * (a = 1) and its rank have the same parity, so a1 is dark and h1 light.
   */
  lemma ShadeMatchesSquare(c: Cell)
    requires OnBoard(c)
    ensures var name := SquareName(c);
      var file := name[0] as int - 'a' as int + 1;
      var rank := name[1] as int - '0' as int;
      ShadeOf(c.row, c.col) == Dark <==> (file + rank) % 2 == 0
  {
  }

  /** A board cell as the initial board layout creates it. */
  datatype SquareCell = SquareCell(cell: Cell, shade: Shade)

  /** The 64 cells in row-major order, each with its shade. */
  method InitializeBoard() returns (cells: seq<SquareCell>)
    ensures |cells| == 64
    ensures forall i :: 0 <= i < 64 ==>
      cells[i] == SquareCell(Cell(i / 8, i % 8), ShadeOf(i / 8, i % 8))
  {
    cells := [];
    var row := 0;
    while row < 8
      invariant 0 <= row <= 8
      invariant |cells| == 8 * row
      invariant forall i :: 0 <= i < |cells| ==>
        cells[i] == SquareCell(Cell(i / 8, i % 8), ShadeOf(i / 8, i % 8))
    {
      var col := 0;
      while col < 8
        invariant 0 <= col <= 8
        invariant |cells| == 8 * row + col
        invariant forall i :: 0 <= i < |cells| ==>
          cells[i] == SquareCell(Cell(i / 8, i % 8), ShadeOf(i / 8, i % 8))
      {
        assert (8 * row + col) / 8 == row && (8 * row + col) % 8 == col;
        cells := cells + [SquareCell(Cell(row, col), ShadeOf(row, col))];
        col := col + 1;
      }
      row := row + 1;
    }
  }

  // ---- Roles: dragging and flipping ----

  /** A piece as the rules library describes it: colour and type letter. */
  datatype Piece = Piece(color: Side, kind: string)

  /** A piece is draggable when the client's role string equals the piece's colour code. */
  predicate Draggable(role: Option<string>, p: Piece)
    ensures Draggable(role, p) <==>
      (role == Some("w") && p.color == White) || (role == Some("b") && p.color == Black)
  {
    role == Some(SideCode(p.color))
  }

  /** The board is drawn flipped for the black player. */
  predicate Flipped(role: Option<string>)
    ensures Flipped(role) ==> forall p: Piece :: Draggable(role, p) <==> p.color == Black
    ensures !Flipped(role) ==> forall p: Piece :: !(Draggable(role, p) && p.color == Black)
  {
    role == Some("b")
  }

  /**
   * A client given a seat by the server can drag exactly the pieces of its own
   * colour, and sees the board flipped exactly when it plays black.
   */
  lemma PlayerDragsOwnPieces(side: Side, p: Piece)
    ensures Draggable(Some(SideCode(side)), p) <==> p.color == side
    ensures Flipped(Some(SideCode(side))) <==> side == Black
  {
  }

  /** A spectator, whose role is null, can drag nothing and sees white at the bottom. */
  lemma SpectatorDragsNothing(p: Piece)
    ensures !Draggable(None, p) && !Flipped(None)
  {
  }

  // ---- Glyphs ----

  /** The glyph table, keyed by piece type letter. */
  const Glyphs: map<string, string> := map[
    "p" := "\U{2659}", "r" := "\U{2656}", "n" := "\U{2658}",
    "b" := "\U{2657}", "q" := "\U{2655}", "k" := "\U{2654}",
    "P" := "\U{265F}", "R" := "\U{265C}", "N" := "\U{265E}",
    "B" := "\U{265D}", "Q" := "\U{265B}", "K" := "\U{265A}"]

  /** The glyph of a piece type, or the empty string for a type missing from the table. */
  /** Every table entry is one character, so a glyph is empty exactly when the type is unknown. */
  function PieceGlyph(kind: string): (g: string)
    ensures kind in Glyphs ==> |g| == 1
    ensures g == "" <==> kind !in Glyphs
  {
    if kind in Glyphs then Glyphs[kind] else ""
  }

  /** Different piece types in the table are drawn with different glyphs. */
  lemma GlyphInjective(k1: string, k2: string)
    requires k1 in Glyphs && k2 in Glyphs && k1 != k2
    ensures PieceGlyph(k1) != PieceGlyph(k2)
  {
  }

  /** Lower-case types are drawn with the outline glyphs (U+2654 to U+2659), whatever the piece's colour. */
  lemma LowerCaseTypesUseOutlineGlyphs(p: Piece)
    requires p.kind in {"p", "n", "b", "r", "q", "k"}
    ensures '\U{2654}' <= PieceGlyph(p.kind)[0] <= '\U{2659}'
  {
  }

  // ---- Client state ----

  /**
   * The client's module-level variables: the piece being dragged and its cell,
   * the role the server assigned, and the client's own copy of the position.
   */
  class Client<P> {
    var draggedPiece: Option<Piece>
    var sourceSquare: Option<Cell>
    var playerRole: Option<string>
    var position: P
    const engine: Engine<P>

    /** A drag in progress always records its source cell. */
    predicate Valid()
      reads this
    {
      (draggedPiece.Some? <==> sourceSquare.Some?) &&
      (sourceSquare.Some? ==> OnBoard(sourceSquare.value))
    }

    function CanDrag(p: Piece): bool
      reads this
    {
      Draggable(playerRole, p)
    }

    function IsFlipped(): bool
      reads this
    {
      Flipped(playerRole)
    }

    constructor (engine: Engine<P>, start: P)
      ensures Valid()
      ensures draggedPiece == None && sourceSquare == None && playerRole == None
      ensures position == start && this.engine == engine
    {
      this.engine := engine;
      draggedPiece, sourceSquare, playerRole := None, None, None;
      position := start;
    }

    method OnPlayerRole(role: string)
      modifies this`playerRole
      ensures playerRole == Some(role)
    {
      playerRole := Some(role);
    }

    method OnSpectatorRole()
      modifies this`playerRole
      ensures playerRole == None
      ensures forall p: Piece :: !CanDrag(p)
      ensures !IsFlipped()
    {
      playerRole := None;
    }

    method OnDragStart(piece: Piece, from: Cell)
      requires OnBoard(from)
      modifies this`draggedPiece, this`sourceSquare
      ensures Valid()
      ensures draggedPiece == Some(piece) && sourceSquare == Some(from)
    {
      draggedPiece := Some(piece);
      sourceSquare := Some(from);
    }

    method OnDragEnd()
      modifies this`draggedPiece, this`sourceSquare
      ensures Valid()
      ensures draggedPiece == None && sourceSquare == None
    {
      draggedPiece := None;
      sourceSquare := None;
    }

    /**
     * A drop on a cell: without a dragged piece nothing happens; otherwise the
     * move is tried on the local position and sent to the server if accepted.
     */
    method OnDrop(target: Cell) returns (sent: Option<Move>)
      requires Valid() && OnBoard(target)
      modifies this`position
      ensures old(draggedPiece).None? ==> sent.None? && position == old(position)
      ensures old(draggedPiece).Some? ==>
        var mv := MoveFor(sourceSquare.value, target);
        match engine.tryMove(old(position), mv)
        case Accepted(next) => sent == Some(mv) && position == next
        case _ => sent.None? && position == old(position)
    {
      if draggedPiece.None? {
        return None;
      }
      sent := HandleMove(sourceSquare.value, target);
    }

    /** Build the move for a drag, apply it locally and report whether to send it. */
    method HandleMove(source: Cell, target: Cell) returns (sent: Option<Move>)
      requires OnBoard(source) && OnBoard(target)
      modifies this`position
      ensures var mv := MoveFor(source, target);
        match engine.tryMove(old(position), mv)
        case Accepted(next) => sent == Some(mv) && position == next
        case _ => sent.None? && position == old(position)
      ensures sent.Some? ==> sent.value.promotion == Some("q")
    {
      var mv := MoveFor(source, target);
      var result := engine.tryMove(position, mv);
      match result {
        case Accepted(next) =>
          position := next;
          sent := Some(mv);
        case _ =>
          sent := None;
      }
    }
  }
}
