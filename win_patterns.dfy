/**
 * Win detection. The game keeps, per mark, eight fixed nine-character
 * regular expressions (three rows, three columns, two diagonals) in which
 * '.' stands for any cell; a board wins when it matches one of them as a
 * whole. This module states that matching directly and proves it equal to
 * checking the three cells of a winning line.
 */
module WinPatterns {
  import opened Optional

  /** The patterns tried when X has just moved, in array order. */
  const XWins: seq<string> := [
    "XXX......", "...XXX...", "......XXX",
    "X..X..X..", ".X..X..X.", "..X..X..X",
    "X...X...X", "..X.X.X.."]

  /** The patterns tried when O has just moved, in array order. */
  const OWins: seq<string> := [
    "OOO......", "...OOO...", "......OOO",
    "O..O..O..", ".O..O..O.", "..O..O..O",
    "O...O...O", "..O.O.O.."]

  /** The mark written by the side to move. */
  function MarkOf(moveX: bool): char {
    if moveX then 'X' else 'O'
  }

  /** The pattern array checkWin uses for the side that has just moved. */
  function Patterns(moveX: bool): seq<string> {
    if moveX then XWins else OWins
  }

  /** The characters '.' does not match in a java.util.regex pattern without DOTALL. */
  predicate IsLineTerminator(c: char) {
    c == '\n' || c == '\r' || c == '\U{85}' || c == '\U{2028}' || c == '\U{2029}'
  }

  predicate NoLineTerminators(s: string) {
    forall i :: 0 <= i < |s| ==> !IsLineTerminator(s[i])
  }

  /** One pattern character against one board character. */
  predicate CellMatches(p: char, c: char) {
    if p == '.' then !IsLineTerminator(c) else c == p
  }

  /**
   * Matcher.matches(): the whole board matches a pattern of literals and '.'.
   * A match has the pattern's length, and a pattern without '.' matches
   * exactly its own text.
   */
  predicate Matches(pattern: string, board: string)
    ensures Matches(pattern, board) ==> |board| == |pattern|
    ensures '.' !in pattern ==> (Matches(pattern, board) <==> board == pattern)
  {
    |board| == |pattern| && forall i :: 0 <= i < |pattern| ==> CellMatches(pattern[i], board[i])
  }

  /** The three cells of the k-th winning line, in the order of the pattern arrays. */
  function Line(k: nat): (t: (nat, nat, nat))
    requires k < 8
    ensures t.0 < t.1 < t.2 < 9
  {
    if k == 0 then (0, 1, 2)
    else if k == 1 then (3, 4, 5)
    else if k == 2 then (6, 7, 8)
    else if k == 3 then (0, 3, 6)
    else if k == 4 then (1, 4, 7)
    else if k == 5 then (2, 5, 8)
    else if k == 6 then (0, 4, 8)
    else (2, 4, 6)
  }

  /** A nine-cell board whose k-th line holds `mark` in all three cells. */
  predicate Completes(board: string, k: nat, mark: char)
    requires k < 8
  {
    |board| == 9 && board[Line(k).0] == mark && board[Line(k).1] == mark && board[Line(k).2] == mark
  }

  /** The pattern text for a line: the mark on its three cells, '.' elsewhere. */
  function LinePattern(t: (nat, nat, nat), mark: char): string {
    seq(9, i => if i == t.0 || i == t.1 || i == t.2 then mark else '.')
  }

  /** Each literal pattern is the pattern of the line with the same index. */
  lemma PatternIsLinePattern(moveX: bool, k: nat)
    requires k < 8
    ensures Patterns(moveX)[k] == LinePattern(Line(k), MarkOf(moveX))
  {
  }

  /**
   * A pattern matches exactly when the board has nine cells and the pattern's
   * line is complete, whatever the other cells hold.
   */
  lemma PatternMatchesIffLine(moveX: bool, k: nat, board: string)
    requires k < 8
    requires NoLineTerminators(board)
    ensures Matches(Patterns(moveX)[k], board) <==> Completes(board, k, MarkOf(moveX))
  {
  }

  /**
   * The index of the last pattern the board matches. checkWin never leaves
   * its loop early, so this is the one whose text it records.
   */
  function LastMatch(patterns: seq<string>, board: string): (r: Option<nat>)
    ensures r.Some? ==> r.value < |patterns| && Matches(patterns[r.value], board)
    ensures r.Some? ==> forall j :: r.value < j < |patterns| ==> !Matches(patterns[j], board)
    ensures r.None? ==> forall j :: 0 <= j < |patterns| ==> !Matches(patterns[j], board)
    decreases |patterns|
  {
    if patterns == [] then None
    else if Matches(patterns[|patterns| - 1], board) then Some(|patterns| - 1)
    else LastMatch(patterns[..|patterns| - 1], board)
  }

  /**
   * In terms of lines: checkWin finds a pattern exactly when one of the
   * mover's lines is complete, and reports the last complete line in the
   * array order (rows, then columns, then diagonals).
   */
  lemma LastMatchIsLastCompleteLine(moveX: bool, board: string)
    requires NoLineTerminators(board)
    ensures LastMatch(Patterns(moveX), board).None? <==>
      forall k :: 0 <= k < 8 ==> !Completes(board, k, MarkOf(moveX))
    ensures forall k :: 0 <= k < 8 ==>
      (LastMatch(Patterns(moveX), board) == Some(k) <==>
        Completes(board, k, MarkOf(moveX)) && forall j :: k < j < 8 ==> !Completes(board, j, MarkOf(moveX)))
  {
    forall k | 0 <= k < 8
      ensures Matches(Patterns(moveX)[k], board) <==> Completes(board, k, MarkOf(moveX))
    {
      PatternMatchesIffLine(moveX, k, board);
    }
  }

  /**
   * A board of nine X's matches every X pattern; the reported line is the
   * last one, the anti-diagonal, not the top row.
   */
  lemma FullBoardReportsLastPattern()
    ensures forall k :: 0 <= k < 8 ==> Matches(XWins[k], "XXXXXXXXX")
    ensures LastMatch(XWins, "XXXXXXXXX") == Some(7)
    ensures XWins[7] == "..X.X.X.."
  {
  }
}
