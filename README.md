# Firebase tic-tac-toe game entity

A Dafny model of `Game`, the entity behind the App Engine Firebase tic-tac-toe
sample. A game has two players (`userX`, `userO`), a nine-character board of
`' '`, `'X'` and `'O'`, a flag `moveX` saying whose turn it is, and a `winner`
with the `winningBoard` pattern that produced the win. `makeMove` accepts a
move only from the player whose turn it is. It writes that player's mark into
the board, runs win detection for that mark, flips the turn, and stores the
entity under both players' channel keys in the realtime database. The model
also covers the update message the entity builds for clients, the channel
key derivation, and the extraction of the database URL from the Firebase
configuration snippet.

Files:

- `optional.dfy`: `Option`.
- `java_strings.dfy`: the parts of `java.lang.String` the entity uses.
  A reference is null or a string (`NullableString`). String conversion renders
  null as `"null"`. `indexOf` returns -1 when nothing is found and clamps a
  negative start to 0. `substring` is `None` where Java throws.
- `win_patterns.dfy`: the `XWins`/`OWins` pattern texts, the regular-expression
  match they are used with, the eight index triples, and `LastMatch`.
- `firebase_config.dfy`: `parseFirebaseUrl`.
- `game.dfy`: the `Game` class and its methods, and lemmas about the channel
  keys and the message. It also holds three verified scenarios with no
  counterpart in the source (`PlayOverwritesOccupiedCell`, `PlayRefusesOutOfTurn`,
  `PlayContinuesAfterWin`). Each plays a single move through the class as written.

The model follows the code as written, which differs from the usual rules of
tic-tac-toe in several ways:

- No move onto an occupied cell is rejected. The cell is overwritten.
- A game with a winner still accepts moves. A later win replaces the recorded
  winner.
- No draw is ever recorded.
- When several patterns match, the last one in array order is reported, not
  the first (`FullBoardReportsLastPattern`).
- Moves by O before O has joined are not rejected as an explicit error. The
  Java code dereferences the null player, so the model requires it to be
  non-null.

## Model

| member | source | states |
|---|---|---|
| `JavaStrings.IndexOf` | appengine/firebase-tictactoe/src/main/java/com/example/appengine/firetactoe/Game.java:86-88 | the result is -1 or a position at or after the clamped start holding the character, and no earlier position from that start holds it |
| `JavaStrings.IndexOfString` | appengine/firebase-tictactoe/src/main/java/com/example/appengine/firetactoe/Game.java:85 | the result is -1 or the first position at or after the start where the key occurs |
| `FirebaseConfig.ParseFirebaseUrl` | appengine/firebase-tictactoe/src/main/java/com/example/appengine/firetactoe/Game.java:84-90 | an extracted URL contains no `"` and is a substring of the snippet |
| `FirebaseConfig.ParseExtractsQuotedValue` | appengine/firebase-tictactoe/src/main/java/com/example/appengine/firetactoe/Game.java:84-90 | for a snippet with `databaseURL`, then `:`, then two `"`, the result is exactly the text between the first `"` after the colon and the next `"` |
| `FirebaseConfig.ParseWithoutKey` | appengine/firebase-tictactoe/src/main/java/com/example/appengine/firetactoe/Game.java:85-89 | with no `databaseURL` key and no `:` from position 10 on, the -1 results go unchecked and the result is the text inside the first two `"` of the snippet |
| `FirebaseConfig.MissingKeyStillParses` | appengine/firebase-tictactoe/src/main/java/com/example/appengine/firetactoe/Game.java:85-89 | an example of the missing-key path: the snippet `"db"` yields `db` |
| `JavaStrings.Substring` | appengine/firebase-tictactoe/src/main/java/com/example/appengine/firetactoe/Game.java:89 | `substring` yields a value exactly when `0 <= begin <= end <= length`, and that value is the characters from `begin` up to `end`; otherwise it throws (no value) |
| `WinPatterns.Line` | appengine/firebase-tictactoe/src/main/java/com/example/appengine/firetactoe/Game.java:41-50 | each of the eight winning lines is three distinct cells of a nine-cell board (that the order is the pattern arrays' order is proved by `PatternIsLinePattern`) |
| `WinPatterns.Matches` | appengine/firebase-tictactoe/src/main/java/com/example/appengine/firetactoe/Game.java:195 | `matcher(board).matches()` for a pattern of literals and `.`: a match has the pattern's length, and a pattern without `.` matches exactly its own text; `.` does not match a Java line terminator |
| `WinPatterns.PatternIsLinePattern` | appengine/firebase-tictactoe/src/main/java/com/example/appengine/firetactoe/Game.java:41-50 | each literal pattern of `XWins`/`OWins` is the mover's mark on exactly the three cells of the line with the same index and `.` elsewhere |
| `WinPatterns.PatternMatchesIffLine` | appengine/firebase-tictactoe/src/main/java/com/example/appengine/firetactoe/Game.java:195 | a pattern matches the whole board iff the board has nine cells and the line's three cells all hold the mark, whatever the other cells hold (boards free of line terminators) |
| `WinPatterns.LastMatch` | appengine/firebase-tictactoe/src/main/java/com/example/appengine/firetactoe/Game.java:194-203 | the reported index is a matching pattern and no later pattern matches; none means no pattern matches |
| `WinPatterns.LastMatchIsLastCompleteLine` | appengine/firebase-tictactoe/src/main/java/com/example/appengine/firetactoe/Game.java:186-203 | win detection finds nothing iff none of the mover's lines is complete, and otherwise reports line k iff k is complete and no later line is |
| `WinPatterns.FullBoardReportsLastPattern` | appengine/firebase-tictactoe/src/main/java/com/example/appengine/firetactoe/Game.java:194-203 | a board of nine X's matches every X pattern, and the recorded pattern is the last one, `..X.X.X..` |
| `Games.ToCharArray` | appengine/firebase-tictactoe/src/main/java/com/example/appengine/firetactoe/Game.java:219 | the board is copied into a fresh character array with the same contents |
| `Games.Game.constructor` | appengine/firebase-tictactoe/src/main/java/com/example/appengine/firetactoe/Game.java:95-101 | a new game holds the given id, players, board and turn; there is no winner and nothing has been sent |
| `Games.Game.GetChannelKey` | appengine/firebase-tictactoe/src/main/java/com/example/appengine/firetactoe/Game.java:158-160 | a channel key is the user's name (`null` for a null user) followed by the game id |
| `Games.ChannelKeysSeparatePlayers` | appengine/firebase-tictactoe/src/main/java/com/example/appengine/firetactoe/Game.java:158-160 | two non-null users of one game share a channel key iff they are the same user |
| `Games.Game.GetMessageString` | appengine/firebase-tictactoe/src/main/java/com/example/appengine/firetactoe/Game.java:139-155 | the message has the five fixed fields, with a null `userO` sent as empty and `moveX` as "true"/"false"; `winningBoard` is present iff the winner is non-null and non-empty |
| `Games.MessageDeterminesState` | appengine/firebase-tictactoe/src/main/java/com/example/appengine/firetactoe/Game.java:139-155 | two games give the same message iff they agree on `userX`, board, turn and winner, on `userO` up to null versus empty, and on the winning board when there is a winner |
| `Games.Game.DeleteChannel` | appengine/firebase-tictactoe/src/main/java/com/example/appengine/firetactoe/Game.java:162-169 | clears the user's channel key, and does nothing for a null user |
| `Games.Game.SendUpdateToUser` | appengine/firebase-tictactoe/src/main/java/com/example/appengine/firetactoe/Game.java:171-178 | writes the entity under the user's channel key, and does nothing for a null user |
| `Games.Game.SendUpdateToClients` | appengine/firebase-tictactoe/src/main/java/com/example/appengine/firetactoe/Game.java:180-183 | writes to X's channel and then to O's, skipping a null player |
| `Games.Game.CheckWin` | appengine/firebase-tictactoe/src/main/java/com/example/appengine/firetactoe/Game.java:186-204 | only the mover's patterns are tried; without a match the winner and winning board are unchanged; otherwise the winner is the mover and the winning board is the text of the last matching pattern |
| `Games.Game.MakeMove` | appengine/firebase-tictactoe/src/main/java/com/example/appengine/firetactoe/Game.java:207-229 | accepted iff the user is the player to move; a refused move changes nothing; an accepted move replaces only the chosen cell with the mover's mark, runs win detection for that mark on the new board, flips the turn and sends to both players |

## Left out

- The static initializer (file reads, credentials, `FirebaseApp.initializeApp`) is I/O and a foreign library. Only `parseFirebaseUrl`, which it calls, is modelled.
- The Firebase database writes are network I/O. Each write is recorded in the ghost `channelLog` as the key written or cleared. The serialized entity stored under the key is not recorded.
- `UUID.randomUUID()` is randomness. The constructor takes the id as a parameter.
- The `java.util.regex` engine is replaced by a whole-string match of literal characters and `.`, where `.` matches anything except Java's line terminators. This is all the eight patterns use.
- The JSON text built by `org.json.JSONObject` is a foreign library. The message is modelled as the map of field names to values handed to it. Key order, escaping and how a null value is written are not modelled.
- Games.Game.GetMessageString: the source compares `winner != ""` by reference, so a non-interned empty winner would still include `winningBoard`. The model compares string contents.
- The no-argument constructor used by the persistence layer, the Objectify annotations, and the plain getters and setters are not modelled. With them a null `id`, `board` or `moveX` becomes possible; the model keeps these three non-null.
- Games.Game.MakeMove: it requires the player to move to be non-null, because `equals` on a null player throws `NullPointerException`. An accepted move's position must lie within the board, because an out-of-range write throws `ArrayIndexOutOfBoundsException`. Neither exception path is modelled.
- A Java `String` is a sequence of UTF-16 code units, so `length()`, `toCharArray()` and the write at `boardBytes[position]` count code units; a Dafny `string` is a sequence of Unicode scalar values. On a board holding a character outside the Basic Multilingual Plane the two disagree (Java can overwrite half of a surrogate pair). Boards hold only `' '`, `'X'` and `'O'`, so the game does not meet this.
- Occupied-cell rejection, game-over rejection and draw detection are not in the source, so the model has none of them.
