/** The level catalog of the logger: the `LEVEL` enumeration, its display
    strings, its console colours and the seven-entry level table every logger
    is created with. */
module Levels {

  /** A log level is the integer value of the C enumeration `LEVEL`. A caller
      may pass any integer, so the mappings below also say what happens to
      values outside the enumeration. */
  type Level = int

  const Debug: Level := 0
  const Info: Level := 1
  const Warning: Level := 2
  const Error: Level := 3
  const Fatal: Level := 4
  const Message: Level := 5
  const Unknown: Level := 6

  /** Number of enumerators, and so of entries in a logger's level table. */
  const LevelCount: nat := 7

  /** The six levels that have a display string and a colour of their own. */
  predicate IsNamed(level: Level) {
    Debug <= level <= Message
  }

  /** The terminal colours the logger uses. */
  datatype Color = Red | Green | Yellow | Orange | Blue | Magenta | Cyan | White

  /** The ANSI escape sequence each colour constant stands for. */
  function ColorCode(c: Color): string {
    match c
    case Red => "\U{1B}[0;31m"
    case Green => "\U{1B}[0;32m"
    case Yellow => "\U{1B}[0;33m"
    case Orange => "\U{1B}[0;93m"
    case Blue => "\U{1B}[0;34m"
    case Magenta => "\U{1B}[0;35m"
    case Cyan => "\U{1B}[0;36m"
    case White => "\U{1B}[0;37m"
  }

  /** The escape sequence that restores the terminal's default colour. */
  const ResetCode: string := "\U{1B}[0m"

  /** The display string of a level; every value that is not one of the six
      named levels, `Unknown` included, shows as "UNKNOWN". */
  function LevelString(level: Level): string {
    if level == Debug then "DEBUG"
    else if level == Info then "INFO"
    else if level == Warning then "WARNING"
    else if level == Error then "ERROR"
    else if level == Fatal then "FATAL"
    else if level == Message then "MESSAGE"
    else "UNKNOWN"
  }

  /** The colour a console line of this level is printed in; every value that
      is not one of the six named levels is printed in white. */
  function LevelColor(level: Level): Color {
    if level == Debug then Green
    else if level == Info then Cyan
    else if level == Warning then Yellow
    else if level == Error then Orange
    else if level == Fatal then Red
    else if level == Message then Blue
    else White
  }

  /** One entry of a logger's level table. */
  datatype LevelHandler = LevelHandler(level: Level, color: Color, count: int)

  /** A level table always has one entry per enumerator. */
  type LevelTable = t: seq<LevelHandler> | |t| == LevelCount
    witness [LevelHandler(Debug, Green, 0), LevelHandler(Info, Cyan, 0),
             LevelHandler(Warning, Yellow, 0), LevelHandler(Error, Orange, 0),
             LevelHandler(Fatal, Red, 0), LevelHandler(Message, Blue, 0),
             LevelHandler(Unknown, White, 0)]

  /** The table a logger is created with. */
  function InitialLevels(): LevelTable {
    [LevelHandler(Debug, Green, 0), LevelHandler(Info, Cyan, 0),
     LevelHandler(Warning, Yellow, 0), LevelHandler(Error, Orange, 0),
     LevelHandler(Fatal, Red, 0), LevelHandler(Message, Blue, 0),
     LevelHandler(Unknown, White, 0)]
  }

  /** The named levels have pairwise distinct display strings, and a level
      shows as "UNKNOWN" exactly when it is not a named level. */
  lemma LevelStringClassifies(a: Level, b: Level)
    ensures IsNamed(a) && IsNamed(b) && a != b ==> LevelString(a) != LevelString(b)
    ensures LevelString(a) == "UNKNOWN" <==> !IsNamed(a)
    ensures LevelString(a) in {"DEBUG", "INFO", "WARNING", "ERROR", "FATAL", "MESSAGE", "UNKNOWN"}
  {
  }

  /** The named levels have pairwise distinct colours, none of them white;
      every other value is white. */
  lemma LevelColorClassifies(a: Level, b: Level)
    ensures IsNamed(a) && IsNamed(b) && a != b ==> LevelColor(a) != LevelColor(b)
    ensures LevelColor(a) == White <==> !IsNamed(a)
    ensures LevelColor(a) != Magenta
  {
  }

  /** Entry i of the initial table is the i-th enumerator with the colour the
      console printer gives it and a zero count, so table and printer agree. */
  lemma InitialLevelsAgree(i: int)
    requires 0 <= i < LevelCount
    ensures InitialLevels()[i].level == i
    ensures InitialLevels()[i].color == LevelColor(i)
    ensures InitialLevels()[i].count == 0
  {
  }
}
