/** The stack discipline that both linking scans share: a *frame* saves the running level counter and
    starts a new one, a *counted* token only counts. For `(` and `{` the frames are the parens; for
    `[` and the written blocks the frames are the brackets. */
module Levels {

  /** The open tokens, innermost first. */
  datatype Open =
    | Nothing
    | Frame(at: nat, outer: Open)
    | Counted(at: nat, outer: Open)

  function Positions(c: Open): seq<nat>
  {
    if c.Nothing? then [] else Positions(c.outer) + [c.at]
  }

  /** Open frames, outermost first. */
  function Frames(c: Open): seq<nat>
  {
    match c
    case Nothing => []
    case Frame(x, outer) => Frames(outer) + [x]
    case Counted(_, outer) => Frames(outer)
  }

  /** Open counted tokens, outermost first. */
  function CountedTokens(c: Open): seq<nat>
  {
    match c
    case Nothing => []
    case Frame(_, outer) => CountedTokens(outer)
    case Counted(x, outer) => CountedTokens(outer) + [x]
  }

  /** Number of tokens counted since the innermost frame. */
  function Level(c: Open): nat
  {
    if c.Counted? then 1 + Level(c.outer) else 0
  }

  /** The level that each open frame saved. */
  function Saved(c: Open): (r: seq<nat>)
    ensures |r| == |Frames(c)|
  {
    match c
    case Nothing => []
    case Frame(_, outer) => Saved(outer) + [Level(outer)]
    case Counted(_, outer) => Saved(outer)
  }

  lemma CountedOuter(c: Open)
    requires Level(c) > 0
    ensures c.Counted? && Level(c) == Level(c.outer) + 1 && Frames(c) == Frames(c.outer) && Saved(c) == Saved(c.outer)
    ensures CountedTokens(c) == CountedTokens(c.outer) + [c.at]
  {
  }

  lemma NothingOpen(c: Open)
    requires Frames(c) == [] && CountedTokens(c) == []
    ensures c == Nothing
  {
  }
}
