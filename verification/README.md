# BF Joust engines

A model of a family of BF Joust engines, and proofs that they agree.

A BF Joust program is a text with `+ - < > .`, loops `[..]`, repeats `(..)*N` and repeats with a
centre, `(A{B}C)%N`, which stand for N times A, then B, then N times C. Two programs run in lock step
on one tape of bytes. A program loses when it leaves the tape, or when its end of the tape is zero in
two consecutive cycles.

The engines never write repeats out. The parser links the four tokens of a paren in place, removes
repeats that do nothing, and links the brackets. The compiler lays the list out as threaded code. At
run time `(`, `{`, `}` and `)` cost no cycle and work on a stack of counters. A `[` may stand in A and
its `]` in C; the jump then leads from one half of the paren into the other and leaves the counters
alone. The model says what a program stands for by writing it out, and proves that every engine does
exactly that:

| part | files |
|---|---|
| reading a text into tokens, writing it, and all forms of spelling it | `Reader`, `Writer`, `Spelling` |
| nested pairings, the op list and its links | `Nest`, `Ops`, `Links`, `Levels`, `Nesting`, `Binding`, `Acceptance`, `Faults` |
| the parser's three passes over the list, in place | `MatchState`, `MatchSteps`, `Clean`, `Retype`, `Compact`, `Loops`, `Parser` |
| what a list stands for, and that the parser keeps it | `Expansion`, `CleanMeaning` |
| the stack of counters against the program written out | `RepMachine`, `BracketCopies`, `Matching`, `Trace`, `Heights`, `Enclosure` |
| the compiler to threaded code, and the polarity flip in place | `ThreadedCode`, `Compiler`, `Flip` |
| matches: sequential engine, simultaneous arena, mirror symmetry | `Arena`, `ArenaLaws`, `Decided`, `ThreadRun`, `CoreEngine` |
| the daemon that tests a program against a hill | `Gearlanced`, `HillOrder` |
| the reference interpreter with one counter for each paren, and its parser | `Skipping`, `Counters`, `EgoRun`, `EgoJoust`, `EgoParser`, `EgoAccepts` |
| engines and interpreter together | `Lockstep`, `ZeroCounts`, `Agreement` |
| native code, also with no counter saved at the outermost level | `Wrench`, `WrenchCode`, `NativeRun`, `Torque` |
| the hill, loading it, its results and two of its scores | `Sums`, `HillData`, `HillFiles`, `Trad`, `Walks`, `Markov` |

The chain of main results is this. `Parser.OpList.Parse` accepts a list exactly if its parens can be
linked, what remains after the clean-up has brackets that can be nested, and both fit the stacks; a
rejection is the one that the first token at fault deserves (`Faults.FaultAt`). An accepted list is well
formed, and `Program` of it is `Program` of the list as written.
`Trace.CompactRunsExpanded` says that the stack of counters executes exactly `Program`, for all answers
about the tested cells. `ThreadedCode.ThreadedRefines` and `ThreadedCode.ThreadedFollows` carry this to
threaded code, and `NativeRun.NativeRunsExpanded` to the bytes of native code. `CoreEngine.Core.RunAll`
runs threaded code on a byte array, with all stacks, and gives for every tape length and both polarities
the score of the simultaneous arena on the two programs written out.

The reference interpreter is followed in the same way. `EgoParser.Parse` finds the same links on its
own, by searching for a paren without a brace, and `EgoAccepts.AcceptsSound` says which lists it accepts. `EgoRun.EgoRunsProgram` says for every linked list what
the interpreter executes (`EgoProgram`), and `EgoJoust.RunJoust` gives the arena's score for these
programs. `Lockstep.StackIsCounters` compares the counters of both in every state of every run.
`Agreement.Check` puts it all together: for two lists of tokens that both sides accept, and for which
`EgoProgram` is `Program`, the engine and the interpreter give equal scores for all tape lengths and
polarities. This is the comparison that `gearlance_test.py` samples, for programs in which every `)` has
its count written.

Findings, where the code does not do what one might expect:

- The parser finds the paren of a brace by counting back from the innermost paren, and rejects some
  lists in which every brace could belong to the nearest paren without one, as in `(({({{}})}))`
  (`Acceptance.StricterThanNesting`). It accepts exactly the lists that can be linked by counting back
  and fit its stacks (`Parser.OpList.MatchRep`).
- The daemon takes the number of a slot for the number of polarity flips so far. Unset slots do not
  flip, so replies behind an odd number of unset slots list kettle before sieve
  (`HillOrder.SieveFirstExactly`, with two programs for which it matters). The order is the documented
  one for every newcomer if the slot is unset or an even number of slots before it are.
- The interpreter's parser accepts parens and braces that cross, as in `({)}`, which the engines reject
  (`EgoAccepts.CrossingAccepted`): it only asks that parens match among themselves, braces among
  themselves, and brackets between them.
- With count 0, the engines keep what is inside the brace and the interpreter skips the whole paren,
  with all braces in it (`ZeroCounts.ZeroCountDiffers` for `({-})%0`). They execute the same for all
  answers exactly if `EgoProgram` is `Program` (`ZeroCounts.AgreeIfSame`). When no skipped paren holds
  the brace of another paren, that is the case exactly if the engines execute no costed instruction of
  a skipped paren (`ZeroCounts.ProgramsAgree`).
- A `)` without a count is read differently: as count 0 by the engines (parser.c:124-128), while the
  interpreter gets a count that is not a number (test/egojsout.js:158) and runs the paren once. In
  `(+)-` it also takes the `-` for the sign of a repeat (test/egojsout.js:154). Nothing is claimed about
  such texts; the model of the interpreter begins with tokens.
- A hill directory with a file that is named like the dummy of a later slot cannot be loaded: the name
  is taken when the file replaces an earlier dummy, one number is left without a name, and computing the
  points fails. `HillFiles.Load` succeeds exactly if there is no such file and there are not too many.

## Model

| member | source | states |
|---|---|---|
| Reader.ReadNumber | parser.c:138-154 | reading digits stops as soon as the number is too large, and the result is the whole decimal number, or the largest count if that is smaller |
| Reader.ReadOps | parser.c:159-198 | the reader delivers exactly the tokens of the text and one final `Done`, with all counts in range and no links |
| Reader.TokensRead | parser.c:180-187 | for every text, the count of each `)` lies in 0..100000 and nothing is linked yet |
| Writer.NumberRead | parser.c:138-152 | a number written in decimal reads as itself |
| Writer.ReadWritten | parser.c:159-198 | every list of tokens that the reader can deliver is read back from the text written from it |
| Spelling.SpelledRead | parser.c:118-198 | a text of letters, comments and counts in every form reads as what its pieces mean: no count is 0, `*` and `%` are alike, comments may stand before the number, a number is capped at 100000, and a negative one is 100000 |
| Spelling.CountsRead | parser.c:131-157 | for every number, `)*c` and `)%c` read as the number, at most 100000, and `)*-c` and `)%-c` as 100000 unless it is 0 |
| Spelling.Letters | parser.c:167-190 | which letter is which token |
| MatchState.InnermostHalf | parser.c:223-241 | the half that is being read belongs to the innermost open paren whose brace is not open |
| MatchSteps.BraceParen | parser.c:223-232 | the paren found by counting back from the innermost one is the paren whose half is being read |
| Parser.OpList.MatchToken | parser.c:207-270 | one token keeps the scan invariant: links right as far as known, missing exactly those of open tokens, stacks equal to functions of the open tokens, no token at fault so far; if it is rejected, it is the first token at fault, the outcome is the one it deserves, and the list cannot be linked or has too many open parens |
| Parser.OpList.MatchRep | parser.c:200-274 | a list is accepted exactly if it can be linked such that each brace belongs to the paren found by counting back and no more than 4096 parens are open at once; a rejection is the one that the first token at fault deserves; the result is fully linked: `(` and `}` pair with `{` and `)` without crossing, and so do the written blocks; it ends at depth 0; tokens do not change |
| Faults.BlamedOnce | parser.c:207-273 | a list deserves at most one rejection, and none if no token is at fault |
| Faults.ScannedOutstanding | parser.c:212-264 | as long as no token is at fault, the open tokens are exactly those after which more tokens have begun than ended, and as many parens are open as the counts of `(` and `)` say |
| Faults.BraceLeftOpen | parser.c:244-245 | `({)` is rejected because of its brace; `Faults.NothingToEnd`, `Faults.NoParen` and `Faults.SecondOfTwo` are examples of the other rejections |
| Acceptance.NextCloser | parser.c:243-246 | in every proper pairing of all tokens the next closer ends the token that was opened last |
| Acceptance.EndsInnermost | parser.c:234-245 | if the tokens can be linked, `}` comes when a brace was opened last, and `)` when a paren was |
| Acceptance.FirstBrace | parser.c:227-229 | if they can be linked by counting back, the paren found has no brace yet |
| Acceptance.NothingLeft | parser.c:272-273 | if they can be linked, nothing is open at the end |
| Acceptance.StricterThanNesting | parser.c:223-231 | `(({({{}})}))` can be linked, but not by counting back, so that it is rejected |
| Binding.LinksUnique | parser.c:200-264 | a list of tokens can be linked in one way only |
| Binding.NearestParen | parser.c:223-241 | in a linked list, `{` belongs to the nearest enclosing paren that has no brace yet |
| EgoParser.BraceFound | test/egojsout.js:180-199 | the interpreter's search for a paren without a brace finds the paren to which the brace is linked |
| EgoParser.NextReading | test/egojsout.js:88-251 | one token: the commands and all stacks of the interpreter's parser are, again, functions of the linked list |
| EgoParser.Parse | test/egojsout.js:60-282 | its commands are those of reading token by token, and it reports nothing exactly if nothing was noticed on the way and everything is matched in the end; if the tokens can be linked and their brackets nested, that is the case, and the commands are those of the linked list |
| EgoParser.CmdsHold | test/egojsout.js:134-213 | from these commands every link and count of the list can be read back |
| EgoAccepts.AcceptsSound | test/egojsout.js:60-282 | the interpreter's parser reports nothing exactly if parens match among themselves, braces among themselves, each brace finds an open paren without one, and brackets match between all of them |
| EgoAccepts.CrossingAccepted | test/egojsout.js:145-213 | `({)}` is accepted by the interpreter and rejected by the engine |
| Parser.OpList.JudgeAll | parser.c:284-341 | the first loop of the clean-up gives count 0 to exactly the halves without content and splits their parens, whatever the nesting |
| Retype.FinalLinked | parser.c:304-337 | after that the list is still fully linked |
| Parser.OpList.CopyNext | parser.c:357-364 | moving the next survivor keeps the list so far the squeezed one, with links among moved ops renumbered, and leaves what has not been read alone |
| Parser.OpList.CutOut | parser.c:345-365 | the compaction in place keeps exactly the ops outside of halves with count 0, in order, with their links renumbered, and `len` is their number |
| Compact.SqueezedLinked | parser.c:343-365 | the links of the survivors are symmetric and lead to survivors |
| Parser.OpList.CleanRep | parser.c:276-366 | the whole clean-up; every remaining half has a count in 1..100000 |
| CleanMeaning.FinalExpand | parser.c:278-280 | retyping halves without content keeps the expansion |
| CleanMeaning.SqueezedExpand | parser.c:343-365 | deleting halves with count 0 keeps the expansion |
| CleanMeaning.CleanKeepsProgram | parser.c:276-366 | the clean-up keeps the program, and the last op is still `Done` |
| Loops.ForcedClose | parser.c:403-410 | every proper nesting of the brackets agrees with the links made so far |
| Loops.CannotEnd | parser.c:396-405 | at a token the scan rejects, no proper nesting exists |
| Parser.OpList.MatchLoop | parser.c:368-420 | a list is accepted exactly if its brackets can be nested with each other and with the blocks and no more than 4096 are open at once; a rejection is the one that the first token at fault deserves |
| Faults.LoopBlamedOnce | parser.c:379-419 | the same for brackets: at most one rejection |
| Parser.OpList.Parse | parser.c:422-436 | which lists are accepted, exactly, and which of the twelve rejections every other list gets; an accepted list is well formed and stands for the same program as the list as written |
| Expansion.BracedExpand | gearlance.c:443-459 | `(A{B}C)%N`, two halves and what is between them, stands for N times A, then B, then N times C, if B holds no brace of another paren; `BracketCopies.PlugWhole` is the general case |
| Expansion.CopiesExpand | gearlance.c:421-459 | the copies with their counters, taken as instructions, are the expansion |
| BracketCopies.PlugWhole | parser.c:386-401 | writing out halves in order is the same as plugging the inside of the brace into the copies of A and C around it |
| Matching.ProgramBalanced | parser.c:379-415 | in the program written out brackets balance |
| Matching.MatchingPartner | gearlance.c:402-415 | each copy of `[` is matched by the copy of its static `]` in the same turns of all parens around it |
| RepMachine.RunSegment | gearlance.c:421-459 | the repeat stack runs through a segment making exactly its copies, in order, with the counters of their turns |
| Trace.TurnInStep | gearlance.c:402-462 | a cycle keeps the compact and the expanded program at the same point, also after a jump between the halves of a paren |
| Trace.CompactRunsExpanded | gearlance.c:402-462 | for every accepted program and all answers about the tested cells, the repeat stack executes exactly the instructions of the expanded program |
| Trace.EmitsOnce | gearlance.c:402-462 | and nothing else: what it executes is determined by the answers |
| Heights.RepStepHeight | gearlance.c:421-459 | a repeat instruction always finds what it pops |
| Heights.LoopDepth | parser.c:390-405 | a `[` and its `]` sit at equal depth |
| Heights.StackHeight | gearlance.c:226-231 | in every reachable state the stack is as high as the static nesting, and never higher than 4096 |
| Heights.ReachableInStep | gearlance.c:421-459 | from every reachable state finitely many repeat instructions lead to one that takes a cycle |
| Enclosure.LoopEnclosing | parser.c:386-410 | a `[` and its `]` sit inside the same parens, even in different halves |
| Enclosure.CountersInRange | gearlance.c:421-459 | in every reachable state each counter on the stack lies in 1..count of its paren |
| Compiler.Layout | gearlance.c:169-189 | the first pass finds the offset of every instruction |
| Compiler.Emit | gearlance.c:191-220 | the second pass writes the words of every instruction at its offset, jumps to the offset after the mate |
| Compiler.Compile | gearlance.c:167-223 | both passes together |
| ThreadedCode.StepThreads | gearlance.c:421-459 | each repeat instruction of the list is one step of the threaded code |
| ThreadedCode.ThreadedRefines | gearlance.c:402-462 | every reachable instruction pointer is the offset of an instruction, never an operand, in step with the list |
| ThreadedCode.ThreadedFollows | gearlance.c:402-462 | the threaded code does all that the list does |
| Flip.FlipCommutes | gearlance.c:287-292 | flipping the polarity of compiled code is the same as compiling the flipped list |
| Flip.FlippedWellFormed | gearlance.c:287-292 | a flipped program is well formed |
| Flip.FlippedProgram | gearlance.c:287-292 | the flipped list stands for the flipped program |
| Flip.FlipList | torquelance-compile.c:63-77 | the flip in the list, in place |
| Arena.EngineKeepsRunning | gearlance.c:305-355 | a cycle that does not end the match leaves both pointers on the tape and both death counters 0 or 1 |
| ArenaLaws.CyclesAgree | gearlance.c:305-368 | running A and then B with the cached cell has the effect of the simultaneous step: tape, falls, deaths, verdict |
| ArenaLaws.EngineIsJoust | gearlance.c:224-462 | so the scores agree for all programs, both polarities and every tape length |
| ArenaLaws.EngineScoreRange | gearlance.c:305-355 | every match ends with score -1, 0 or 1 |
| ArenaLaws.JoustMirrors | web/content/internals.html:24-28 | exchanging the programs negates the score, in sieve and in kettle |
| ArenaLaws.EngineMirrors | web/content/internals.html:24-28 | the same for the engine; a program ties itself |
| Decided.Wanderer | gearlance.c:394-400 | `(>)*n` falls off a tape of at most n cells |
| Decided.Probe | gearlance.c:402-419 | `[]` is passed at once between the flags, where cells begin at zero, and never on a flag |
| Decided.Decrements | gearlance.c:305-355 | `(-)*n` against a program that does nothing loses exactly if n is 128 modulo 256 and less than 100000: a flag begins at 128 and has to be zero twice in a row within 100000 cycles |
| ThreadRun.Thread.RepOp | gearlance.c:421-459 | one repeat instruction on the array stack is one step of the threaded code |
| ThreadRun.Thread.Settle | gearlance.c:421-459 | repeat instructions end at the instruction that the expanded program has next |
| ThreadRun.Thread.Turn | gearlance.c:402-419 | an instruction that takes a cycle moves both on |
| CoreEngine.Core.Cycle | gearlance.c:303-462 | one cycle on the byte array is one cycle of the arena, and touches no cell outside the tape |
| CoreEngine.Core.Match | gearlance.c:258-280 | a match computes the arena's score, whatever counters, stacks and tape held before |
| CoreEngine.Core.FlipCode | gearlance.c:287-292 | the flip in place changes exactly the `+` and `-` tokens |
| CoreEngine.Core.RunAll | gearlance.c:224-296 | all tape lengths and both polarities get the score of the simultaneous arena; the right program's code is left flipped |
| Gearlanced.JoustFlipped | gearlanced.c:243-249 | flipping the right program exchanges the two polarities |
| Gearlanced.AfterFlipsProgram | gearlanced.c:243-249 | a newcomer that was flipped evenly often is itself, and oddly often stands for the flipped program; it is well formed all the time |
| Gearlanced.Daemon.TestSlot | gearlanced.c:229-257 | the reply for a slot holds the newcomer's own results, in this order |
| Gearlanced.Daemon.Test | gearlanced.c:215-258 | a program is tested exactly if it is accepted, and the reply holds the same for every slot of the hill; the hill does not change |
| Gearlanced.Daemon.Assign | gearlanced.c:259-276 | a slot is set exactly if it exists and the program is accepted, and then holds that program; nothing happens otherwise |
| Gearlanced.Daemon.Blank | gearlanced.c:277-290 | a slot is unset |
| HillOrder.FullHill | gearlanced.c:229-257 | behind slots that are all set, every reply has the documented order |
| HillOrder.OwnResults | gearlanced.c:229-257 | a newcomer that gives up is told -1, and one that meets such a program is told 1, in every slot |
| HillOrder.PolaritiesDiffer | gearlance.c:285-294 | there are programs that tie in sieve and win in kettle |
| HillOrder.SieveFirstExactly | gearlanced.c:243-254 | so the order is wrong for some newcomers and right for all others |
| Counters.CloseLeads | test/egojsout.js:336-362 | the end of a half starts the next turn or leaves the half, with the one static counter |
| EgoRun.ChainSegment | test/egojsout.js:290-381 | the interpreter runs through a segment making exactly the copies of the list that it in effect runs, whatever other counters hold |
| EgoRun.EgoTurnInStep | test/egojsout.js:316-326 | a cycle keeps the interpreter and the expanded program at the same point |
| EgoRun.EgoRunsProgram | test/egojsout.js:285-381 | for every linked and nested list, with any counts, the interpreter executes the instructions of `EgoProgram` |
| EgoRun.EgoEmitsOnce | test/egojsout.js:285-381 | and no others: what it executes is determined by the answers |
| Skipping.AsRunLinked | test/egojsout.js:328-367 | when skipped parens hide braces of other parens, what the interpreter in effect runs is still a linked list, in which the parens that lost their brace are plain |
| Lockstep.StayTogether | test/egojsout.js:328-367 | from states that belong together, the same answers lead both machines to states that belong together, or stop both |
| Lockstep.StackIsCounters | test/egojsout.js:328-367 | in every state of every run: both are at the same instruction, and level by level over the parens around it the counter on the engines' stack is the count minus the static counter |
| EgoRun.EnginesAgree | gearlance_test.py:11-15 | from the same tokens both execute the same instructions, if `EgoProgram` is `Program` |
| ZeroCounts.TracesDiffer | test/egojsout.js:328-334 | two different programs execute differently for some answers |
| ZeroCounts.AgreeIfSame | test/egojsout.js:328-334 | for all lists: interpreter and engines execute the same for all answers exactly if `EgoProgram` is `Program` |
| ZeroCounts.ProgramsAgree | test/egojsout.js:328-334 | if no skipped paren holds the brace of another paren, that is the case exactly if the engines execute no costed instruction inside a skipped paren |
| ZeroCounts.AgreeIfNothingLost | test/egojsout.js:328-334 | both together |
| ZeroCounts.NeverLonger | test/egojsout.js:328-334 | when no skipped paren holds the brace of another paren, no segment is longer for the interpreter than for the engines |
| ZeroCounts.ZeroCountDiffers | test/egojsout.js:328-334 | for `({-})%0` the engines execute `-` and the interpreter nothing |
| Agreement.SameScore | gearlance_test.py:11-15 | the lists that the two parsers make of the same tokens give the same score |
| Agreement.Check | gearlance_test.py:11-15 | both sides parse two lists of tokens and run all matches: if the engine accepts them, and the interpreter runs what they stand for, the two tables of scores are equal, and hold the scores of the simultaneous arena; which lists the engine accepts is exact |
| EgoJoust.Fighter.RepOp | test/egojsout.js:328-367 | one repeat instruction, in place |
| EgoJoust.Fighter.Step | test/egojsout.js:285-381 | one cycle of a program returns the change and the movement of the instruction that `EgoProgram` has next |
| EgoJoust.Cycle | test/egojsout.js:417-475 | one cycle of both is one simultaneous cycle of the arena on these programs |
| EgoJoust.RunJoust | test/egojsout.js:385-495 | a match computes the arena's score of the two `EgoProgram`s, for all counts |
| Wrench.VariantsAgree | wrenchlance-left.c:148-160 | an opener saves the counter exactly if its closer restores it |
| Wrench.StepSimulates | wrenchlance-ops.s:83-131 | the code that does not save at depth 0 simulates the code that always saves |
| Wrench.ElisionRunsExpanded | wrenchlance-right.c:221-259 | it executes the instructions of the expanded program and no others, whatever the counter register holds at first |
| WrenchCode.Choose | wrenchlance-left.c:148-161 | both passes choose the variant by the nesting depth |
| WrenchCode.Compile | wrenchlance-left.c:139-200 | every instruction is written where the first pass put it, as its patched template |
| WrenchCode.JumpLands | wrenchlance-left.c:188-193 | every patched displacement leads to the first byte of the instruction after the mate |
| WrenchCode.CountHeld | wrenchlance-left.c:195-196 | every patched count is the count of the instruction |
| NativeRun.FetchFits | wrenchlance-left.c:139-200 | the count, the target of the jump and the next address that are read out of the bytes of an instruction are those of the instruction |
| NativeRun.NativeRunsExpanded | wrenchlance-ops.s:83-131 | run from the bytes alone, the native code executes the instructions of the expanded program |
| Torque.Compile | torquelance-compile.c:166-208 | the same layout with one variant for each instruction: everything is where the first pass put it, so that jumps land and counts are held as above |
| HillData.ResultMatrix.Set | zhill/hill.rb:536-544 | writing an entry changes that entry and the opposite one only, and never the diagonal |
| HillData.ResultMatrix.Replace | zhill/hill.rb:551-567 | a new matrix in which exactly one row and column have changed |
| HillData.RenamedNamed | zhill/hill.rb:433-440 | names and numbers remain inverse to each other exactly if the new name is not another program's |
| HillData.Hill.constructor | zhill/hill.rb:353-380 | a hill of dummies with different names that all tie |
| HillData.Tallied | zhill/hill.rb:450-453 | duel points are the number of wins minus that of losses, and everything else is a tie |
| HillData.AddPairs | zhill/hill.rb:448-455 | going through all pairs gives each program the sum of its row, and fails exactly if there are fewer names than programs |
| HillData.Hill.Replace | zhill/hill.rb:424-466 | replacing a program changes its name, its row and its column, recomputes the points, and leaves the old hill alone; it fails exactly if the new name is another program's |
| HillFiles.NextClash | zhill/hill.rb:82-90 | while files replace dummies one by one, a name is taken exactly if it is that of the dummy of a later slot |
| HillFiles.Load | zhill/hill.rb:60-95 | a directory is loaded exactly if it has not too many files and none is named like the dummy of a later slot; slot k then holds file k, or its dummy; each pair has the results of the file loaded later, of the only file, or ties; and the points are those of these results |
| HillData.PointsSumZero | zhill/hill.rb:448-457 | the points of all programs add up to zero |
| HillData.PointsInRange | web/content/internals.html:34-39 | points lie between -(n-1) and n-1 |
| Trad.WeightedIsExcess | zhill/score.rb:95-114 | the sum behind a score is (n-1)^2 and what each pair of opponents contributes beyond its fair share |
| Trad.TradRange | zhill/score.rb:95-117 | every traditional score lies between 0 and 100 |
| Trad.TradWinner | zhill/score.rb:72-82 | a program that wins everything scores exactly 100 |
| Trad.FullWinner | zhill/score.rb:95-114 | a program whose results are all wins has n-1 points and the score 100 |
| Trad.TwoPrograms | zhill/score.rb:95-114 | on a hill of two, points and score in terms of wins and losses |
| Trad.Score | zhill/score.rb:95-114 | the loops over pairs compute these scores, each between 0 and 100, and 100 for a program that wins everything |
| Walks.TimesKeepsSum | zhill/score.rb:59-66 | a matrix of probabilities keeps the sum of a row |
| Walks.DotStochastic | zhill/score.rb:59-60 | squaring keeps a matrix of probabilities one |
| Walks.SquareLeaps | zhill/score.rb:59-60 | if a step with a matrix is p steps of the chain, a step with its square is 2p steps |
| Markov.Chain | zhill/score.rb:44-57 | the matrix holds the transition probabilities, to move and to stay, which are non-negative and add up to 1 in each row |
| Markov.Score | zhill/score.rb:40-73 | the scores are the uniform row, moved by 32 m steps of the chain, times 1000, where m is the first round that changes the row by less than 0.000001 on average, or 100 |
| Markov.SettledOnce | zhill/score.rb:62-66 | there is only one such m |
| Markov.ScoresShare | zhill/score.rb:62-70 | every score is non-negative and together they make 1000 |
| Markov.AlwaysWins | zhill/score.rb:27-33 | a program that always wins has the score 1000 (1 - (1 - 1/n)^(32 m + 1)) |
| Markov.AlwaysLoses | zhill/score.rb:27-33 | a program that always loses has the score 1000 (1/n)^(32 m + 1) |
| Markov.WinnerAhead | zhill/score.rb:27-33 | on a hill of two, a program that wins everything has at least three times the other's score |

## Left out

- ZeroCounts.ProgramsAgree: when a skipped paren holds the brace of another paren, agreement is characterised by the equality of the two programs (`ZeroCounts.AgreeIfSame`), and not by a condition on the tokens.
- EgoJoust.RunJoust: the left program always has the normal polarity, as in every call of the repository; output callbacks, pauses and the debugging command are not modelled.
- EgoParser.Parse: what the commands of lists that cannot be linked do is not modelled, nor are reading counts from the text and the debugging command.
- CoreEngine.Core.RunAll: the two code arrays are different objects, as every caller passes; execution tokens are tagged words, so that an operand is never mistaken for a token.
- WrenchCode.Compile: the assembled templates are a parameter, and displacements are not cut to 32 bits.
- Torque.Compile: the same; the meaning of its templates is not modelled.
- wrenchlance-right writes labels for jumps instead of displacements; only its choice of variants is modelled.
- The stacks of the two linking scans are sequences, and the parser's list an array of the size of the input; allocation and growth are not modelled.
- Files, sockets, pipes, buffered reading and the byte format of commands and replies.
- chainlance, genelance and the text interfaces of the engines.
- Statistics of cranklance and cranklanced.
- Hill rankings: sorting by score with ties in any order, old ranks, challenges and reports.
- Trad.Score: the twisted weighting is not modelled, nor are the points and the iterated scores.
- Markov.Score: real numbers instead of floating point.
