# Verification of the Verilog simulator kernel and the license server

This project models two parts of the repository that keep complicated state, and proves what the
rest of the program relies on.

**The `vl` Verilog simulator.** A scheduler runs statements from five event lists per time slot. A
process is a stack of frames in an array of 256, an action list holds statements and the saved
stacks of waiting processes, and evaluating a statement only unfolds it one level back into the
queue. Around it are the time wheel, the four-valued evaluator with its adder, the resolver of nets
with several drivers, the symbol table, and the printer and reader of sized literals.

**The license server.** It keeps a list of running jobs under user limits, hides its verdict in a
block of random bytes that the client decodes, and reads a license file whose entries were
scattered by random probing.

## How it is built

| file | what it holds |
|---|---|
| `Basics.dfy` | options, lower-case letters, and what it is to pick elements of a sequence in order |
| `Actions.dfy` | statements, actions, frames and saved stacks; the purge of a disabled block |
| `ActionLists.dfy`, `TimeWheel.dfy` | linked action lists with end pointers; linked time slots; the map they refine |
| `Flat.dfy` | the scheduler without a stack: each process is its remaining statements |
| `Views.dfy`, `Scheduler.dfy` | what a stack and the lists show of a flat state; the scheduler itself |
| `Overruns.dfy`, `Depths.dfy` | a design whose run needs a frame more than there are; the nesting depth below which none does |
| `Timing.dfy` | one process followed through a whole run |
| `Unfolding.dfy`, `Control.dfy` | the structured meaning of statements, and the queue that unfolds them; which statements each control statement queues |
| `InitialBlocks.dfy` | the two joined: an initial block run by the stack scheduler |
| `Timetables.dfy`, `Chains.dfy` | processes with known delays, their timetables, and an evaluator that keeps them |
| `Nonblocking.dfy`, `Updates.dfy` | batches of non-blocking updates; the same from sampling to update in the scheduler |
| `Bits.dfy`, `Evaluator.dfy`, `Arithmetic.dfy` | four-valued bits, expressions, addition and subtraction |
| `Resolver.dfy` | nets with several drivers |
| `Literals.dfy`, `RoundTrip.dfy`, `Reading.dfy` | printing and reading sized literals; reading back what was printed; what any literal reads as |
| `SymbolTable.dfy` | the hash table, its generators, and sets of names |
| `Token.dfy`, `LicenseFile.dfy`, `Leases.dfy`, `LeaseRuns.dfy` | the license server and its files |

Where the source updates objects in place there is a class or a method over arrays and linked
nodes, and its contract ties the new state to a function of the old one; the lemmas are about those
functions. An opaque statement is an oracle: an arbitrary function from the statement, the values
of the design and the time to what is appended to which list, what is disabled, and whether the
process goes on, waits for a delay or waits for an event. The scheduler's theorems therefore hold
of every program. Delays are natural numbers, checksums are uninterpreted functions, and random
numbers are arbitrary sequences.

## What was found

The code is modelled as it stands. Where it does not do what its surroundings suggest, a lemma gives
the exact condition or a concrete input:

- Subtraction inverts its second operand in that operand's own width, so a narrower one is not
  extended first. The difference is right exactly when the second operand is at least as wide as
  the first; 4'd5 - 1'd1 is 6 (`SubtractIsExactWhen`, `FiveMinusOne`).
- A non-blocking statement keeps its sampled value in one variable of its own. A batch is the
  simultaneous assignment that was meant exactly if every bit an earlier update of a repeated
  statement writes is written again later; a loop that queues one statement for two elements gives
  both the second value (`ExactlyTheSafeBatches`, `LoopIsSpoiled`).
- The octal printer writes a zero digit above every x or z digit. What it prints is read back
  exactly when only zeros lie above the lowest unknown digit; 6'bxxxxxx is not
  (`OctalReadsBackExactlyWhenSafe`, `SixUnknown`).
- The hash of a key can be the smallest 32-bit number, whose negation is itself, and the bin index
  then lies before the table; the key "knmszha" is one (`BinInTableExactly`, `TrapFallsOutside`).
- `?:` with an undecided condition is never contradicted for an operator that reads its operand bit
  by bit. The complement is taken in the operand's own width, and it is contradicted exactly if the
  longer arm has a 0 beyond the width of the other (`CondReadsRight`, `NotCondReadsRightExactlyWhen`,
  `UnequalArmsContradict`). As vectors, the results agree in width only for equally wide arms
  (`CondFillsExactlyWhen`).
- Bitwise operators, reductions and logical operators answer x only where the unknown bits can make a
  difference. `==` answers x although other bits already differ, and a condition with an unknown bit
  is undecided although another bit is 1 (`ReductionIsTight`, `LogicIsTight`, `ComparisonIs`, `ChoiceIs`).
- The value of a net does not depend on the order of its drivers when each of them is fair: a driver
  of 0 is at least as strong on its 0-side as on its 1-side, a driver of 1 the other way round, and one
  of x differs by at most one (`ResolutionIsOrderFree`). A driver is harmless for every balanced pair of
  others if and only if it is fair (`OrderFreeExactlyWhenFair`, `UnbalancedOrderMatters`).
- The frame for triggered statements is pushed without a check against the 256 frames of the
  stack, unlike the frame of a block. A turn of the loop needs it and does not have it exactly when
  all frames are in use, the top one is not empty, and a triggered statement is to go before a block
  (`Iterate`); blocks nested 255 deep get there (`FramesRunOut`). With statements nested at most 254
  deep and plain triggered statements no turn is ever short of a frame (`RunShallow`).
- A literal has at most 32 bits (`vl/include/vl_defs.h:88`), and what is printed is not cut to that,
  so longer vectors are not read back (`PrintedReadsBack`).
- A license block is looked up by the lowest byte of the program code, and users are counted by the
  whole code. User limits are kept in every run exactly if all codes asked for fit in a byte; the
  jobs for a larger code are entered under the limit of its lowest byte and never counted
  (`QuotaIsKeptExactlyForBytes`, `TwoUsersForOne`).
- When there is no block for a request and the server cannot resolve its own name, the answer is a
  grant, and no job is entered (`GrantedExactlyWhen`).
- An abandoned job is gone after more than 1200 seconds; at exactly 1200 it can still be there
  (`SilentIsGone`, `StillThereAtTheLimit`).

## Model

| member | source | states |
|---|---|---|
| Actions.PurgeIsFilter | vl/vl_sim.cc:1392-1435 | at every depth of saved stacks, the purge leaves exactly the statements outside the disabled block, in their order |
| Actions.OutsideExactly | vl/vl_sim.cc:1392-1435 | the statements that survive are, in order, exactly those whose context does not have the block |
| Actions.PurgedClean | vl/vl_sim.cc:1408-1424 | after a purge no saved stack is left that has nothing to run at any level |
| Actions.CleanIsFixed | vl/vl_sim.cc:1392-1435 | a list without empty stacks and without the block is left as it is |
| ActionLists.ActionList.Append | vl/vl_sim.cc:1565-1582 | the linked list is extended at its end, or unchanged when it has the statement; head and end pointers stay right |
| ActionLists.ActionList.Purge | vl/vl_sim.cc:2025-2034 | after relinking in place the nodes carry exactly the recursive filter of the old list, and the end pointer is the last node |
| ActionLists.ActionList.PurgeNodes | vl/vl_sim.cc:1395-1434 | the loop over nodes, with its predecessor pointer, reaches the filter whatever is removed, and keeps only nodes that were there |
| ActionLists.HalfwayFurther | vl/vl_sim.cc:1399-1433 | treating one more node, by change or removal, leads to the same final list |
| ActionLists.ActionList.MoveFrom | vl/vl_sim.cc:1679-1694 | a promoted list passes its head on and is empty; the receiving list has all its nodes, and its end pointer is left as it was |
| ActionLists.ActionList.TakeAll | vl/vl_sim.cc:1748-1752 | handing the active list over makes every list well linked again, whatever the end pointer was |
| TimeWheel.FindSlot | vl/vl_sim.cc:1521-1560 | the slot for a time is found or made, times stay strictly sorted, every other time keeps its very lists, and the head object stays the head even when an earlier time comes first |
| TimeWheel.OpenFirst | vl/vl_sim.cc:1524-1535 | the head object becomes the earlier slot and a new object takes over its time, lists and successor |
| TimeWheel.OpenAfter | vl/vl_sim.cc:1545-1558 | a new slot is linked in between two times, or at the end |
| TimeWheel.Append | vl/vl_sim.cc:1565-1665 | the wheel's map from times and regions to action lists changes in that one list alone, by an append that refuses a statement already there |
| TimeWheel.Purge | vl/vl_sim.cc:2022-2059 | every slot's active, zero-delay, non-blocking and monitor lists are filtered, the triggered lists are spared, and all lists stay well linked |
| TimeWheel.PurgeClears | vl/vl_sim.cc:2022-2059 | no statement of the block and no empty saved stack is left in those four lists of any slot, whatever their depth |
| TimeWheel.DropFirst | vl/vl_sim.cc:436-438 | dropping the first slot removes just its time; only later times are left, and the next slot has the earliest of them |
| TimeWheel.StartRound | vl/vl_sim.cc:1676-1696 | a round hands over, on linked lists with stale end pointers, the active list if it has work; else the zero-delay list; else the updates if the zero-delay list is empty; the monitor list only when both are; that list is empty from then on, all others are as before, and all are well linked |
| TimeWheel.RoundIsPromoted | vl/vl_sim.cc:1679-1694 | the same on plain lists, and that is the promotion of the flat machine |
| TimeWheel.AppendIsLocal | vl/vl_sim.cc:1565-1665 | an append extends exactly one list, at its end, or changes nothing |
| TimeWheel.WheelIsFuture | vl/vl_sim.cc:1565-1582 | on the active lists the wheel does what the scheduler model does to its future slots, for appends and purges |
| Actions.AppendedAllIs | vl/vl_sim.cc:1565-1582 | a run of appends leaves what was there in front, and then come, in order, the first given task for each statement that was not there; every given statement is there in the end |
| Views.AbsorbView | vl/vl_sim.cc:1861-1862 | what an evaluation appends to the lists, the future slots and the waiting processes is what the flat machine's evaluation does |
| Views.AbsorbExtends | vl/vl_sim.cc:1861-1862 | every list keeps its front and gets, in order, each new statement once; the triggered list gets the statements and the waiting processes of each trigger in the order of the triggers; each delayed statement goes to the slot of the present time plus its delay |
| Scheduling.Scheduler.Purge | vl/vl_sim.cc:1866-1882 | a disabled block is filtered out of all lists and of every frame in use |
| Scheduling.Scheduler.Merge | vl/vl_sim.cc:1883-1913 | new statements go into a frame of their own for a block, reusing an empty sequential frame, and before the rest of the frame otherwise; a frame beyond the last is reported |
| Scheduling.Scheduler.Park | vl/vl_sim.cc:1915-1956 | the frames above the fence, and no others, are saved for the delay's slot or the event, and the stack falls back to the fence |
| Scheduling.Scheduler.Execute | vl/vl_sim.cc:1861-1956 | evaluating one statement is one step of the flat machine |
| Scheduling.Scheduler.Splice | vl/vl_sim.cc:1759-1804 | before a block starts, the triggered statements up to the first saved process get a frame and run next |
| Scheduling.Scheduler.Unwind | vl/vl_sim.cc:1820-1832 | a saved stack is put above the fence and becomes the running process |
| Scheduling.Scheduler.Stall | vl/vl_sim.cc:1806-1813 | with nothing left to run the accumulated triggered events become the ready list |
| Scheduling.Scheduler.Iterate | vl/vl_sim.cc:1755-1956 | one turn of the loop is exactly the named steps of the flat machine: it makes one, or drops an exhausted frame; all frames and lists after it are given; the two ways to run out of frames occur exactly under the stated conditions, one reported by the source and one not |
| Overruns.FramesRunOut | vl/vl_sim.cc:1791-1803 | a design and a start state from which the loop arrives at the push that the source does not check |
| Depths.NeverJams | vl/vl_sim.cc:1743-1956 | on frames and lists that keep to a nesting depth of at most 254, no turn of the loop, however many, is short of a frame |
| Depths.RunShallow | vl/vl_sim.cc:1743-1956 | so the loop is never aborted for that, and never writes past the last frame |
| Depths.ClockworkIsShallow | vl/vl_sim.cc:3118-3429 | the control statements and delays keep to their nesting depth |
| Scheduling.Scheduler.DoActions | vl/vl_sim.cc:1745-1956 | for every program, however the loop ends and up to every point of it, what it does is a run of the flat machine; when it ends by itself nothing active or triggered is left |
| Scheduling.Scheduler.EvalSlot | vl/vl_sim.cc:1669-1698 | regions run in order, however and wherever the slot ends: at every promotion of the run nothing active or triggered is left, zero-delay work goes first, updates only when there is none, and monitor actions only when there is neither; on normal exit all lists are empty |
| Scheduling.Scheduler.EvalRegion | vl/vl_sim.cc:1675-1694 | one round promotes a region only when nothing more urgent is left, and runs it |
| Scheduling.Scheduler.AddNextActions | vl/vl_sim.cc:1701-1714 | actions kept for the next time point go before the active ones |
| Scheduling.Scheduler.NextRegion | vl/vl_sim.cc:1679-1694 | the zero-delay list becomes active if it has work; else the update list if that has; else the monitor list; that list is empty from then on and the others are as before |
| Scheduling.Scheduler.NextSlot | vl/vl_sim.cc:436-438 | the earliest of the other slots comes next, with exactly its list; nothing of the old slot is kept but what is for the next time point and what waits |
| Scheduling.Scheduler.Simulate | vl/vl_sim.cc:399-449 | the whole simulation, also one that is stopped or goes on for ever, is up to every point of it a play of flat moves in region order, each promotion as for `EvalSlot`, slot after slot at strictly increasing times; when it ends by itself nothing is left to do |
| Scheduling.SpliceView | vl/vl_sim.cc:1791-1803 | the new frame shows the triggered statements in front of the running process |
| Views.ExecutedView | vl/vl_sim.cc:1861-1956 | purge, merge and park on frames are what the flat machine does to the process; a stack without empty frames inside leaves no empty remainder behind unless a block was disabled |
| Views.PurgeView | vl/vl_sim.cc:1866-1882 | purging the frames and lists is filtering the flat processes |
| Views.PurgeListsClears | vl/vl_sim.cc:2022-2059 | no statement of the block is left in the zero-delay, update and monitor lists, in the future slots, and among what waits; the triggered list and the one for the next time point are untouched |
| Views.MergedInProcess | vl/vl_sim.cc:1883-1913 | with or without reuse of the frame, what was set up comes directly before the rest of its process |
| Views.MergedAlone | vl/vl_sim.cc:1883-1913 | what a single ready statement sets up becomes a running process or goes before the ready list |
| Views.ParkedView | vl/vl_sim.cc:1919-1956 | parking moves the whole remainder of the running process, and nothing of another one, to where it waits |
| Views.LeadingView | vl/vl_sim.cc:1793-1798 | the triggered list is cut before its first saved process |
| Flat.TimesIncrease | vl/vl_sim.cc:399-449 | in a play that takes the earliest slot each time, slot times strictly increase, whatever statements schedule |
| Flat.RunIsPlay | vl/vl_sim.cc:1745-1956 | the steps of one loop keep the region order |
| Flat.PromotesInOrder | vl/vl_sim.cc:1676-1696 | at every promotion in every ordered play exactly the zero-delay list becomes ready if it has work, exactly the update list if only that has, and the monitor list only when both are empty; nothing else changes |
| Flat.RegionsWait | vl/vl_sim.cc:1676-1696 | as long as nothing is disabled, whatever waits in a region stays in it, in its place, until that region is promoted |
| Flat.WakesExactly | vl/vl_sim.cc:1806-1832 | an event wakes exactly what is parked under its number, in the order in which it was parked, and leaves exactly the rest |
| Flat.OthersSleepOn | vl/vl_sim.cc:1806-1832 | what is parked under an event that is not raised stays parked, whatever else an evaluation raises |
| Flat.SetUpRunsNext | vl/vl_sim.cc:1883-1913 | what a statement of a process sets up runs before the rest of the process, what a lone statement sets up before the rest of the ready list |
| Flat.ProcessWaits | vl/vl_sim.cc:1915-1956 | a process that gives up control goes whole to the end of the slot of its delay, of the zero-delay list, or of what waits for its event |
| Timing.RunsAlone | vl/vl_sim.cc:1745-1956 | for every design, the evaluations of one process in a whole run, each with its time, are those of the process alone on its own clock: none is lost, repeated, early or late; and at every point the process is in the one place where its clock says, or its event |
| Timing.ClockIsDelays | vl/vl_sim.cc:1919-1937 | the clock of a process that waits for no event is its start time plus the delays it has met |
| Timing.AdvanceHolds | vl/vl_sim.cc:436-438 | the next slot begins the processes due in it and overtakes none |
| Timing.DisabledHolds | vl/vl_sim.cc:2022-2059 | a disabled block is cut out of the process wherever it is, unless it has just been woken |
| Timing.ParkOwn | vl/vl_sim.cc:1919-1956 | a delayed remainder waits in the slot of its target time, or in the zero-delay list, or with its event, and nowhere else |
| Timetables.ProcessRunsAlone | vl/vl_sim.cc:399-449 | with conditions, loops and delays in it and any other processes beside it, a process runs as it does alone, and is at its end when nothing is left to do |
| Timetables.RunKeepsTimetable | vl/vl_sim.cc:399-449 | a process with known delays makes its i-th evaluation at the i-th time of its timetable, with nothing outstanding that was due before the present |
| Timetables.ClockworkConforms | vl/vl_sim.cc:2556-2600 | an evaluator of control statements and delays that meets the assumptions of those theorems |
| Chains.ChainRunsOnTime | vl/vl_sim.cc:3414-3429 | every statement of a chain of delays is evaluated once, at the start plus the delays before it, and all of them are when the run is complete |
| Chains.ChainRunsForEver | vl/vl_sim.cc:2556-2600 | an always process makes the i-th evaluation of its r-th round at r rounds' delays plus its own, in every run that has come past that time |
| Chains.SimulateChain | vl/vl_sim.cc:399-449 | the scheduler with its frames and lists runs a chain on time, and to its end when the simulation ends by itself |
| Unfolding.StructuredRunsInQueue | vl/vl_sim.cc:3118-3402 | running the queue makes as many evaluations as the structured semantics, reaches the same output, and leaves what comes after untouched |
| Unfolding.QueueRunsStructured | vl/vl_sim.cc:3118-3402 | when the queue runs empty, the structured semantics ends there with the same output |
| Unfolding.SetUpMeans | vl/vl_sim.cc:3118-3390 | what setting up a statement queues means the statement |
| Unfolding.HeadForward | vl/vl_sim.cc:3130-3402 | one evaluation preserves the meaning of the queue, for every kind of statement |
| Unfolding.HeadBackward | vl/vl_sim.cc:3130-3402 | and loses none of it |
| Unfolding.ConfigKept | vl/vl_sim.cc:3314-3345 | an evaluation keeps the loop counters and the queue in a state in which no queued statement shares a counter with another |
| Unfolding.StepUnfolds | vl/vl_sim.cc:1883-1913 | one step of the scheduler puts the unfolded statements before the rest of the process |
| Unfolding.StructuredUnrolls | vl/vl_sim.cc:3118-3402 | the queue is empty after exactly as many evaluations as the structured run makes, and not before |
| Control.CaseTakesFirstMatch | vl/vl_sim.cc:3229-3265 | a case statement queues, and the structured semantics runs, exactly the part of the first arm, defaults aside, that has a matching label |
| Control.CaseTakesDefaults | vl/vl_sim.cc:3229-3265 | when no label matches, exactly the parts of the default arms, in order |
| Control.ConditionsDecide | vl/vl_sim.cc:3196-3402 | which part an if statement queues, and what while and for loops queue, by the value of the condition |
| Control.BlocksAndLoopsQueue | vl/vl_sim.cc:3118-3302 | what blocks, initial and always statements and endless loops queue, and that only plain statements change the store and the trace |
| Control.RepeatRuns | vl/vl_sim.cc:3315-3338 | a repeat statement runs its body as often as its count says, and not at all for a count below 1 |
| Control.SetUpIs | vl/vl_sim.cc:3118-3390 | a block is set up in its own context, a for loop behind its initial assignment, anything else as it is |
| InitialBlocks.InitialRuns | vl/vl_sim.cc:2556-2620 | a run of the flat machine on an initial block, to its end, gives the structured result of its body |
| InitialBlocks.RunInitial | vl/vl_sim.cc:1745-1956 | the scheduler loop on a queued initial block, when it ends by itself, leaves the store and the trace of the structured semantics |
| Nonblocking.BatchIsSimultaneous | vl/vl_sim.cc:2982-3023 | carrying the updates out one by one is one simultaneous assignment in which the later write of a bit wins |
| Nonblocking.SafeBatch | vl/vl_sim.cc:2982-3023 | if no update is spoiled, the values are those sampled when each statement was queued |
| Nonblocking.OnceIsSafe | vl/vl_sim.cc:2982-3023 | a batch in which every statement was queued at most once is safe |
| Nonblocking.ExactlyTheSafeBatches | vl/vl_sim.cc:2982-3023 | a batch assigns what was meant for all samples if and only if no update is spoiled |
| Nonblocking.LoopIsSpoiled | vl/vl_sim.cc:2982-3023 | a loop that queues one statement twice gives both elements the second value |
| Nonblocking.Batch.Queue | vl/vl_sim.cc:2982-3010 | a non-blocking statement samples its right side and its target now, and queues one update |
| Nonblocking.Batch.CarryOut | vl/vl_sim.cc:3011-3023 | the update region is the simultaneous assignment of the sampled values for every safe batch |
| Nonblocking.BatchRunsWhole | vl/vl_sim.cc:1759-1813 | once a batch is active all of it is carried out before any process it wakes resumes |
| Updates.RegionIsSimultaneous | vl/vl_sim.cc:2982-3023 | whatever runs in the active and zero-delay regions, between and beside non-blocking assignments: at the end of the update region the store is the region's with all values sampled at their time assigned at once, unless an update was spoiled |
| Updates.PlayCollects | vl/vl_sim.cc:2982-3010 | until then the update list has one entry for each assignment that ran, in order, and each statement keeps its latest sample |
| Evaluator.Monotone | vl/vl_expr.cc:76-107 | filling in x and z input bits never contradicts a result bit that was 0 or 1, for all width-uniform trees |
| Evaluator.ExactWhenKnown | vl/vl_expr.cc:2482-2690 | with known inputs the evaluator is ordinary two-valued logic |
| Evaluator.SoundForEveryFilling | vl/vl_expr.cc:2482-2690 | every known result bit is the two-valued result for every choice of the unknown inputs |
| Evaluator.BitwiseIsTight | vl/vl_expr.cc:1528-1839 | a bit of `&`, `\|` or `^` is 0 or 1 exactly if it comes out so for all values of the unknown bits of its operands |
| Evaluator.XnorIsTight | vl/vl_expr.cc:2676-2678 | the same for `~^` |
| Evaluator.ComplementIsTight | vl/vl_expr.cc:1840-1897 | the same for `~` |
| Evaluator.ReductionIsTight | vl/vl_expr.cc:1187-1229 | a reduction is 0 or 1 exactly if it comes out so for all values of the unknown bits of its operand |
| Evaluator.TruthIsTight | vl/vl_data.cc:2259-2279 | the truth of a vector is 0 or 1 exactly if it is so for all values of its unknown bits |
| Evaluator.LogicIsTight | vl/vl_expr.cc:977-1183 | `&&`, `\|\|` and `!` are 0 or 1 exactly if they come out so for all values of the unknown truths of their operands |
| Evaluator.ComparisonIs | vl/vl_expr.cc:655-687 | `==` is x exactly when an operand has an unknown bit, even where other bits already differ |
| Evaluator.ChoiceIs | vl/vl_expr.cc:1901-1983 | `?:` is undecided exactly when its condition has an unknown bit, even where another is 1; then a bit is known exactly if both arms have it, and otherwise the arm is taken as it is |
| Evaluator.CondReadsRight | vl/vl_expr.cc:1949-1983 | read bit by bit, with missing bits 0, the result for an undecided condition is never contradicted, for arms of all widths |
| Evaluator.NotCondReadsRightExactlyWhen | vl/vl_expr.cc:1949-1983 | its complement is never contradicted if and only if the longer arm has no 0 beyond the width of the other |
| Evaluator.CondFillsExactlyWhen | vl/vl_expr.cc:1949-1983 | the results agree in width and known bits if and only if the arms are equally wide |
| Evaluator.UnequalArmsContradict | vl/vl_expr.cc:1901-1983 | a tree with unequal arms that contradicts itself |
| Evaluator.Evaluate | vl/vl_expr.cc:2482-2690 | the recursive evaluation, with its loops over bits, computes the function the lemmas are about |
| Evaluator.BitwiseLoop | vl/vl_expr.cc:1528-1839 | the bit loop treats missing bits as 0 |
| Evaluator.ReduceLoop | vl/vl_expr.cc:1187-1229 | the reduction loop folds all bits and inverts at the end for nand, nor and xnor |
| Evaluator.EqualsLoop | vl/vl_expr.cc:655-687 | the comparison is x when either operand has an unknown bit, and otherwise 1 exactly when all bits agree, missing ones counted as 0 |
| Evaluator.TruthLoop | vl/vl_data.cc:2259-2279 | the truth of an operand is 1 if any bit is 1, else x if any bit is unknown, else 0 |
| Evaluator.ConditionLoop | vl/vl_expr.cc:1901-1918 | the condition of `?:` is undecided as soon as any bit is unknown, bits that are 1 notwithstanding |
| Arithmetic.AddBits | vl/vl_expr.cc:110-143 | the loop computes every sum bit from the carry chain and gives up with x at the first unknown operand bit |
| Arithmetic.AddB | vl/vl_expr.cc:2026-2039 | the sum has one bit more only when that bit is high |
| Arithmetic.SumIsExact | vl/vl_expr.cc:110-143 | the carry chain is addition: the bits and the carry out make up the true sum |
| Arithmetic.AddIsExact | vl/vl_expr.cc:2026-2039 | for known operands of any widths the sum is the true unbounded sum |
| Arithmetic.AddIsSound | vl/vl_expr.cc:110-143 | below the lowest unknown bit the result is the true sum for every filling, and from there on it is all x |
| Arithmetic.SubB | vl/vl_expr.cc:2134-2152 | subtraction is addition of the complement with a carry in, in the wider width |
| Arithmetic.SubtractIs | vl/vl_expr.cc:2134-2152 | for known operands the result is (a + 2^w2 - b) mod 2^max(w1,w2) |
| Arithmetic.SubtractIsExactWhen | vl/vl_expr.cc:2134-2152 | it is the true difference if and only if w1 <= w2 |
| Arithmetic.SubtractIsSound | vl/vl_expr.cc:2134-2152 | below the lowest unknown bit the result is the right one for every filling, and from there on it is all x |
| Arithmetic.FiveMinusOne | vl/vl_expr.cc:2134-2152 | a concrete wrong difference |
| Resolver.Net.AddDriver | vl/vl_data.cc:1929-1955 | a driver is added once and otherwise widened |
| Resolver.Net.ResolveBit | vl/vl_data.cc:2002-2073 | the loop over drivers, with its skips, early exits and pulls, computes the fold |
| Resolver.OneDriver | vl/vl_data.cc:2002-2073 | a net with one driver of at least small strength has in every bit of the range the bit of the driver that is as far from the first one that drives |
| Resolver.OthersDoNotMatter | vl/vl_data.cc:2015-2034 | a driver whose range leaves the bit out, one that is skipped across a port, and one that shows z can be taken away |
| Resolver.HighImpedanceDoesNotMatter | vl/vl_data.cc:2021-2032 | so can one whose strength on the side of its value is high impedance |
| Resolver.UndrivenIs | vl/vl_data.cc:2067-2073 | a net that nothing drives is pulled down for tri0, up for tri1, and z otherwise |
| Resolver.WiredIs | vl/vl_data.cc:2036-2044 | a 0 decides a wand, and a 1 a wor, whatever the strengths, and so for the two others as the source has them |
| Resolver.TwoDrivers | vl/vl_data.cc:1962-1980 | of two drivers with different values the stronger one wins, by the strength of each on the side of its value, and x comes of a tie |
| Resolver.SoundStep | vl/vl_data.cc:2045-2063 | the accumulated value and strength pair summarise the drives seen so far |
| Resolver.FoldIsWinner | vl/vl_data.cc:1962-2063 | the fold over any list of fair drives is the closed form |
| Resolver.ResolvedIsWinner | vl/vl_data.cc:2002-2073 | an ordinary net of fair drivers is H exactly if its strongest H driver beats every L and x driver, L symmetrically, Z or the pull if nothing drives it, and x otherwise |
| Resolver.ResolutionIsOrderFree | vl/vl_data.cc:2002-2073 | the value does not depend on the order of the drivers when all are fair |
| Resolver.OrderFreeExactlyWhenFair | vl/vl_data.cc:1962-2073 | a driver is fair if and only if, whatever two balanced drivers come after it on a wire, their order does not matter |
| Resolver.UnbalancedOrderMatters | vl/vl_data.cc:1962-1980 | a net with unbalanced drivers that has different values in two orders |
| Literals.PrintBits | vl/vl_print.cc:235-341 | what is printed, with the fall-back to binary and the partial top digit, is the specified text |
| Literals.PrintGroups | vl/vl_print.cc:258-336 | digits are formed from low to high until a group is found that has no digit |
| Literals.Bin | vl/vl_parse.cc:374-414 | the binary reader gives the bits of the digits, cut or filled to the size |
| Literals.Oct | vl/vl_parse.cc:435-469 | the octal reader likewise, three bits a digit |
| Literals.Hex | vl/vl_parse.cc:472-509 | the hexadecimal reader likewise, four bits a digit |
| Literals.Atoi | vl/vl_parse.cc:377-379 | the size is the number the text begins with |
| RoundTrip.PrintedReadsBack | vl/vl_print.cc:235-341 | for any mix of 0, 1, x and z, what is printed in binary or hexadecimal is read back as the same bits if and only if there are at most 32 |
| RoundTrip.OctalReadsBackExactlyWhenSafe | vl/vl_print.cc:296-336 | in octal that holds if and only if, besides, printing falls back to binary or only zeros lie above the lowest unknown digit |
| RoundTrip.SixUnknown | vl/vl_print.cc:308-326 | a vector for which it does not hold |
| RoundTrip.PrintedIsLexed | vl/verilog.l:126-128 | every printed text is a literal of its format for the lexer, so that the right reader is given it |
| RoundTrip.DigitReads | vl/vl_parse.cc:487-497 | the digit for a group of known bits is read as that group |
| RoundTrip.UnknownReads | vl/vl_print.cc:308-334 | an unknown octal digit is read as itself with a zero digit above it |
| Reading.LiteralReadsAs | vl/vl_parse.cc:374-509 | any literal, with a size or without: how many bits it has, every bit of every digit, and that it is filled up with x after a leading x, with z after a leading z or ?, and with 0 otherwise |
| Reading.CharactersAre | vl/vl_parse.cc:384-509 | the bits of the digits, in each of the three formats |
| Reading.SeparatorsAreSkipped | vl/vl_parse.cc:374-509 | underscores and spaces among the digits stand for nothing |
| Reading.BinaryText | vl/vl_print.cc:235-341 | in binary every bit is printed, the highest first |
| Reading.HexText | vl/vl_print.cc:258-336 | in hexadecimal the digit of every four bits is printed, or all of it in binary if some group has no digit |
| SymbolTable.DoHash | vl/vl_st.cc:56-63 | the hash in wrapping 32-bit arithmetic, with a remainder that truncates |
| SymbolTable.BinInTableExactly | vl/vl_st.cc:56-63 | for every odd number of bins, the index lies in the table if and only if the hash value is not the smallest number |
| SymbolTable.TrapFallsOutside | vl/vl_st.cc:56-63 | a key whose index lies before the table |
| SymbolTable.Table.Lookup | vl/vl_st.cc:107-131 | the record of the key in the map the table stands for, or nothing |
| SymbolTable.Table.Insert | vl/vl_st.cc:134-169 | the map gets the key with the record, before or after a rehash, and the result says whether the key was there |
| SymbolTable.Table.Remove | vl/vl_st.cc:172-200 | the map loses the key and the stored entry is returned |
| SymbolTable.Table.Rehash | vl/vl_st.cc:203-231 | about twice as many bins, an odd number, hold the same map and the same count |
| SymbolTable.Table.CountIsExact | vl/vl_st.cc:150-163 | the entry count is the number of keys and at most five times the number of bins |
| SymbolTable.ListingTellsAll | vl/vl_st.cc:234-265 | reading the bins out gives each key exactly once, with its record |
| SymbolTable.Generator.Next | vl/vl_st.cc:242-265 | a generator over an unchanged table gives out that listing, entry by entry |
| SymbolTable.SetUnion | vl/vl_st.cc:318-338 | all entries of both sets, those of the first where both have a name |
| SymbolTable.SetIntersect | vl/vl_st.cc:341-356 | the common names, each as its own record |
| Token.Frand | secure/xtlserv.cc:1764-1790 | random bytes with the sum where the first eight bytes say and the verdict next to last |
| Token.HiddenIsFound | secure/xtlserv.cc:1764-1790 | for every size from 27, the sum touches neither the index bytes nor the verdict |
| Token.LayoutIs | secure/xtlserv.cc:1764-1790 | every byte of the reply: the sum at the sum of the first eight bytes modulo the size less 26, plus 8, the verdict next to last, and noise everywhere else |
| Token.AckSend | secure/xtlserv.cc:856-918 | a pass carries the twisted checksum of the request, a failure the plain one and a known error code |
| Token.Unwind | secure/secure.cc:1286-1320 | the client's decoding |
| Token.ClientReadsVerdict | secure/secure.cc:1286-1320 | for every request and all noise the client decodes exactly the server's verdict |
| Token.CodesArrive | secure/xtlserv.cc:884-913 | a pass arrives as a pass, the error codes 1 to 7 arrive unchanged, and any other as the unknown error |
| Token.PassIsForOneSum | secure/secure.cc:1315-1318 | a pass for one request is refused for a request with another checksum |
| Token.TwistedIsInjective | secure/xtlserv.cc:871-878 | the byte transform loses nothing |
| Token.TwistIs | secure/xtlserv.cc:871-878 | the sum is sent backwards, each byte below 127 one higher, 127 as 0, and others unchanged |
| LicenseFile.MakeLicense | secure/validate.cc:625-681 | every block of the file: entries where probing puts them, made-up blocks elsewhere, then the user limits; and the last block's checksum is the one over the whole file without it |
| LicenseFile.CheckSeal | secure/xtlserv.cc:1222-1239 | the server accepts a file exactly when that is so |
| LicenseFile.WrittenIsAccepted | secure/xtlserv.cc:1222-1239 | taking the checksum out for the test leaves all that the server looks for |
| LicenseFile.SlotsAreDistinct | secure/validate.cc:635-649 | for every sequence of draws all entries go to different blocks |
| LicenseFile.ProbeFindsFree | secure/validate.cc:636-646 | probing with wrap-around finds a free block as long as there is one |
| LicenseFile.ProbeIs | secure/validate.cc:636-646 | that is the drawn block if it is free, else the first free one after it, else the first free one of all |
| LicenseFile.FindBlock | secure/xtlserv.cc:1307-1311 | the first block with the checksum, if there is one |
| LicenseFile.EntryIsFound | secure/xtlserv.cc:1307-1311 | the server finds an entry by its checksum in its block alone, and that block's link leads to the entry's own user limit |
| LicenseFile.KeptForEntry | secure/validate.cc:655-668 | the user limit kept for an entry survives whatever else is stored in that block |
| LicenseFile.OldServersSeeTwo | secure/validate.cc:655-668 | the blocks where servers of an older release look for a limit have 2 unless they keep that of an entry |
| Leases.HostComp | secure/xtlserv.cc:753-766 | host names agree up to case and up to a colon |
| Leases.SameExactlyWhen | secure/xtlserv.cc:753-766 | two callers are the same exactly if their process numbers are, and their host names agree letter by letter up to case and to a colon |
| Leases.Server.Open | secure/xtlserv.cc:780-793 | the answer to an open request, second attempts and the failure of the server's own lookup included, and the job it enters |
| Leases.Server.TestMe | secure/xtlserv.cc:1009-1147 | without a name of its own the server answers an error, without an address it answers a grant, and otherwise it tries its own name and then its other addresses |
| Leases.Server.TryOthers | secure/xtlserv.cc:1125-1146 | the addresses are tried in turn until one is good; the answer is that of the last one tried, and the job is entered for the caller |
| Leases.GrantedExactlyWhen | secure/xtlserv.cc:780-793 | a request is granted if and only if its own block is not expired and leaves room for one user more, or it has none and the server's own block does, or there is neither and one for another address does, or there is none for it and the server's lookup fails; only in that last case no job is entered |
| Leases.OwnBlockDecides | secure/xtlserv.cc:1433-1441 | a request with a block of its own: refused as out of time if that has expired, refused for the limit if it is full, both with the list unchanged, and else granted, with its job entered in front |
| Leases.EnteredUnexpired | secure/xtlserv.cc:1433-1441 | a job is entered only under a block that has not expired and is not full |
| Leases.CountIs | secure/xtlserv.cc:1455-1462 | the users counted are the jobs of that program under that block |
| Leases.Server.CheckUsers | secure/xtlserv.cc:1449-1478 | a job is entered exactly if the program's users under the same block stay within the limit |
| Leases.Server.Check | secure/xtlserv.cc:794-808 | the process's first job is refreshed, and only then acknowledged |
| Leases.Server.Close | secure/xtlserv.cc:809-828 | the process's first job is taken out |
| Leases.Server.CleanList | secure/xtlserv.cc:1874-1897 | exactly the jobs not heard of for more than 900 seconds go, the others stay in order |
| LeaseRuns.Serve | secure/xtlserv.cc:771-850 | each request does to the job list what the run semantics says |
| LeaseRuns.JobsWereLicensed | secure/xtlserv.cc:1433-1441 | in every run each job was entered by a request for which there was, then, an unexpired block for the caller or for the server, and it carries the tag of that block |
| LeaseRuns.UsersAreLimited | secure/xtlserv.cc:1449-1478 | in every interleaving of any requests and purges, no program with a code below 256 has more users than the license allows |
| LeaseRuns.QuotaIsKept | secure/xtlserv.cc:1449-1478 | in every run whose requests carry codes below 256 no user limit is exceeded |
| LeaseRuns.QuotaIsKeptExactlyForBytes | secure/xtlserv.cc:1312-1312 | with limits in the license for the larger ones, all runs for a set of codes keep the limits if and only if the codes are below 256 |
| LeaseRuns.TwoUsersForOne | secure/xtlserv.cc:1458-1459 | a run with two users of a program that is limited to one |
| LeaseRuns.AttendedIsKept | secure/xtlserv.cc:118-128 | a process with one job that is refreshed within 900 seconds keeps it, with the date of its last refresh |
| LeaseRuns.SilentIsGone | secure/xtlserv.cc:1874-1897 | with purges at most 300 seconds apart, a process not heard of for more than 1200 seconds has no job left |
| LeaseRuns.StillThereAtTheLimit | secure/xtlserv.cc:1885-1885 | at exactly 1200 seconds it can still be there |
| LeaseRuns.DatesAfterEvent | secure/xtlserv.cc:771-850 | no event touches the jobs of another process, except a purge |

## Left out

Parts of the repository:

- Fork and join, task and function calls, gates and user-defined primitives, system tasks, monitors,
  the dump file, and the `@($time)` trigger at the start of a slot.
- The lists of waiting actions inside an event: waiting is parking under the event's number, and
  raising an event moves everything parked under it to the triggered list.
- Assignments to integers, times, reals, ranges and concatenations, and shifts, multiplication,
  division and relational operators. Operands are bit vectors.
- Decimal literals. They are converted to hexadecimal ones and hold no unknown bits.
- Nets of the wired types after their declarations have remapped them. The early exits of the
  resolver for them are modelled, the closed form is for ordinary nets.
- The reorder flag of the symbol table, which is off by default.
- Sockets, files, signals, mail and logs of the license server, its choice among several license
  files, and site licenses. What it can find out about its own host is a parameter of each request.

Simplifications of members:

- Scheduling.Scheduler.DoActions: takes a bound on the turns of the loop, as do `EvalSlot` and
  `Simulate`, because a program may run for ever. What is claimed holds for every bound, so of every
  beginning of a run. A run aborted for want of a frame is described up to the turn that fails.
- Scheduling.Scheduler.Park: keeps the lists of the slot and of the other slots as sequences. That
  the linked lists and slots do the same is proved in `ActionLists` and `TimeWheel`; `WheelIsFuture`
  and `RoundIsPromoted` relate the two.
- Scheduling.Scheduler.Iterate: a purge can leave an empty frame inside the stack, and a later delay
  then parks a process with nothing to do. The flat machine allows for that with one flag a step;
  `ExecutedView` shows that the flag is off as long as nothing is disabled.
- ActionLists.ActionList.Purge: the lists inside saved stacks are values, so their own relinking is
  not modelled, only its outcome.
- TimeWheel.Append: the five append functions of the source are one method with the region as an
  argument, and each appends a single item.
- SymbolTable.Table.Insert: the bins and their chains are sequences; the links between entries are not
  modelled. Like every operation on the table it asks for a key whose hash value is not the smallest
  number, since for others the source reads outside the table.
- SymbolTable.Generator.Next: says nothing about a table that changes while it is read out.
- SymbolTable.DoHash: signed overflow is taken to wrap around.
- Literals.PrintBits: asks for at most 256 bits, the size of the source's buffer.
- Literals.Bin: asks for a text that the lexer takes for a binary literal, as do `Oct` and `Hex` for
  theirs. A size beyond the range of integers is not modelled.
- Unfolding.StructuredRunsInQueue: is about statement trees without delays and listeners in which a
  repeat statement does not contain itself, since its counter is kept in the statement.
- Timing.RunsAlone: the statements that count as the process's own are set up by each other only.
  Statements that are queued again by themselves, such as the update of a non-blocking assignment,
  may occur in the process but are not among those followed; nor is an `always` whose body is a single
  simple statement, which the source moves to the next time point instead of looping.
- Timetables.ClockworkConforms: this evaluator triggers and disables nothing, and knows no events.
- Flat.RegionsWait: is about runs that disable nothing. What a disabled block loses is said by
  `Actions.OutsideExactly` and `Views.PurgeListsClears`.
- Flat.ProcessWaits: is about a statement that sets up and disables nothing and has something after it in
  its process; `Timing.ParkOwn` has the general case.
- Updates.RegionIsSimultaneous: nothing is disabled in the region, and only non-blocking assignments
  without a delay put something on the update list.
- Depths.NeverJams: is about designs whose triggered statements are plain, as continuous assignments
  are. Triggered blocks could add frames of their own.
- LicenseFile.EntryIsFound: assumes that no other entry and no made-up block has the entry's checksum.
- Leases.Server.Open: the license is fixed, and a block is found for a name and a program byte by a
  function; the job list is a sequence. Addresses of the server are taken to be readable.
- LeaseRuns.QuotaIsKept: assumes that the block found for a program byte names that program.
