# Partial-knowledge gridworld engine

This project models the engine of a robot navigating a gridworld whose obstacles it cannot see. The robot senses only how many of its eight neighbours are blocked.

The robot keeps a knowledge base: a grid of cells. Each cell holds:

- its ground truth: blocked or not;
- a belief: Free, Unsure or Blocked;
- a visited flag;
- five counters:
  - N: the number of in-bounds neighbours;
  - C: the number of those that are blocked, sensed on visiting;
  - B: the number of neighbours believed Blocked;
  - E: the number of neighbours believed Free;
  - H: the number of neighbours still Unsure.

Inference agents pin Unsure cells from these counters:

- Blindfolded learns nothing.
- FourNeighbour looks directly at its four cardinal neighbours.
- Basic runs the two forcing rules recursively:
  - B = C makes every hidden neighbour Free;
  - E = N − C makes every hidden neighbour Blocked.
- Better adds contradiction testing of single-cell hypotheses.
- Perfect adds a depth-bounded backtracking satisfiability search.

The robot plans with A* over its beliefs. It walks the plan until it bumps into an obstacle or learns that the rest of the plan is blocked, then replans.

The model is functional:

- cells and grids are immutable datatypes;
- a grid is a flat row-major sequence of cells;
- inference is a family of recursive functions whose termination measure is the number of Unsure cells;
- the A* search and the robot's walk are methods.

Three invariants tie the counters to the grid (`Knowledge`):

- `Consistent`: B, E and H are the counts of believed-Blocked, believed-Free and Unsure in-bounds neighbours.
- `SensorsAccurate`: N and C are the in-bounds and ground-blocked neighbour counts.
- `Truthful`: every pinned belief matches the ground truth.

`Sound` is the conjunction of the three.

Things the program gets from outside become parameters:

- The random obstacle layout is a `set<Point>` of obstacles given to generation.
- The planner's heuristic and its "is blocked" test are function parameters of the search.
- The robot plans with the test "believed Blocked", as the source does. The planner itself is project3's `AStarSearch` standing in for project2's, which is not part of this model (see Left out).

Modules, in dependency order:

| module | models |
|---|---|
| `Wrappers` | `Option` and `Result`; the error value stands for a thrown `IllegalArgumentException` |
| `Sentiments` | the belief enum and its integer codes |
| `Points` | 4- and 8-neighbour enumeration; the Python point's equality, hash and text form |
| `Heuristics` | Manhattan and Chebyshev distance |
| `Cells` | the grid cell, its counter mutators, and the Python cell's constructor defaults |
| `Grids` | cell lookup, cell update, `forEachNeighbour`, `setSentiment`, copying |
| `Knowledge` | the counter invariants and their preservation by `setSentiment` |
| `Generation` | the deterministic part of grid generation: N, C and the corner rule, Java and Python |
| `Render` | the Python grid's text form |
| `Propagation` | `propagateInferences` and `updateNeighborsAsFree` / `updateNeighborsAsBlocked` |
| `SimpleAgents` | the Blindfolded and FourNeighbour agents, the Basic agent's `learn`, and `naiveLearn` |
| `Hypotheses` | the Better and Perfect agents: hypothesis testing, `totalSolve`, the shared test loop |
| `AStar` | the A* search over 4-neighbours |
| `Robots` | the robot's constructor, `runPath`, `run` and `getDirectionCode` |

Source paths below are relative to the repository root.

## Model

| member | source | states |
|---|---|---|
| Sentiments.Code | old_projects/src/project2/utility/Sentiment.java:3-16 | A belief's code lies in −1..1. It is 0 exactly for Unsure and positive exactly for Free. |
| Sentiments.FromCode | old_projects/src/project2/utility/Sentiment.java:4-6 | Decoding an integer succeeds exactly for the three codes −1, 0 and 1. |
| Sentiments.CodeRoundTrip | old_projects/src/project2/utility/Sentiment.java:4-16 | Decoding a belief's code gives back that belief. |
| Sentiments.CodeInjective | old_projects/src/project2/utility/Sentiment.java:4-6 | Two beliefs have the same code only if they are the same belief, so the codes are pairwise distinct. |
| Points.Neighbours4Spec | old_projects/src/project3/utility/Point.java:9-17 | A point is among p's four neighbours exactly when it differs from p by one step along one axis. |
| Points.Neighbours8Spec | old_projects/src/project3/utility/Point.java:19-31 | A point is among p's eight neighbours exactly when it differs from p and is at most one step away on each axis. |
| Points.Neighbours4Distinct | Simulator/Utility/Point.py:10-17 | The four neighbours are pairwise distinct and never p itself. |
| Points.Neighbours8Distinct | old_projects/src/project3/utility/Point.java:19-31 | The eight neighbours are pairwise distinct and never p itself. |
| Points.CardinalsAreEvenEntries | old_projects/src/project3/utility/Point.java:9-31 | The four neighbours are the 8-neighbour entries at indices 0, 4, 6, 2, in that order, so each is also an 8-neighbour. |
| Points.Neighbours8Symmetric | old_projects/src/project3/utility/Point.java:19-31 | q is an 8-neighbour of p exactly when p is an 8-neighbour of q. |
| Points.Neighbours4Symmetric | Simulator/Utility/Point.py:10-17 | q is a 4-neighbour of p exactly when p is a 4-neighbour of q. |
| Points.PyEquals | Simulator/Utility/Point.py:34-37 | Equality holds only for a point operand with the same coordinates, and is false for any non-point operand. |
| Points.HashAgreesWithEquality | Simulator/Utility/Point.py:34-40 | Two points are equal exactly when their hash keys are equal. |
| Points.ToString | Simulator/Utility/Point.py:31-32 | The text form is at least five characters long and is wrapped in '<' and '>'. |
| Points.IntToString | Simulator/Utility/Point.py:31-32 | Python's `str` of an integer: a minus sign exactly for negative numbers, then digits with no leading zero, so 0 renders as "0" and "-0" never appears. |
| Points.IntToStringRoundTrip | Simulator/Utility/Point.py:31-32 | Parsing the decimal text of any integer, negative ones included, gives back that integer. |
| Points.ToStringRoundTrip | Simulator/Utility/Point.py:31-32 | Parsing a point's text form gives back the point, so the rendering loses no information. |
| Heuristics.Manhattan | old_projects/src/project2/utility/Heuristics.java:25-30 | The distance is non-negative, and zero exactly for equal points. |
| Heuristics.Chebyshev | old_projects/src/project2/utility/Heuristics.java:39-44 | The distance is non-negative, and zero exactly for equal points. |
| Heuristics.Symmetric | Simulator/Utility/Heuristics.py:12-19 | Both distances are symmetric in their two arguments. |
| Heuristics.ChebyshevBoundsManhattan | old_projects/src/project2/utility/Heuristics.java:25-44 | Chebyshev ≤ Manhattan ≤ 2 × Chebyshev. |
| Heuristics.ManhattanTriangle | old_projects/src/project2/utility/Heuristics.java:25-30 | Manhattan distance obeys the triangle inequality. |
| Heuristics.Neighbours4AtManhattanOne | old_projects/src/project2/utility/Heuristics.java:25-30 | The 4-neighbours of p are exactly the points at Manhattan distance 1 from p. |
| Heuristics.Neighbours8AtChebyshevOne | old_projects/src/project2/utility/Heuristics.java:39-44 | The 8-neighbours of p are exactly the points at Chebyshev distance 1 from p. |
| Heuristics.ManhattanSelfTest | Simulator/Utility/Heuristics.py:22-23 | The distance from (0,0) to (1,1) is 2. |
| Cells.NewCell | old_projects/src/project2/entity/GridCell.java:25-39 | A new cell keeps its location, N and ground truth. It is Unsure and unvisited, with C = B = E = 0 and H = N, so B+E+H = N holds. |
| Cells.SensedEmpty | old_projects/src/project2/entity/GridCell.java:85-87 | The sensed-empty count and C add up to N. |
| Cells.AddSensedBlocked | old_projects/src/project2/entity/GridCell.java:89-91 | C grows by k. Every other field is unchanged, so B+E+H = N holds afterwards exactly when it held before. |
| Cells.AddAdjBlocked | old_projects/src/project2/entity/GridCell.java:97-100 | B grows by k and H shrinks by k. Every other field is unchanged, so B+E+H = N is preserved both ways. |
| Cells.AddAdjEmpty | old_projects/src/project2/entity/GridCell.java:106-109 | E grows by k and H shrinks by k. Every other field is unchanged, so B+E+H = N is preserved both ways. |
| Cells.SetBelief | old_projects/src/project2/entity/GridCell.java:73-75 | Only the belief changes; no counter does. |
| Cells.SetVisited | old_projects/src/project2/entity/GridCell.java:127-129 | Only the visited flag changes. |
| Cells.IsBlocked | old_projects/src/project2/entity/GridCell.java:115-117 | A cell believed Blocked reads as blocked whatever its ground truth. Any other cell reads as blocked exactly when its ground truth is blocked. |
| Cells.PyNewCell | Simulator/GridCell.py:6-23 | The Python cell keeps its location, N and ground truth, and starts Unsure and unvisited. Because H keeps its class default 0, it satisfies B+E+H = N exactly when N = 0. |
| Cells.PyNewCellMatchesJavaButHidden | Simulator/GridCell.py:6-23 | The Python constructor builds the Java cell except that H keeps its class default 0. So the new cell satisfies B+E+H = N only when N = 0. |
| Cells.PyNewCellCounterexample | Simulator/GridCell.py:6-23 | A concrete cell with N = 3 breaks B+E+H = N in the Python form and keeps it in the Java form. |
| Grids.GetCell | old_projects/src/project2/entity/Grid.java:102-107 | Lookup fails exactly outside [0,xSize)×[0,ySize). Otherwise it returns the element at flat index y·xSize + x. |
| Grids.GetCellAt | old_projects/src/project2/entity/Grid.java:115-117 | Lookup by point fails exactly for out-of-bounds points. Otherwise it returns the cell stored for that point. |
| Grids.Put | old_projects/src/project2/entity/Grid.java:127-135 | Writing a cell keeps the grid's shape, stores the new cell at p, and leaves every other cell and flat index unchanged. |
| Grids.Copy | old_projects/src/project2/entity/Grid.java:37-47 | A deep or shallow copy equals its source. In the model grids are values, so copies never share state; the source's copy-on-write sharing of cells is listed under Left out. |
| Grids.ForEachNeighbour | old_projects/src/project2/entity/Grid.java:186-192 | The action reaches exactly the in-bounds 8-neighbours of p, and every other cell is unchanged. Beliefs are untouched, and only a sensed-blocked action changes static fields. |
| Grids.ApplyAll | old_projects/src/project2/entity/Grid.java:187-191 | Applying an action along a repeat-free list changes only the listed in-bounds cells. Beliefs and B+E+H = N are kept on every cell. |
| Grids.AdjustNeighbours | old_projects/src/project2/entity/Grid.java:161-183 | Adding k for belief s changes only the in-bounds 8-neighbours of p: B by k for Blocked, E by k for Free, H by −k for either. Beliefs, static fields and B+E+H = N are kept. |
| Grids.SetSentiment | old_projects/src/project2/entity/Grid.java:155-184 | Only p's belief changes, and it becomes s. Each in-bounds 8-neighbour's B, E and H move by the change in the Blocked and Free indicators. Ground truth, N, C and visited flags are untouched, B+E+H = N holds on a cell afterwards exactly when it held before, and the number of Unsure cells moves by the change in p's Unsure indicator. |
| Grids.MarkVisited | old_projects/src/project2/entity/Robot.java:103-104 | Marking p visited changes only p's visited flag. |
| Knowledge.SetSentimentConsistent | old_projects/src/project2/entity/Grid.java:155-184 | Starting from counters that match the beliefs, the counters still match after any belief change. |
| Knowledge.SetSentimentTruthful | old_projects/src/project2/entity/Grid.java:155-184 | Pinning a cell to a value that agrees with its ground truth keeps every pinned belief truthful. |
| Knowledge.SetSentimentSound | old_projects/src/project2/entity/Grid.java:155-184 | Pinning a cell to a value that agrees with its ground truth keeps the whole knowledge base sound, and keeps each cell's stored location correct. |
| Knowledge.SoundCounters | old_projects/src/project2/agents/InferenceAgent.java:38-52 | On a sound knowledge base no cell is contradicted. When B = C every Unsure neighbour is really free, and when E = N − C every Unsure neighbour is really blocked. |
| Knowledge.ConsistentBalanced | old_projects/src/project2/entity/GridCell.java:15-19 | When the counters match the beliefs and the sensors, B+E+H = N. |
| Knowledge.HiddenMeansUnsureNeighbour | old_projects/src/project2/agents/PerfectInferenceAgent.java:121-128 | When the counters match the beliefs, a cell with H > 0 has an Unsure in-bounds 8-neighbour. |
| Knowledge.SameStaticsKeepsSensors | old_projects/src/project2/entity/GridCell.java:15-21 | A change that keeps every cell's static fields keeps N and C accurate and keeps each cell's stored location correct. |
| Generation.RowMajorSpec | old_projects/src/project2/entity/Grid.java:60-62 | The row-major enumeration visits every in-bounds point exactly once. |
| Generation.AllPointsSpec | old_projects/src/project2/entity/Grid.java:60-62 | A grid's point enumeration has no repeats and contains exactly its in-bounds points. |
| Generation.Seed | old_projects/src/project2/entity/Grid.java:60-76 | The first pass puts the seed cell for each point at that point's row-major slot. |
| Generation.Scatter | old_projects/src/project2/entity/Grid.java:78-90 | After the second pass each cell's C has grown by the number of listed blocked cells among its 8-neighbours. Nothing else changes. |
| Generation.ScatterIsGather | old_projects/src/project2/entity/Grid.java:78-90 | Counting what every blocked cell pushes onto its neighbours gives each cell's count of blocked neighbours. |
| Generation.Build | old_projects/src/project2/entity/Grid.java:57-93 | Both passes together give a grid of the requested size in which every cell sits at its own location, is Unsure and unvisited, and is blocked by the chosen rule: obstacle membership for Python, the corner rule for Java. H is N for Java and 0 for Python. |
| Generation.Generate | old_projects/src/project2/entity/Grid.java:57-93 | A Java grid has the requested size and accurate N and C. Every cell is Unsure and unvisited. A cell is blocked exactly when it is an obstacle other than the two corners. |
| Generation.PyGenerate | Simulator/Entity/Grid.py:24-55 | A Python grid has the requested size and accurate N and C. Every cell is Unsure and unvisited, is blocked exactly when it is an obstacle (corners included), and has H = 0. |
| Generation.BuiltCell | old_projects/src/project2/entity/Grid.java:57-93 | A generated cell is its seed cell with C set to its number of ground-blocked in-bounds 8-neighbours. |
| Generation.GeneratedSensors | old_projects/src/project2/entity/Grid.java:57-93 | In either generator, N and C are accurate and locations are correct. Every cell is Unsure and unvisited with B = E = 0 and 0 ≤ C ≤ N ≤ 8. |
| Generation.GenerateSound | old_projects/src/project2/entity/Grid.java:57-93 | A freshly generated Java grid is sound, every cell is Unsure, and its cells are correctly located. |
| Generation.JavaBlockedCorners | old_projects/src/project2/entity/Grid.java:71-72 | The Java seed blocks a cell exactly when it is an obstacle and is neither (0,0) nor (xSize−1, ySize−1). |
| Generation.GenerateCorners | old_projects/src/project2/entity/Grid.java:71-72 | In a generated Java grid, a cell is ground-blocked exactly when it is an obstacle other than the two corners. |
| Generation.PyGenerateLayout | Simulator/Entity/Grid.py:24-55 | In the Python grid every obstacle is blocked, the corners included, and H is 0. |
| Render.Symbol | Simulator/Entity/Grid.py:77-85 | 'S' appears exactly at (0,0) and 'G' exactly at the other corner. 'X' appears exactly at other cells that are blocked, and ' ' exactly at other cells that are not. |
| Render.GridString | Simulator/Entity/Grid.py:71-91 | The text opens with "Entity.Grid{", closes with "\n}", and has one column of 2·ySize + 2 characters per x. |
| Render.GridStringAt | Simulator/Entity/Grid.py:71-91 | Column x opens and closes with a newline. The symbol for (x, y) sits 1 + 2y characters into it, followed by ','. |
| Propagation.Propagate | old_projects/src/project2/agents/InferenceAgent.java:30-56 | Propagation only pins Unsure cells: pinned beliefs and static fields stay. The number of Unsure cells never grows, and a false result means some visited cell is contradicted. |
| Propagation.PropagateAll | old_projects/src/project2/agents/InferenceAgent.java:32-54 | The scan over the neighbour list has the same guarantees as a single propagation. |
| Propagation.PinAll | old_projects/src/project2/agents/InferenceAgent.java:66-98 | Pinning the Unsure neighbours to one value has the same guarantees as a single propagation. |
| Propagation.PinOne | old_projects/src/project2/agents/InferenceAgent.java:69-70 | Pinning an Unsure cell sets its belief, keeps every other pinned belief, and removes exactly one Unsure cell. |
| Propagation.PropagateConsistent | old_projects/src/project2/agents/InferenceAgent.java:30-56 | Propagation keeps the counters matching the beliefs. |
| Propagation.PinAllConsistent | old_projects/src/project2/agents/InferenceAgent.java:66-98 | Pinning neighbours and propagating from each keeps the counters matching the beliefs. |
| Propagation.PropagateSound | old_projects/src/project2/agents/InferenceAgent.java:30-56 | On a sound knowledge base propagation finds no contradiction and leaves the knowledge base sound, so every cell it pins gets its true value. |
| Propagation.PropagateAllSound | old_projects/src/project2/agents/InferenceAgent.java:32-54 | The same holds for the scan over a neighbour list. |
| Propagation.PinAllSound | old_projects/src/project2/agents/InferenceAgent.java:66-98 | Pinning to a value that is true of every Unsure target succeeds and leaves the knowledge base sound. |
| Propagation.PinHeadSound | old_projects/src/project2/agents/InferenceAgent.java:69-73 | Pinning the first target truthfully and propagating from it succeeds and keeps the knowledge base sound. |
| Propagation.PinAllProgress | old_projects/src/project2/agents/InferenceAgent.java:66-98 | When some target is Unsure, pinning strictly lowers the number of Unsure cells. This is the termination measure of the recursion. |
| Propagation.NotQuietChanges | old_projects/src/project2/agents/InferenceAgent.java:36-52 | When the first examined cell is visited and is either contradicted or has H > 0 with a forcing rule applicable, the scan does not succeed with the knowledge base unchanged. |
| Propagation.PinAllSettled | old_projects/src/project2/agents/InferenceAgent.java:66-98 | A successful pinning pass leaves every in-bounds entry pinned. Every cell whose belief changed ends with a quiet neighbourhood: nothing left for the propagator to do around it. |
| Propagation.PropagateAllSettled | old_projects/src/project2/agents/InferenceAgent.java:30-56 | A successful scan leaves every scanned cell quiet, and every cell whose belief changed with a quiet neighbourhood. |
| Propagation.PropagateSettled | old_projects/src/project2/agents/InferenceAgent.java:30-56 | A successful propagation from a location leaves all eight neighbours of that location quiet. |
| Propagation.PropagateIdempotent | old_projects/src/project2/agents/InferenceAgent.java:30-56 | On consistent counters, propagating a second time from the same location after a success returns true and changes nothing. |
| Propagation.PropagateAllNoOp | old_projects/src/project2/agents/InferenceAgent.java:32-54 | On consistent counters, the scan succeeds and changes nothing exactly when every examined in-bounds visited cell is uncontradicted and has H = 0 or meets neither B = C nor E = N − C. |
| SimpleAgents.BlindfoldedLearn | old_projects/src/project2/agents/BlindfoldedAgent.java:13-16 | The knowledge base is returned unchanged, whatever the location. |
| SimpleAgents.FourNeighbourLearn | old_projects/src/project2/agents/FourNeighbourAgent.java:15-28 | Only the in-bounds 4-neighbours change. Each gets belief Blocked if it reads as blocked and Free otherwise, and no counter moves. |
| SimpleAgents.ObserveAll | old_projects/src/project2/agents/FourNeighbourAgent.java:17-27 | Observing a repeat-free list sets each listed cell's belief from how it reads, and changes nothing else. |
| SimpleAgents.FourNeighbourTruthful | old_projects/src/project2/agents/FourNeighbourAgent.java:20-26 | On a truthful knowledge base the observation keeps beliefs truthful and monotone, and sets each 4-neighbour to its ground truth. |
| SimpleAgents.FourNeighbourBreaksConsistency | old_projects/src/project2/agents/FourNeighbourAgent.java:21-25 | If an in-bounds 4-neighbour was Unsure, the counters no longer match the beliefs afterwards. |
| SimpleAgents.BasicLearn | old_projects/src/project2/agents/BasicInferenceAgent.java:16-22 | The basic agent only pins Unsure cells. Static fields are untouched and the number of Unsure cells never grows. |
| SimpleAgents.PropagateEach | old_projects/src/project2/agents/BasicInferenceAgent.java:21 | Propagating from each neighbour in turn has the same guarantees. |
| SimpleAgents.PropagateEachPreserves | old_projects/src/project2/agents/BasicInferenceAgent.java:21 | Propagating from each neighbour keeps consistent counters consistent and a sound knowledge base sound. |
| SimpleAgents.BasicLearnPreserves | old_projects/src/project2/agents/BasicInferenceAgent.java:16-22 | The basic agent keeps consistent counters consistent and a sound knowledge base sound. |
| SimpleAgents.FillUnsure | old_projects/src/project2/agents/BasicInferenceAgent.java:45-56 | Filling a cell's Unsure neighbours only pins Unsure cells. The number of Unsure cells drops whenever a listed cell was Unsure. |
| SimpleAgents.FillUnsurePreserves | old_projects/src/project2/agents/BasicInferenceAgent.java:45-56 | Filling keeps the counters matching the beliefs. |
| SimpleAgents.FillUnsureSound | old_projects/src/project2/agents/BasicInferenceAgent.java:45-56 | Filling with a value that is true of every Unsure target keeps the knowledge base sound. |
| SimpleAgents.NaivePass | old_projects/src/project2/agents/BasicInferenceAgent.java:35-59 | A pass that reports no change returns the knowledge base as it was, and every scanned cell is then quiet: unvisited, H = 0, or neither rule applies. |
| SimpleAgents.NaivePassProgress | old_projects/src/project2/agents/BasicInferenceAgent.java:33-60 | On consistent counters, a pass that reports a change strictly lowers the number of Unsure cells. Counters stay consistent and soundness is kept. |
| SimpleAgents.NaiveLearn | old_projects/src/project2/agents/BasicInferenceAgent.java:31-61 | The fixed-point loop terminates. It returns a knowledge base where no visited cell with H > 0 meets B = C or E = N − C, only Unsure cells were pinned, and soundness is kept. |
| Hypotheses.Try | old_projects/src/project2/agents/BetterInferenceAgent.java:56-58 | A hypothesis pins the cell under trial to the tried value and strictly lowers the number of Unsure cells. It happens on a copy, so the real knowledge base is untouched. |
| Hypotheses.TryPreserves | old_projects/src/project2/agents/BetterInferenceAgent.java:56-62 | A hypothesis keeps consistent counters consistent. A hypothesis that agrees with the ground truth never meets a contradiction on a sound knowledge base. |
| Hypotheses.Decide | old_projects/src/project2/agents/BetterInferenceAgent.java:55-65 | A decision is Free or Blocked, never Unsure. No decision is made exactly when both hypotheses pass their test. Blocked is tested first: the decision is Free exactly when Blocked fails, and Blocked exactly when Blocked passes and Free fails. |
| Hypotheses.DecideSound | old_projects/src/project2/agents/BetterInferenceAgent.java:55-65 | On a sound knowledge base every decision agrees with the cell's ground truth. |
| Hypotheses.Test | old_projects/src/project2/agents/PerfectInferenceAgent.java:70-73 | A hypothesis that passes either tester survives propagation. On a sound knowledge base the hypothesis matching the ground truth always passes, for both testers. |
| Hypotheses.TryNeighbours | old_projects/src/project2/agents/BetterInferenceAgent.java:48-68 | Testing a cell's neighbours only pins Unsure cells and keeps consistency. A reported change lowers the Unsure count. No change means every neighbour was already settled. |
| Hypotheses.TestCells | old_projects/src/project2/agents/BetterInferenceAgent.java:46-69 | The same holds for the neighbours of every queued open cell. |
| Hypotheses.OpenCells | old_projects/src/project2/agents/BetterInferenceAgent.java:37-43 | The queue holds exactly the visited cells with H > 0. |
| Hypotheses.TestLoop | old_projects/src/project2/agents/BetterInferenceAgent.java:32-70 | The repeat-until-no-change loop terminates. It only pins Unsure cells, and it ends with every Unsure neighbour of every open cell settled: both hypotheses pass. |
| Hypotheses.TestLoopFixedPoint | old_projects/src/project2/agents/BetterInferenceAgent.java:32-70 | The loop returns its input exactly when the input is already settled, and running it twice equals running it once. |
| Hypotheses.TestLoopSound | old_projects/src/project2/agents/BetterInferenceAgent.java:32-70 | On a sound knowledge base the loop keeps it sound. |
| Hypotheses.BetterLearn | old_projects/src/project2/agents/BetterInferenceAgent.java:25-71 | The Better agent only pins Unsure cells and ends with every single-step hypothesis settled. |
| Hypotheses.PerfectLearn | old_projects/src/project2/agents/PerfectInferenceAgent.java:40-87 | The Perfect agent keeps consistency, only pins Unsure cells, and ends with every hypothesis settled under the satisfiability check. |
| Hypotheses.FindOpen | old_projects/src/project2/agents/PerfectInferenceAgent.java:105-119 | The scan finds no cell exactly when no visited cell has H > 0. Because the break leaves only the inner loop, the cell found is the leftmost open cell of the highest-y row that has one. |
| Hypotheses.FirstOpenInRow | old_projects/src/project2/agents/PerfectInferenceAgent.java:108-114 | The inner scan returns the first open cell at or after x in row y, or reports that the rest of the row has none. |
| Hypotheses.FirstUnsure | old_projects/src/project2/agents/PerfectInferenceAgent.java:122-127 | The neighbour scan finds nothing exactly when no listed in-bounds cell is Unsure; otherwise it finds the first Unsure one. |
| Hypotheses.Branch | old_projects/src/project2/agents/PerfectInferenceAgent.java:121-128 | On consistent counters, the branching cell is an Unsure in-bounds 8-neighbour of the open cell. It is the first such entry of the 8-neighbour list. |
| Hypotheses.Attempts | old_projects/src/project2/agents/PerfectInferenceAgent.java:130-143 | Both branches keep the counters consistent and strictly lower the number of Unsure cells. This is why the search terminates even at depth −1. |
| Hypotheses.AttemptsSound | old_projects/src/project2/agents/PerfectInferenceAgent.java:130-145 | On a sound knowledge base at least one branch succeeds and stays sound. |
| Hypotheses.TotalSolve | old_projects/src/project2/agents/PerfectInferenceAgent.java:99-146 | A sound knowledge base is reported satisfiable at every depth. |
| Hypotheses.NegativeDepthsAgree | old_projects/src/project2/agents/PerfectInferenceAgent.java:21-34 | All negative depths give the same answer, so the default −1 means unbounded search. |
| Hypotheses.DeepEnoughIsUnbounded | old_projects/src/project2/agents/PerfectInferenceAgent.java:99-103 | A depth larger than the number of Unsure cells never triggers the depth cut-off, and so answers as the unbounded search does. |
| Hypotheses.Learn | old_projects/src/project2/agents/InferenceAgent.java:20 | Every agent keeps static fields. Every agent except FourNeighbour only pins Unsure cells. |
| Hypotheses.LearnPreserves | old_projects/src/project2/agents/InferenceAgent.java:13-20 | Every agent except FourNeighbour keeps consistency and soundness. FourNeighbour keeps truthfulness, and Blindfolded changes nothing. |
| AStar.PollIndex | old_projects/src/project3/algorithms/AStarSearch.java:102-111 | The polled entry has no entry strictly before it in (f, h) order. Every earlier queue entry comes strictly after it, so ties go to the earliest queued entry. |
| AStar.RemoveFirst | old_projects/src/project3/algorithms/AStarSearch.java:86 | Removing a node from the queue takes away exactly one occurrence of it. |
| AStar.Lowered | old_projects/src/project3/algorithms/AStarSearch.java:127-129 | Lowering g sets the new g and parent and keeps h. As written, f grows by the new g instead of being recomputed as g + h. |
| AStar.Relax | old_projects/src/project3/algorithms/AStarSearch.java:72-91 | Relaxing a child never forgets a recorded node, and a passable child is recorded afterwards. |
| AStar.RelaxAll | old_projects/src/project3/algorithms/AStarSearch.java:69-92 | After the children loop every passable child is recorded. |
| AStar.RelaxKeeps | old_projects/src/project3/algorithms/AStarSearch.java:72-91 | Relaxing a child keeps the search invariant: every recorded node links to its parent one g-step back, down to the start. The current node stays, queued nodes stay queued, and the search potential never grows. |
| AStar.RelaxAllKeeps | old_projects/src/project3/algorithms/AStarSearch.java:69-92 | The children loop keeps the search invariant and never increases the potential. |
| AStar.CheaperRecords | old_projects/src/project3/algorithms/AStarSearch.java:85-89 | A strictly cheaper parent keeps the parent links sound and strictly lowers the potential. |
| AStar.ExpandKeeps | old_projects/src/project3/algorithms/AStarSearch.java:53-92 | Expanding a polled node keeps the invariant. Every passable neighbour of an expanded node is recorded, and each expansion lowers the potential or shrinks the queue, which is why the loop terminates. |
| AStar.ChainShape | old_projects/src/project3/algorithms/AStarSearch.java:58-66 | Following parents back from p gives a path that ends at p and starts next to the start. It steps between 4-neighbours, never contains the start, and has strictly increasing g. |
| AStar.ChainWalk | old_projects/src/project3/algorithms/AStarSearch.java:58-66 | The reconstructed path is a walk from start to end through passable cells, without the start and without repeats. |
| AStar.Unreachable | old_projects/src/project3/algorithms/AStarSearch.java:93-99 | When the queue empties without reaching the end, no walk from start to end through passable cells exists. |
| AStar.SearchFrom | old_projects/src/project3/algorithms/AStarSearch.java:42-99 | At least one node is polled. A returned path is a repeat-free passable walk to the end that excludes the start, and no path means the end is unreachable. |
| AStar.Search | old_projects/src/project3/algorithms/AStarSearch.java:28-100 | An out-of-bounds endpoint is an illegal-argument error, and only that. Start = end gives the empty path with 0 polls. Otherwise the search has SearchFrom's guarantees. |
| Robots.Init | old_projects/src/project2/entity/Robot.java:34-47 | The robot starts at the start with its goal and agent, and the start cell is believed Free and visited. |
| Robots.InitReady | old_projects/src/project2/entity/Robot.java:43-46 | On a sound (FourNeighbour: truthful) knowledge base whose start is free, construction keeps it so and only pins Unsure cells. |
| Robots.Obstructed | old_projects/src/project2/entity/Robot.java:110-116 | The remaining path is obstructed exactly when one of its points is believed Blocked. |
| Robots.Bump | old_projects/src/project2/entity/Robot.java:93-96 | A bump leaves the robot where it is and marks the cell believed Blocked. |
| Robots.Advance | old_projects/src/project2/entity/Robot.java:97-105 | A step moves the robot onto the cell and marks it believed Free and visited. |
| Robots.Move | old_projects/src/project2/entity/Robot.java:93-108 | One iteration bumps when the next cell reads as blocked and steps otherwise, then learns. Visited cells stay visited, and a sound knowledge base stays sound with beliefs only pinned. |
| Robots.RunPath | old_projects/src/project2/entity/Robot.java:77-120 | After walking, the robot stands on the last point it stepped onto, and every point stepped onto is visited. If it stopped early, some remaining path point is believed Blocked, and a bump means the next point is. Soundness is kept. |
| Robots.WalkedBump | old_projects/src/project2/entity/Robot.java:93-96 | A bump on the first point ends the walk with no steps taken. |
| Robots.WalkedOne | old_projects/src/project2/entity/Robot.java:110-116 | A step followed by an obstruction check that fires ends the walk after one step. |
| Robots.CountDetermined | old_projects/src/project2/entity/Robot.java:153-160 | The nested loop counts exactly the cells that are not Unsure. |
| Robots.CountRowDetermined | old_projects/src/project2/entity/Robot.java:155-159 | The inner loop counts the non-Unsure cells of row y. |
| Robots.LearnKeepsBlocked | old_projects/src/project2/entity/GridCell.java:115-117 | No agent's learn drops a Blocked belief. |
| Robots.RunPathProgress | old_projects/src/project2/entity/Robot.java:131-149 | Each walk either reaches the goal or comes to believe Blocked a cell of its route. Either way the number of cells not believed Blocked, plus one if the goal is not reached, goes down, so the replanning loop terminates. |
| Robots.Run | old_projects/src/project2/entity/Robot.java:127-163 | It takes any knowledge base learn accepts. With project3's A* as the planner, the run fails with an error exactly when the goal is out of bounds and not already reached. Otherwise no Blocked belief is dropped, soundness is kept when the input was sound, and bumps ≤ plans. Success means the goal was reached, with the determined count being the number of non-Unsure cells. Failure means no believed-free walk remains. A robot already at the goal plans nothing. |
| Robots.DirectionCode | old_projects/src/project2/entity/Robot.java:197-215 | The code is an illegal-argument error exactly when the target is not at Manhattan distance 1. Otherwise it is one of "0 ", "1 ", "2 ", "3 ". |
| Robots.DirectionCodeRoundTrip | old_projects/src/project2/entity/Robot.java:197-215 | Following the code from the current point leads to the target, and the code is the only one that does. |
| Robots.DirectionCodeOrthogonal | old_projects/src/project2/entity/Robot.java:197-215 | A code exists exactly for the four cardinal neighbours. |

## Left out

- Random obstacle placement (`generateIsBlocked` in both grids) is not modelled; the obstacle layout is an input set.
- Floating-point logic is not modelled:
  - `GridCell.getProbBlocked` and `setProbBlocked`;
  - the Euclidean heuristics;
  - `AStarProbSearch`;
  - the zeroing of `probGoal` for unreached cells when A* fails (AStarSearch.java lines 95-98).
- Heuristics are modelled over `int`, since both are integer-valued on integer points; A*'s `double` costs become integers.
- Copy-on-write owner tags and object identity are not modelled (Grid.java lines 127-135, GridCell `clone` and `setOwner`). Grids and cells are values, so a copy is isolated from its source by construction, and a clone is the cell itself.
- Java's `Grid.toString` is not modelled. It differs from the Python form in two ways: it closes no column with a newline, and it draws 'X' for a cell that is only believed blocked. Only the Python `__str__` is modelled.
- The `Grid.inBounds` helpers of both grids are modelled as the predicate `Grids.InBounds`, with no row of their own. The Python getters `getNumSensedEmpty`, `addNumSensedBlocked` and `addNumAdjBlocked` are identical to the Java ones and share their members.
- The robot's `cleanKB`, `getGridState`, verbose printing and `System.nanoTime` runtime are not modelled, because they affect only visualisation and timing. A failed run's NaN trajectory length becomes `trajectory == None`.
- In `runPath`, `nextCell` is read before `setSentiment` may clone it. The object would be stale only if that cell had not already been cloned into the knowledge base; an earlier `setSentiment` next to the robot has always cloned it. The model ignores cloning and marks the cell in the knowledge base itself.
- The drivers (`Main`, `Simulator`, `Test`), the `SearchAlgo` interface, and the Python machine-learning and data-generation scripts are not modelled, because they do I/O, sampling and neural-network work.
- The source's `int` arithmetic is modelled unbounded; 32-bit overflow cannot occur on grids of realistic size.
- project2's `algorithms/AStarSearch.java`, the planner `Main` hands to the robot, is not part of this model. project3's `AStarSearch`, modelled as `AStar.Search`, stands in for it, adapted to the robot's call (a path or none, plus the number of polled nodes). Two parts of `Robots.Run` come from the stand-in: the error result for an out-of-bounds endpoint, which is project3's `IllegalArgumentException`, and the processed-node total. What project2's search does there is not modelled; a null result from it would end the run as a failure, as Robot.java lines 138-141 do.
- The project2 `Point` class is not part of this model; the project3 `Point`, which has the same neighbour methods, stands in for it.
- Points.HashAgreesWithEquality: compares hash keys (the coordinate pair), not Python's numeric `hash`, which is not modelled.
- AStar.PollIndex: Java's `PriorityQueue` breaks (f, h) ties in an unspecified order; the model takes the earliest queued entry.
- AStar.Search: does not claim shortest paths. `setG` adds the new g to the old f instead of recomputing g + h, which is modelled as written in `AStar.Lowered`.
- AStar.SearchFrom: states only that at least one node is polled, not the exact number of polls.
- Robots.Run: requires an in-bounds start. It does not state the trajectory length or the total of cells processed.
- Robots.RunPath: modelled by recursion over the path (`RunPath` and `WalkOn`) instead of the `while` loop; the iterations are the same.
- SimpleAgents.NaiveLearn: requires consistent counters. Without them a visited cell with H > 0 may have no Unsure neighbour, and the source loop never ends.
- Hypotheses.PerfectLearn: requires consistent counters, and so do `TotalSolve`, `Attempts` and `Branch`. Without them the neighbour scan (PerfectInferenceAgent.java lines 121-128) can fall through to a cell that is not Unsure, or to null.
- Hypotheses.TotalSolve: proves only that a sound knowledge base is reported satisfiable. The converse, that false means no consistent assignment exists, is not stated. At depth 0 the search answers true without looking, as the source does.
- The comparison between `naiveLearn` and `learn` suggested by the Basic agent's doc comment is not proved. The two differ in general: `learn` seeds propagation only at the location and its neighbours, and it stops at a contradiction. The model instead proves that both keep a sound knowledge base sound, and that `naiveLearn` ends at a fixed point.
- The Free branch of `totalSolve` writes into its `kb` argument. Every caller passes a disposable copy, so with value semantics the effect is invisible and not modelled.
