# Proofs about a race, a barrier, a malloc driver, a sampler and a shell parser

This project models the concurrent and the stateful parts of an operating-systems course repository in
Dafny and proves what they do. `dafny verify dfyconfig.toml` checks everything.

## What is modelled

**The hare and tortoise race** (`Race*.dfy`). `RaceThreads` is a machine with one program counter for each of
main, Report, Randomizer, Turtle and Hare, an owner for each of the nine locks, and one atomic step per
statement. `RaceSequential` is the plain race: tick, reposition, print, turtle, hare. `RaceSafety` proves that
every interleaving refines the plain race, `RaceProgress` says exactly when the machine gets stuck,
`RaceSchedules` builds interleavings, `RaceLostSignal` says for which races a signal can be lost, and
`RaceOutcome` works out what the plain race comes to.

Progress is conditional. A worker that has released its lock (line 121) but is not yet waiting again (lines
90-93) misses the next signal, and init then never returns. The exact condition is: each of Report's turn signals
must find its worker waiting, and a final signal must not fall between a worker's loop test and its wait. That
a worker has exited is enough for a final signal but not for a turn signal (`RaceLostSignal.ExitedWorkerIsMissed`).
`RaceLostSignal.SignalCanBeLostIff` shows that every race has an interleaving that hangs unless the first entry of
its array decides it at time 0.

**The reusable barrier** (`Barrier*.dfy`, `PhaseClient.dfy`, `PingPongClient.dfy`). Any number of threads run
straight-line programs whose statements call barrier_wait; each statement of barrier_wait is a step. The two
client modules unroll barrier-testcase2.c for any number of threads and barrier-testcase5.c for any number of
rounds.

**The malloc driver** (`MemLib`, `Mm`, `RangeList`, `Traces`, `MallocDriver`, `MallocValidity`, `Utilization`).
Heap, arrays and the linked range list are updated in place; each driver method is proved against a replay
function, and the theorems are about the replay of whole traces. The heap starts with arbitrary bytes. The
conversions int to size_t and back that a request goes through are written out in `Mm`.

**The K-best sampler** (`Sampler.dfy`) and **the command parser** (`CString`, `Shell`, `ShellRoundTrip`). The
parser cuts one character buffer in place with strtok, strsep and strrchr; the contracts hold for every
NUL-terminated input, malformed ones included, and the round trip is proved about the string-level parser that
they mention.

## Assumptions

- Memory is sequentially consistent and each C statement is atomic.
- No spurious wakeups, which POSIX permits for pthread_cond_wait; `BarrierReuse.SpuriousWakeupBreaksBarrier`
  shows that every barrier for two or more threads needs this. A signal wakes at most one waiter.
- All threads of the barrier clients exist from the start; creating them later only removes interleavings in
  which they move early. Nothing else than the schedule decides who moves.
- Integers are unbounded except in `Mm`; printing_delay is not zero; bytes of the heap are unsigned.
- strtok is that of the GNU C library where the C standard leaves its saved pointer open (after it has returned
  NULL); the round trip does not depend on it.
- Samples and epsilon are real numbers, and kbest is at least 1.

## Model

| member | source | states |
|---|---|---|
| RaceSequential.Track.TurtleAction | assignment-2/PA2_2020/assignment-2-Final/PA2_2020/3_race/hare_tortoise.c:100-116 | the in-place action section of Turtle changes the globals exactly as the sequential turn does, tie branch included, and nothing else |
| RaceSequential.Track.HareAction | assignment-2/PA2_2020/assignment-2-Final/PA2_2020/3_race/hare_tortoise.c:162-190 | the in-place action section of Hare: decide when the counter equals the sleep time, run if the lead allows it, else count |
| RaceSequential.Track.RandomizerAction | assignment-2/PA2_2020/assignment-2-Final/PA2_2020/3_race/hare_tortoise.c:234-271 | the in-place action section of Randomizer: apply the next entry if it is due, clamp at the start, close at the finish |
| RaceSequential.Track.Round | assignment-2/PA2_2020/assignment-2-Final/PA2_2020/3_race/hare_tortoise.c:290-320 | one round in place: the clock, the three action sections in order and the printed line are one round of the sequential simulation |
| RaceSequential.Track.Play | assignment-2/PA2_2020/assignment-2-Final/PA2_2020/3_race/hare_tortoise.c:290-340 | n rounds played in place from the starting line, stopping when there is a winner, give the globals of the sequential simulation after n rounds |
| RaceSequential.SimStable | assignment-2/PA2_2020/assignment-2-Final/PA2_2020/3_race/hare_tortoise.c:290-340 | a closed sequential race never changes again |
| RaceSequential.SimLines | assignment-2/PA2_2020/assignment-2-Final/PA2_2020/3_race/hare_tortoise.c:304-306 | the lines printed by the simulation are one for every tick from 0 on that the printing delay divides, in order and once each, each with both distances as they are after Randomizer's turn and before the other two |
| RaceSequential.SequentialWinnerUnique | assignment-2/PA2_2020/assignment-2-Final/PA2_2020/3_race/hare_tortoise.c:290-340 | a race has at most one deciding round and one winner |
| RaceSafety.RestIsTurn | assignment-2/PA2_2020/assignment-2-Final/PA2_2020/3_race/hare_tortoise.c:100-121 | executing a worker's action section statement by statement from its first test ends with the globals of that worker's sequential turn |
| RaceSafety.InvStep | assignment-2/PA2_2020/assignment-2-Final/PA2_2020/3_race/hare_tortoise.c:73-342 | every statement of every thread keeps the invariant: lock ownership, hand-shake, turn token, clock readings, refinement, joins |
| RaceSafety.RoundBoundary | assignment-2/PA2_2020/assignment-2-Final/PA2_2020/3_race/hare_tortoise.c:290-340 | in every interleaving, at every round boundary all shared variables are those of the sequential simulation after clock_tick + 1 rounds |
| RaceSafety.EveryStateRefines | assignment-2/PA2_2020/assignment-2-Final/PA2_2020/3_race/hare_tortoise.c:73-342 | in every reachable state, also in the middle of a turn, what is left of the round leads to the sequential simulation after clock_tick + 1 rounds |
| RaceSafety.InitReturnsSequentialWinner | assignment-2/PA2_2020/assignment-2-Final/PA2_2020/3_race/hare_tortoise.c:350-461 | in every interleaving in which init returns, it returns the winner of the sequential race in its deciding round, and the printed lines are those of the sequential race: the right ticks in order, each with the right two distances |
| RaceSafety.OneWorkerActs | assignment-2/PA2_2020/assignment-2-Final/PA2_2020/3_race/hare_tortoise.c:100-121 | while no_winner is 1 at most one worker is in its action section, and a worker about to move a player is alone there, although they hold different locks |
| RaceSafety.AssertionsHold | assignment-2/PA2_2020/assignment-2-Final/PA2_2020/3_race/cs_thread.h:58-102 | every lock_release, cond_wait and cond_signal is made by the owner of the lock, so the held-lock assertions cannot fail |
| RaceSafety.FirstSignalFindsWorkerParked | assignment-2/PA2_2020/assignment-2-Final/PA2_2020/3_race/hare_tortoise.c:80-93 | because of the start-up hand-shake Report's first signal finds each worker parked, in every interleaving |
| RaceProgress.LostExactly | assignment-2/PA2_2020/assignment-2-Final/PA2_2020/3_race/hare_tortoise.c:299-335 | a statement makes a worker wait in vain exactly when it is a signal of Report that does not reach its worker |
| RaceProgress.LostForever | assignment-2/PA2_2020/assignment-2-Final/PA2_2020/3_race/hare_tortoise.c:90-93 | a lost signal is never made up for, whatever the schedule does afterwards |
| RaceProgress.ServedIffNothingLost | assignment-2/PA2_2020/assignment-2-Final/PA2_2020/3_race/hare_tortoise.c:299-335 | all of Report's signals along a schedule have reached their workers if and only if nobody waits in vain in the state reached |
| RaceProgress.StuckMeansUnlocked | assignment-2/PA2_2020/assignment-2-Final/PA2_2020/3_race/hare_tortoise.c:73-342 | no deadlock is caused by a lock: in a state in which nobody can move no lock is held |
| RaceProgress.FinishesIffServed | assignment-2/PA2_2020/assignment-2-Final/PA2_2020/3_race/hare_tortoise.c:299-335 | a schedule that leaves nobody able to move has ended the race with all threads joined if and only if every signal of Report reached its worker |
| RaceProgress.RunsAreFinite | assignment-2/PA2_2020/assignment-2-Final/PA2_2020/3_race/hare_tortoise.c:73-342 | if the sequential race closes in round n, no interleaving has more than 400 (n + 1) statements |
| RaceProgress.ServedRaceReturnsWinner | assignment-2/PA2_2020/assignment-2-Final/PA2_2020/3_race/hare_tortoise.c:350-461 | a maximal schedule without a lost signal ends with init returning the sequential winner |
| RaceSchedules.SomeScheduleReturnsWinner | assignment-2/PA2_2020/assignment-2-Final/PA2_2020/3_race/hare_tortoise.c:350-461 | for every race that ends there is an interleaving in which init returns its winner |
| RaceLostSignal.SignalCanBeLostIff | assignment-2/PA2_2020/assignment-2-Final/PA2_2020/3_race/hare_tortoise.c:90-93 | the program can lose a signal if and only if the first entry of the array does not take a player to the finishing line at time 0 |
| RaceLostSignal.DecidedAtOnceEnds | assignment-2/PA2_2020/assignment-2-Final/PA2_2020/3_race/hare_tortoise.c:236-268 | in a race decided by its first entry every maximal schedule ends, and init returns the repositioned player, or Turtle if Hare is put on a finish at 0 and the tie rule applies |
| RaceLostSignal.LostNeverReturns | assignment-2/PA2_2020/assignment-2-Final/PA2_2020/3_race/hare_tortoise.c:309-312 | after a lost signal init does not return, however the schedule goes on |
| RaceLostSignal.ExitedWorkerIsMissed | assignment-2/PA2_2020/assignment-2-Final/PA2_2020/3_race/hare_tortoise.c:77-79 | a concrete interleaving in which every earlier signal is received and Report then waits for ever for a worker that has exited, so finding a worker exited is not enough for a turn signal |
| RaceOutcome.TurnsKeepFair | assignment-2/PA2_2020/assignment-2-Final/PA2_2020/3_race/hare_tortoise.c:100-116 | for F > 0 each action keeps: the race is open iff both distances are below F and there is no winner, and otherwise exactly the winner stands on F; after that nothing changes, so the tie branch never fires |
| RaceOutcome.AlwaysFairIffFinishAhead | assignment-2/PA2_2020/assignment-2-Final/PA2_2020/3_race/hare_tortoise.c:162-188 | that property holds after every round if and only if the finish distance is positive |
| RaceOutcome.SleepCounter | assignment-2/PA2_2020/assignment-2-Final/PA2_2020/3_race/hare_tortoise.c:137-188 | with sleep time S the counter after n rounds of an open race is n - 1 modulo S + 1, starting from S |
| RaceOutcome.DecidesAtMultiples | assignment-2/PA2_2020/assignment-2-Final/PA2_2020/3_race/hare_tortoise.c:164-188 | Hare decides whether to run exactly at the ticks that are multiples of S + 1 |
| RaceOutcome.HareRunsIff | assignment-2/PA2_2020/assignment-2-Final/PA2_2020/3_race/hare_tortoise.c:164-180 | Hare runs at a tick exactly if it is a multiple of S + 1 and its lead is at most the limit, and then by its speed or up to the finish |
| RaceOutcome.RepositioningMoves | assignment-2/PA2_2020/assignment-2-Final/PA2_2020/3_race/hare_tortoise.c:236-269 | a due entry moves its player by its distance but neither behind the start nor beyond the finish, moves nobody else, and closes the race exactly if somebody is at the finish |
| RaceOutcome.AppliedIff | assignment-2/PA2_2020/assignment-2-Final/PA2_2020/3_race/hare_tortoise.c:236-269 | in an open race entry i has been applied iff the times of entries 0..i are non-negative, strictly increasing and past |
| RaceOutcome.EndsInTime | assignment-2/PA2_2020/assignment-2-Final/PA2_2020/3_race/hare_tortoise.c:102-111 | with tortoise_speed > 0 and F > 0 the race is over by tick M + ceil(F / ts) - 1, M bounding 0 and the repositioning times |
| RaceOutcome.WinnerInClosedForm | assignment-2/PA2_2020/assignment-2-Final/PA2_2020/3_race/hare_tortoise.c:130-190 | without repositionings and with a sleep lead of at least F, Turtle wins iff ceil(F/ts) - 1 <= (S + 1)(ceil(F/hs) - 1), and the race ends in the round of the first arrival |
| RaceOutcome.PlainLines | assignment-2/PA2_2020/assignment-2-Final/PA2_2020/3_race/hare_tortoise.c:304-306 | without repositionings the line for tick k shows Turtle at k ts and Hare at ceil(k / (S + 1)) hs |
| BarrierSafety.JoinsAfter | assignment-2/PA2_2020/assignment-2-Final/PA2_2020/2_barrier/barrier-testcase5.c:55-56 | in every reachable state of any programs the threads joined so far have finished |
| BarrierSafety.BarrierStepKeeps | assignment-2/PA2_2020/assignment-2-Final/PA2_2020/2_barrier/barrier.c:18-38 | every statement, whatever the programs and the number of callers, keeps: one owner inside the mutex, and the count is the number of threads still missing |
| BarrierSafety.BroadcastReleases | assignment-2/PA2_2020/assignment-2-Final/PA2_2020/2_barrier/barrier.c:29-34 | the broadcast releases exactly the threads waiting at that barrier, no other thread moves, and nobody counts as arrived any more |
| BarrierSafety.RoundInvStep | assignment-2/PA2_2020/assignment-2-Final/PA2_2020/2_barrier/barrier.c:18-38 | the arrived threads of a team are one entry ahead of the others, also when fast threads re-enter before woken ones re-lock |
| BarrierSafety.NoEarlyReturn | assignment-2/PA2_2020/assignment-2-Final/PA2_2020/2_barrier/barrier.c:18-38 | with as many callers as the barrier is made for, no thread has returned from its k-th barrier_wait before all have entered their k-th, and entries are at most two ahead of anybody's returns |
| BarrierProgress.TotalLeftDrops | assignment-2/PA2_2020/assignment-2-Final/PA2_2020/2_barrier/barrier.c:18-38 | every statement of any thread lowers the work left, waiting threads included |
| BarrierProgress.RunsAreFinite | assignment-2/PA2_2020/assignment-2-Final/PA2_2020/2_barrier/barrier.c:18-38 | no schedule has more statements than the work the programs start with |
| BarrierProgress.StuckShape | assignment-2/PA2_2020/assignment-2-Final/PA2_2020/2_barrier/barrier.c:24-28 | in a state in which nobody can move, an unfinished thread waits in pthread_cond_wait or joins an unfinished thread |
| BarrierProgress.StuckBarrierIncomplete | assignment-2/PA2_2020/assignment-2-Final/PA2_2020/2_barrier/barrier.c:24-28 | in such a state fewer threads wait at a barrier than it needs |
| BarrierReuse.EndsIffSameCalls | assignment-2/PA2_2020/assignment-2-Final/PA2_2020/2_barrier/barrier.c:18-38 | with one barrier made for the number of its callers, and callers that join no thread, every maximal schedule brings all callers to their ends if and only if they call it equally often |
| BarrierReuse.SpuriousWakeupBreaksBarrier | assignment-2/PA2_2020/assignment-2-Final/PA2_2020/2_barrier/barrier.c:24-28 | because the wait is under if and not while: for all programs, any number of callers and every schedule, a spurious wakeup of a thread waiting while the mutex is free lets it return before some caller has entered |
| BarrierReuse.NobodyWaitsForOne | assignment-2/PA2_2020/assignment-2-Final/PA2_2020/2_barrier/barrier.c:22-28 | at a barrier made for one thread no thread ever waits, so it is immune |
| BarrierReuse.CanBeHarmedIff | assignment-2/PA2_2020/assignment-2-Final/PA2_2020/2_barrier/barrier.c:24-28 | n threads sharing a barrier made for n can be harmed by one spurious wakeup if and only if n is at least 2 |
| PhaseClient.SumsAreQuiet | assignment-2/PA2_2020/assignment-2-Final/PA2_2020/2_barrier/barrier-testcase2.c:20-37 | while thread 0 sums, every cell is 1 (first sum) or 11 (second sum) and every other thread is between its additions |
| PhaseClient.SumsAreRight | assignment-2/PA2_2020/assignment-2-Final/PA2_2020/2_barrier/barrier-testcase2.c:12-40 | for every N and every schedule the printed sums are a prefix of N and 11 N, both once thread 0 has finished, and no thread is about to write while a sum is taken |
| PhaseClient.MainEndsLast | assignment-2/PA2_2020/assignment-2-Final/PA2_2020/2_barrier/barrier-testcase2.c:54-58 | when main has finished, all threads have finished and both sums are printed, so exit(0) cuts nothing off |
| PhaseClient.TestCaseEnds | assignment-2/PA2_2020/assignment-2-Final/PA2_2020/2_barrier/barrier-testcase2.c:42-59 | every maximal schedule ends with all threads and main finished and both sums printed |
| PingPongClient.MainIsFirst | assignment-2/PA2_2020/assignment-2-Final/PA2_2020/2_barrier/barrier-testcase5.c:30-53 | when Thread 2 enters b1, main has been there and is gone, although b1 has three callers and size two |
| PingPongClient.BothArrived | assignment-2/PA2_2020/assignment-2-Final/PA2_2020/2_barrier/barrier-testcase5.c:18-35 | every broadcast of b1 pairs Thread 1 with one of the other two |
| PingPongClient.TurnToPrint | assignment-2/PA2_2020/assignment-2-Final/PA2_2020/2_barrier/barrier-testcase5.c:20-30 | a thread about to print is exactly in step with the other one |
| PingPongClient.GreetingsAlternate | assignment-2/PA2_2020/assignment-2-Final/PA2_2020/2_barrier/barrier-testcase5.c:16-32 | for every number R of rounds and every schedule the lines printed so far are Hii, Hello, Hii, ... in turn, at most 2 R of them |
| PingPongClient.ChatAt | assignment-2/PA2_2020/assignment-2-Final/PA2_2020/2_barrier/barrier-testcase5.c:21-28 | the i-th of the m lines is Hii for even i and Hello for odd i |
| PingPongClient.MainEndsLast | assignment-2/PA2_2020/assignment-2-Final/PA2_2020/2_barrier/barrier-testcase5.c:53-58 | when main has finished, both threads have finished and all 2 R lines are printed, so exit(0) cuts nothing off |
| PingPongClient.TestCaseEnds | assignment-2/PA2_2020/assignment-2-Final/PA2_2020/2_barrier/barrier-testcase5.c:12-59 | every maximal schedule ends with all three threads finished and exactly R times Hii, Hello printed |
| MemLib.Memory.SbrkBy | assignment-3/PA_3_handout/memlib.c:58-69 | the old break and a moved one, or -1 and an unmoved one when the increment is negative or does not fit |
| MemLib.Memory.Fill | assignment-3/PA_3_handout/mdriver.c:625-625 | memset changes exactly the bytes of the block |
| Mm.MmMalloc | assignment-3/PA_3_handout/mm.c:74-92 | mm_malloc with its size_t and int conversions |
| Mm.MmRealloc | assignment-3/PA_3_handout/mm.c:112-136 | mm_realloc with its size_t and int conversions: nothing is copied or reused |
| Mm.MallocPositive | assignment-3/PA_3_handout/mm.c:74-92 | for a positive int the conversions are harmless: the block starts at the break, which moves by the rounded size, or the request fails |
| RangeList.List.Add | assignment-3/PA_3_handout/mdriver.c:381-429 | add_range accepts iff the block is aligned, inside the heap and neither end lies in a recorded range; then the list is the old one with the block in front, and still acyclic |
| RangeList.AcceptsIff | assignment-3/PA_3_handout/mdriver.c:390-416 | the three tests in numbers: an address divisible by 8, the block inside the heap, and neither end inside a recorded range |
| RangeList.List.Unlink | assignment-3/PA_3_handout/mdriver.c:440-448 | relinking through prevpp removes exactly the node found |
| RangeList.List.Remove | assignment-3/PA_3_handout/mdriver.c:434-449 | remove_range removes the first range that starts at lo and no other |
| RangeList.WithoutFirstAt | assignment-3/PA_3_handout/mdriver.c:434-449 | what removing the first match means, by positions |
| RangeList.AcceptedDisjointIff | assignment-3/PA_3_handout/mdriver.c:409-416 | an accepted block keeps the list pairwise disjoint if and only if it encloses no recorded range |
| RangeList.EnclosingBlockAccepted | assignment-3/PA_3_handout/mdriver.c:409-416 | the overlap test accepts a block that encloses a recorded one: a concrete case |
| MallocDriver.Interpret | assignment-3/PA_3_handout/mdriver.c:598-681 | one operation of a trace: same verdict and same new heap, arrays and range list as the replay function |
| MallocDriver.EvalValid | assignment-3/PA_3_handout/mdriver.c:577-685 | eval_mm_valid on a heap of arbitrary contents: same verdict and same final state as the replay of the whole trace |
| MallocValidity.StepPasses | assignment-3/PA_3_handout/mdriver.c:603-681 | an operation is accepted iff its size is positive, the rounded size fits the heap and, for realloc, the fresh area already holds the stamp; the address -1 of an exhausted heap fails the alignment check |
| MallocValidity.Accepted | assignment-3/PA_3_handout/mdriver.c:577-685 | a trace is accepted iff all sizes are positive, the rounded sizes together fit the heap, and every realloc finds the low byte of its index in the initial heap; then the break has moved by the rounded sizes, the arrays hold for every id the size and the address last given, and the heap beyond the break is untouched |
| MallocValidity.AbortsIff | assignment-3/PA_3_handout/mdriver.c:388-388 | a trace fails assert(size > 0) exactly when, after an acceptable prefix, it has a malloc of negative size or a realloc of size below -7 |
| MallocValidity.PositiveNeverAborts | assignment-3/PA_3_handout/mdriver.c:617-660 | with positive sizes a trace that is not accepted makes eval_mm_valid return 0: an exhausted heap and a stamp that is not found never fail the assertion |
| MallocValidity.AllocFreeAccepted | assignment-3/PA_3_handout/mdriver.c:577-685 | a trace of mallocs and frees is accepted exactly when every size is positive and the rounded sizes are together at most 20 MB |
| MallocValidity.AcceptedDisjoint | assignment-3/PA_3_handout/mdriver.c:577-685 | on every accepted trace, well-formed or not, the recorded ranges are pairwise disjoint: bump addresses never enclose a recorded range |
| MallocValidity.ReallocRejected | assignment-3/PA_3_handout/mdriver.c:653-662 | on a zeroed heap any trace with a realloc of a block of positive size whose index is no multiple of 256 is rejected, because mm_realloc does not copy |
| MallocValidity.StepIntact | assignment-3/PA_3_handout/mdriver.c:598-681 | every accepted operation keeps: live blocks disjoint, in the heap and stamped, the list holding exactly their extents |
| MallocValidity.StampsLast | assignment-3/PA_3_handout/mdriver.c:598-681 | on a well-formed trace, after every accepted operation every byte of every live block is its index modulo 256: no later memset touches a live block |
| Traces.LastGiven | assignment-3/PA_3_handout/mdriver.c:627-666 | by positions: the size and the address of an id are those of the last malloc or realloc of it |
| Traces.LiveIff | assignment-3/PA_3_handout/mdriver.c:604-675 | by positions: an id is live if and only if the last operation on it is no free |
| Utilization.RecordedArrays | assignment-3/PA_3_handout/mdriver.c:723-747 | for any allocator, the driver's arrays hold for every id the size and the address last given to it by the trace |
| Utilization.TotalIsLive | assignment-3/PA_3_handout/mdriver.c:698-778 | for any allocator, on a well-formed trace total_size is the sum of the sizes that the trace last gave to its live ids |
| Utilization.MaxOverGrowth | assignment-3/PA_3_handout/mdriver.c:713-775 | for any allocator and any sizes, max_total_size is the maximum of the live bytes over the start of the trace and the prefixes that end with a malloc or realloc |
| Utilization.MaxIsPeakIff | assignment-3/PA_3_handout/mdriver.c:713-775 | max_total_size is the maximum over all prefixes if and only if that maximum is reached at the start or right after a malloc or realloc |
| Utilization.MaxOverPrefixes | assignment-3/PA_3_handout/mdriver.c:713-775 | with sizes that are not negative it is the maximum over all prefixes |
| Utilization.NegativeSizeSpoilsMax | assignment-3/PA_3_handout/mdriver.c:758-769 | a concrete trace with a negative size on which it is not; main never measures it, since eval_mm_valid rejects it |
| Utilization.PackedFit | assignment-3/PA_3_handout/mdriver.c:687-697 | disjoint blocks inside an interval add up to at most its length |
| Utilization.MaxFitsHeap | assignment-3/PA_3_handout/mdriver.c:687-697 | for any allocator that keeps live blocks disjoint in the heap and never lowers the break, max_total_size is at most mem_heapsize() |
| Utilization.FailsIff | assignment-3/PA_3_handout/mdriver.c:720-743 | eval_mm_util ends in app_error iff the trace has a malloc of size 0 or a realloc of size -7 to 0; an exhausted heap goes unnoticed |
| Utilization.AppErrorIff | assignment-3/PA_3_handout/mdriver.c:720-743 | the same for the value returned |
| Utilization.MmUtilization | assignment-3/PA_3_handout/mdriver.c:698-778 | for mm.c on a well-formed trace of positive sizes that fits the heap: the heap is the sum of the rounded sizes, and max_total_size is the maximum of the live bytes and at most the heap |
| Utilization.AcceptedIsMeasured | assignment-3/PA_3_handout/mdriver.c:290-308 | main measures only traces that eval_mm_valid accepted: on a well-formed one eval_mm_util never ends the program and returns the peak of the live bytes divided by the sum of the rounded sizes, a number from 0 to 1, or 0/0 if nothing was allocated |
| Utilization.Carry | assignment-3/PA_3_handout/mdriver.c:713-775 | one operation of eval_mm_util follows the specification or stops on a NULL |
| Utilization.EvalUtil | assignment-3/PA_3_handout/mdriver.c:698-778 | eval_mm_util returns the quotient of the maximum and the heap size of the run that the other lemmas are about, or ends in app_error exactly when that run does |
| Sampler.State.InitSampler | assignment-3/PA_3_handout/fcyc.c:50-62 | a new array of kbest values and no samples |
| Sampler.State.AddSample | assignment-3/PA_3_handout/fcyc.c:67-88 | after each call the array holds what is kept of all samples seen so far |
| Sampler.State.Bubble | assignment-3/PA_3_handout/fcyc.c:82-87 | the in-place insertion sort moves the last value behind all that are not larger and changes nothing else |
| Sampler.State.HasConverged | assignment-3/PA_3_handout/fcyc.c:93-98 | true iff at least kbest samples were seen and the k-th smallest is within the factor 1 + epsilon of the smallest |
| Sampler.KeptAreSmallest | assignment-3/PA_3_handout/fcyc.c:67-88 | the kept values are the first min(samplecount, kbest) of all samples in order |
| Sampler.SortingSorts | assignment-3/PA_3_handout/fcyc.c:67-88 | that order is a sorted permutation of the samples |
| Sampler.ConvergedIff | assignment-3/PA_3_handout/fcyc.c:93-98 | in terms of the samples: converged if and only if at least k of them are at most (1 + epsilon) times the least |
| Sampler.State.Fcyc | assignment-3/PA_3_handout/fcyc.c:129-168 | fcyc stops at the first number of samples that has converged or reached maxsamples, and returns the head of the sorted samples |
| Sampler.Sampled | assignment-3/PA_3_handout/fcyc.c:129-168 | the result is the minimum of the n samples taken, n is at most max(1, maxsamples), n is smaller only if k of the n are at most (1 + epsilon) times their least, and for no smaller number of samples that was so |
| CString.Text.StrTok | assignment 1/myshell.c:100-133 | strtok with one delimiter and its saved pointer: the token returned, the rest saved, one byte cut, nothing else changed |
| CString.Text.StrSep | assignment 1/myshell.c:43-43 | strsep cuts off one field, which may be empty |
| Shell.RemoveSpacesAndCreateTokens | assignment 1/myshell.c:39-50 | for any string the token array points to its words, at most 200 of them, with NULL behind them if there is room; bytes outside the string are untouched |
| Shell.SplitRedirections | assignment 1/myshell.c:87-134 | the strtok calls of checkIOParser leave three strings in the buffer that do not touch, in all five branches |
| Shell.FileName | assignment 1/myshell.c:58-75 | a file name is the first word of its text, and without one strcmp is given NULL |
| Shell.CheckIOParser | assignment 1/myshell.c:84-141 | for any string the words and file names found in place are those of the string-level parser, or the program is undefined exactly when that is |
| Shell.ParseCommand | assignment 1/myshell.c:244-265 | the pipe split and both parses: the tokens of the first part survive the parse of the second, although strtok has only one saved pointer |
| ShellRoundTrip.WordsPrinted | assignment 1/myshell.c:39-50 | words printed with any number of spaces between them, before and behind are found again |
| ShellRoundTrip.RedirectionsPrinted | assignment 1/myshell.c:87-134 | either order of the redirections is split into command, input and output text |
| ShellRoundTrip.ParsePrinted | assignment 1/myshell.c:84-141 | parsing a printed command gives the same words and files, for any spacing and either redirection order, also without words if a space comes first |
| ShellRoundTrip.ParsePrintedIff | assignment 1/myshell.c:84-141 | for any words, files, spacing and redirection order, parsing a printed command gives it back if and only if there are words, or a space in front, or no files |
| ShellRoundTrip.FrontMisread | assignment 1/myshell.c:100-133 | a line that begins with a redirection sign is either undefined or yields a command although it has none |
| ShellRoundTrip.LoneFileMisread | assignment 1/myshell.c:100-104 | the shortest such line: the file of a lone redirection at the very front becomes the command |
| ShellRoundTrip.UndefinedIff | assignment 1/myshell.c:58-75 | for any string the program is undefined exactly when a redirection text is there but holds only spaces |
| ShellRoundTrip.LoneSign | assignment 1/myshell.c:100-111 | words followed by a sign and n spaces: undefined if n > 0, and for n = 0 the sign is ignored |
| ShellRoundTrip.FirstNameMissing | assignment 1/myshell.c:112-134 | two redirections, the first without a name: undefined if there is a space between the signs, otherwise the second name is taken for the first |
| ShellRoundTrip.SecondNameMissing | assignment 1/myshell.c:112-134 | two redirections, the second without a name: undefined if a space follows, otherwise the second sign is ignored |
| ShellRoundTrip.SignTwice | assignment 1/myshell.c:92-134 | with one sign used twice, the last sign of each kind decides the branch and the first of the equal ones stays in the command |
| ShellRoundTrip.NoCommandIff | assignment 1/myshell.c:247-250 | a line is no command exactly when it holds nothing but pipe signs |
| ShellRoundTrip.ThirdPartIgnored | assignment 1/myshell.c:247-251 | what follows a second pipe sign is ignored |
| ShellRoundTrip.LinePrinted | assignment 1/myshell.c:244-265 | parsing a printed line with no pipe or one pipe gives the same command or commands |
| ShellRoundTrip.ParseCommandPrinted | assignment 1/myshell.c:244-265 | in place: a command of at most 199 words printed into a buffer and parsed there leaves pointers to exactly its words, NULL behind them, and to its files |
| ShellRoundTrip.ParsePipePrinted | assignment 1/myshell.c:244-265 | in place: the same for two commands around a pipe |

## Left out

- Weak memory, spurious wakeups in the race, pthread_create failure and malloc failure.
- Locks, condition variables and threads as mutable objects: the race and the barrier are machines on values, because
  interleaving is the point; the action sections of the race are also given as methods that update fields in place.
- The wait sets of the race are read off program counters: each condition variable has one possible waiter.
- Loops of the two barrier clients are unrolled into straight-line programs, one per N or R.
- MallocDriver.EvalValid: assert(size > 0) is an outcome of its own; the messages of malloc_error are not modelled.
- MallocValidity.AllocFreeAccepted: for a heap that starts at a multiple of 8, as malloc returns it.
- Utilization.EvalUtil: the double it returns is a real number, not a number (0/0) or infinite; rounding is left out.
- Utilization.MaxOverPrefixes: for sizes that are not negative; `Utilization.MaxIsPeakIff` has no such condition.
- RangeList.List.Clear: the memory of list nodes is not freed, so use after free is not modelled.
- Sampler.State.Fcyc: doubles are reals; cache clearing, counters and the compensated clock are left out.
- Shell.FileName: the loop behind strtok compares the token with a single space and never runs; the contract proves that instead.
- Shell.ParseCommand: array elements of C that stay uninitialised (a line of pipe signs only) are an outcome of their own.
- Removing quotes, cutting at semicolons, command tables, fork, exec, dup2, pipes, signals and input in myshell.c; checkcpupercentage.c.
- eval_mm_speed, the libc evaluation, read_trace, option parsing and printing in mdriver.c.
- hare_tortoise_runner.c, clock.c, ftimer.c, fsecs.c: file reading and hardware counters.
- threads.c, nlocks.c and barrier test cases 1, 3 and 4: easier instances of what is proved.
- The older copies of the race and the barrier, mm1.c and mm2.c: the same logic again.
