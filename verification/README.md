# Verified models of the Orly repository

A Dafny model of ten components of the Orly repository and proofs of what each is for. One file or small group of files
per component; `Common.dfy` holds the few facts about sequences and sets they share.

| component | files |
|---|---|
| the JHM build scheduler with its cache check | `WorkFinder.dfy` |
| the thread-local and global object pool | `PoolLists.dfy`, `Pool.dfy`, `PoolAlloc.dfy` |
| the pump's pipe | `Pump.dfy` |
| JSON | `JsonScan.dfy`, `Json.dfy`, `JsonGrammar.dfy`, `JsonStream.dfy` |
| streaming statistics | `Sigma.dfy`, `ThreadLocalSigma.dfy` |
| the parker | `Parker.dfy` |
| the job scheduler | `Scheduler.dfy` |
| keyset paging | `Paging.dfy` |
| the incremental Orlyscript compile driver and its hash | `Compiler.dfy`, `Murmur.dfy` |
| bounded integer reading | `Convert.dfy` |

How the models are made:

- Code that updates objects in place is a class whose methods keep the source's steps and loops and are proved against
  specification functions: `WorkFinder.Finder`, `PoolAlloc.Manager`, `Pump.Pipe`, `JsonStream.Writer` and `Reader`,
  `Sigma.SigmaCalc`, `Paging.Cursor`, `Compiler.Driver`, `Convert.Converter`.
- Concurrent code is a machine whose steps are the shared accesses or the sections under a mutex, with a theorem over
  every run: `Pool`, `ThreadLocalSigma`, `Parker`, `Scheduler`.
- Input and output, the network, clocks, the kernel, g++ and the job runner are parameters: the bytes a read returns, how
  much a write takes, whether the linker succeeds, which jobs come back and with what result.

Where a promise of the source turned out to be false, the model keeps the code and states exactly when it holds:

- The staleness cache of the compile driver (`orly/compiler.cc:228-467`) is not safe against transient compiles that
  fail. They write generated files but no keys, and the keys of earlier compiles are removed only after g++ succeeds.
  `Compiler.FailedTransientLeavesOrphans` is a history that ends in wrong files and
  `Compiler.FailedTransientGivesWrongSo` one that ends in a wrong .so. `Compiler.CompileIsCleanIff` says, on any output
  tree, exactly when a cached compile equals a clean one; `Compiler.TransientCompile` and `Compiler.TransientIff` say
  exactly when a transient compile keeps the tree consistent, and `Compiler.IncrementalIsClean` is the theorem about
  histories under that condition.
- `null`, `true` and `false` do not read back from every stream (`base/json.h:250-265`): `Json.WordRunsOn` is a failing
  stream and `Json.RoundTrip` has the exact condition on what follows.
- `ConsumeWhitespace` (`base/convert.h:70-73`) looks at the head of the stream without testing for its end. The model
  makes reading past the end an outcome. So a sign at the end of the input is not the error that `TryReadInt` documents
  (`Convert.SignAtTheEnd`; `Convert.PastEndIff` and `Convert.NoDigitsIff` are exact).
- `TryReadInt` says that it leaves the input alone when it returns false. The code has consumed the white space then
  (`Convert.SpaceIsLost`; `Convert.UnchangedIff` is exact).
- Nothing is to start once `Shutdown` has begun (`base/scheduler.cc:159`). With no worker linked the cap stays as it was
  and a job can still be scheduled and started (`Scheduler.ShutdownMayLeak`; `Scheduler.ShutdownStopsIff` is exact).

Assumptions that are parameters or preconditions of the theorems: the build scheduler's environment has ranked, finite
input chains, and its runner returns every started job once; JSON objects are held as `std::map` does, with keys in byte
order; statistics are over the reals; the parker's four accesses are sequentially consistent; parsing, checking and code
generation are functions of the source and of the compiler's build stamp, and code generation writes all its files or
none; for histories the staleness hash has no collisions. The engine's cursors behind `orly/key_generator.h` are taken
to yield all matches in order (pattern cursor) and to start at the first key not below the bound and stop at the first
key that does not match (range cursor). A cursor over changed keys is the same cursor over the index of the changed
keys.

## Model

| member | source | states |
|---|---|---|
| WorkFinder.Finder.constructor | jhm/work_finder.h:83-104 | A new finder satisfies the invariant of every run with nothing queued, checked or finished. |
| WorkFinder.Finder.IsBuildable | jhm/work_finder.cc:225-227 | A file is buildable exactly when it is source or some job that could make it has a buildable input; an error means that two different jobs with buildable inputs claim some file. |
| WorkFinder.Finder.TryGetProducer | jhm/work_finder.cc:241-284 | A producer is found exactly for non-source buildable files, it is the only buildable claimant, the producer map only grows, and an error is given only when two jobs with buildable inputs claim a file. |
| WorkFinder.Finder.IsFileDone | jhm/work_finder.cc:229-239 | The answer is yes exactly when the file is source or its producer is finished; the finder's knowledge only grows. |
| WorkFinder.Finder.IsDone | jhm/work_finder.cc:330-339 | Terminates with the unchecked jobs as measure although it is mutually recursive with the cache check; a job is checked at most once, a job checked now is finished exactly if the cache vouches for it, and the answer is membership in Finished. |
| WorkFinder.Finder.Check | jhm/cache_check.cc:99-269 | Says yes exactly when the cache record vouches for the job (timestamps, recorded needs, anti-needs, outputs), marks the job checked, and keeps Finished closed under input and recorded needs. |
| WorkFinder.Finder.CheckRecord | jhm/cache_check.cc:172-250 | Yes exactly when the record names this job, its needs are settled, its anti-needs unbuildable, its outputs fresh and its configuration files the current ones, while recursing into the finder. |
| WorkFinder.Finder.CheckNeeds | jhm/cache_check.cc:182-190 | Succeeds exactly when every recorded need exists and is settled, and then gives the newest stamp among input and needs. |
| WorkFinder.Finder.CheckAntiNeeds | jhm/cache_check.cc:192-198 | Yes exactly when no file that has to stay unbuildable is buildable. |
| WorkFinder.Finder.CheckOutputs | jhm/cache_check.cc:211-237 | Succeeds exactly when every listed output resolves to a file of the job that is no older than the input and needs. |
| WorkFinder.Finder.CacheGoodIff | jhm/cache_check.cc:99-269 | The cache vouches for a job exactly if there is none of fourteen reasons to run it: an input or need still to be made, a file that has become buildable, an output that is gone, made by another job or older than the configuration, the command, the input or a need, a configuration file that appeared or disappeared, and the ways a cache file can fail to match. |
| WorkFinder.Finder.FinishedStaysClosed | jhm/work_finder.cc:201-223 | Once every finished job's input and recorded needs are settled, finishing one more keeps it so, for ever after. |
| WorkFinder.Finder.Queue | jhm/work_finder.cc:341-357 | Queues a job at most once, answers whether it still has to be done, and keeps the partition of All. |
| WorkFinder.Finder.AddNeededFile | jhm/work_finder.cc:56-74 | Answers yes exactly when the file is unsettled, and then enters exactly one (producer, consumer) pair in ToFinish; afterwards the file is source or its producer is among All, with or without a consumer; it answers only for buildable files, and throws only for a clash of producers or because this very file cannot be made. |
| WorkFinder.Finder.ProcessJob | jhm/work_finder.cc:76-108 | A job taken from Ready runs only if its input and all its needs are settled, and waits with the exact count otherwise; it throws only for a clash or a need of the job that cannot be made, never for its input. |
| WorkFinder.Finder.ProcessReady | jhm/work_finder.cc:76-108 | Terminates with Ready empty; every job handed to the runner has its input and all current needs source or made by finished jobs. |
| WorkFinder.Finder.ProcessResult | jhm/work_finder.cc:120-223 | Failed, incomplete and complete results move the job to failed, Ready and Finished; completion removes exactly the entries of the producer; it throws exactly for a complete job without its outputs. |
| WorkFinder.Finder.WakeConsumers | jhm/work_finder.cc:201-221 | Each waiting count drops by the consumer's entries under the producer, and a consumer is moved to Ready exactly when its count reaches zero. |
| WorkFinder.Finder.Complete | jhm/work_finder.cc:186-223 | Keeps the invariant: one place per job, Waiting equal to the number of unfinished-producer entries. |
| WorkFinder.SplitCounts | jhm/work_finder.cc:203-219 | The consumers of a list of entries are those under one producer plus those under the others, as multisets. |
| WorkFinder.Finder.SomeJobRuns | jhm/work_finder.cc:290-328 | In an acyclic build without failures, if a job waits and none is ready then some job runs: the rank descends along ToFinish to a running producer. |
| WorkFinder.Finder.NoDeadlock | jhm/work_finder.cc:290-328 | Out of work without a failure means nothing waits and Finished equals All. |
| WorkFinder.Finder.HandleResult | jhm/work_finder.cc:306-322 | Handling one result uses up one run of the plan, keeps the invariant and the log's account (a failure or a completion is that of the job's last attempt, every earlier attempt asked to be run again), and throws only for an attempt that succeeded without its outputs. |
| WorkFinder.Finder.ProcessBatch | jhm/work_finder.cc:317-321 | The same for all results returned together, has_failed sticking once set. |
| WorkFinder.Finder.MoreLogged | jhm/work_finder.cc:76-118 | A round of scheduling starts every job it starts with the job's next attempt, and everything that attempt needs is settled at that moment. |
| WorkFinder.Finder.FinishedIsEarned | jhm/work_finder.cc:201-223 | Every finished job had an attempt that completed with its outputs and whose input and needs, as the plan gives them for that attempt, are settled; or the cache vouches for it. |
| WorkFinder.Finder.BuildIsOver | jhm/work_finder.cc:290-328 | What the end of the loop means, with and without a failure. |
| WorkFinder.Finder.FinishAll | jhm/work_finder.cc:290-328 | Total correctness of the whole loop for any runner that returns each started job once: it terminates; without failures it ends with Ready, Waiting and Running empty and Finished equal to All; attempt k of a job is started only when its input and all that attempt k needs are settled; a job counted as run completed in its last attempt, one counted as failed failed in it, and all earlier attempts asked to be run again; it answers false only if some run failed, it throws only for two buildable claimants of a file, a need that cannot be made or a success without outputs; and so a build with none of these troubles succeeds. |
| WorkFinder.Finder.Build | jhm/jhm.cc:293-300 | A whole build: if it returns true every target is source or made by a finished job; every attempt was started with its needs settled; every finished job earned it by an attempt that completed or through the cache; it throws only for a target that cannot be made or one of the reasons of FinishAll; and it returns true whenever every target is buildable and nothing else is wrong. |
| PoolLists.ChainUnique | base/thread_local_global_pool.h:56-64 | The list behind a pointer is determined by the links. |
| PoolLists.SpliceList | base/thread_local_global_pool.h:281-291 | Linking the tail of one list to the head of another joins the two and moves exactly those objects. |
| PoolLists.CutList | base/thread_local_global_pool.h:206-218 | Clearing one link splits a list in two and moves exactly the objects behind it. |
| PoolLists.MoveList | base/thread_local_global_pool.h:139-144 | An exchange moves a whole list to a root that held nothing. |
| PoolLists.LastKeptIs | base/thread_local_global_pool.h:209-212 | The walk of MakeStackAvailable ends at object min(MaxParked, length). |
| Pool.CasMove | base/thread_local_global_pool.h:102-106 | A compare-and-swap that succeeds keeps every object in one place, whatever happened to the list since the head was loaded. |
| Pool.FreeStepKeeps | base/thread_local_global_pool.h:92-107 | Every step of Free keeps the invariant, with failed and spurious compare-and-swaps. |
| Pool.AllocStepKeeps | base/thread_local_global_pool.h:122-199 | Every step of an allocation keeps the invariant: pop, exchange, global list, steal. |
| Pool.StackStepKeeps | base/thread_local_global_pool.h:82-90 | Every step that parks, cuts, returns or destroys keeps the invariant. |
| Pool.StepKeeps | base/thread_local_global_pool.h:82-304 | Any step of any thread keeps the invariant and hands out only an object that was on a list. |
| Pool.RunKeeps | base/thread_local_global_pool.h:82-304 | The invariant holds at every point of every interleaving. |
| Pool.RunConserves | base/thread_local_global_pool.h:82-304 | At every point of every run each of the NumElems objects is in exactly one place: with the client, in one thread's hands, or on the list of exactly one root, read off the pointers alone. |
| Pool.RunHandsOutOnce | base/thread_local_global_pool.h:122-199 | At every step of every run, the object the step returns to the client was on a list and not the client's, and becomes the client's; a step that returns none gives the client none. |
| Pool.RunCaps | base/thread_local_global_pool.h:206-218 | A pool whose owner is idle parks at most 15 objects or less than a 256th of all, and a destroyed pool keeps none. |
| Pool.ParkedShare | base/thread_local_global_pool.h:275-279 | MaxParked is at least 16, and otherwise the largest number whose 256-fold does not exceed the number of objects. |
| Pool.Unstuck | base/thread_local_global_pool.h:92-218 | At no point of any run is a thread inside an operation stuck: no null is followed, the available queue is empty when a stack is parked and not empty when one is taken from it. |
| Pool.NullMeansLooked | base/thread_local_global_pool.h:122-199 | Over every interleaving an allocation that returns null found, since it began, its available queue, its free queue and the global list empty and, if it may steal, the free queue of every other pool. |
| Pool.AllocAnswers | base/thread_local_global_pool.h:122-218 | An allocation takes at most pools + 9 steps of its own thread whatever the others do, and ends by handing out an object or with such a null. |
| PoolAlloc.BuildArena | base/thread_local_global_pool.h:235-250 | The constructor's loop chains all objects, the last constructed first. |
| PoolAlloc.Manager.constructor | base/thread_local_global_pool.h:235-279 | All objects start on the global list, and MaxParked is 16 or a 256th of the objects, whichever is more. |
| PoolAlloc.Manager.FreeTo | base/thread_local_global_pool.h:92-107 | The object becomes the head of the pool's free queue and nothing else changes. |
| PoolAlloc.Manager.FindTail | base/thread_local_global_pool.h:284-287 | The loop over the stack ends at its last object. |
| PoolAlloc.Manager.Return | base/thread_local_global_pool.h:281-291 | The stack goes in front of the global list, found tail and all. |
| PoolAlloc.Manager.TryAllocGlobal | base/thread_local_global_pool.h:293-304 | Pops the global list; null exactly when it is empty. |
| PoolAlloc.Manager.WalkKept | base/thread_local_global_pool.h:209-213 | Finds the last object kept; something hangs off it exactly when the stack is longer than MaxParked. |
| PoolAlloc.Manager.MakeStackAvailable | base/thread_local_global_pool.h:206-218 | Exactly the first MaxParked objects are parked and the rest precede the old global list. |
| PoolAlloc.Manager.RefillFrom | base/thread_local_global_pool.h:139-152 | Null exactly when the queue is empty, and then nothing changed; else its first object goes to the client. |
| PoolAlloc.Manager.StealFromNeighbours | base/thread_local_global_pool.h:156-197 | The two passes exchange the other pools' queues in rotation order up to the first non-empty one. |
| PoolAlloc.RotationVisitsAll | base/thread_local_global_pool.h:156-197 | The rotation order visits every other pool exactly once: the k-th it looks at is pool p + 1 + k modulo the number of pools. |
| PoolAlloc.Manager.TryAllocUncommon | base/thread_local_global_pool.h:139-199 | The order of search and its result, null only when everything it looks at is empty. |
| PoolAlloc.StrandedBound | base/thread_local_global_pool.h:277-279 | With the queues looked at empty at most (pools - 1) * (MaxParked - 1) objects are free. |
| PoolAlloc.FewIsShare | base/thread_local_global_pool.h:275-279 | In numbers: at most 15 objects for each other pool, or less than a 256th of all objects for each. |
| PoolAlloc.Manager.TryAlloc | base/thread_local_global_pool.h:122-131 | Which object is returned, that nobody else's holding changes, and that a null with stealing means at most (pools - 1) * 15 objects are free or at most (pools - 1) 256ths of all. |
| Pump.GrowingPool.Allocate | base/pump.h:97-107 | The block handed out is lent to nobody else. |
| Pump.GrowingPool.Recycle | base/pump.h:109-113 | The block is no longer lent and can be handed out again. |
| Pump.FlatGrows | base/pump.cc:71-84 | Reading behind the reader's offset appends to the byte queue. |
| Pump.FlatNewBlock | base/pump.cc:66-69 | A new block behind a full one adds no bytes. |
| Pump.FlatAdvance | base/pump.cc:92-126 | What a write offers is the front of the byte queue, and advancing drops exactly the bytes taken, across a block boundary too. |
| Pump.Pipe.AcquireBlock | base/pump.cc:66-69 | The buffered bytes stay the same and other pipes' blocks are untouched. |
| Pump.Pipe.Fill | base/pump.cc:71-84 | The buffered bytes grow by exactly the bytes read. |
| Pump.Pipe.ReadHalf | base/pump.cc:64-85 | The bytes accepted are the prefix that fits, that is all of them unless the 4096-byte block is full afterwards; a read throws exactly for errors other than would-block; no bytes ends reading. |
| Pump.Pipe.BytesToWrite | base/pump.cc:92-98 | The address comparison offers the rest of the front block, nothing exactly when nothing is buffered. |
| Pump.Pipe.Advance | base/pump.cc:114-126 | Exactly n bytes leave the front of the queue and emptied blocks go back to the pool. |
| Pump.Pipe.WriteHalf | base/pump.cc:87-128 | The bytes delivered, read from the front block at the write offset, are exactly the front of what was buffered, as many as the write takes unless the block or the buffer is exhausted; only an unknown error fails the pipe. |
| Pump.Pipe.FrontIs | base/pump.cc:103-103 | The memory a write is given holds the front of the byte queue. |
| Pump.Pipe.Service | base/pump.cc:61-130 | Bytes in grow by exactly what the read gives and bytes out by exactly what the write takes of what is buffered then, neither stopping short of the end of a block; bytes out are a prefix of bytes in, buffered bytes imply Writing, and a pipe that dies without a write error has delivered everything. |
| Pump.Pipe.ServiceAll | base/pump.cc:61-130 | The same over any sequence of calls with any partial reads, partial writes and would-blocks; what came in is the concatenation of what the reads gave, each a prefix of its bytes, until the stream ended. |
| Pump.Pipe.Drain | base/pump.cc:87-129 | After the end of the stream, writes that each take something deliver everything and then the pipe dies. |
| Pump.Pipe.Close | base/pump.cc:48-58 | Every block goes back to the pool. |
| JsonScan.HitsLowest | base/json.h:106-108 | The lowest byte of a word is flagged exactly when it must be escaped. |
| JsonScan.HitsShift | base/json.h:106-108 | A clean byte borrows nothing from the bytes above it. |
| JsonScan.FirstHit | base/json.h:106-108 | Above clean bytes the next byte is flagged exactly when it must be escaped. |
| JsonScan.LowestByte | base/json.h:109-109 | countr_zero over eight is the index of the lowest flagged byte. |
| JsonScan.WordScan | base/json.h:103-111 | The mask is zero exactly when none of the eight bytes needs an escape, and otherwise the located byte is the first that does. |
| JsonScan.FindEscape | base/json.h:99-120 | The position returned is that of the scalar scan for every byte string. |
| Json.InsertIsMapUpdate | base/json.h:646-646 | Assigning into the object keeps its keys in order and is a map update. |
| Json.LessIff | base/json.h:646-646 | Keys are ordered by the first byte that differs, a prefix before what it begins. |
| Json.UnquoteOne | base/json.h:174-245 | Reading undoes the escape of any one byte, control characters and bytes from 0x80 up included. |
| Json.ReadQuotedBack | base/json.h:168-247 | A printed string reads back to itself and leaves what follows it. |
| Json.WordBack | base/json.h:661-675 | null, true and false read back exactly when what follows ends a raw string. |
| Json.ElemsBack | base/json.h:618-631 | A printed array reads back, elements and separators. |
| Json.MembersBack | base/json.h:632-650 | A printed object reads back, keys in order. |
| Json.RoundTrip | base/json.h:615-679 | Reading the text of any value without numbers gives the value and consumes exactly that text: always for strings, arrays and objects, and if and only if a delimiter or the end follows for the three words. |
| Json.WordRunsOn | base/json.h:250-265 | The failing case: true with a letter behind it reads back as one word. |
| Json.ParseIsValid | base/json.h:615-679 | Every value read is one the program can hold: keys in order at every depth. |
| JsonStream.EscapeRun | base/json.h:128-151 | A clean run appended whole and one escape are the escapes of those bytes one by one. |
| JsonStream.Writer.AppendEscape | base/json.h:132-150 | Appends the escape of the byte, which denotes it by JsonGrammar.QuotedDenotes. |
| JsonStream.Writer.AppendString | base/json.h:124-154 | Appends the quoted string, run by run; that text denotes the string by JsonGrammar.QuotedDenotes. |
| JsonStream.Writer.Append | base/json.h:880-929 | Appends the text of the value, which JsonGrammar.PrintedTree proves to be JSON that means the value. |
| JsonStream.Reader.ReadHex | base/json.h:199-214 | The digit loop reads four hex digits or fails. |
| JsonStream.Reader.ReadQuotedString | base/json.h:168-247 | The loop over the stream agrees with ReadQuoted in value, rest and error, so it accepts exactly what JsonGrammar.QuotedIff says. |
| JsonStream.Reader.ReadRawString | base/json.h:250-265 | Takes everything up to the first delimiter. |
| JsonStream.Reader.NextItem | base/json.h:945-966 | Agrees with ParseSep. |
| JsonStream.Reader.Read | base/json.h:615-679 | The recursive reader agrees with Parse on every input, error cases included, so it accepts exactly what JsonGrammar.ParseIff says. |
| JsonStream.Reader.ReadMembers | base/json.h:632-650 | The object loop agrees with its function. |
| JsonStream.WriteThenRead | base/json.h:880-929 | What is written is read back, with nothing left over. |
| Sigma.PushRepresents | base/sigma_calc.cc:27-43 | If the fields are the batch statistics of some values, after Push they are those of the values and one more. |
| Sigma.MergeRepresents | base/sigma_calc.cc:45-64 | Add gives the batch statistics of the values of both sides. |
| Sigma.MomentsIff | base/sigma_calc.cc:55-60 | The division-free form of mean and squared deviations is equivalent to the batch formulas. |
| Sigma.RepresentsIsUnique | base/sigma_calc.cc:27-64 | The multiset of the values determines every field. |
| Sigma.TreeRepresents | base/sigma_calc.cc:27-64 | Any tree of Push and Add holds the batch statistics of all values pushed anywhere in it. |
| Sigma.TreesAgree | base/sigma_calc.cc:27-64 | Two trees over the same multiset of values end in the same fields. |
| Sigma.AddCommutes | base/sigma_calc.h:42-47 | Add is commutative. |
| Sigma.AddAssociates | base/sigma_calc.h:42-47 | Add is associative. |
| Sigma.AddIsPushing | base/sigma_calc.h:42-47 | Adding a calculator is the same as pushing its values one by one. |
| Sigma.SigmaCalc.Push | base/sigma_calc.cc:27-43 | The in-place update represents the values and one more. |
| Sigma.SigmaCalc.Add | base/sigma_calc.cc:45-64 | The in-place update represents the values of both, also when a calculator is added to itself. |
| Sigma.SigmaCalc.Report | base/sigma_calc.cc:66-74 | Count, extremes and mean are those of the values pushed, and the deviation is the square root of their variance, zero for one value. |
| Sigma.SigmaCalc.Reset | base/sigma_calc.h:63-66 | Represents no values. |
| ThreadLocalSigma.PushKeeps | base/thread_local_sigma_calc.h:67-71 | A push under the entry's mutex adds one sample to one place. |
| ThreadLocalSigma.ExitKeeps | base/thread_local_sigma_calc.h:152-166 | A thread's exit moves its samples to the retired accumulator, none dropped or doubled. |
| ThreadLocalSigma.DrainAddKeeps | base/thread_local_sigma_calc.h:105-110 | Between Add and Reset the entry's samples are the drain's alone. |
| ThreadLocalSigma.DrainUnlockKeeps | base/thread_local_sigma_calc.h:105-110 | An entry the drain leaves holds nothing pushed before the drain began. |
| ThreadLocalSigma.StepKeeps | base/thread_local_sigma_calc.h:67-181 | Every step of every thread keeps each sample in exactly one place and every calculator faithful to its place. |
| ThreadLocalSigma.RunCountsOnce | base/thread_local_sigma_calc.h:67-181 | Over every interleaving of pushes, drains, new threads and exits each sample is in one completed drain, the retired accumulator, one entry or the drain in progress, and each of these reports exactly its samples. |
| ThreadLocalSigma.ReportedStays | base/thread_local_sigma_calc.h:97-112 | What a drain has reported stays reported. |
| ThreadLocalSigma.DrainReportsAll | base/thread_local_sigma_calc.h:97-112 | In every run, when a drain ends every sample pushed before it, or an earlier drain, began has been reported. |
| ThreadLocalSigma.TotalIsAll | base/thread_local_sigma_calc.h:97-112 | Places that hold all samples hold together what one calculator would. |
| ThreadLocalSigma.ReportsAddUp | base/thread_local_sigma_calc.h:67-181 | At every point of every run, with pushes and drains in progress or not, all reports, the drain in progress, the retired accumulator and all entries merged in any order are what one calculator holds that was pushed every sample in order. |
| ThreadLocalSigma.QuietReportsAddUp | base/thread_local_sigma_calc.h:97-112 | When a drain ends during which nothing was pushed, the reports alone are. |
| ThreadLocalSigma.SeenKeeps | base/thread_local_sigma_calc.h:75-84 | A report in progress holds the statistics of samples of the places it has counted, with all of those pushed before it began. |
| ThreadLocalSigma.ReportIsFair | base/thread_local_sigma_calc.h:73-84 | In every run a report answers for samples no drain has reported, each once: all of those pushed before it began and none pushed after it ended. |
| ThreadLocalSigma.QuietReportIsTotal | base/thread_local_sigma_calc.h:73-84 | Without drains, a report during which nothing is pushed answers as one calculator would that was pushed every sample. |
| ThreadLocalSigma.OperationsAreCounted | base/thread_local_sigma_calc.h:67-181 | At every point of every run the pushes, drains and reports that were begun are those that have ended and those in progress. |
| ThreadLocalSigma.EverythingEnds | base/thread_local_sigma_calc.h:67-181 | No deadlock: if nothing more is begun there are boundedly many steps left in whatever order they are taken, and they never run out before every operation has ended and every mutex is free. |
| Parker.StepKeeps | base/parker.h:72-111 | The wake-up invariant is kept by every consumer and producer step, spurious wakeups and timeouts included. |
| Parker.NoLostWakeup | base/parker.h:49-56 | In no reachable state is the consumer blocked with work queued and every Wake finished. |
| Parker.SomeoneWakes | base/parker.h:100-111 | When the consumer is blocked with work queued, some producer's own next three steps wake it. |
| Parker.SomeoneCanStep | base/parker.h:100-111 | While the consumer is blocked with work queued some producer inside Wake has a step to take. |
| Parker.WakeIsBounded | base/parker.h:100-111 | Without new pushes the producers, in any order, run out of steps after at most the pending number of them, and whenever they have run out the consumer is awake or nothing is queued. |
| Parker.NothingIsLost | base/parker.h:38-56 | At every point of every run the queue holds what was pushed and not taken. |
| Parker.SleepsOnlyWhenEmpty | base/parker.h:42-47 | The consumer goes to sleep only if, since it last announced itself, it found its queues empty and was not told to stop. |
| Parker.EverythingIsTaken | base/parker.h:38-111 | When the pushes stop there are boundedly many steps left in whatever order they are taken, and when they have run out everything pushed has been taken, the consumer sleeps and every Wake is finished. |
| Parker.TimeoutSuffices | base/parker.h:83-98 | A timeout or a spurious wakeup is enough to make a sleeping consumer take what is queued. |
| Scheduler.DropDeadFacts | base/scheduler.cc:304-309 | Dropping cancelled entries loses no live job and ends at a live one or an empty queue. |
| Scheduler.TryPopKeeps | base/scheduler.cc:301-353 | TryPopJob keeps the handle accounting and the worker counts. |
| Scheduler.ScheduleKeeps | base/scheduler.cc:118-134 | Scheduling adds one handle and one queue entry, wherever its priority puts it. |
| Scheduler.CancelKeeps | base/scheduler.cc:136-149 | Cancel empties a handle once. |
| Scheduler.CountsCover | base/scheduler.cc:230-353 | The counts are never zero when a worker is about to decrement them. |
| Scheduler.StepKeeps | base/scheduler.cc:118-353 | Every section under the mutex keeps: closure in the handle, run once, or cancelled once; WorkerCount and IdleCount equal to the linked and idle workers. |
| Scheduler.RunsAtMostOnce | base/scheduler.cc:118-353 | At every point of every run a job has been run or successfully cancelled at most once in all. |
| Scheduler.CancelledNeverRuns | base/scheduler.cc:136-149 | When Cancel returns true the job has never run, never will, and no other Cancel of it returns true. |
| Scheduler.CancelFailsOnlyIfDone | base/scheduler.cc:136-149 | Cancel of a job with a closure returns true exactly when it was neither taken nor cancelled. |
| Scheduler.TakesLiveJob | base/scheduler.cc:348-351 | At any point of any run a worker that gets a job gets one from the queue whose closure is still there, and empties the handle. |
| Scheduler.TryPopDoes | base/scheduler.cc:301-353 | What TryPopJob does in each case: with too many workers the worker leaves; else it takes the first live job; else it declares quiescence and leaves, or goes idle. |
| Scheduler.QuiescenceIsReal | base/scheduler.cc:316-322 | At any step of any run permanent quiescence is declared exactly when a worker enters TryPopJob within the cap under RunUntilCtrlC, no live job is queued and every other linked worker is idle; then no worker is executing a job. |
| Scheduler.NoJobIsLost | base/scheduler.cc:118-149 | From the step that accepts it, and until shutdown, a job is queued with its closure, or was run once, or was cancelled once; a job is accepted exactly if the cap is not zero. |
| Scheduler.JobCanRun | base/scheduler.cc:118-353 | As long as the cap is above zero and the scheduler is not quiescent, a queued job that was not cancelled can always be run by steps of workers alone, whatever is queued before it and whatever the workers are doing. |
| Scheduler.WakingIsCounted | base/scheduler.cc:124-128 | At every point of every run WakingCount is the number of callers of Schedule that wait for a worker and have not resumed; a caller waits exactly if some idle worker is not spoken for. |
| Scheduler.CapIsSet | base/scheduler.cc:107-112 | The cap is what the last policy set, until shutdown. |
| Scheduler.HaltedStartsNone | base/scheduler.cc:151-198 | With the cap at zero, or quiescent without workers, no sequence of steps starts a job unless the policy is set anew. |
| Scheduler.JobCanStart | base/scheduler.cc:114-134 | Without a linked worker and with a cap above zero, some steps after shutdown start a job. |
| Scheduler.ShutdownStopsIff | base/scheduler.cc:151-198 | Nothing starts once shutdown has begun, in any continuation without a new policy, exactly if a worker was linked, the cap was zero, or the scheduler was quiescent without a worker. |
| Scheduler.ShutdownMayLeak | base/scheduler.cc:151-198 | The failing case: shutting down a scheduler without workers leaves one that can still start a job. |
| Paging.LessIff | orly/key_generator.h:264-271 | Keys stand in the order of the first member that differs, ascending or descending as the index says of that member. |
| Paging.RunIsContiguous | orly/key_generator.h:264-271 | A key between two matches of a pattern is a match. |
| Paging.OutsideTheRun | orly/key_generator.h:282-285 | A bound that is no match compares with every match as it compares with the pattern. |
| Paging.RangeFromMatch | orly/key_generator.h:286-287 | From a matching bound the range cursor yields the matches at or after it. |
| Paging.RangeFromAbove | orly/key_generator.h:268-271 | From above the run the range cursor stops at once. |
| Paging.TrimBound | orly/key_generator.h:288-290 | Dropping the bound off the front turns at or after into after. |
| Paging.CursorIsFilter | orly/key_generator.h:272-292 | For every sorted index, pattern and bound the cursor yields exactly the matching keys after the bound (or at it), in order. |
| Paging.NextPage | orly/key_generator.h:230-240 | The cursor after the last key of a page is the rest of the run. |
| Paging.PagesListTheRun | orly/key_generator.h:230-240 | The pages taken after the last key of the one before list the whole run with no gap and no repeat. |
| Paging.KeyCursor.Skip | orly/key_generator.h:56-65 | Passes over n keys, or as many as there are, and says how many. |
| Paging.Cursor.HasItem | orly/key_generator.h:136-138 | Answers whether there is a key, decoded or not. |
| Paging.Cursor.Deref | orly/key_generator.h:140-144 | Gives the decoded current key and decodes it at most once for each position. |
| Paging.Cursor.Advance | orly/key_generator.h:146-151 | Moves on and forgets the decoded item. |
| Paging.Cursor.Skip | orly/key_generator.h:153-159 | Passes over the keys and forgets the decoded item. |
| Compiler.WalkReaches | orly/compiler.cc:243-338 | A walk builds each package at most once and nothing outside the least set closed under imports, cyclic imports included; if it succeeds it has built all of that set. |
| Compiler.BuildsReachable | orly/compiler.cc:243-338 | The same for a whole compile: nothing but the packages reachable from the core file, and exactly those if the walk succeeds. |
| Compiler.ReachIsBuilt | orly/compiler.cc:243-338 | What a successful compile built is the reachable set. |
| Compiler.WalkSucceedsIff | orly/compiler.cc:243-338 | On any disk and in any mode a walk succeeds exactly if every package in the least set closed under imports has a valid name, parses, checks and, where code is wanted, can be built. |
| Compiler.SucceedsIff | orly/compiler.cc:180-471 | A whole compile succeeds exactly if that holds and, where there is something to link, g++ succeeds. |
| Compiler.CheckOnlyWritesNothing | orly/compiler.cc:180-471 | A check-only compile leaves the output tree as it was. |
| Compiler.BuildKeeps | orly/compiler.cc:306-336 | With the cache on, a package is right afterwards, the others are as they were, and every key vouches for right files. |
| Compiler.CachedWalk | orly/compiler.cc:247-337 | A cached walk keeps the keys sound whether it fails or not. |
| Compiler.CachedCompile | orly/compiler.cc:228-379 | A cached compile keeps the output tree consistent; if it succeeds its files and its .so are the fresh ones. |
| Compiler.WalkOnAny | orly/compiler.cc:306-336 | On any disk a cached walk leaves a package right exactly if skipping it would have been right, and touches no other package. |
| Compiler.FinishSo | orly/compiler.cc:358-441 | On any disk the .so stays exactly if the link key vouches for it and is linked anew otherwise. |
| Compiler.CleanCompile | orly/compiler.cc:228-441 | The same compile into an empty tree succeeds exactly if code can be generated for every reachable package, and is right then. |
| Compiler.CompileIsCleanIff | orly/compiler.cc:228-441 | On any output tree a successful cached compile leaves the files and the .so of a clean compile if and only if whatever its staleness checks let it skip, of the reachable packages and of the link, is what it would make. |
| Compiler.CachedMatchesClean | orly/compiler.cc:228-379 | Over a consistent tree a successful cached compile equals the same compile into an empty tree: files and .so. |
| Compiler.CachedLeaves | orly/compiler.cc:306-379 | What a successful cached compile leaves on any disk: all four files of every reachable package under its key, a .so under its link key, and everything that was up to date, or not reachable, as it was. |
| Compiler.CompileTwice | orly/compiler.cc:228-379 | Compiling again without a change succeeds and changes nothing. |
| Compiler.LinkKeyIsInjective | orly/compiler.cc:362-375 | Without hash collisions a link key stands for one compiler build and one set of sources. |
| Compiler.OverwriteIsSoundIff | orly/compiler.cc:328-336 | Writing files without their keys is sound exactly when the keys there were for the same code. |
| Compiler.TransientCompile | orly/compiler.cc:455-467 | A transient compile that succeeds leaves the tree consistent; one that fails does so if and only if no package it generated had a key for other code. |
| Compiler.TransientIsSafe | orly/compiler.cc:436-467 | If no key on disk for a reachable package stands for other code, a transient compile leaves a consistent tree whatever happens to it. |
| Compiler.TransientIff | orly/compiler.cc:436-467 | For sources without errors the tree stays consistent if and only if g++ succeeds or no key on disk for a reachable package stands for other code. |
| Compiler.HistoryIsConsistent | orly/compiler.cc:228-467 | Any history of cached, transient and check-only compiles with edits and compiler upgrades between keeps the tree consistent, under that condition on failing transient ones. |
| Compiler.IncrementalIsClean | orly/compiler.cc:228-467 | After any such history a successful cached compile leaves the same files and .so as a clean compile. |
| Compiler.FailedTransientLeavesOrphans | orly/compiler.cc:436-467 | Without the condition it fails: a transient compile that fails in g++ leaves new files under an old key, and going back to the old source then succeeds with the wrong files. |
| Compiler.FailedTransientGivesWrongSo | orly/compiler.cc:436-467 | Another core file that imports the package, compiled for the first time after that, gets a .so with the wrong code. |
| Compiler.Driver.Enqueue | orly/compiler.cc:285-296 | The import loop adds each new dependency once. |
| Compiler.Driver.Generate | orly/compiler.cc:306-336 | The staleness check, generator and key of one package. |
| Compiler.Driver.WalkPackages | orly/compiler.cc:243-338 | The worklist loop terminates and computes the walk that Compiler.WalkSucceedsIff and Compiler.WalkReaches are about. |
| Compiler.Driver.CompilePackages | orly/compiler.cc:180-471 | The whole driver computes the tree and outcome that Compiler.SucceedsIff, Compiler.CachedLeaves and Compiler.CompileIsCleanIff are about. |
| Murmur.TimesInverts | base/murmur.cc:31-45 | Each multiplier is invertible modulo 2^64. |
| Murmur.MixInverts | base/murmur.cc:31-34 | Mixing a word is a bijection. |
| Murmur.FoldInverts | base/murmur.cc:35-38 | Folding is a bijection in the hash and in the word. |
| Murmur.FinishInverts | base/murmur.cc:40-45 | The final mix is a bijection. |
| Murmur.SeedIsBijective | base/murmur.cc:25-47 | For fixed words the hash is a bijection in the seed. |
| Murmur.WordIsBijective | base/murmur.cc:25-47 | For a fixed seed and fixed other words the hash is a bijection in each single word. |
| Murmur.Murmur | base/murmur.cc:25-47 | The loop computes the hash these are about. |
| Murmur.TwoWords | base/murmur.cc:25-47 | The hash of two given words with a given seed, as a number. |
| Murmur.ChunkCount | orly/compiler.cc:172-172 | The number of words the bytes take. |
| Murmur.PackIsInjective | orly/compiler.cc:169-176 | Different byte strings are packed into different word arrays. |
| Murmur.PackWords | orly/compiler.cc:171-174 | The copy and the length word, as specified. |
| Murmur.HashBytes | orly/compiler.cc:171-176 | Hashes the packed words with seed zero. |
| Murmur.TenBytes | orly/compiler.cc:169-176 | The hash of a ten-byte string, as a number. |
| Convert.CheckIsExact | base/convert.h:110-125 | The overflow and underflow checks hold exactly when the next value leaves the type, with division rounding toward zero, and every subexpression stays in the type. |
| Convert.DigitIff | base/convert.h:184-191 | A character is a digit of base 8, 10 or 16 exactly if it is among the base's first characters of 0-9 and a-f or A-F, and then its value is its position there. |
| Convert.Accumulate | base/convert.h:109-136 | One digit: the exact next value if it fits, refused if not, with no intermediate result outside the type. |
| Convert.StaysOut | base/convert.h:127-137 | A value out of range stays out of range with more digits. |
| Convert.Converter.TryReadSign | base/convert.h:34-50 | Consumes a sign if there is one. |
| Convert.Converter.ConsumeWhitespace | base/convert.h:70-73 | Stops at the first character that is no space, and runs past the end exactly if there is none. |
| Convert.SpacesAre | base/convert.h:70-73 | White space is the six characters of isspace. |
| Convert.Converter.ReadDigits | base/convert.h:104-145 | For every digit string of any length, in base 8, 10 or 16 and either sign: the exact value if it is in range and the error if it is not, all digits consumed in both cases. |
| Convert.Converter.TryReadUnsignedInt | base/convert.h:94-145 | Decimal reading after spaces, with its three outcomes and running past the end. |
| Convert.Converter.TryReadPrefixedInt | base/convert.h:160-217 | Hexadecimal and octal reading; nothing consumed without a prefix and a digit. |
| Convert.Converter.TryReadInt | base/convert.h:223-242 | Sign, prefix and digits together, and the error for a sign without digits. |
| Convert.PastEndIff | base/convert.h:223-242 | TryReadInt runs past the end of its input exactly when it looks for digits, that is unless it lacks a sign it requires, and finds only white space. |
| Convert.NoDigitsIff | base/convert.h:229-236 | A sign that no digit follows is reported as an error exactly when something else than white space follows it. |
| Convert.SignAtTheEnd | base/convert.h:229-236 | The failing case: a sign at the end of the input is not reported. |
| Convert.UnchangedIff | base/convert.h:219-242 | False is returned exactly without a sign and without a digit, and the input is unchanged then exactly if a required sign was missing or there was no white space to skip. |
| Convert.SpaceIsLost | base/convert.h:219-242 | The failing case: on a space and a letter it returns false and the space is gone. |
| Convert.ReadsBack | base/convert.h:219-242 | Every integer, written in decimal, or after 0x, 0X, 0o or 0O in either case, with or without a plus sign, is read as itself if it is in the type and refused with the right error if not, and what follows is left, if and only if what follows is no digit and does not make a lone zero a radix prefix. |
| JsonGrammar.Utf8Iff | base/json.h:214-232 | For every code unit the bytes are its UTF-8 by the bit table of section 3 of RFC 3629 and nothing else is: one, two or three bytes. |
| JsonGrammar.PieceRead | base/json.h:174-245 | A raw byte, each of the eight short escapes given by its character, and four hex digits of either case are read as what they stand for. |
| JsonGrammar.QuotedIff | base/json.h:168-247 | The reader accepts exactly the texts that denote a string, as a sequence of such pieces between quotes, and returns what they denote and what follows. |
| JsonGrammar.QuotedError | base/json.h:168-247 | It refuses exactly the others, and the error says where: no opening quote, the end of the input, a backslash before no escape, or fewer than four hex digits. |
| JsonGrammar.QuotedDenotes | base/json.h:124-154 | Everything the writer puts out for a string denotes that string; a byte is escaped exactly if it is a control character, a quote or a backslash, with the short escape if there is one and else in four lower-case hex digits. |
| JsonGrammar.TreeRead | base/json.h:615-679 | The text of every tree of the grammar, with any blanks, escapes, bare words and trailing commas, is read as what the tree means, and what follows is left. |
| JsonGrammar.SplitTree | base/json.h:615-679 | Whatever the reader accepts is the text of a tree and a rest, and the value returned is what the tree means. |
| JsonGrammar.ParseIff | base/json.h:615-679 | The reader accepts exactly the texts of the grammar (numbers excepted) and returns what they mean. |
| JsonGrammar.PrintedTree | base/json.h:880-929 | What is written for a value is the text of a tree that means the value, is JSON by RFC 8259 and has no blanks. |

## Left out

- The `TJobRunner` and its MoreResults flags, and the writing of cache files: the runner is an environment that returns each started job once.
- WorkFinder.Finder.ProcessResult: whether the expected outputs exist is a parameter, and outputs a job discovers while running are not added to the producer map; the state after an exception is not described, because the exception leaves FinishAll.
- WorkFinder.Finder.Check: file timestamps are plain integers read from a fixed snapshot of the file system, because the files are outside the program; the outputs a record adds to a job with unknown outputs, and the configuration it attaches to them, are not modelled.
- WorkFinder.Finder.CheckOutputs: a record that lists one output twice is accepted, as in a release build; a debug build fails an assertion.
- Pool.StepKeeps: memory orders are not modelled; each atomic access is one sequentially consistent step, and accesses to a thread's own lists between two shared accesses are one step.
- Pool.RunConserves: the set of pools is fixed from the start; a pool that is created later is one that is not used before.
- `Alloc`, which turns a null into an exception, and the manager's destructor.
- Pump.Pipe.Service: epoll registration and the pump's thread are not modelled, because they only decide when Service is called.
- JSON numbers: they are printed with six decimals by the C++ library and do not round-trip; a text that starts like one is not in the grammar.
- JsonStream.Reader.Read: a text that starts like a number is an error, where the source reads a number; the stack is unbounded, so deep nesting is read at any depth.
- Sigma.SigmaCalc.Report: floating-point rounding is not modelled, and the square root is a parameter.
- The single accessors of `TSigmaCalc`; `GetSigma` divides by Count - 1 even for one sample, where Report answers 0.
- ThreadLocalSigma.RunCountsOnce: Reset is not a step of the machine, because it drops samples by design.
- Parker.StepKeeps: the relaxed stores of CancelPark and Park are single steps in the one total order, like the other accesses of the word.
- Scheduler.StepKeeps: job priorities are left open (a new job may enter the queue anywhere and the queue may be reordered), a worker may time out at any point of its wait, and workers may be launched at any time before quiescence; a call of SetPolicy after Shutdown may start workers again; the bounds on the number of workers are not claimed, and that a job is run is claimed as possible (JobCanRun), not as certain.
- Paging.CursorIsFilter: the values of key members are integers in their order, ascending or descending, in place of every comparable Orly type.
- Compiler.IncrementalIsClean: compiles with DebugCc and compiles by an unstamped compiler are not in the histories, because they rewrite outputs under old keys by design; the shared object headers and a source that changes while it is being compiled are not modelled.
- Murmur.HashBytes: that different byte strings have different hashes is not claimed, because a 64-bit hash has collisions; that they are packed differently is.
- Convert.Converter.TryReadInt: a minus sign in front of a number for an unsigned type is outside the model, because the source asserts that the type is signed.
- The storage engine, the Orly language front end and code generator, sockets, command lines, logging and the test programs.
