# torboost: a verified model of the chunked downloader

torboost downloads one large file from an onion service. It opens N Tor
processes, splits the file into inclusive byte ranges, and runs N worker
threads that fetch the ranges concurrently, each over a SOCKS proxy of one Tor
process. Each range goes into a chunk file `"{start}-{end}.chunk"` in a
per-URL directory. A failed range is put back on the queue. When the queue has
been joined, the `.chunk` files are sorted by their numeric start and appended
to the output file, which is named after the URL's basename.

The model covers the `TorBoost` class of `torboost/torboost.py`. It has six
modules:

- `Wrappers` (wrappers.dfy): `Option` and `Result`.
- `Ranges` (ranges.dfy): inclusive byte ranges, their expected size
  `end - start + 1`, and the planner `PlanChunks`, which specifies what the
  planning part of `start` computes, errors included. It also holds lemmas on
  the plan's shape, total length, coverage of every byte, and reassembly of a
  buffer from its slices.
- `Naming` (naming.dfy): `str()`/`int()` for integers, the chunk name and the
  `int(name.split('-')[0])` parse, and `posixpath.basename`.
- `Combining` (combining.dfy): the `.chunk` filter, `sorted(..., key=...)`,
  the concatenation, and what `combine` produces. It also holds the
  split/combine round trip.
- `Queue` (workqueue.dfy): the seeding tag `(N-1) % idx`, and a `WorkQueue`
  class holding the FIFO of `queue.Queue` and its unfinished-task counter.
- `Boost` (boost.dfy): the `TorBoost` class. It has the following members:
  - `BuildChunks`: the planning loop.
  - `Seed`: the seeding loop.
  - `WorkerStep` and `Download`: one iteration of `worker`.
  - `Drain`, `RunWorkers` and `RunStep`: the workers until `join` returns.
  - `ListDir`, `Combine` and `WriteOutput`: `combine`.
  - `Start`: `start`.

Each imperative method is proved against a function of the inputs and old
state:

- `BuildChunks` against `PlanChunks`;
- `WorkerStep` against `StepStore` and `StepItems`;
- `Drain` against `RunSteps`, their fold over a schedule;
- `Combine` against `CombineOutcome`.

The lemmas prove what the downloader promises about those functions:

- The plan tiles `[0, content_size)`.
- No step loses a range: every planned range is complete on disk or still
  queued.
- A drained queue means every chunk is complete.
- Storing a buffer's plan slices and combining them, in whatever order the
  directory lists them, gives the buffer back.

Three behaviours of the code are worth stating plainly:

- **Seeding.** `(N-1) % 1` gives the first chunk process 0, not N-1, and every
  chunk from the N-th on gets process N-1. `Queue.SeedTagSkips` shows that
  the tags never give some processes a first chunk, e.g. processes 2 and 3
  when N = 5.
- **Endpoint.** A worker fetches through the Tor process named in the task
  (`self.procs[proc_no]`), not its own. A failed range is re-tagged with the
  worker's own index (`int(name)`, the thread's name).
- **Partial files.** A broken read leaves an empty chunk file, since the file
  is opened with `'wb'` before the body is read. For the empty tail range of a
  size that the chunk size divides, that file already passes the size test, yet
  the range is queued again (`Boost.StepCompletes`).

## Model

| member | source | states |
|---|---|---|
| `Ranges.TruncDiv` | torboost/torboost.py:140 | `int(a / b)` rounds toward zero: its magnitude is `|a|` divided by `|b|`, rounded down, and its sign follows the operands' signs. It equals floor division for non-negative operands |
| `Ranges.ExpectedSize` | torboost/torboost.py:56 | The size `end - start + 1` of an inclusive range |
| `Ranges.PlanChunks` | torboost/torboost.py:133-145 | What the planning part of `start` returns. On success there are at least two ranges: the first starts at 0, the last ends at `content_size - 1`, and each starts right after the previous one ends |
| `Ranges.PlanOutcome` | torboost/torboost.py:133-145 | The planner's errors. A `None` or zero size fails first, with RuntimeError. Otherwise a zero chunk size fails, with ZeroDivisionError. A size smaller than one chunk, or a negative one, with a positive chunk size, fails with `chunk_end` unbound. A positive size plans successfully exactly when `0 < chunk_size <= content_size` |
| `Ranges.PlanLayout` | torboost/torboost.py:139-145 | There are `floor(size/k) + 1` ranges, and range i starts at `i*k`. Every range but the last is full. The last runs to `size-1` and holds `size % k` bytes: it is `(size, size-1)`, the empty range, when k divides the size. The first start is 0, each start follows the previous end, and all ranges lie in `[0, size)` |
| `Ranges.ContiguousTotal` | torboost/torboost.py:56 | The expected sizes of contiguous ranges add up to the span from the first start to the last end |
| `Ranges.PlanTotal` | torboost/torboost.py:139-145 | The expected sizes of the planned ranges sum to `content_size` |
| `Ranges.PlanCoversByte` | torboost/torboost.py:139-145 | Every byte `0 <= b < size` lies in exactly one planned range: range `b / k` |
| `Ranges.SlicesReassemble` | torboost/torboost.py:123-126 | Appending the slices of contiguous ranges gives the buffer's slice from the first start to the last end |
| `Ranges.PlanReassemble` | torboost/torboost.py:139-145 | Appending a buffer's slices along the plan for its length gives the buffer back |
| `Naming.NatToDecimal` | torboost/torboost.py:55 | `str(n)` is digits without a leading zero, and its decimal value is `n` |
| `Naming.IntToDecimal` | torboost/torboost.py:55 | `int(str(i)) == i` for every integer |
| `Naming.ParseInt` | torboost/torboost.py:116 | `int()` on an optional sign and decimal digits. A negative result needs a leading `-` |
| `Naming.IsChunkFile` | torboost/torboost.py:115 | `name.endswith('.chunk')` |
| `Naming.ChunkName` | torboost/torboost.py:55 | The file name `f'{start}-{end}.chunk'` always ends in `.chunk`, so `combine` picks it up |
| `Naming.ParseStart` | torboost/torboost.py:116 | `int(name.split('-')[0])` is never negative, and there is none for a name beginning with `-` |
| `Naming.SplitHead` | torboost/torboost.py:116 | `s.split(sep)[0]` is the longest prefix of `s` without `sep`, and it is followed by `sep` when shorter than `s` |
| `Naming.ParseStartOfChunkName` | torboost/torboost.py:116 | The name of a range with a non-negative start ends in `.chunk`, and parses back to the start |
| `Naming.EndSuffixInjective` | torboost/torboost.py:55 | The end can be read back from the `-{end}.chunk` part of a name |
| `Naming.ChunkNameInjective` | torboost/torboost.py:55 | Distinct ranges get distinct chunk names, for all integer starts and ends |
| `Naming.Basename` | torboost/torboost.py:117-119 | `posixpath.basename` is the suffix after the last `/`. It contains no `/` |
| `Naming.IsDirectoryName` | torboost/torboost.py:120-122 | The output names on which `exists()` holds and `unlink()` raises: `""` and `.` (`downloads/` itself), `..`, and every existing subdirectory of `downloads/`, the chunk directory among them |
| `Combining.StartKey` | torboost/torboost.py:116 | The sort key `int(x.split('-')[0])`. It is used only once every `.chunk` start parses, so the value it gives a name that does not parse is never consulted |
| `Combining.ChunkFiles` | torboost/torboost.py:114-115 | The listing filter keeps exactly the names that end in `.chunk`. It keeps a duplicate-free listing duplicate-free |
| `Combining.InsertBy` | torboost/torboost.py:114-116 | Inserting into a key-sorted sequence keeps it sorted, and adds exactly the new element |
| `Combining.SortBy` | torboost/torboost.py:114-116 | `sorted(names, key=...)` is ordered by key, and is a permutation of `names` |
| `Combining.SortedUnique` | torboost/torboost.py:114-116 | A sorted permutation of names with distinct keys is unique |
| `Combining.DistinctSameElements` | torboost/torboost.py:115 | Two duplicate-free listings with the same names are permutations of each other |
| `Combining.ConcatPlanNames` | torboost/torboost.py:123-126 | Appending the chunk files of ranges whose slices are stored gives the concatenated slices |
| `Combining.PlanNamesOrdered` | torboost/torboost.py:116 | The plan's chunk names all end in `.chunk`, all parse, are distinct, and are strictly increasing in their parsed starts |
| `Combining.ListedChunks` | torboost/torboost.py:114-115 | If a directory holds exactly the plan's chunk files, the `.chunk` names of any listing of it are a permutation of the plan's names |
| `Combining.Concat` | torboost/torboost.py:123-126 | The bytes of the named files, one after the other |
| `Combining.CombineOutcome` | torboost/torboost.py:112-126 | `combine` fails exactly when a `.chunk` start does not parse (ValueError, checked first) or the output name is a directory: `""`, `.`, `..` or a subdirectory of `downloads/`, such as the chunk directory, where `unlink` raises. Otherwise it writes under the URL's basename |
| `Combining.CombineSucceeds` | torboost/torboost.py:114-126 | When both checks pass, the output is the concatenation of a key-sorted permutation of the listing's `.chunk` files, all of which exist |
| `Combining.CombinePlanRoundTrip` | torboost/torboost.py:112-127 | Suppose the plan's chunk files hold a buffer's slices and no other `.chunk` file exists. Then `combine` writes exactly that buffer, whatever order `listdir` returns |
| `Queue.SeedTag` | torboost/torboost.py:148 | The tag `(N-1) % idx` lies in `[0, idx)` and in `[0, N)`. It is 0 for the first chunk, and N-1 for every `idx >= N` |
| `Queue.SeedTagSkips` | torboost/torboost.py:148 | Every tag other than N-1 is below `(N-1)/2` |
| `Queue.Seeded` | torboost/torboost.py:147-148 | One task per planned range, in plan order; the `idx`-th (from 1) is tagged `(N-1) % idx` |
| `Queue.WorkQueue.constructor` | torboost/torboost.py:31 | A new queue is empty, with no unfinished task |
| `Queue.WorkQueue.Put` | torboost/torboost.py:89 | `put` appends the task and counts one more unfinished task |
| `Queue.WorkQueue.Get` | torboost/torboost.py:54 | `get` removes and returns the head. The task stays unfinished |
| `Queue.WorkQueue.TaskDone` | torboost/torboost.py:90 | `task_done` counts one unfinished task fewer, and wakes `join` exactly when none is left |
| `Boost.Completed` | torboost/torboost.py:57 | The skip test: the chunk file exists and has the expected size |
| `Boost.Accepted` | torboost/torboost.py:76-81 | A fetch is kept when the body arrived whole and has the expected size |
| `Boost.Requeues` | torboost/torboost.py:88-89 | An iteration puts its range back when the chunk was not complete and the fetch was not accepted |
| `Boost.AfterFetch` | torboost/torboost.py:66-87 | A failed connect changes nothing. Otherwise the chunk file opened with `'wb'` holds the body, or is empty when the read breaks. No other file changes |
| `Boost.StepStore` | torboost/torboost.py:55-87 | A complete chunk, or a failed connect, leaves the directory unchanged. Otherwise the chunk's file holds the body, or is empty when the read breaks. No other file changes |
| `Boost.StepItems` | torboost/torboost.py:54-90 | One iteration removes the head task and leaves the rest of the queue in order. It appends a task exactly when the range is requeued, and that task is the same range tagged with the worker's index |
| `Boost.StepCompletes` | torboost/torboost.py:76-89 | After an iteration the range is complete exactly when it was not requeued. The one exception is an empty range whose read broke |
| `Boost.RunSteps` | torboost/torboost.py:51-90 | The directory and the queue after the workers run a schedule's iterations in turn, each on the head task; an empty schedule or an empty queue changes nothing |
| `Boost.StepKeepsTracking` | torboost/torboost.py:51-90 | An iteration keeps every queued task a planned range. It also keeps every planned range either complete on disk or queued |
| `Boost.RunStepsTracking` | torboost/torboost.py:51-90 | Running a schedule keeps every queued task a planned range and every planned range complete or queued; so when the queue ends empty, every planned range is complete |
| `Boost.StepWritesPlan` | torboost/torboost.py:55-87 | One iteration writes at most one plan chunk: it creates no other file, changes no file outside the plan, and never rewrites a complete chunk |
| `Boost.RunStepsWritesPlan` | torboost/torboost.py:51-90 | The same holds for a whole schedule: only plan chunks are created or rewritten, and a chunk complete beforehand stays as it was |
| `Boost.SeededTracking` | torboost/torboost.py:147-148 | The seeded queue queues every planned range, and nothing else, whatever the directory holds |
| `Boost.NameInPlan` | torboost/torboost.py:55 | The chunk name of a planned range is among the plan's names |
| `Boost.CombineEffect` | torboost/torboost.py:120-126 | An error leaves `downloads/` unchanged. Success writes exactly the output file and leaves every other file as it was |
| `Boost.TorBoost.constructor` | torboost/torboost.py:27-35 | A new downloader has no content size and an empty queue, over the given chunk directory, `downloads/` and its subdirectories |
| `Boost.TorBoost.BuildChunks` | torboost/torboost.py:133-145 | The planning loop computes `PlanChunks`, errors included |
| `Boost.TorBoost.Seed` | torboost/torboost.py:147-148 | The seeding loop appends one task per planned range, in plan order, each tagged `SeedTag(N, idx)` |
| `Boost.TorBoost.WorkerStep` | torboost/torboost.py:51-90 | One iteration changes the directory by `StepStore` and the queue by `StepItems`. It fetches through the task's process, which always exists (so there is no KeyError), and skips a complete chunk. Afterwards `join` is woken exactly when no task is unfinished |
| `Boost.TorBoost.Download` | torboost/torboost.py:66-87 | An attempt on an incomplete chunk rewrites the file, except on a failed connect. It fails exactly when the fetch is not a body of the expected size |
| `Boost.TorBoost.Drain` | torboost/torboost.py:151-155 | The workers run the schedule until it ends or the queue is empty, leaving the directory and queue that `RunSteps` gives. `join` returns exactly when no task is unfinished, and then every planned range is complete. Only plan chunks are created, other files are untouched, and a chunk complete beforehand is never rewritten |
| `Boost.TorBoost.RunWorkers` | torboost/torboost.py:151-155 | The loop over the schedule ends in the state `RunSteps` gives for the whole schedule |
| `Boost.TorBoost.RunStep` | torboost/torboost.py:51-90 | One iteration, by the schedule's first step, leaves a state from which the rest of the schedule reaches the same `RunSteps` outcome |
| `Boost.TorBoost.ListDir` | torboost/torboost.py:115 | `os.listdir` names every file of the chunk directory exactly once |
| `Boost.TorBoost.WriteOutput` | torboost/torboost.py:120-126 | After unlinking, opening with `'ab'` and appending, the output file holds the files' bytes in order. Nothing else in `downloads/` changes |
| `Boost.TorBoost.Combine` | torboost/torboost.py:112-127 | `combine` changes `downloads/` by `CombineOutcome` on its listing: a bad start fails before the output name is looked at, and a directory name fails |
| `Boost.TorBoost.Start` | torboost/torboost.py:133-156 | If planning fails, nothing changes. Otherwise the directory and queue are `RunSteps` of the schedule from the `Seeded` queue, and the download is pending exactly when tasks stay unfinished. When it is not pending, every planned range is complete and the combine has run. Files outside the plan are never touched |
| `Boost.TorBoost.RunPlan` | torboost/torboost.py:147-156 | Seeding, draining and combining a plan: the directory and queue are `RunSteps` of the schedule from the `Seeded` queue, only plan chunks are written, and the download is pending exactly when tasks stay unfinished, and otherwise every planned range is complete and `downloads/` changes by the combine's outcome |

## Left out

- Tor processes (`print_bootstrap` at lines 37-39; `tor_proc`, `connect` and
  the ports at lines 92-110 and 129-131) are not modelled. A task's process index stands for the
  SOCKS proxy it names.
- HTTP (`request`, `requests.get`, the `Range` and `User-Agent` headers, and
  `response.raw.read()`) is not modelled. A request's outcome is the `Fetch`
  parameter of each step.
- Threads, daemon workers and locking are not modelled. An interleaving is a
  schedule of whole loop iterations, each atomic. Overlapping iterations are
  not modelled: with them, tasks can be requeued in a different order than
  they were taken.
- Liveness is not modelled: retries are unbounded, and `join` may block
  forever. A schedule that ends with tasks unfinished ends as `Pending`.
- The SHA-256 URL hash that names the chunk directory (line 33) is not
  modelled. The directory is a map, `chunks`, and its name one of the
  subdirectories `subdirs`. `mkdir` of the directories
  (lines 35 and 136) is also left out.
- `urlparse` and `unquote` of the URL (line 118) are not modelled. The model
  takes the unquoted path as input.
- Logging is not modelled.
- `entry_point` is not modelled. This covers argument parsing, the initial
  request for `Content-Length`, and the `--combine` path, which runs `combine`
  alone. Its `procs[0]` is why the model requires `torProcesses >= 1`.
- `Ranges.TruncDiv` models `int(content_size / chunk_size)` exactly. Python's
  float division agrees with it only below 2^53.
- A `--chunk-size` given on the command line arrives as a string, so the
  division would raise TypeError. The model takes the chunk size as an
  integer.
- `Naming.ParseInt` accepts an optional sign and ASCII digits. `int()` also
  accepts surrounding whitespace, `_` separators and non-ASCII digits, which
  the model rejects.
- `Combining.SortBy` does not state that the sort is stable. Names with equal
  keys can only come from foreign `.chunk` files: distinct plan chunks have
  distinct starts.
- `Combining.CombinePlanRoundTrip` holds only when the chunk directory holds no
  other `.chunk` file. A directory left by a run with another chunk size breaks
  it. The output then mixes both runs' chunks.
- `Queue.WorkQueue.Get` requires a non-empty queue. Python's `get` blocks
  instead; a blocked worker simply takes no step in the schedule.
- `Queue.WorkQueue.TaskDone` requires a task in flight. Python raises
  ValueError on an extra `task_done`, which the downloader never makes.
- `Boost.TorBoost.Start` requires an empty queue: `start` is called once, on a
  new object.
- `Combining.CombineOutcome` does not model `listdir` failing on a missing
  chunk directory, or I/O errors other than `unlink` on a directory. The
  subdirectories of `downloads/` are a fixed set given to the constructor.
- Exceptions in a worker other than `ConnectionError` and `ProtocolError` end
  its thread, and are not modelled.
