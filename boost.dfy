/**
  The downloader itself: `TorBoost` plans the ranges, seeds the queue, lets
  one worker per Tor process fetch chunks into the chunk directory until the
  queue is drained, and then combines the chunks into the output file.

  The network is a parameter: each step of a worker names what its ranged
  request yields. Threads are a parameter too: a schedule lists which worker
  runs the next iteration of its loop, one whole iteration at a time.
 */
module Boost {
  import opened Wrappers
  import opened Ranges
  import opened Naming
  import opened Combining
  import opened Queue

  /** What a ranged GET through a Tor process yields. */
  datatype Fetch =
    | ConnectError            // the request fails before a response arrives
    | ReadError               // the connection breaks while the body is read
    | Body(bytes: seq<byte>)  // the body as read, of whatever length the server sent

  /** One iteration of one worker's loop: the worker's index and what its request yields. */
  datatype Step = Step(worker: nat, fetched: Fetch)

  /** How `start` ends. */
  datatype Status =
    | Saved(name: string)                     // the combined file was written under `name`
    | Pending                                 // the schedule ran out with tasks unfinished: `join` still blocks
    | PlanFailed(planError: StartError)       // `start` raised before queueing anything
    | CombineFailed(combineError: CombineError)

  /** The skip test of a worker: the range's chunk file exists and has the expected size. */
  predicate Completed(store: Store, r: ByteRange)
  {
    ChunkName(r) in store && |store[ChunkName(r)]| == ExpectedSize(r)
  }

  /** A fetch the worker keeps: a body of exactly the expected size. */
  predicate Accepted(r: ByteRange, fetched: Fetch)
  {
    fetched.Body? && |fetched.bytes| == ExpectedSize(r)
  }

  /**
    The chunk directory after one iteration on task `t`: untouched when the
    chunk is already complete or the connection fails; otherwise the chunk
    file is (re)created, empty when the read breaks, holding the body when it
    arrives. No other file changes.
   */
  function StepStore(store: Store, t: Task, fetched: Fetch): (after: Store)
    ensures Completed(store, t.range) || fetched.ConnectError? ==> after == store
    ensures forall n :: n != ChunkName(t.range) ==> (n in after <==> n in store)
    ensures forall n :: n != ChunkName(t.range) && n in store ==> after[n] == store[n]
    ensures store.Keys <= after.Keys
    ensures !Completed(store, t.range) && !fetched.ConnectError? ==>
              ChunkName(t.range) in after && after[ChunkName(t.range)] == (if fetched.Body? then fetched.bytes else [])
  {
    if Completed(store, t.range) then store else AfterFetch(store, ChunkName(t.range), fetched)
  }

  /**
    The chunk directory after a request for the chunk file `name`: a failed
    connect opens nothing; otherwise the file is opened with `'wb'`, which
    empties it, and holds whatever body was read. No other file changes.
   */
  function AfterFetch(store: Store, name: string, fetched: Fetch): (after: Store)
    ensures fetched.ConnectError? ==> after == store
    ensures !fetched.ConnectError? ==> name in after && after[name] == (if fetched.Body? then fetched.bytes else [])
    ensures forall n :: n != name ==> (n in after <==> n in store)
    ensures forall n :: n != name && n in store ==> after[n] == store[n]
  {
    match fetched
    case ConnectError => store
    case ReadError => store[name := []]
    case Body(bytes) => store[name := bytes]
  }

  /** Whether an iteration on `t` puts its range back on the queue. */
  predicate Requeues(store: Store, t: Task, fetched: Fetch)
  {
    !Completed(store, t.range) && !Accepted(t.range, fetched)
  }

  /**
    After an iteration the range is complete exactly when it was not put
    back, except for an empty range whose read broke: the empty file left
    behind already passes the size test, yet the range is queued again.
   */
  lemma StepCompletes(store: Store, t: Task, fetched: Fetch)
    ensures Completed(StepStore(store, t, fetched), t.range) <==>
              !Requeues(store, t, fetched) || (fetched.ReadError? && ExpectedSize(t.range) == 0)
  {
    if !Completed(store, t.range) && !fetched.ConnectError? {
      assert StepStore(store, t, fetched)[ChunkName(t.range)] == (if fetched.Body? then fetched.bytes else []);
    }
  }

  /** `r` is the range of some task waiting in `items`. */
  ghost predicate Queued(items: seq<Task>, r: ByteRange)
  {
    exists i :: 0 <= i < |items| && items[i].range == r
  }

  /**
    The download's bookkeeping: every waiting task is for a planned range, and
    every planned range is either complete on disk or waiting in the queue.
   */
  ghost predicate Tracking(plan: seq<ByteRange>, items: seq<Task>, store: Store)
  {
    && (forall i :: 0 <= i < |items| ==> items[i].range in plan)
    && (forall r :: r in plan ==> Completed(store, r) || Queued(items, r))
  }

  /** The queue after one iteration on its head task by `worker`. */
  function StepItems(store: Store, items: seq<Task>, worker: nat, fetched: Fetch): (after: seq<Task>)
    requires items != []
    ensures |after| == |items| - 1 || |after| == |items|
    ensures after[..|items| - 1] == items[1..]
    ensures |after| == |items| <==> Requeues(store, items[0], fetched)
    ensures |after| == |items| ==> after[|items| - 1] == Task(items[0].range, worker)
  {
    items[1..] + (if Requeues(store, items[0], fetched) then [Task(items[0].range, worker)] else [])
  }

  /** One iteration never loses a range: no planned range is both incomplete and missing from the queue. */
  lemma StepKeepsTracking(plan: seq<ByteRange>, items: seq<Task>, store: Store, worker: nat, fetched: Fetch)
    requires Tracking(plan, items, store) && items != []
    ensures Tracking(plan, StepItems(store, items, worker, fetched), StepStore(store, items[0], fetched))
  {
    var t := items[0];
    var items', store' := StepItems(store, items, worker, fetched), StepStore(store, t, fetched);
    forall i | 0 <= i < |items'|
      ensures items'[i].range in plan
    {
      if i < |items| - 1 {
        assert items'[i] == items[i + 1];
      }
    }
    forall r | r in plan
      ensures Completed(store', r) || Queued(items', r)
    {
      if r == t.range {
        StepCompletes(store, t, fetched);
        if Requeues(store, t, fetched) {
          assert items'[|items'| - 1].range == r;
        }
      } else {
        if ChunkName(r) == ChunkName(t.range) {
          ChunkNameInjective(r, t.range);
        }
        if !Completed(store, r) {
          var i :| 0 <= i < |items| && items[i].range == r;
          assert items'[i - 1] == items[i];
        }
      }
    }
  }

  /**
    The chunk directory and the queue after the workers run the iterations of
    `schedule` in turn, each on the task at the head of the queue, until the
    schedule ends or the queue is empty.
   */
  function RunSteps(store: Store, items: seq<Task>, schedule: seq<Step>): (after: (Store, seq<Task>))
    ensures schedule == [] || items == [] ==> after == (store, items)
    decreases |schedule|
  {
    if schedule == [] || items == [] then (store, items)
    else
      var step := schedule[0];
      RunSteps(StepStore(store, items[0], step.fetched), StepItems(store, items, step.worker, step.fetched), schedule[1..])
  }

  /** Every iteration of `schedule` is run by one of the `n` workers. */
  predicate WorkersBelow(schedule: seq<Step>, n: nat)
    decreases |schedule|
  {
    schedule == [] || (schedule[0].worker < n && WorkersBelow(schedule[1..], n))
  }

  /** The index form of the same bound implies it. */
  lemma {:induction false} WorkersBelowAll(schedule: seq<Step>, n: nat)
    requires forall k :: 0 <= k < |schedule| ==> schedule[k].worker < n
    ensures WorkersBelow(schedule, n)
    decreases |schedule|
  {
    if schedule != [] {
      WorkersBelowAll(schedule[1..], n);
    }
  }

  /** One iteration of a schedule, taken off its front. */
  lemma RunStepsUnfold(store: Store, items: seq<Task>, schedule: seq<Step>)
    requires schedule != [] && items != []
    ensures RunSteps(store, items, schedule) ==
              RunSteps(StepStore(store, items[0], schedule[0].fetched),
                       StepItems(store, items, schedule[0].worker, schedule[0].fetched), schedule[1..])
  {
  }

  /**
    However the workers' iterations interleave, no range is lost: every queued
    task stays a planned range, and every planned range stays complete on
    disk or queued. When the queue runs empty, every planned range is complete.
   */
  lemma {:induction false} RunStepsTracking(plan: seq<ByteRange>, store: Store, items: seq<Task>, schedule: seq<Step>)
    requires Tracking(plan, items, store)
    ensures var after := RunSteps(store, items, schedule);
      && Tracking(plan, after.1, after.0)
      && (after.1 == [] ==> forall r :: r in plan ==> Completed(after.0, r))
    decreases |schedule|
  {
    if schedule != [] && items != [] {
      var step := schedule[0];
      StepKeepsTracking(plan, items, store, step.worker, step.fetched);
      RunStepsTracking(plan, StepStore(store, items[0], step.fetched),
                       StepItems(store, items, step.worker, step.fetched), schedule[1..]);
    }
  }

  /**
    Between `before` and `after` the chunk directory changed only in the
    plan's chunk files: no other file appeared or changed, and a planned
    chunk that was complete stayed as it was.
   */
  ghost predicate PlanOnlyWrites(plan: seq<ByteRange>, before: Store, after: Store)
  {
    && (forall n :: n in after ==> n in before || n in PlanNames(plan))
    && (forall n :: n in before && n !in PlanNames(plan) ==> n in after && after[n] == before[n])
    && (forall r :: r in plan && Completed(before, r) ==>
          ChunkName(r) in after && after[ChunkName(r)] == before[ChunkName(r)])
  }

  /** An iteration on a planned range writes only that range's file, and never a complete one. */
  lemma StepWritesPlan(plan: seq<ByteRange>, items: seq<Task>, store: Store, fetched: Fetch)
    requires Tracking(plan, items, store) && items != []
    ensures PlanOnlyWrites(plan, store, StepStore(store, items[0], fetched))
  {
    var t := items[0];
    NameInPlan(plan, t.range);
    forall r | r in plan && Completed(store, r)
      ensures ChunkName(r) != ChunkName(t.range) || Completed(store, t.range)
    {
      if ChunkName(r) == ChunkName(t.range) {
        ChunkNameInjective(r, t.range);
      }
    }
  }

  lemma PlanOnlyWritesTransitive(plan: seq<ByteRange>, s1: Store, s2: Store, s3: Store)
    requires PlanOnlyWrites(plan, s1, s2) && PlanOnlyWrites(plan, s2, s3)
    ensures PlanOnlyWrites(plan, s1, s3)
  {
    forall r | r in plan && Completed(s1, r)
      ensures Completed(s2, r)
    {
    }
  }

  /** Whatever the schedule, the workers write only the plan's chunk files, and never a complete one. */
  lemma {:induction false} RunStepsWritesPlan(plan: seq<ByteRange>, store: Store, items: seq<Task>, schedule: seq<Step>)
    requires Tracking(plan, items, store)
    ensures PlanOnlyWrites(plan, store, RunSteps(store, items, schedule).0)
    decreases |schedule|
  {
    if schedule != [] && items != [] {
      var step := schedule[0];
      var store', items' := StepStore(store, items[0], step.fetched), StepItems(store, items, step.worker, step.fetched);
      StepWritesPlan(plan, items, store, step.fetched);
      StepKeepsTracking(plan, items, store, step.worker, step.fetched);
      RunStepsWritesPlan(plan, store', items', schedule[1..]);
      PlanOnlyWritesTransitive(plan, store, store', RunSteps(store', items', schedule[1..]).0);
    }
  }

  /** The seeded queue holds every planned range and nothing else. */
  lemma SeededTracking(plan: seq<ByteRange>, torProcesses: int, store: Store)
    ensures Tracking(plan, Seeded(plan, torProcesses), store)
  {
    var items := Seeded(plan, torProcesses);
    forall r | r in plan
      ensures Queued(items, r)
    {
      var i :| 0 <= i < |plan| && plan[i] == r;
      assert items[i].range == r;
    }
  }

  /** The chunk name of a planned range is among the plan's names. */
  lemma NameInPlan(plan: seq<ByteRange>, r: ByteRange)
    requires r in plan
    ensures ChunkName(r) in PlanNames(plan)
  {
    var i :| 0 <= i < |plan| && plan[i] == r;
    assert PlanNames(plan)[i] == ChunkName(r);
  }

  /** The status and output directory a combine outcome leads to. */
  function CombineEffect(outcome: Result<(string, seq<byte>), CombineError>, downloads: Store): (effect: (Status, Store))
    ensures outcome.Failure? ==> effect == (CombineFailed(outcome.error), downloads)
    ensures outcome.Success? ==> effect.0 == Saved(outcome.value.0) && effect.1.Keys == downloads.Keys + {outcome.value.0}
    ensures outcome.Success? ==> effect.1[outcome.value.0] == outcome.value.1
    ensures outcome.Success? ==> forall n :: n in downloads && n != outcome.value.0 ==> effect.1[n] == downloads[n]
  {
    match outcome
    case Failure(e) => (CombineFailed(e), downloads)
    case Success(out) => (Saved(out.0), downloads[out.0 := out.1])
  }

  class TorBoost {
    /** The number of Tor processes, and of workers; process `i` is `procs[i]`. */
    const torProcesses: nat
    const chunkSize: int
    /** `Content-Length` of the download, once the caller has set it. */
    var contentSize: Option<int>
    const queue: WorkQueue
    /** The chunk directory `downloads/<sha256 of the URL>/`. */
    var chunks: Store
    /** The files directly in `downloads/`. */
    var downloads: Store
    /** The subdirectories of `downloads/`, the chunk directory among them. */
    const subdirs: set<string>

    /**
      Between worker iterations no task is in flight, so every queued task is
      unfinished and nothing else is; every task names a running Tor process.
     */
    ghost predicate Valid()
      reads this, queue
    {
      && queue.Valid()
      && torProcesses >= 1
      && queue.unfinished == |queue.items|
      && forall i :: 0 <= i < |queue.items| ==> 0 <= queue.items[i].procNo < torProcesses
    }

    /** A downloader over the given directories, with no size known and an empty queue. */
    constructor (torProcesses: nat, chunkSize: int, chunks: Store, downloads: Store, subdirs: set<string>)
      requires torProcesses >= 1
      ensures Valid() && fresh(queue)
      ensures this.torProcesses == torProcesses && this.chunkSize == chunkSize
      ensures this.chunks == chunks && this.downloads == downloads && this.subdirs == subdirs
      ensures contentSize == None && queue.items == []
    {
      this.torProcesses := torProcesses;
      this.chunkSize := chunkSize;
      this.chunks := chunks;
      this.downloads := downloads;
      this.subdirs := subdirs;
      contentSize := None;
      queue := new WorkQueue();
    }

    /** The planning part of `start`: the falsy-size check, the loop of full chunks, and the tail. */
    static method BuildChunks(contentSize: Option<int>, chunkSize: int) returns (planned: Result<seq<ByteRange>, StartError>)
      ensures planned == PlanChunks(contentSize, chunkSize)
    {
      if contentSize.None? || contentSize.value == 0 {
        return Failure(ContentSizeUnset);
      }
      if chunkSize == 0 {
        return Failure(ZeroChunkSize);
      }
      var size := contentSize.value;
      var chunkNo := TruncDiv(size, chunkSize);
      var ranges: seq<ByteRange> := [];
      var chunkEnd: Option<int> := None;
      var i := 0;
      while i < chunkNo
        invariant 0 <= i <= (if chunkNo > 0 then chunkNo else 0)
        invariant ranges == seq(i, j => FullRange(j, chunkSize))
        invariant chunkEnd == if i == 0 then None else Some(i * chunkSize)
      {
        var chunkStart := i * chunkSize;
        var end := chunkStart + chunkSize;
        assert end == (i + 1) * chunkSize;
        assert seq(i + 1, j => FullRange(j, chunkSize)) == ranges + [FullRange(i, chunkSize)];
        ranges := ranges + [ByteRange(chunkStart, end - 1)];
        chunkEnd := Some(end);
        i := i + 1;
      }
      if chunkEnd.None? {
        return Failure(UnboundChunkEnd);
      }
      assert i == chunkNo;
      return Success(ranges + [ByteRange(chunkEnd.value, size - 1)]);
    }

    /** The seeding loop: one task per planned range, in plan order, tagged by `SeedTag`. */
    method Seed(plan: seq<ByteRange>)
      requires Valid()
      modifies queue
      ensures Valid()
      ensures queue.items == old(queue.items) + Seeded(plan, torProcesses)
    {
      for idx := 1 to |plan| + 1
        invariant Valid()
        invariant queue.items == old(queue.items) + Seeded(plan[..idx - 1], torProcesses)
      {
        queue.Put(Task(plan[idx - 1], SeedTag(torProcesses, idx)));
        assert Seeded(plan[..idx], torProcesses)
            == Seeded(plan[..idx - 1], torProcesses) + [Task(plan[idx - 1], SeedTag(torProcesses, idx))];
      }
      assert plan[..|plan|] == plan;
    }

    /**
      One iteration of `worker`'s loop on the oldest task: skip a complete
      chunk, otherwise request it through the task's Tor process and write
      what arrives; on any failure put the range back tagged with this
      worker's own index; mark the task done. `via` is the Tor process the
      request went through, which always exists.
     */
    method WorkerStep(worker: nat, fetched: Fetch) returns (via: Option<int>, notified: bool)
      requires Valid() && worker < torProcesses && queue.items != []
      modifies this`chunks, queue
      ensures Valid()
      ensures chunks == StepStore(old(chunks), old(queue.items[0]), fetched)
      ensures queue.items == StepItems(old(chunks), old(queue.items), worker, fetched)
      ensures via == if Completed(old(chunks), old(queue.items[0]).range) then None else Some(old(queue.items[0]).procNo)
      ensures via.Some? ==> 0 <= via.value < torProcesses
      ensures notified <==> queue.unfinished == 0
    {
      var t := queue.Get();
      var output := ChunkName(t.range);
      if output in chunks && |chunks[output]| == ExpectedSize(t.range) {
        via := None;
        notified := queue.TaskDone();
        return;
      }
      via := Some(t.procNo);
      var failed := Download(t.range, fetched);
      if failed {
        queue.Put(Task(t.range, worker));
      }
      notified := queue.TaskDone();
    }

    /**
      The attempt on an incomplete chunk: (re)write its file with what the
      request yields and report whether the attempt failed, that is, whether
      the connection or the read broke or the size is wrong.
     */
    method Download(r: ByteRange, fetched: Fetch) returns (failed: bool)
      modifies this`chunks
      ensures chunks == AfterFetch(old(chunks), ChunkName(r), fetched)
      ensures failed <==> !Accepted(r, fetched)
    {
      var output := ChunkName(r);
      failed := false;
      match fetched {
        case ConnectError =>
          failed := true;
        case ReadError =>
          chunks := chunks[output := []];
          failed := true;
        case Body(bytes) =>
          chunks := chunks[output := bytes];
          if |chunks[output]| != ExpectedSize(r) {
            failed := true;
          }
      }
    }

    /**
      The workers run the iterations of `schedule` while tasks remain, which
      leaves the directory and the queue as `RunSteps` says; `join` returns
      once none is unfinished. Then every planned range is complete. Only the
      plan's chunk files are written, and a chunk complete beforehand is
      never rewritten.
     */
    method Drain(schedule: seq<Step>, ghost plan: seq<ByteRange>) returns (drained: bool)
      requires Valid() && Tracking(plan, queue.items, chunks)
      requires forall k :: 0 <= k < |schedule| ==> schedule[k].worker < torProcesses
      modifies this`chunks, queue
      ensures Valid() && Tracking(plan, queue.items, chunks)
      ensures (chunks, queue.items) == RunSteps(old(chunks), old(queue.items), schedule)
      ensures drained <==> queue.unfinished == 0
      ensures drained ==> forall r :: r in plan ==> Completed(chunks, r)
      ensures PlanOnlyWrites(plan, old(chunks), chunks)
    {
      RunWorkers(schedule);
      RunStepsTracking(plan, old(chunks), old(queue.items), schedule);
      RunStepsWritesPlan(plan, old(chunks), old(queue.items), schedule);
      drained := queue.unfinished == 0;
    }

    /** The worker iterations of `schedule`, one after another, until it ends or the queue is empty. */
    method RunWorkers(schedule: seq<Step>)
      requires Valid()
      requires forall k :: 0 <= k < |schedule| ==> schedule[k].worker < torProcesses
      modifies this`chunks, queue
      ensures Valid()
      ensures (chunks, queue.items) == RunSteps(old(chunks), old(queue.items), schedule)
    {
      WorkersBelowAll(schedule, torProcesses);
      ghost var target := RunSteps(chunks, queue.items, schedule);
      var rest := schedule;
      while rest != [] && queue.items != []
        invariant Valid() && WorkersBelow(rest, torProcesses)
        invariant RunSteps(chunks, queue.items, rest) == target
      {
        RunStep(rest, target);
        rest := rest[1..];
      }
    }

    /** The first iteration of `rest`, which leaves the others to run towards the same `target`. */
    method RunStep(rest: seq<Step>, ghost target: (Store, seq<Task>))
      requires Valid() && queue.items != [] && rest != [] && WorkersBelow(rest, torProcesses)
      requires RunSteps(chunks, queue.items, rest) == target
      modifies this`chunks, queue
      ensures Valid() && WorkersBelow(rest[1..], torProcesses)
      ensures RunSteps(chunks, queue.items, rest[1..]) == target
    {
      RunStepsUnfold(chunks, queue.items, rest);
      var via, notified := WorkerStep(rest[0].worker, rest[0].fetched);
    }

    /** `os.listdir` of the chunk directory: each file once, in an order the model leaves open. */
    method ListDir() returns (listing: seq<string>)
      ensures Enumerates(listing, chunks)
    {
      listing := [];
      var rest := chunks.Keys;
      while rest != {}
        invariant rest <= chunks.Keys
        invariant Distinct(listing)
        invariant forall n :: n in listing <==> n in chunks && n !in rest
        decreases |rest|
      {
        var n :| n in rest;
        listing := listing + [n];
        rest := rest - {n};
      }
    }

    /**
      `combine`: list the chunk directory, sort its `.chunk` files by start,
      remove any old output file and append the chunks to it in order.
     */
    method Combine(urlPath: string) returns (status: Status, listing: seq<string>)
      modifies this`downloads
      ensures Enumerates(listing, chunks)
      ensures (status, downloads) == CombineEffect(CombineOutcome(listing, chunks, urlPath, subdirs), old(downloads))
    {
      listing := ListDir();
      var files := ChunkFiles(listing);
      if !AllParse(files) {
        status := CombineFailed(BadChunkName);
        return;
      }
      var origName := Basename(urlPath);
      if IsDirectoryName(origName, subdirs) {
        status := CombineFailed(OutputIsDirectory);
        return;
      }
      CombineWrites(listing, chunks, urlPath, subdirs);
      WriteOutput(origName, SortBy(files, StartKey));
      status := Saved(origName);
    }

    /**
      Writes the output file `name`: removes an existing one, creates it
      empty by opening it for appending, and appends the chunk files `files`
      to it in order.
     */
    method WriteOutput(name: string, files: seq<string>)
      requires forall n :: n in files ==> n in chunks
      modifies this`downloads
      ensures downloads == old(downloads)[name := Concat(files, chunks)]
    {
      if name in downloads {
        downloads := downloads - {name};
      }
      downloads := downloads[name := []];
      for i := 0 to |files|
        invariant name in downloads && downloads == old(downloads)[name := downloads[name]]
        invariant downloads[name] == Concat(files[..i], chunks)
      {
        assert files[..i + 1][..i] == files[..i];
        downloads := downloads[name := downloads[name] + chunks[files[i]]];
      }
      assert files[..|files|] == files;
    }

    /**
      `start` on a fresh queue: plan the ranges, seed the queue, run the
      workers along `schedule` until `join` returns, then combine. When the
      schedule ends first the download is still pending and no output exists.
     */
    method Start(schedule: seq<Step>, urlPath: string) returns (status: Status, listing: seq<string>)
      requires Valid() && queue.items == []
      requires forall k :: 0 <= k < |schedule| ==> schedule[k].worker < torProcesses
      modifies this`chunks, this`downloads, queue
      ensures Valid()
      ensures PlanChunks(contentSize, chunkSize).Failure? ==>
                && status == PlanFailed(PlanChunks(contentSize, chunkSize).error)
                && chunks == old(chunks) && downloads == old(downloads) && queue.items == []
      ensures PlanChunks(contentSize, chunkSize).Success? ==>
                var plan := PlanChunks(contentSize, chunkSize).value;
                && (chunks, queue.items) == RunSteps(old(chunks), Seeded(plan, torProcesses), schedule)
                && PlanOnlyWrites(plan, old(chunks), chunks)
                && (status == Pending <==> queue.unfinished > 0)
                && (status == Pending ==> downloads == old(downloads))
                && (status != Pending ==>
                      && (forall r :: r in plan ==> Completed(chunks, r))
                      && Enumerates(listing, chunks)
                      && (status, downloads) == CombineEffect(CombineOutcome(listing, chunks, urlPath, subdirs), old(downloads)))
    {
      listing := [];
      var planned := BuildChunks(contentSize, chunkSize);
      if planned.Failure? {
        status := PlanFailed(planned.error);
        return;
      }
      status, listing := RunPlan(planned.value, schedule, urlPath);
    }

    /**
      The rest of `start` once the ranges are planned: seed the queue, run the
      workers along `schedule` until `join` returns, then combine.
     */
    method RunPlan(plan: seq<ByteRange>, schedule: seq<Step>, urlPath: string) returns (status: Status, listing: seq<string>)
      requires Valid() && queue.items == []
      requires forall k :: 0 <= k < |schedule| ==> schedule[k].worker < torProcesses
      modifies this`chunks, this`downloads, queue
      ensures Valid()
      ensures (chunks, queue.items) == RunSteps(old(chunks), Seeded(plan, torProcesses), schedule)
      ensures PlanOnlyWrites(plan, old(chunks), chunks)
      ensures status == Pending <==> queue.unfinished > 0
      ensures status == Pending ==> downloads == old(downloads)
      ensures status != Pending ==>
                && (forall r :: r in plan ==> Completed(chunks, r))
                && Enumerates(listing, chunks)
                && (status, downloads) == CombineEffect(CombineOutcome(listing, chunks, urlPath, subdirs), old(downloads))
    {
      listing := [];
      Seed(plan);
      assert queue.items == Seeded(plan, torProcesses);
      SeededTracking(plan, torProcesses, chunks);
      var drained := Drain(schedule, plan);
      if !drained {
        status := Pending;
        return;
      }
      status, listing := Combine(urlPath);
    }
  }
}
