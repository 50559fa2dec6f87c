/**
  The task queue of `TorBoost`: a FIFO of `(chunk, proc_no)` pairs with the
  unfinished-task counter of Python's `queue.Queue`, and the seeding rule
  that tags each planned chunk with a Tor process.
 */
module Queue {
  import opened Ranges

  /** A queued task: the range to fetch and the index of the Tor process to fetch it through. */
  datatype Task = Task(range: ByteRange, procNo: int)

  /**
    The process tag the seeding loop gives the `idx`-th chunk (counting from 1):
    `(tor_processes - 1) % idx`. The divisor is positive, so Python's floored
    remainder and Dafny's Euclidean one agree. The tag always names an existing
    process, but the first chunk always goes to process 0 and, once `idx`
    reaches the number of processes, every chunk goes to the last one.
   */
  function SeedTag(torProcesses: int, idx: int): (tag: int)
    requires idx >= 1
    ensures 0 <= tag < idx
    ensures torProcesses >= 1 ==> tag < torProcesses
    ensures idx == 1 ==> tag == 0
    ensures 1 <= torProcesses <= idx ==> tag == torProcesses - 1
  {
    (torProcesses - 1) % idx
  }

  /**
    The seed tags are far from a round robin: a tag other than the last
    process lies below half of it, so with five processes no chunk is ever
    first given to process 2 or 3.
   */
  lemma SeedTagSkips(torProcesses: int, idx: int)
    requires torProcesses >= 1 && idx >= 1
    ensures var tag := SeedTag(torProcesses, idx);
      tag == torProcesses - 1 || 2 * tag < torProcesses - 1
  {
    var n, tag := torProcesses - 1, SeedTag(torProcesses, idx);
    if idx <= n {
      var q := n / idx;
      assert n == q * idx + tag;
      assert q >= 1 by {
        if q <= 0 {
          MulMonotone(q, 0, idx);
        }
      }
      MulMonotone(1, q, idx);
    }
  }

  /** The tasks the seeding loop puts, in order: each planned range with its seed tag. */
  function Seeded(plan: seq<ByteRange>, torProcesses: int): (tasks: seq<Task>)
    ensures |tasks| == |plan|
    ensures forall i :: 0 <= i < |plan| ==> tasks[i] == Task(plan[i], SeedTag(torProcesses, i + 1))
  {
    seq(|plan|, i requires 0 <= i < |plan| => Task(plan[i], SeedTag(torProcesses, i + 1)))
  }

  /**
    `queue.Queue` as the downloader uses it: `items` in FIFO order and
    `unfinished`, the count of tasks put and not yet marked done. Every task
    still waiting in `items` is unfinished, so the count never drops below the
    queue's length.
   */
  class WorkQueue {
    var items: seq<Task>
    var unfinished: nat

    ghost predicate Valid()
      reads this
    {
      |items| <= unfinished
    }

    constructor ()
      ensures Valid()
      ensures items == [] && unfinished == 0
    {
      items := [];
      unfinished := 0;
    }

    /** `put`: appends the task and counts it as unfinished. */
    method Put(t: Task)
      requires Valid()
      modifies this
      ensures Valid()
      ensures items == old(items) + [t]
      ensures unfinished == old(unfinished) + 1
    {
      items := items + [t];
      unfinished := unfinished + 1;
    }

    /**
      `get` on a non-empty queue: removes and returns the oldest task, which
      stays unfinished until `TaskDone`.
     */
    method Get() returns (t: Task)
      requires Valid() && items != []
      modifies this
      ensures Valid() && |items| < unfinished
      ensures t == old(items)[0]
      ensures items == old(items)[1..]
      ensures unfinished == old(unfinished)
    {
      t := items[0];
      items := items[1..];
    }

    /**
      `task_done` for a task taken with `Get`: one unfinished task fewer;
      `notified` reports whether this woke the threads waiting in `join`.
     */
    method TaskDone() returns (notified: bool)
      requires Valid() && |items| < unfinished
      modifies this
      ensures Valid()
      ensures items == old(items)
      ensures unfinished == old(unfinished) - 1
      ensures notified <==> unfinished == 0
    {
      unfinished := unfinished - 1;
      notified := unfinished == 0;
    }
  }
}
