/** How ManagedExecutorServiceImpl turns its settings into a thread pool:
    the choice of work queue, the configuration defaults and the settings
    handed to the thread factory. */
module PoolConfig {
  import opened Lang

  /** Whether worker threads are daemon threads. */
  datatype ThreadType = DAEMON | POOLED

  /** The work queues the pool may be built with. */
  datatype WorkQueue =
    | LinkedBlockingQueue                 // built without a bound: holds up to Integer.MAX_VALUE tasks
    | SynchronousQueue                    // rendezvous: holds no task, a worker must take it
    | ArrayBlockingQueue(capacity: nat)   // holds up to `capacity` tasks

  /** How many waiting tasks the queue can hold, as java.util.concurrent documents it. */
  function QueueCapacity(q: WorkQueue): nat {
    match q
    case LinkedBlockingQueue => INT_MAX
    case SynchronousQueue => 0
    case ArrayBlockingQueue(c) => c
  }

  /** `createWorkQueue`: a negative capacity is refused; MAX_VALUE means
      unbounded, 0 means rendezvous, anything else a bounded array queue. */
  function CreateWorkQueue(workQueueCapacity: int32): (r: Result<WorkQueue>)
    ensures r == Failure(IllegalArgumentException) <==> workQueueCapacity < 0
    ensures r == Success(LinkedBlockingQueue) <==> workQueueCapacity == INT_MAX
    ensures r == Success(SynchronousQueue) <==> workQueueCapacity == 0
    ensures (r.Success? && r.value.ArrayBlockingQueue?) <==> 0 < workQueueCapacity < INT_MAX
    ensures r.Success? && r.value.ArrayBlockingQueue? ==> r.value.capacity == workQueueCapacity
  {
    if workQueueCapacity < 0 then Failure(IllegalArgumentException)
    else if workQueueCapacity == INT_MAX then Success(LinkedBlockingQueue)
    else if workQueueCapacity == 0 then Success(SynchronousQueue)
    else Success(ArrayBlockingQueue(workQueueCapacity))
  }

  /** Whatever kind of queue is chosen, it holds exactly the requested number of tasks. */
  lemma WorkQueueHoldsRequestedCapacity(workQueueCapacity: int32)
    requires workQueueCapacity >= 0
    ensures CreateWorkQueue(workQueueCapacity).Success?
    ensures QueueCapacity(CreateWorkQueue(workQueueCapacity).value) == workQueueCapacity
  {
  }

  /** What the pool hands to Guava's ThreadFactoryBuilder. */
  datatype ThreadFactorySettings = ThreadFactorySettings(daemon: bool, nameFormat: string, priority: int32)

  /** The thread-factory settings of a pool named `name`. */
  function ThreadFactoryFor(name: string, threadType: ThreadType, priority: int32): (f: ThreadFactorySettings)
    ensures f.daemon <==> threadType == DAEMON
    ensures f.nameFormat == name + "-%s"
    ensures f.priority == priority
  {
    ThreadFactorySettings(threadType == DAEMON, name + "-%s", priority)
  }

  /** The decimal digit `d`. */
  function Digit(d: nat): char
    requires d < 10
  {
    (48 + d) as char
  }

  /** The decimal rendering of `k`, as `%s` prints a `long`. */
  function Decimal(k: nat): (s: string)
    ensures 1 <= |s|
    ensures k >= 10 ==> 2 <= |s|
  {
    if k < 10 then [Digit(k)] else Decimal(k / 10) + [Digit(k % 10)]
  }

  lemma {:induction false} DecimalInjective(j: nat, k: nat)
    requires Decimal(j) == Decimal(k)
    ensures j == k
  {
    if j >= 10 && k >= 10 {
      var dj, dk := Decimal(j), Decimal(k);
      assert dj[|dj| - 1] == Digit(j % 10) && dk[|dk| - 1] == Digit(k % 10);
      assert dj[..|dj| - 1] == Decimal(j / 10);
      assert dk[..|dk| - 1] == Decimal(k / 10);
      DecimalInjective(j / 10, k / 10);
    }
  }

  /** The name of the `k`-th worker thread: the name format with `%s` replaced by `k`. */
  function ThreadName(f: ThreadFactorySettings, k: nat): string {
    var fmt := f.nameFormat;
    if |fmt| >= 2 && fmt[|fmt| - 2..] == "%s" then fmt[..|fmt| - 2] + Decimal(k) else fmt
  }

  /** Worker threads are named `<pool-name>-<k>`, and no two get the same name.
      (A `%` in the pool name would be read by the formatter too, so the
      lemma is stated for names without one.) */
  lemma ThreadNamesDistinct(name: string, threadType: ThreadType, priority: int32, j: nat, k: nat)
    requires '%' !in name
    requires j != k
    ensures ThreadName(ThreadFactoryFor(name, threadType, priority), k) == name + "-" + Decimal(k)
    ensures ThreadName(ThreadFactoryFor(name, threadType, priority), j)
         != ThreadName(ThreadFactoryFor(name, threadType, priority), k)
  {
    var f := ThreadFactoryFor(name, threadType, priority);
    var fmt := f.nameFormat;
    assert fmt[|fmt| - 2..] == "%s";
    assert fmt[..|fmt| - 2] == name + "-";
    var p := name + "-";
    if ThreadName(f, j) == ThreadName(f, k) {
      assert (p + Decimal(j))[|p|..] == Decimal(j);
      assert (p + Decimal(k))[|p|..] == Decimal(k);
      DecimalInjective(j, k);
    }
  }

  /** The arguments of the ThreadPoolExecutor the pool is built on. */
  datatype PoolSettings = PoolSettings(
    coreSize: int32,
    maxSize: int32,
    keepAliveMillis: int64,
    queue: WorkQueue,
    threads: ThreadFactorySettings)

  const NORM_PRIORITY: int32 := 5   // Thread.NORM_PRIORITY

  const DEFAULT_THREAD_TYPE: ThreadType := POOLED
  const DEFAULT_HUNG_TIME: int64 := 60000
  const DEFAULT_CORE_SIZE: int32 := 5
  const DEFAULT_MAX_SIZE: int32 := 25
  const DEFAULT_KEEP_ALIVE: int64 := 5000
  const DEFAULT_WORK_QUEUE_CAPACITY: int32 := INT_MAX
  const DEFAULT_PRIORITY: int32 := NORM_PRIORITY

  /** The settings the executor's configuration holds; a missing key is None.
      Durations are already in milliseconds. */
  datatype Configuration = Configuration(
    threadType: Option<ThreadType>,
    hungTime: Option<int64>,
    coreSize: Option<int32>,
    maxSize: Option<int32>,
    keepAlive: Option<int64>,
    workQueueCapacity: Option<int32>,
    priority: Option<int32>)

  /** The fully resolved parameters of the explicit constructor. */
  datatype PoolParameters = PoolParameters(
    threadType: ThreadType,
    hungTime: int64,
    coreSize: int32,
    maxSize: int32,
    keepAlive: int64,
    workQueueCapacity: int32,
    priority: int32)

  /** The parameters the configuration-driven constructor passes on: each
      configured value, or its default when the key is missing. */
  function Resolve(c: Configuration): (p: PoolParameters)
    ensures p.threadType == if c.threadType.Some? then c.threadType.value else POOLED
    ensures p.hungTime == if c.hungTime.Some? then c.hungTime.value else 60000
    ensures p.coreSize == if c.coreSize.Some? then c.coreSize.value else 5
    ensures p.maxSize == if c.maxSize.Some? then c.maxSize.value else 25
    ensures p.keepAlive == if c.keepAlive.Some? then c.keepAlive.value else 5000
    ensures p.workQueueCapacity == if c.workQueueCapacity.Some? then c.workQueueCapacity.value else INT_MAX
    ensures p.priority == if c.priority.Some? then c.priority.value else NORM_PRIORITY
  {
    PoolParameters(
      c.threadType.GetOr(DEFAULT_THREAD_TYPE),
      c.hungTime.GetOr(DEFAULT_HUNG_TIME),
      c.coreSize.GetOr(DEFAULT_CORE_SIZE),
      c.maxSize.GetOr(DEFAULT_MAX_SIZE),
      c.keepAlive.GetOr(DEFAULT_KEEP_ALIVE),
      c.workQueueCapacity.GetOr(DEFAULT_WORK_QUEUE_CAPACITY),
      c.priority.GetOr(DEFAULT_PRIORITY))
  }

  /** An empty configuration gives a non-daemon pool of 5 to 25 threads at
      normal priority, with an unbounded queue and a 60 s hang threshold. */
  lemma EmptyConfigurationDefaults(name: string)
    ensures var p := Resolve(Configuration(None, None, None, None, None, None, None));
      && p.threadType == POOLED && p.hungTime == 60000
      && p.coreSize == 5 && p.maxSize == 25 && p.keepAlive == 5000
      && p.priority == NORM_PRIORITY
      && CreateWorkQueue(p.workQueueCapacity) == Success(LinkedBlockingQueue)
      && !ThreadFactoryFor(name, p.threadType, p.priority).daemon
  {
  }
}
