/** The bookkeeping of the managed executor (AbstractManagedExecutorService
    together with its one implementation, ManagedExecutorServiceImpl): the
    insertion-ordered set of tracked tasks, hang detection over it,
    cancellation on shutdownNow, wrapping of invokeAll's futures, and the
    capture of execution contexts from the provider list. The underlying
    thread pool is not modelled: what it returns is passed in. */
module Executor {
  import opened Lang
  import opened Seqs
  import opened PoolConfig

  /** Opaque handles for the work callers hand in and the values they get back. */
  datatype Callable = Callable(id: nat)
  datatype Runnable = Runnable(id: nat)
  datatype Value = Null | Object(id: nat)
  datatype Future = Future(id: nat)
  datatype TimeUnit = NANOSECONDS | MICROSECONDS | MILLISECONDS | SECONDS | MINUTES | HOURS | DAYS

  /** What a task runs: a callable, or a runnable with the fixed result it reports. */
  datatype Work = CallableWork(callable: Callable) | RunnableWork(runnable: Runnable, result: Value)

  /** An execution-context provider, and the contexts it prepares. */
  datatype ContextService = ContextService(id: nat)
  datatype ExecutionContext =
    | Prepared(service: ContextService)            // what `service.prepare()` returned
    | Composite(parts: seq<ExecutionContext>)      // CompositeExecutionContext.create(parts)

  /** The providers a possibly null provider list holds. */
  function Providers(ecs: Option<seq<ContextService>>): seq<ContextService> {
    if ecs.Some? then ecs.value else []
  }

  /** The context `createExecutionContext` builds: none without a provider
      list, otherwise the composite of every provider's context in list order. */
  function ContextFor(ecs: Option<seq<ContextService>>): Option<ExecutionContext> {
    if ecs.None? then None
    else Some(Composite(seq(|ecs.value|, i requires 0 <= i < |ecs.value| => Prepared(ecs.value[i]))))
  }

  /** `n` copies of `s`, one after the other. */
  function Repeat<T>(s: seq<T>, n: nat): seq<T> {
    if n == 0 then [] else Repeat(s, n - 1) + s
  }

  /** A managed task handle. Its internals live elsewhere; the model keeps what
      the executor reads and writes: the work, the captured context, the hang
      threshold, the bound future, whether it was executed or cancelled, its
      listeners, and `hang`, the value `isTaskHang()` reports right now (the
      clock that drives it is outside the model). */
  class Task {
    const work: Work
    const context: Option<ExecutionContext>
    const hungTime: int64
    var future: Option<Future>
    var executed: bool
    var cancelled: bool
    var interruptRequested: bool
    var hang: bool
    var listeners: seq<Listener>

    /** A task as `new Task(...)` leaves it: not yet handed to any pool. */
    ghost predicate Idle()
      reads this
    {
      future.None? && !executed && !cancelled && !interruptRequested && listeners == []
    }

    constructor (work: Work, context: Option<ExecutionContext>, hungTime: int64)
      ensures this.work == work && this.context == context && this.hungTime == hungTime
      ensures Idle()
    {
      this.work := work;
      this.context := context;
      this.hungTime := hungTime;
      future := None;
      executed, cancelled, interruptRequested, hang := false, false, false, false;
      listeners := [];
    }

    /** `execute()`: hands the work to the pool and returns the handle itself. */
    method Execute() returns (self: Task)
      modifies this`executed
      ensures self == this && executed
    {
      executed := true;
      self := this;
    }

    /** `submitted(future)`: binds the handle to a future the pool produced. */
    method Submitted(f: Future)
      modifies this`future
      ensures future == Some(f)
    {
      future := Some(f);
    }

    /** `cancel(mayInterruptIfRunning)`. */
    method Cancel(mayInterruptIfRunning: bool)
      modifies this`cancelled, this`interruptRequested
      ensures cancelled
      ensures interruptRequested == (old(interruptRequested) || mayInterruptIfRunning)
    {
      cancelled := true;
      interruptRequested := interruptRequested || mayInterruptIfRunning;
    }

    /** `addListener(listener)`: listeners are kept in registration order. */
    method AddListener(l: Listener)
      modifies this`listeners
      ensures listeners == old(listeners) + [l]
    {
      listeners := listeners + [l];
    }
  }

  /** The listener `submit(Runnable, T)` registers: when run, it removes
      `task` from `owner`'s tracked set (ManagedExecutor.RemoveTracked). */
  datatype Listener = TrackedRemoval(owner: ManagedExecutor, task: Task)

  /** The tasks of `ts` whose `isTaskHang()` holds, in the order of `ts`. */
  function HungOf(ts: seq<Task>): seq<Task>
    reads ts
  {
    if ts == [] then [] else (if ts[0].hang then [ts[0]] else []) + HungOf(ts[1..])
  }

  lemma {:induction false} HungOfAppend(ts: seq<Task>, t: Task)
    ensures HungOf(ts + [t]) == HungOf(ts) + (if t.hang then [t] else [])
  {
    if ts == [] {
      assert [t][1..] == [];
    } else {
      assert (ts + [t])[1..] == ts[1..] + [t];
      HungOfAppend(ts[1..], t);
    }
  }

  /** The hung tasks are exactly the members of `ts` whose `isTaskHang()` holds. */
  lemma {:induction false} HungOfMembers(ts: seq<Task>)
    ensures forall t :: t in HungOf(ts) <==> t in ts && t.hang
  {
    if ts != [] {
      HungOfMembers(ts[1..]);
      assert ts == [ts[0]] + ts[1..];
    }
  }

  /** The hung tasks come in the order of `ts`, and form a set when `ts` does. */
  lemma {:induction false} HungOfInOrder(ts: seq<Task>)
    ensures SubsequenceOf(HungOf(ts), ts)
    ensures NoDup(ts) ==> NoDup(HungOf(ts))
  {
    if ts != [] {
      HungOfInOrder(ts[1..]);
      HungOfMembers(ts[1..]);
      var rest := HungOf(ts[1..]);
      if ts[0].hang {
        assert ([ts[0]] + rest)[1..] == rest;
        if NoDup(ts) {
          assert NoDup(ts[1..]) by {
            forall i, j | 0 <= i < j < |ts[1..]| ensures ts[1..][i] != ts[1..][j] {
              assert ts[1..][i] == ts[i + 1] && ts[1..][j] == ts[j + 1];
            }
          }
          assert ts[0] !in ts[1..] by {
            forall k | 0 <= k < |ts[1..]| ensures ts[1..][k] != ts[0] {
              assert ts[1..][k] == ts[k + 1];
            }
          }
          var r := [ts[0]] + rest;
          forall i, j | 0 <= i < j < |r| ensures r[i] != r[j] {
            if i == 0 { assert r[j] == rest[j - 1]; } else { assert r[i] == rest[i - 1] && r[j] == rest[j - 1]; }
          }
        }
      } else {
        // every task in `rest` hangs and ts[0] does not, so ts[0] matches none of them
        assert HungOf(ts) == rest;
        SubsequenceSkip(rest, ts);
        if NoDup(ts) {
          assert NoDup(ts[1..]) by {
            forall i, j | 0 <= i < j < |ts[1..]| ensures ts[1..][i] != ts[1..][j] {
              assert ts[1..][i] == ts[i + 1] && ts[1..][j] == ts[j + 1];
            }
          }
        }
      }
    }
  }

  /** `t` is the handle invokeAll makes for `c` in a pool with the given hang
      threshold and providers: a task for `c` bound to the future `f`, carrying
      the threshold and a captured context, never executed, without listeners. */
  ghost predicate Wraps(t: Task, c: Callable, f: Future, hungTime: int64, ecs: Option<seq<ContextService>>)
    reads t
  {
    && t.work == CallableWork(c) && t.future == Some(f)
    && t.hungTime == hungTime && t.context == ContextFor(ecs)
    && !t.executed && t.listeners == []
  }

  /** The managed executor. `name` and `hungTime` never change; `tasks` is the
      insertion-ordered set of tracked tasks; `ecs` the (possibly null) list of
      context providers; `pool` the thread pool it was built on, if any yet.
      `prepared` records every `prepare()` call made on a provider, in order. */
  class ManagedExecutor {
    const name: string
    const hungTime: int64
    const loggerName: string
    var ecs: Option<seq<ContextService>>
    var tasks: seq<Task>
    var pool: Option<PoolSettings>
    var isShutdown: bool
    var prepared: seq<ContextService>

    /** The tracked set is a set, and every tracked task was executed and
        carries the listener that removes it again. */
    ghost predicate Valid()
      reads this, tasks
    {
      && NoDup(tasks)
      && forall t :: t in tasks ==> t.executed && TrackedRemoval(this, t) in t.listeners
    }

    /** The constructor of AbstractManagedExecutorService, past its null check. */
    constructor (name: string, hungTime: int64, ecs: Option<seq<ContextService>>)
      ensures this.name == name && this.hungTime == hungTime
      ensures loggerName == "executor-" + name
      ensures this.ecs == ecs && tasks == [] && pool.None? && !isShutdown && prepared == []
      ensures Valid()
    {
      this.name := name;
      this.loggerName := "executor-" + name;
      this.hungTime := hungTime;
      this.ecs := ecs;
      tasks := [];
      pool := None;
      isShutdown := false;
      prepared := [];
    }

    /** `setInternalPool`. */
    method SetInternalPool(p: PoolSettings)
      modifies this`pool
      ensures pool == Some(p)
    {
      pool := Some(p);
    }

    /** The explicit constructor of ManagedExecutorServiceImpl: a null name
        fails first, then a negative queue capacity fails before any pool is
        set; otherwise the pool gets the chosen queue and the thread-factory
        settings derived from the name, thread type and priority. */
    static method Create(name: Option<string>, threadType: ThreadType, hungTime: int64,
                         coreSize: int32, maxSize: int32, keepAlive: int64,
                         workQueueCapacity: int32, priority: int32,
                         ecs: Option<seq<ContextService>>)
      returns (r: Result<ManagedExecutor>)
      ensures name.None? ==> r == Failure(NullPointerException)
      ensures name.Some? && workQueueCapacity < 0 ==> r == Failure(IllegalArgumentException)
      ensures name.Some? && workQueueCapacity >= 0 ==>
        && r.Success? && fresh(r.value) && r.value.Valid()
        && r.value.name == name.value && r.value.hungTime == hungTime
        && r.value.loggerName == "executor-" + name.value
        && r.value.ecs == ecs && r.value.tasks == [] && !r.value.isShutdown && r.value.prepared == []
        && r.value.pool == Some(PoolSettings(coreSize, maxSize, keepAlive,
                                             CreateWorkQueue(workQueueCapacity).value,
                                             ThreadFactoryFor(name.value, threadType, priority)))
    {
      if name.None? {
        return Failure(NullPointerException);
      }
      var e := new ManagedExecutor(name.value, hungTime, ecs);
      var threads := ThreadFactoryFor(name.value, threadType, priority);
      var queue := CreateWorkQueue(workQueueCapacity);
      if queue.Failure? {
        return Failure(queue.error);
      }
      e.SetInternalPool(PoolSettings(coreSize, maxSize, keepAlive, queue.value, threads));
      r := Success(e);
    }

    /** The configuration-driven constructor: every missing key takes its default. */
    static method CreateFromConfiguration(name: Option<string>, configuration: Configuration,
                                          ecs: Option<seq<ContextService>>)
      returns (r: Result<ManagedExecutor>)
      ensures name.None? ==> r == Failure(NullPointerException)
      ensures var p := Resolve(configuration);
        name.Some? && p.workQueueCapacity < 0 ==> r == Failure(IllegalArgumentException)
      ensures var p := Resolve(configuration);
        name.Some? && p.workQueueCapacity >= 0 ==>
        && r.Success? && fresh(r.value) && r.value.Valid()
        && r.value.name == name.value && r.value.hungTime == p.hungTime
        && r.value.loggerName == "executor-" + name.value
        && r.value.ecs == ecs && r.value.tasks == [] && !r.value.isShutdown && r.value.prepared == []
        && r.value.pool == Some(PoolSettings(p.coreSize, p.maxSize, p.keepAlive,
                                             CreateWorkQueue(p.workQueueCapacity).value,
                                             ThreadFactoryFor(name.value, p.threadType, p.priority)))
    {
      var p := Resolve(configuration);
      r := Create(name, p.threadType, p.hungTime, p.coreSize, p.maxSize, p.keepAlive,
                  p.workQueueCapacity, p.priority, ecs);
    }

    /** `setExecutionContextService(services...)`: the provider list becomes a
        new list holding exactly `services`, in order. A null array leaves the
        new, empty list in place and then throws. */
    method SetExecutionContextService(services: Option<seq<ContextService>>) returns (r: Result<()>)
      modifies this`ecs
      ensures services.Some? ==> ecs == services && r == Success(())
      ensures services.None? ==> ecs == Some([]) && r == Failure(NullPointerException)
    {
      ecs := Some([]);
      if services.None? {
        return Failure(NullPointerException);
      }
      var i := 0;
      while i < |services.value|
        invariant 0 <= i <= |services.value|
        invariant ecs == Some(services.value[..i])
      {
        assert services.value[..i + 1] == services.value[..i] + [services.value[i]];
        ecs := Some(ecs.value + [services.value[i]]);
        i := i + 1;
      }
      assert services.value[..i] == services.value;
      r := Success(());
    }

    /** `createExecutionContext`: null without a provider list; otherwise each
        provider of a copy of the list is asked once, in list order, and the
        composite holds provider i's context at position i. */
    method CreateExecutionContext() returns (ctx: Option<ExecutionContext>)
      modifies this`prepared
      ensures ctx == ContextFor(ecs)
      ensures ecs.None? ==> ctx.None?
      ensures ecs.Some? ==> ctx.Some? && ctx.value.Composite? && |ctx.value.parts| == |ecs.value|
      ensures ecs.Some? ==> forall i :: 0 <= i < |ecs.value| ==> ctx.value.parts[i] == Prepared(ecs.value[i])
      ensures prepared == old(prepared) + Providers(ecs)
    {
      if ecs.None? {
        return None;
      }
      var copy := ecs.value;
      var ec: seq<ExecutionContext> := [];
      for i := 0 to |copy|
        invariant |ec| == i
        invariant forall k :: 0 <= k < i ==> ec[k] == Prepared(copy[k])
        invariant prepared == old(prepared) + copy[..i]
      {
        ec := ec + [Prepared(copy[i])];
        prepared := prepared + [copy[i]];
      }
      assert copy[..|copy|] == copy;
      assert ec == seq(|copy|, i requires 0 <= i < |copy| => Prepared(copy[i]));
      ctx := Some(Composite(ec));
    }

    /** `getNewTaskFor(task, result)`: a new task carrying the pool's hang
        threshold and a freshly captured execution context. */
    method NewRunnableTask(task: Runnable, result: Value) returns (t: Task)
      modifies this`prepared
      ensures fresh(t) && t.Idle()
      ensures t.work == RunnableWork(task, result) && t.hungTime == hungTime && t.context == ContextFor(ecs)
      ensures prepared == old(prepared) + Providers(ecs)
    {
      var ctx := CreateExecutionContext();
      t := new Task(RunnableWork(task, result), ctx, hungTime);
    }

    /** `getNewTaskFor(callable)`: as NewRunnableTask, for a callable. */
    method NewCallableTask(callable: Callable) returns (t: Task)
      modifies this`prepared
      ensures fresh(t) && t.Idle()
      ensures t.work == CallableWork(callable) && t.hungTime == hungTime && t.context == ContextFor(ecs)
      ensures prepared == old(prepared) + Providers(ecs)
    {
      var ctx := CreateExecutionContext();
      t := new Task(CallableWork(callable), ctx, hungTime);
    }

    /** `getHungTasks`: the tracked tasks whose `isTaskHang()` holds, in
        insertion order; the tracked set itself is left alone. */
    method GetHungTasks() returns (hung: seq<Task>)
      ensures hung == HungOf(tasks)
      ensures forall t :: t in hung <==> t in tasks && t.hang
      ensures SubsequenceOf(hung, tasks)
    {
      hung := [];
      var i := 0;
      while i < |tasks|
        invariant 0 <= i <= |tasks|
        invariant hung == HungOf(tasks[..i])
      {
        HungOfAppend(tasks[..i], tasks[i]);
        assert tasks[..i + 1] == tasks[..i] + [tasks[i]];
        if tasks[i].hang {
          hung := hung + [tasks[i]];
        }
        i := i + 1;
      }
      assert tasks[..i] == tasks;
      HungOfMembers(tasks);
      HungOfInOrder(tasks);
    }

    /** `shutdownNow`: every tracked task is cancelled with interruption, then
        the pool is shut down and the work it never started (`pending`, as the
        pool reports it) is returned unchanged. The tracked set is untouched. */
    method ShutdownNow(pending: seq<Runnable>) returns (r: seq<Runnable>)
      requires Valid()
      modifies this`isShutdown, tasks
      ensures Valid() && tasks == old(tasks)
      ensures forall t :: t in tasks ==> t.cancelled && t.interruptRequested
      ensures forall t :: t in tasks ==> t.hang == old(t.hang) && t.future == old(t.future)
      ensures forall t :: t in tasks ==> t.listeners == old(t.listeners) && t.executed == old(t.executed)
      ensures isShutdown && r == pending
    {
      var i := 0;
      while i < |tasks|
        invariant 0 <= i <= |tasks|
        invariant Valid()
        invariant forall j :: 0 <= j < i ==> tasks[j].cancelled && tasks[j].interruptRequested
        invariant isShutdown == old(isShutdown)   // the pool is shut down only after every cancel
        invariant forall t :: t in tasks ==> t.hang == old(t.hang) && t.future == old(t.future)
        invariant forall t :: t in tasks ==> t.listeners == old(t.listeners) && t.executed == old(t.executed)
      {
        tasks[i].Cancel(true);
        i := i + 1;
      }
      isShutdown := true;
      r := pending;
    }

    /** `execute(command)`: runs the command as a new task that is never tracked. */
    method Execute(command: Runnable)
      modifies this`prepared
      ensures prepared == old(prepared) + Providers(ecs)
    {
      var t := NewRunnableTask(command, Null);
      var _ := t.Execute();
    }

    /** `submit(callable)`: runs the callable as a new task and returns it,
        without tracking it. */
    method SubmitCallable(task: Option<Callable>) returns (r: Result<Task>)
      modifies this`prepared
      ensures task.None? ==> r == Failure(NullPointerException) && prepared == old(prepared)
      ensures task.Some? ==>
        && r.Success? && fresh(r.value) && r.value !in tasks
        && r.value.work == CallableWork(task.value) && r.value.executed && r.value.listeners == []
        && r.value.hungTime == hungTime && r.value.context == ContextFor(ecs)
        && prepared == old(prepared) + Providers(ecs)
    {
      if task.None? {
        return Failure(NullPointerException);
      }
      var t := NewCallableTask(task.value);
      t := t.Execute();
      r := Success(t);
    }

    /** `submit(task, result)`: runs the runnable as a new task, registers the
        listener that removes it again, then appends it to the tracked set. */
    method SubmitRunnable(task: Option<Runnable>, result: Value) returns (r: Result<Task>)
      requires Valid()
      modifies this`tasks, this`prepared
      ensures Valid()
      ensures task.None? ==> r == Failure(NullPointerException) && tasks == old(tasks) && prepared == old(prepared)
      ensures task.Some? ==>
        && r.Success? && fresh(r.value)
        && tasks == old(tasks) + [r.value]
        && r.value.work == RunnableWork(task.value, result) && r.value.executed
        && r.value.listeners == [TrackedRemoval(this, r.value)]
        && r.value.hungTime == hungTime && r.value.context == ContextFor(ecs)
        && prepared == old(prepared) + Providers(ecs)
    {
      if task.None? {
        return Failure(NullPointerException);
      }
      var t := NewRunnableTask(task.value, result);
      t := t.Execute();
      t.AddListener(TrackedRemoval(this, t));
      AppendNoDup(tasks, t);
      tasks := tasks + [t];
      r := Success(t);
    }

    /** `submit(task)`: `submit(task, null)`. */
    method Submit(task: Option<Runnable>) returns (r: Result<Task>)
      requires Valid()
      modifies this`tasks, this`prepared
      ensures Valid()
      ensures task.None? ==> r == Failure(NullPointerException) && tasks == old(tasks) && prepared == old(prepared)
      ensures task.Some? ==>
        && r.Success? && fresh(r.value)
        && tasks == old(tasks) + [r.value]
        && r.value.work == RunnableWork(task.value, Null) && r.value.executed
        && r.value.listeners == [TrackedRemoval(this, r.value)]
        && r.value.hungTime == hungTime && r.value.context == ContextFor(ecs)
        && prepared == old(prepared) + Providers(ecs)
    {
      r := SubmitRunnable(task, Null);
    }

    /** The `run()` of the listener `TrackedRemoval(this, t)`: `tasks.remove(t)`.
        Only `t` leaves the tracked set; the others keep their order. Running it
        again, or before `t` was added, changes nothing. */
    method RemoveTracked(t: Task)
      requires Valid()
      modifies this`tasks
      ensures Valid()
      ensures tasks == Without(old(tasks), t)
      ensures forall u :: u in tasks <==> u in old(tasks) && u != t
      ensures SubsequenceOf(tasks, old(tasks))
      ensures t !in old(tasks) ==> tasks == old(tasks)
    {
      WithoutMembers(tasks, t);
      WithoutNoDup(tasks, t);
      WithoutInOrder(tasks, t);
      if t !in tasks { WithoutAbsent(tasks, t); }
      tasks := Without(tasks, t);
    }

    /** One step of invokeAll: `getNewTaskFor(c)`, then `submitted(f)`. */
    method WrapFuture(c: Callable, f: Future) returns (t: Task)
      modifies this`prepared
      ensures fresh(t) && Wraps(t, c, f, hungTime, ecs)
      ensures prepared == old(prepared) + Providers(ecs)
    {
      t := NewCallableTask(c);
      t.Submitted(f);
    }

    /** Runs the listener `l`, as a finished task does: `TrackedRemoval(owner, task)`
        removes only `task` from `owner`'s tracked set. */
    static method RunListener(l: Listener)
      requires l.owner.Valid()
      modifies l.owner`tasks
      ensures l.owner.Valid()
      ensures l.owner.tasks == Without(old(l.owner.tasks), l.task)
    {
      l.owner.RemoveTracked(l.task);
    }

    /** Both `invokeAll` overloads. The underlying pool runs the callables and
        returns `futures` (the timeout, when given, only shapes that list);
        then each callable gets a new task bound to the future at its
        position. When the futures run out first, `futures.get(i)` throws
        right after the task for callable i was made. No task is tracked or
        executed. */
    method InvokeAll(callables: seq<Callable>, timeout: Option<(int64, TimeUnit)>, futures: seq<Future>)
      returns (r: Result<seq<Task>>)
      modifies this`prepared
      ensures r.Failure? <==> |futures| < |callables|
      ensures r.Failure? ==> r.error == IndexOutOfBoundsException
      ensures r.Success? ==> |r.value| == |callables| && NoDup(r.value)
      ensures r.Success? ==> forall i :: 0 <= i < |callables| ==> fresh(r.value[i])
      ensures r.Success? ==> forall i :: 0 <= i < |callables| ==>
        Wraps(r.value[i], callables[i], futures[i], hungTime, ecs)
      ensures prepared == old(prepared) + Repeat(Providers(ecs), if r.Success? then |callables| else |futures| + 1)
    {
      var manageable: seq<Task> := [];
      var i := 0;
      while i < |callables| && i < |futures|
        invariant 0 <= i <= |callables| && i <= |futures|
        invariant |manageable| == i && NoDup(manageable)
        invariant forall k :: 0 <= k < i ==> fresh(manageable[k])
        invariant forall k :: 0 <= k < i ==> Wraps(manageable[k], callables[k], futures[k], hungTime, ecs)
        invariant prepared == old(prepared) + Repeat(Providers(ecs), i)
      {
        var t := WrapFuture(callables[i], futures[i]);
        AppendNoDup(manageable, t);
        manageable := manageable + [t];
        i := i + 1;
      }
      if i < |callables| {
        var _ := NewCallableTask(callables[i]);
        return Failure(IndexOutOfBoundsException);
      }
      r := Success(manageable);
    }
  }
}
