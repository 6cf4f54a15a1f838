# Managed executor bookkeeping, pool configuration and RenderableString

A Dafny model of three pieces of the Wisdom framework:

- **The managed executor's bookkeeping** (`AbstractManagedExecutorService` with
  its implementation `ManagedExecutorServiceImpl`, merged into the class
  `Executor.ManagedExecutor`). The executor keeps an insertion-ordered set of
  tracked tasks (a `seq<Task>` without duplicates), its `name`, its `hungTime`
  and an optional, ordered list of execution-context providers. The model
  covers the three `submit` forms, `execute`, `getHungTasks`, `shutdownNow`,
  both `invokeAll` overloads, `createExecutionContext`, the two `getNewTaskFor`
  overloads, `setExecutionContextService`, the constructors and the listener
  that removes a finished task from the tracked set.
  A task (`Executor.Task`) is a class. Its source is not part of this model, so
  only what the executor reads and writes is kept: the work, the captured
  context, the hang threshold, the bound future, whether it was executed or
  cancelled, its listeners, and `hang`, the value `isTaskHang()` reports at the
  moment it is asked.
  The underlying thread pool is not modelled. What it returns is passed in as a
  parameter: the futures of `invokeAll` and the never-started work of
  `shutdownNow`.
- **Pool configuration** (`PoolConfig`). This covers the work-queue choice of
  `createWorkQueue` and the defaults of the configuration-driven constructor.
  It also covers the settings handed to the thread factory, including the
  names the worker threads get.
- **`RenderableString`** (`Bodies`). An immutable value with its accessors, its
  seven constructors and the charset choice of `render`.

Java `null` is `Option.None`, and a thrown exception is `Result.Failure`. Java
`int` and `long` are the subset types `int32` and `int64`.

Behaviour of the code that the model keeps as it is:

- Only `submit(Runnable, T)` and `submit(Runnable)` add their task to the
  tracked set; `submit(callable)`, `execute` and `invokeAll` never do.
- The removal listener is attached before the task is added, so a task that
  finishes first is removed before it is added and then stays tracked. The
  model therefore does not promise that a task leaves the tracked set exactly
  once: running the listener removes only that task, and running it again, or
  before the add, changes nothing.
- `invokeAll` builds each wrapper with `getNewTaskFor`, which asks every
  provider for a context, although the work itself was already handed to the
  pool without one. The model records those `prepare()` calls.

## Model

| member | source | states |
|---|---|---|
| Executor.ManagedExecutor.constructor | core/wisdom-thread-pools/src/main/java/org/wisdom/pools/AbstractManagedExecutorService.java:30-36 | name and hungTime are stored unchanged, the logger is named "executor-" + name, the provider list is kept, and nothing is tracked yet |
| Executor.ManagedExecutor.SetInternalPool | core/wisdom-thread-pools/src/main/java/org/wisdom/pools/AbstractManagedExecutorService.java:38-42 | the pool becomes the given one and nothing else changes |
| Executor.ManagedExecutor.Create | core/wisdom-thread-pools/src/main/java/org/wisdom/pools/ManagedExecutorServiceImpl.java:33-61 | a null name throws NullPointerException; otherwise a negative capacity throws IllegalArgumentException and no executor results; otherwise the new executor tracks nothing, has asked no provider yet, and holds the pool built from coreSize, maxSize, keepAlive, the queue createWorkQueue chose and the derived thread-factory settings |
| Executor.ManagedExecutor.CreateFromConfiguration | core/wisdom-thread-pools/src/main/java/org/wisdom/pools/ManagedExecutorServiceImpl.java:19-31 | the same outcome as Create (including the logger name "executor-" + name), applied to the configured values with every missing key at its default |
| Executor.ManagedExecutor.SetExecutionContextService | core/wisdom-thread-pools/src/main/java/org/wisdom/pools/ManagedExecutorServiceImpl.java:94-97 | the provider list becomes exactly the given services, in order; a null array leaves an empty list and throws NullPointerException |
| Executor.ManagedExecutor.CreateExecutionContext | core/wisdom-thread-pools/src/main/java/org/wisdom/pools/AbstractManagedExecutorService.java:81-91 | null when there is no provider list; otherwise each provider is asked once, in list order (the log of prepare() calls grows by exactly the list), and the composite's i-th part is provider i's context |
| Executor.ManagedExecutor.NewRunnableTask | core/wisdom-thread-pools/src/main/java/org/wisdom/pools/ManagedExecutorServiceImpl.java:78-81 | a new, not yet executed task for the runnable and its result, carrying the pool's hungTime and a freshly captured context |
| Executor.ManagedExecutor.NewCallableTask | core/wisdom-thread-pools/src/main/java/org/wisdom/pools/ManagedExecutorServiceImpl.java:84-86 | a new, not yet executed task for the callable, carrying the pool's hungTime and a freshly captured context |
| Executor.ManagedExecutor.GetHungTasks | core/wisdom-thread-pools/src/main/java/org/wisdom/pools/AbstractManagedExecutorService.java:57-65 | returns exactly the tracked tasks whose isTaskHang() holds, in insertion order (a subsequence of the tracked set), and changes nothing |
| Executor.ManagedExecutor.ShutdownNow | core/wisdom-thread-pools/src/main/java/org/wisdom/pools/AbstractManagedExecutorService.java:74-79 | every tracked task is cancelled with interruption, the tracked set and each task's hang state, future, listeners and executed flag are unchanged, the pool is shut down, and the pool's list of never-started work is returned unchanged |
| Executor.ManagedExecutor.Execute | core/wisdom-thread-pools/src/main/java/org/wisdom/pools/AbstractManagedExecutorService.java:163-167 | a context is captured for the new task and the tracked set is not touched (the method may modify only the prepare() log) |
| Executor.ManagedExecutor.SubmitCallable | core/wisdom-thread-pools/src/main/java/org/wisdom/pools/AbstractManagedExecutorService.java:313-318 | a null callable throws NullPointerException and captures nothing; otherwise a new executed task for the callable is returned, with the pool's hungTime and a captured context, and it is not tracked |
| Executor.ManagedExecutor.SubmitRunnable | core/wisdom-thread-pools/src/main/java/org/wisdom/pools/AbstractManagedExecutorService.java:321-334 | a null runnable throws NullPointerException and leaves the tracked set unchanged; otherwise the returned task is new and executed, its only listener removes it from this executor, and the tracked set becomes the old one with this task appended |
| Executor.ManagedExecutor.Submit | core/wisdom-thread-pools/src/main/java/org/wisdom/pools/AbstractManagedExecutorService.java:337-339 | as SubmitRunnable with a null result |
| Executor.ManagedExecutor.RunListener | core/wisdom-thread-pools/src/main/java/org/wisdom/pools/AbstractManagedExecutorService.java:326-331 | running the listener submit registers for a task removes exactly that task from its executor's tracked set and keeps the set valid |
| Executor.ManagedExecutor.RemoveTracked | core/wisdom-thread-pools/src/main/java/org/wisdom/pools/AbstractManagedExecutorService.java:326-331 | the registered listener removes only its task; the others stay in their order; removing a task that is not tracked changes nothing |
| Executor.ManagedExecutor.WrapFuture | core/wisdom-thread-pools/src/main/java/org/wisdom/pools/AbstractManagedExecutorService.java:122-123 | one wrapper: a new task for the callable, bound to the given future, with the pool's hungTime and a captured context |
| Executor.ManagedExecutor.InvokeAll | core/wisdom-thread-pools/src/main/java/org/wisdom/pools/AbstractManagedExecutorService.java:117-147 | with at least as many futures as callables, returns one distinct new task per callable, where task i wraps callable i and is bound to futures[i]; with fewer futures, throws IndexOutOfBoundsException; never touches the tracked set |
| Executor.HungOfAppend | core/wisdom-thread-pools/src/main/java/org/wisdom/pools/AbstractManagedExecutorService.java:59-63 | one more task visited adds it to the hung list exactly when it hangs |
| Executor.HungOfMembers | core/wisdom-thread-pools/src/main/java/org/wisdom/pools/AbstractManagedExecutorService.java:57-65 | a task is in the hung list if and only if it is tracked and hangs |
| Executor.HungOfInOrder | core/wisdom-thread-pools/src/main/java/org/wisdom/pools/AbstractManagedExecutorService.java:57-65 | the hung list keeps the tracked set's order and has no duplicates when the tracked set has none |
| Executor.Task.constructor | core/wisdom-thread-pools/src/main/java/org/wisdom/pools/ManagedExecutorServiceImpl.java:79-80 | a new task stores its work, context and hungTime, and is idle: no future, not executed, not cancelled, no listeners |
| Executor.Task.Execute | core/wisdom-thread-pools/src/main/java/org/wisdom/pools/AbstractManagedExecutorService.java:317 | execute() marks the task executed and returns the task itself |
| Executor.Task.Submitted | core/wisdom-thread-pools/src/main/java/org/wisdom/pools/AbstractManagedExecutorService.java:123 | submitted(f) binds the task to f |
| Executor.Task.Cancel | core/wisdom-thread-pools/src/main/java/org/wisdom/pools/AbstractManagedExecutorService.java:76 | cancel(true) leaves the task cancelled with interruption requested |
| Executor.Task.AddListener | core/wisdom-thread-pools/src/main/java/org/wisdom/pools/AbstractManagedExecutorService.java:326-331 | listeners are appended in registration order |
| Seqs.WithoutMembers | core/wisdom-thread-pools/src/main/java/org/wisdom/pools/AbstractManagedExecutorService.java:329 | after remove(t), the set holds exactly the old members other than t |
| Seqs.WithoutAbsent | core/wisdom-thread-pools/src/main/java/org/wisdom/pools/AbstractManagedExecutorService.java:329 | remove(t) of an absent t changes nothing |
| Seqs.WithoutInOrder | core/wisdom-thread-pools/src/main/java/org/wisdom/pools/AbstractManagedExecutorService.java:329 | remove(t) keeps the remaining members in insertion order |
| Seqs.WithoutNoDup | core/wisdom-thread-pools/src/main/java/org/wisdom/pools/AbstractManagedExecutorService.java:329 | remove(t) keeps the tracked set free of duplicates |
| Seqs.AppendNoDup | core/wisdom-thread-pools/src/main/java/org/wisdom/pools/AbstractManagedExecutorService.java:332 | add(t) of a task not yet tracked keeps the tracked set free of duplicates |
| PoolConfig.CreateWorkQueue | core/wisdom-thread-pools/src/main/java/org/wisdom/pools/ManagedExecutorServiceImpl.java:63-76 | throws IllegalArgumentException if and only if the capacity is negative; gives the unbounded LinkedBlockingQueue if and only if the capacity is Integer.MAX_VALUE, a SynchronousQueue if and only if it is 0, and otherwise an ArrayBlockingQueue of exactly that capacity; the four cases are exhaustive and exclusive |
| PoolConfig.WorkQueueHoldsRequestedCapacity | core/wisdom-thread-pools/src/main/java/org/wisdom/pools/ManagedExecutorServiceImpl.java:63-76 | for every non-negative capacity the chosen queue holds exactly that many waiting tasks |
| PoolConfig.ThreadFactoryFor | core/wisdom-thread-pools/src/main/java/org/wisdom/pools/ManagedExecutorServiceImpl.java:45-48 | threads are daemon if and only if the thread type is DAEMON, the name format is name + "-%s", and the priority is the given one |
| PoolConfig.DecimalInjective | core/wisdom-thread-pools/src/main/java/org/wisdom/pools/ManagedExecutorServiceImpl.java:47 | different thread counters print differently |
| PoolConfig.ThreadNamesDistinct | core/wisdom-thread-pools/src/main/java/org/wisdom/pools/ManagedExecutorServiceImpl.java:45-48 | worker k is named name + "-" + k, and no two workers of a pool share a name |
| PoolConfig.Resolve | core/wisdom-thread-pools/src/main/java/org/wisdom/pools/ManagedExecutorServiceImpl.java:19-31 | each parameter is the configured value, or its default when the key is missing: POOLED, 60000 ms, 5, 25, 5000 ms, Integer.MAX_VALUE, NORM_PRIORITY |
| PoolConfig.EmptyConfigurationDefaults | core/wisdom-thread-pools/src/main/java/org/wisdom/pools/ManagedExecutorServiceImpl.java:22-29 | an empty configuration gives a non-daemon pool of 5 to 25 threads at normal priority, with a 5 s keep-alive, an unbounded queue and a 60 s hang threshold |
| Bodies.Utf16LengthBounds | core/wisdom-api/src/main/java/org/wisdom/api/bodies/RenderableString.java:147-149 | the Java length lies between the number of characters and twice that, and equals it exactly when every character lies in the Basic Multilingual Plane |
| Bodies.RenderableString.Mimetype | core/wisdom-api/src/main/java/org/wisdom/api/bodies/RenderableString.java:155-161 | text/html when no type was given, the given type unchanged otherwise |
| Bodies.RenderableString.Content | core/wisdom-api/src/main/java/org/wisdom/api/bodies/RenderableString.java:167-169 | the stored string |
| Bodies.RenderableString.Length | core/wisdom-api/src/main/java/org/wisdom/api/bodies/RenderableString.java:147-149 | the Java (UTF-16) length of the content |
| Bodies.RenderableString.RequireSerializer | core/wisdom-api/src/main/java/org/wisdom/api/bodies/RenderableString.java:175-177 | always false |
| Bodies.RenderableString.MustBeChunked | core/wisdom-api/src/main/java/org/wisdom/api/bodies/RenderableString.java:195-197 | always false |
| Bodies.RenderableString.SetSerializedForm | core/wisdom-api/src/main/java/org/wisdom/api/bodies/RenderableString.java:185-187 | changes neither content nor type |
| Bodies.RenderableString.Render | core/wisdom-api/src/main/java/org/wisdom/api/bodies/RenderableString.java:123-139 | with a result whose charset is null, writes the platform default into it and encodes with it; with a result whose charset is set, keeps and uses that charset; with no result, uses the platform default |
| Bodies.HttpResult.With | core/wisdom-api/src/main/java/org/wisdom/api/bodies/RenderableString.java:130 | with(charset) sets the result's charset |
| Bodies.OfStringWithType | core/wisdom-api/src/main/java/org/wisdom/api/bodies/RenderableString.java:109-112 | stores the content unchanged; the mimetype is the given type, or text/html when it is null |
| Bodies.OfString | core/wisdom-api/src/main/java/org/wisdom/api/bodies/RenderableString.java:54-56 | stores the string; the mimetype is text/html |
| Bodies.OfStringBuilder | core/wisdom-api/src/main/java/org/wisdom/api/bodies/RenderableString.java:63-65 | stores the builder's toString(); the mimetype is text/html |
| Bodies.OfStringBuffer | core/wisdom-api/src/main/java/org/wisdom/api/bodies/RenderableString.java:72-74 | stores the buffer's toString(); the mimetype is text/html |
| Bodies.OfObject | core/wisdom-api/src/main/java/org/wisdom/api/bodies/RenderableString.java:82-84 | stores the object's toString(); the mimetype is text/html |
| Bodies.OfObjectWithType | core/wisdom-api/src/main/java/org/wisdom/api/bodies/RenderableString.java:91-93 | stores the object's toString(); the mimetype is the given type, or text/html when it is null |
| Bodies.OfStringWriter | core/wisdom-api/src/main/java/org/wisdom/api/bodies/RenderableString.java:100-102 | stores the writer's toString(); the mimetype is text/html |

## Left out

- Scheduling by `ThreadPoolExecutor` is not modelled: queue blocking, rejection, keep-alive and worker reuse. The same holds for `shutdown`, `awaitTermination`, `isShutdown`, `isTerminated` and `invokeAny`. These are JDK concurrency behaviour; the model only records that `shutdownNow` shut the pool down.
- The argument checks of the JDK and Guava are not modelled. `ThreadPoolExecutor` rejects bad sizes or a negative keep-alive. `ThreadFactoryBuilder` rejects a priority outside 1..10 and a malformed name format. These are foreign code; the model's `Create` only has the null-name and negative-capacity failures of the code shown.
- Introspection and maintenance pass-throughs are not modelled: `getPoolSize`, `getActiveCount`, `getLargestPoolSize`, `getCorePoolSize`, `getMaximumPoolSize`, `getCompletedTaskCount`, `getTaskCount`, `getKeepAliveTime`, `getQueue`, `purge`, `remove`, `getInternalPool` and `getExecutor`. Each only forwards to the JDK pool.
- Task internals are not part of this model. `Executor.Task` keeps only what the executor uses. `isTaskHang()` is the field `hang`, with no clock. `cancel` only marks the task. Listeners never fire by themselves; `RemoveTracked` is what one of them does when it runs.
- Concurrency is not modelled. Every operation is one atomic step, so the race between the listener and `tasks.add` is not modelled.
- Executor.ManagedExecutor.ShutdownNow: assumes `cancel(true)` does not run the task's listeners in the calling thread. If it did, the removal listener would call `tasks.remove` while the loop iterates the LinkedHashSet. With two or more tracked tasks the next step would throw ConcurrentModificationException, the later tasks would stay uncancelled and the pool would not be shut down. Whether listeners run there depends on the Task class, which is not part of this model.
- The executor keeps the provider list as a value: a snapshot of the list passed to the constructor. Java stores the caller's own `List` object, so later additions or removals the caller makes to that list are seen by the next `createExecutionContext`; the model does not capture that aliasing, and only `SetExecutionContextService` changes its providers.
- Provider lists never hold null. In Java, `setExecutionContextService(a, null)` is accepted, and every later `createExecutionContext` (so every submit, execute and invokeAll) would then throw NullPointerException at `prepare()`. The model's providers are always present values.
- Executor.ManagedExecutor.SubmitRunnable: does not promise that the task leaves the tracked set exactly once. The code does not guarantee it, because the listener is attached before the task is added.
- Executor.ManagedExecutor.Execute: takes a non-null command. What `execute(null)` does depends on the Task constructor, which is not part of this model.
- The slf4j logger and the uncaught-exception handler are not modelled. The logger is kept only as its name.
- Configuration lookup is not modelled. `Configuration` holds each key's already converted value, or none; parsing durations and types belongs to the configuration service.
- `prepare()` of a provider is modelled as returning that provider's context, `Prepared(service)`. What a provider really captures is its own business.
- PoolConfig.ThreadNamesDistinct: requires a pool name without `%`. The formatter would also read a `%` in the name, so `ThreadName` does not describe such names.
- Byte-level charset encoding in `render`, and the `ByteArrayInputStream`, are not modelled. The returned stream is modelled as the pair of text and charset.
- RenderableString content is never null here. The constructors document that it must not be null. Java strings holding unpaired surrogates are also outside the model.
