# Trace ids, cache proxy and order repository — a Dafny model

This project models the small pieces of real logic in a Spring tutorial
repository about request tracing and the proxy pattern:

- **`TraceId`** (`trace_id.dfy`, module `TraceIds`): an immutable pair of
  an 8-character correlation id, cut from the text of a random UUID, and an
  `int` nesting level. `CreateNextId` and `CreatePreviousId` derive a new
  value with the same id and level ±1; `IsFirstLevel` tests for level 0.
  The level is a Java `int`, so the model wraps at 2^31 − 1 and −2^31
  exactly as Java does.
- **`TraceStatus`** (`trace_status.dfy`, module `TraceStatuses`): an
  immutable record of a `TraceId`, a start time in milliseconds (an opaque
  `long`) and a message.
- **`CacheProxy`** (`cache_proxy.dfy`, module `CacheProxies`): a memoizing
  proxy. The target is an oracle `nat -> Reply` whose k-th invocation
  either returns a string (`None` is Java's `null`) or throws an exception.
  A null target is the oracle that throws `NullPointerException` on every
  call. The proxy state carries the cached value and a count of
  delegations. The logic is
  given as pure functions (`OperationStep`, `Run`), as a client method
  that calls the proxy repeatedly, and as a small class whose `Operation`
  method is tied to `OperationStep`.
- **`OrderRepositoryV0BJH.save`** (`order_repository.dfy`, module
  `OrderRepository`): the sentinel id `"ex"` throws
  `IllegalStateException`, a null id throws `NullPointerException`, any
  other id completes after a fixed 1000 ms delay whose interruption is
  swallowed. `OrderItem` is the order service's one-line delegation.

Because `TraceId` and `TraceStatus` are Dafny datatypes, deriving a new
trace id or reading a getter can never change the value it was called on;
this holds by construction and needs no lemma.

The random UUID, the wall clock and thread interruption are parameters:
`NewTraceId` takes the UUID text, `NewTraceStatus` takes the start time,
and `Save` takes whether the sleeping thread is interrupted.

## Model

| member | source | states |
|---|---|---|
| TraceIds.Wrap32 | advanced/src/main/java/hello/advanced/trace/TraceId.java:11 | Java `int` arithmetic: the result is in range, equals its input when that is in range, and is congruent to it modulo 2^32 |
| TraceIds.CreateId | advanced/src/main/java/hello/advanced/trace/TraceId.java:23-26 | the correlation id has length 8 and is a prefix of the UUID text |
| TraceIds.NewTraceId | advanced/src/main/java/hello/advanced/trace/TraceId.java:13-16 | a freshly constructed trace id has level 0, is at its first level, and its id is a prefix of the UUID text |
| TraceIds.TraceId.CreateNextId | advanced/src/main/java/hello/advanced/trace/TraceId.java:28-30 | keeps the id; the level goes up by one, wrapping from INT_MAX to INT_MIN |
| TraceIds.TraceId.CreatePreviousId | advanced/src/main/java/hello/advanced/trace/TraceId.java:32-34 | keeps the id; the level goes down by one with no lower bound at zero, wrapping only from INT_MIN to INT_MAX |
| TraceIds.NextPreviousRoundTrip | advanced/src/main/java/hello/advanced/trace/TraceId.java:28-34 | next-then-previous and previous-then-next both give back a trace id with the original id and level |
| TraceIds.TraceId.IsFirstLevel | advanced/src/main/java/hello/advanced/trace/TraceId.java:36-38 | a trace id is at its first level exactly when it is the level-0 id of its chain |
| TraceIds.FirstLevelIsLevelZero | advanced/src/main/java/hello/advanced/trace/TraceId.java:28-38 | `IsFirstLevel` holds iff the level is 0; one step in from the first level is level 1 and not first; one step out is level -1 |
| TraceIds.Descend | advanced/src/main/java/hello/advanced/trace/TraceId.java:28-30 | n nested calls keep the correlation id and reach level + n in Java `int` arithmetic, for every starting level |
| TraceIds.Ascend | advanced/src/main/java/hello/advanced/trace/TraceId.java:32-34 | n returns keep the correlation id and reach level - n in Java `int` arithmetic, for every starting level |
| TraceIds.AscendUndoesDescend | advanced/src/main/java/hello/advanced/trace/TraceId.java:28-34 | returning from n nested calls gives back a trace id with the id and level held before them, for every level and every n |
| TraceIds.DescendFromFreshReachesDepth | advanced/src/main/java/hello/advanced/trace/TraceId.java:13-16 | from a fresh id, n nested calls (n within `int` range) reach level n, which is the first level iff n is 0 |
| TraceStatuses.NewTraceStatus | advanced/src/main/java/hello/advanced/trace/TraceStatus.java:12-28 | the constructed status holds exactly the given trace id, start time and message |
| TraceStatuses.StatusIsRebuiltFromGetters | advanced/src/main/java/hello/advanced/trace/TraceStatus.java:8-28 | a status holds nothing beyond its three fields: constructing a status from its getters' values gives one that agrees with it on every getter |
| CacheProxies.NullTarget | proxy-start/src/test/java/hello/proxy/pureproxy/proxy/code/CacheProxy.java:15-17 | a proxy given a null target throws NullPointerException on every delegation |
| CacheProxies.CacheProxy.constructor | proxy-start/src/test/java/hello/proxy/pureproxy/proxy/code/CacheProxy.java:15-17 | the new object keeps the given target, has an empty cache and has not called the target |
| CacheProxies.Initial | proxy-start/src/test/java/hello/proxy/pureproxy/proxy/code/CacheProxy.java:12-17 | a new proxy has an empty cache and has not called the target |
| CacheProxies.OperationStep | proxy-start/src/test/java/hello/proxy/pureproxy/proxy/code/CacheProxy.java:20-26 | a returned value is the cache content after the call and an exception leaves the cache empty; a filled cache answers alone and changes nothing; an empty cache calls the target exactly once and ends as that call did |
| CacheProxies.Run | proxy-start/src/test/java/hello/proxy/pureproxy/proxy/code/CacheProxy.java:20-26 | n calls give n answers, invoke the target at most n times, and never empty a filled cache |
| CacheProxies.FilledCacheIsStable | proxy-start/src/test/java/hello/proxy/pureproxy/proxy/code/CacheProxy.java:22-25 | with a filled cache, any number of calls leave the state unchanged, never call the target, and all return the cached value |
| CacheProxies.AtMostOneDelegation | proxy-start/src/test/java/hello/proxy/pureproxy/proxy/code/CacheProxy.java:22-25 | if the target's first answer is non-null, a fresh proxy calls it at most once over any number of calls and always returns that answer |
| CacheProxies.UnfilledRepliesAreNotCached | proxy-start/src/test/java/hello/proxy/pureproxy/proxy/code/CacheProxy.java:22-24 | while the target returns null or throws, the cache stays empty, every call delegates again, and each call ends exactly as the target's invocation did |
| CacheProxies.NullTargetAlwaysThrows | proxy-start/src/test/java/hello/proxy/pureproxy/proxy/code/CacheProxy.java:15-24 | with a null target every call throws NullPointerException and the cache is never filled |
| CacheProxies.EmptyAfterRunIffNothingFilled | proxy-start/src/test/java/hello/proxy/pureproxy/proxy/code/CacheProxy.java:22-25 | starting empty, the cache is still empty after n calls iff no call of the target returned a non-null string, and then the target was called n times |
| CacheProxies.RunExtends | proxy-start/src/test/java/hello/proxy/pureproxy/proxy/code/CacheProxy.java:20-26 | n + 1 calls are n calls followed by one more |
| CacheProxies.ExecuteRepeatedly | proxy-start/src/test/java/hello/proxy/pureproxy/proxy/code/CacheProxy.java:20-26 | a client calling a fresh proxy n times, and catching exceptions, observes exactly the replies of n steps; with a non-null first answer the target is called at most once and all answers equal it |
| CacheProxies.CacheProxy.Operation | proxy-start/src/test/java/hello/proxy/pureproxy/proxy/code/CacheProxy.java:19-26 | the object's call changes its cache and counter, and returns, exactly as one step does; `target` is a constant and is never reassigned |
| OrderRepository.Sleep | advanced/src/main/java/hello/advanced/app/v0/bjh/OrderRepositoryV0BJH.java:18-24 | the delay always returns normally; it reports an interruption exactly when one happened, and otherwise sleeps the requested time |
| OrderRepository.Save | advanced/src/main/java/hello/advanced/app/v0/bjh/OrderRepositoryV0BJH.java:10-16 | completes iff the id is non-null and not "ex"; "ex" throws IllegalStateException and null throws NullPointerException; a failing call never reaches the delay and a completing one always takes the 1000 ms delay |
| OrderRepository.InterruptionIsSwallowed | advanced/src/main/java/hello/advanced/app/v0/bjh/OrderRepositoryV0BJH.java:15-23 | an interrupted delay never changes how `save` ends |
| OrderRepository.OrderItem | advanced/src/main/java/hello/advanced/app/v0/bjh/OrderServiceV0BJH.java:12-14 | ordering an item ends exactly as saving it: it completes iff the id is non-null and not "ex" |

## Left out

- The randomness of `UUID.randomUUID()`: the UUID text is a parameter of `NewTraceId` and `CreateId`, constrained only to the 36-character length of a UUID's text.
- `Thread.sleep` timing and thread interruption: the delay is recorded as an effect, and whether it is interrupted is an input. Printing the stack trace is recorded only as the `InterruptedAndLogged` effect.
- Logging calls (`log.info` in the cache proxy): they have no effect on the computed values.
- Null constructor arguments of `TraceStatus` (a null trace id, start time or message): the record stores and returns them unchanged, but the model cannot represent a null field.
- Object identity of `TraceId` and `TraceStatus`: neither class overrides `equals`, so two Java objects are equal only when they are the same object. The model compares by fields (id and level; trace id, start time and message), so its equalities say that two values agree on every getter, not that they are the same object.
- CacheProxies.NullTarget: with a null target the Java program never reaches a target, but the model still counts each such call as a delegation.
- The `LogTrace` interface and any implementation of it: no implementation is part of this model, so begin/end/exception are not modelled; `Descend` and `Ascend` model only the level bookkeeping of nested calls.
- `TimeAdvice`, the proxy-factory, advisor, concrete-proxy and decorator tests: they exercise Spring AOP, CGLIB and JDK dynamic proxies, which are framework behaviour.
- CacheProxies.AtMostOneDelegation: overlapping calls are not modelled, and neither are the related `Run` and `FilledCacheIsStable`. The check at CacheProxy.java:22 and the assignment at line 23 are not guarded. So a target that calls back into the proxy, or two threads that both see an empty cache, make Java delegate more than once. The outer call's answer then overwrites a cache the inner call had already filled.
- `FieldService`: its point is a data race between threads, which is outside a sequential model.
- The HTTP controller and the proxy-pattern client: they only wire calls through; `OrderItem` and `ExecuteRepeatedly` stand for the calls they make.
