/** ThreadUtils: two lazily created worker pools chosen by a type code, a global reset, and
    AThreadFactory, which names and prioritises the threads the pools spawn. A pool is kept as
    an opaque descriptor (its sizes, queue kind, keep-alive and factory) plus the list of
    runnables handed to it; running them is not modelled. */
module Threading {
  import opened Common
  import Decimal

  const TYPE_INNER := 1
  const TYPE_RIGHT_NOW := 2
  const TYPE_RIGHT_NOW_LOCAL := 3

  const INNER_THREAD_SIZE_MIN := 1
  const INNER_THREAD_SIZE_MAX := 3
  const RIGHT_NOW_THREAD_SIZE_MIN := 10
  const RIGHT_NOW_THREAD_SIZE_MAX := 50
  const KEEP_ALIVE_SECONDS := 60

  /** java.lang.Thread.MIN_PRIORITY and MAX_PRIORITY. */
  const MIN_PRIORITY := 1
  const MAX_PRIORITY := 10

  /** The range of a Java `int`, the type of the shared thread counter. */
  const INT_MIN := -0x8000_0000
  const INT_MAX := 0x7fff_ffff

  /** The two pool slots: `innerPool` and `rightNowPool`. */
  datatype PoolClass = Inner | RightNow

  /** The work queue a pool is built with. */
  datatype QueueKind = LinkedBlockingQueue | SynchronousQueue

  /** The slot `execute` submits to for a type code; unknown codes go nowhere. */
  function Route(kind: int): Option<PoolClass>
  {
    if kind == TYPE_INNER then Some(Inner)
    else if kind == TYPE_RIGHT_NOW || kind == TYPE_RIGHT_NOW_LOCAL then Some(RightNow)
    else None
  }

  /** The slot `getThreadPool` answers with for a type code. */
  function Slot(kind: int): Option<PoolClass>
  {
    if kind == TYPE_INNER then Some(Inner)
    else if kind == TYPE_RIGHT_NOW then Some(RightNow)
    else None
  }

  /** `execute` and `getThreadPool` agree on every type code except TYPE_RIGHT_NOW_LOCAL, which
      is executed on the right-now pool but not looked up there. */
  lemma RouteAndSlotDiffer(kind: int)
    ensures Route(kind) != Slot(kind) <==> kind == TYPE_RIGHT_NOW_LOCAL
    ensures kind == TYPE_RIGHT_NOW_LOCAL ==> Route(kind) == Some(RightNow) && Slot(kind) == None
  {
  }

  /** The priority AThreadFactory gives to the threads of a factory made for `kind`. */
  function PriorityFor(kind: int): (p: int)
    ensures p == MAX_PRIORITY || p == MIN_PRIORITY
  {
    if kind == TYPE_RIGHT_NOW || kind == TYPE_RIGHT_NOW_LOCAL then MAX_PRIORITY else MIN_PRIORITY
  }

  /** Threads of the right-now types, and only those, run at maximum priority. */
  lemma PriorityFollowsRoute(kind: int)
    ensures PriorityFor(kind) == MAX_PRIORITY <==> Route(kind) == Some(RightNow)
  {
  }

  /** The name of the thread that draws number `n` from the counter. */
  function ThreadName(n: int): string
  {
    "AsyncTask #" + Decimal.IntToString(n)
  }

  /** Different counter values give different thread names. */
  lemma ThreadNameInjective(a: int, b: int)
    requires ThreadName(a) == ThreadName(b)
    ensures a == b
  {
    assert ThreadName(a)[11..] == Decimal.IntToString(a);
    assert ThreadName(b)[11..] == Decimal.IntToString(b);
    Decimal.IntToStringInjective(a, b);
  }

  /** `AtomicInteger.getAndIncrement` leaves the successor behind, wrapping at the int range. */
  function Increment(n: int): int
  {
    if n == INT_MAX then INT_MIN else n + 1
  }

  /** The counter's value once `k` threads have been created by any factory. */
  function CountAfter(k: nat): int
  {
    if k == 0 then 1 else Increment(CountAfter(k - 1))
  }

  /** Until the counter wraps, the k-th thread created (from 0) draws number k + 1. */
  lemma {:induction false} CountAfterBeforeWrap(k: nat)
    requires k < INT_MAX
    ensures CountAfter(k) == k + 1
  {
    if k > 0 {
      CountAfterBeforeWrap(k - 1);
    }
  }

  /** The first INT_MAX threads all get different names, numbered upwards from "AsyncTask #1". */
  lemma DistinctThreadNames(j: nat, k: nat)
    requires j < k < INT_MAX
    ensures ThreadName(CountAfter(j)) != ThreadName(CountAfter(k))
    ensures ThreadName(CountAfter(0)) == "AsyncTask #1"
  {
    CountAfterBeforeWrap(j);
    CountAfterBeforeWrap(k);
    if ThreadName(CountAfter(j)) == ThreadName(CountAfter(k)) {
      ThreadNameInjective(CountAfter(j), CountAfter(k));
    }
  }

  /** A thread as AThreadFactory builds it: a name, a priority and the runnable it runs. */
  datatype Thread<R> = Thread(name: string, priority: int, target: R)

  /** The counter `mCount` that every AThreadFactory shares. */
  class ThreadCounter {
    var value: int

    ghost predicate Valid()
      reads this
    {
      INT_MIN <= value <= INT_MAX
    }

    constructor ()
      ensures Valid() && value == 1
    {
      value := 1;
    }

    method GetAndIncrement() returns (n: int)
      requires Valid()
      modifies this
      ensures Valid()
      ensures n == old(value) && value == Increment(old(value))
    {
      n := value;
      value := Increment(value);
    }
  }

  class AThreadFactory {
    const kind: int

    constructor (kind: int)
      ensures this.kind == kind
    {
      this.kind := kind;
    }

    /** Builds the next thread: named after the counter value it draws, with the priority of
        the factory's type code. */
    method NewThread<R>(counter: ThreadCounter, r: R) returns (t: Thread<R>)
      requires counter.Valid()
      modifies counter
      ensures counter.Valid() && counter.value == Increment(old(counter.value))
      ensures t == Thread(ThreadName(old(counter.value)), PriorityFor(kind), r)
    {
      var n := counter.GetAndIncrement();
      t := Thread(ThreadName(n), PriorityFor(kind), r);
    }
  }

  /** A ThreadPoolExecutor reduced to how it was built and what was submitted to it. */
  class ThreadPool<R> {
    const corePoolSize: nat
    const maximumPoolSize: nat
    const keepAliveSeconds: nat
    const queue: QueueKind
    const factory: AThreadFactory
    var submitted: seq<R>
    var isShutdown: bool

    constructor (corePoolSize: nat, maximumPoolSize: nat, keepAliveSeconds: nat, queue: QueueKind, factory: AThreadFactory)
      ensures this.corePoolSize == corePoolSize && this.maximumPoolSize == maximumPoolSize
      ensures this.keepAliveSeconds == keepAliveSeconds && this.queue == queue && this.factory == factory
      ensures submitted == [] && !isShutdown
    {
      this.corePoolSize := corePoolSize;
      this.maximumPoolSize := maximumPoolSize;
      this.keepAliveSeconds := keepAliveSeconds;
      this.queue := queue;
      this.factory := factory;
      submitted := [];
      isShutdown := false;
    }

    /** Accepts `r` unless the pool has been shut down (then the rejection handler only logs). */
    method Execute(r: R)
      modifies this
      ensures isShutdown == old(isShutdown)
      ensures submitted == old(submitted) + (if isShutdown then [] else [r])
    {
      if !isShutdown {
        submitted := submitted + [r];
      }
    }

    method ShutdownNow()
      modifies this
      ensures isShutdown && submitted == old(submitted)
    {
      isShutdown := true;
    }
  }

  /** How `execute` builds the pool of a slot, for a factory made for `kind`. */
  predicate IsPoolOf<R>(p: ThreadPool<R>, c: PoolClass)
  {
    match c
    case Inner =>
      && p.corePoolSize == INNER_THREAD_SIZE_MIN && p.maximumPoolSize == INNER_THREAD_SIZE_MAX
      && p.queue == LinkedBlockingQueue && p.factory.kind == TYPE_INNER
      && p.keepAliveSeconds == KEEP_ALIVE_SECONDS
    case RightNow =>
      && p.corePoolSize == RIGHT_NOW_THREAD_SIZE_MIN && p.maximumPoolSize == RIGHT_NOW_THREAD_SIZE_MAX
      && p.queue == SynchronousQueue && (p.factory.kind == TYPE_RIGHT_NOW || p.factory.kind == TYPE_RIGHT_NOW_LOCAL)
      && p.keepAliveSeconds == KEEP_ALIVE_SECONDS
  }

  function Other(c: PoolClass): PoolClass
  {
    if c == Inner then RightNow else Inner
  }

  /** The static state of ThreadUtils: the two nullable pool slots. */
  class ThreadUtils<R> {
    var innerPool: ThreadPool?<R>
    var rightNowPool: ThreadPool?<R>

    function PoolOf(c: PoolClass): ThreadPool?<R>
      reads this
    {
      if c == Inner then innerPool else rightNowPool
    }

    function Pools(): set<object>
      reads this
    {
      (if innerPool == null then {} else {innerPool}) + (if rightNowPool == null then {} else {rightNowPool})
    }

    /** Each slot is empty or holds a pool built as `execute` builds it. The pool may have been
        shut down by a caller of `getThreadPool`: `execute` does not check. */
    ghost predicate Valid()
      reads this, Pools()
    {
      && (innerPool != null ==> IsPoolOf(innerPool, Inner))
      && (rightNowPool != null ==> IsPoolOf(rightNowPool, RightNow))
    }

    /** Whether a runnable routed to slot `c` is taken: an empty slot gets a new, live pool; a
        filled one takes it unless it has been shut down. */
    function Accepts(c: PoolClass): bool
      reads this, Pools()
    {
      PoolOf(c) == null || !PoolOf(c).isShutdown
    }

    /** What has been handed to a slot's current pool; an empty slot has received nothing. */
    function SubmittedTo(c: PoolClass): seq<R>
      reads this, Pools()
    {
      if PoolOf(c) == null then [] else PoolOf(c).submitted
    }

    constructor ()
      ensures Valid() && innerPool == null && rightNowPool == null
    {
      innerPool := null;
      rightNowPool := null;
    }

    /** Submits `r` to the pool of its type, creating that pool first if its slot is empty; a
        pool that has been shut down rejects it. An unknown type creates nothing and submits
        nothing. */
    method Execute(kind: int, r: R)
      requires Valid()
      modifies this, Pools()
      ensures Valid()
      ensures Route(kind).None? ==> innerPool == old(innerPool) && rightNowPool == old(rightNowPool)
      ensures Route(kind).None? ==> SubmittedTo(Inner) == old(SubmittedTo(Inner)) && SubmittedTo(RightNow) == old(SubmittedTo(RightNow))
      ensures Route(kind).Some? ==>
        var c := Route(kind).value;
        && PoolOf(c) != null
        && (old(PoolOf(c)) != null ==> PoolOf(c) == old(PoolOf(c)))
        && (old(PoolOf(c)) == null ==> fresh(PoolOf(c)) && PoolOf(c).factory.kind == kind)
        && SubmittedTo(c) == old(SubmittedTo(c)) + (if old(Accepts(c)) then [r] else [])
        && Accepts(c) == old(Accepts(c))
        && PoolOf(Other(c)) == old(PoolOf(Other(c)))
        && SubmittedTo(Other(c)) == old(SubmittedTo(Other(c)))
    {
      if kind == TYPE_INNER {
        if innerPool == null {
          var f := new AThreadFactory(kind);
          innerPool := new ThreadPool(INNER_THREAD_SIZE_MIN, INNER_THREAD_SIZE_MAX, KEEP_ALIVE_SECONDS, LinkedBlockingQueue, f);
        }
        innerPool.Execute(r);
      } else if kind == TYPE_RIGHT_NOW || kind == TYPE_RIGHT_NOW_LOCAL {
        if rightNowPool == null {
          var f := new AThreadFactory(kind);
          rightNowPool := new ThreadPool(RIGHT_NOW_THREAD_SIZE_MIN, RIGHT_NOW_THREAD_SIZE_MAX, KEEP_ALIVE_SECONDS, SynchronousQueue, f);
        }
        rightNowPool.Execute(r);
      }
    }

    /** The pool `getThreadPool` returns: the slot of TYPE_INNER or TYPE_RIGHT_NOW, null for any
        other code. */
    function GetThreadPool(kind: int): (p: ThreadPool?<R>)
      reads this
      ensures Slot(kind).None? ==> p == null
      ensures Slot(kind).Some? ==> p == PoolOf(Slot(kind).value)
    {
      if kind == TYPE_INNER then innerPool
      else if kind == TYPE_RIGHT_NOW then rightNowPool
      else null
    }

    /** Shuts both pools down and empties both slots. */
    method Reset()
      requires Valid()
      modifies this, Pools()
      ensures Valid() && innerPool == null && rightNowPool == null
      ensures old(innerPool) != null ==> old(innerPool).isShutdown && old(innerPool).submitted == old(innerPool.submitted)
      ensures old(rightNowPool) != null ==> old(rightNowPool).isShutdown && old(rightNowPool).submitted == old(rightNowPool.submitted)
    {
      if innerPool != null {
        innerPool.ShutdownNow();
        innerPool := null;
      }
      if rightNowPool != null {
        rightNowPool.ShutdownNow();
        rightNowPool := null;
      }
    }
  }

  /** A caller that shuts down the pool `getThreadPool` hands out leaves it in its slot: every
      later runnable of that type is rejected, and no new pool is made. */
  method ShutdownPoolStaysInSlot(a: Runnable, b: Runnable) returns (p: ThreadPool?<Runnable>, pools: ThreadUtils<Runnable>)
    ensures p != null && pools.innerPool == p
    ensures p.isShutdown && p.submitted == [a]
  {
    pools := new ThreadUtils<Runnable>();
    pools.Execute(TYPE_INNER, a);
    p := pools.GetThreadPool(TYPE_INNER);
    p.ShutdownNow();
    pools.Execute(TYPE_INNER, b);
  }

  /** A reset between two submissions of the same type gives the second a different, new pool,
      which has received only the second runnable; TYPE_RIGHT_NOW_LOCAL work lands in the pool
      that getThreadPool reports for TYPE_RIGHT_NOW, while its own code reports none. */
  method ResetRecreatesPools(a: Runnable, b: Runnable, c: Runnable)
    returns (before: ThreadPool?<Runnable>, after: ThreadPool?<Runnable>, local: ThreadPool?<Runnable>, rightNow: ThreadPool?<Runnable>)
    ensures before != null && after != null && before != after
    ensures before.isShutdown && after.submitted == [b]
    ensures local == null && rightNow != null && rightNow.submitted == [c]
  {
    var pools := new ThreadUtils<Runnable>();
    pools.Execute(TYPE_INNER, a);
    before := pools.GetThreadPool(TYPE_INNER);
    pools.Reset();
    pools.Execute(TYPE_INNER, b);
    after := pools.GetThreadPool(TYPE_INNER);
    pools.Execute(TYPE_RIGHT_NOW_LOCAL, c);
    local := pools.GetThreadPool(TYPE_RIGHT_NOW_LOCAL);
    rightNow := pools.GetThreadPool(TYPE_RIGHT_NOW);
  }
}
