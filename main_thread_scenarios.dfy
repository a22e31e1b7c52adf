/** Sequences of AMainThreadExecutor calls on a fresh executor, with what the main looper then
    runs. */
module MainThreadScenarios {
  import opened Common
  import opened MainThread

  /** A runnable posted at the front runs before one posted earlier; a delayed runnable runs only
      once its delay has elapsed. */
  method FrontFirstDelayedLast(a: Runnable, b: Runnable, c: Runnable) returns (first: Option<Runnable>, second: Option<Runnable>, early: Option<Runnable>, late: Option<Runnable>)
    ensures first == Some(c) && second == Some(a)
    ensures early == None && late == Some(b)
  {
    var e := new MainThreadExecutor();
    var tag := Tag(1);
    var st := e.Post(Some(a));
    st := e.PostDelayed(Some(tag), Some(b), 100);
    st := e.PostAtFrontOfQueue(Some(tag), Some(c));
    assert e.queue == [Pending(c, 0), Pending(a, 0), Pending(b, 100)];
    first := e.RunNext();
    second := e.RunNext();
    e.Advance(99);
    early := e.RunNext();
    e.Advance(1);
    late := e.RunNext();
  }

  /** Cancelling a tag removes its runnables from the queue and leaves the others queued. */
  method CancelAllKeepsOthers(a: Runnable, b: Runnable) returns (e: MainThreadExecutor)
    requires a != b
    ensures e.queue == [Pending(b, 0)]
    ensures e.runnablesMap == map[]
  {
    e := new MainThreadExecutor();
    var tag := Tag(1);
    var st := e.PostTagged(Some(tag), Some(a));
    st := e.Post(Some(b));
    st := e.PostTagged(Some(tag), Some(a));
    assert e.runnablesMap[tag] == [a, a];
    assert e.queue == [Pending(a, 0), Pending(b, 0), Pending(a, 0)];
    assert Members([a, a]) == {a};
    st := e.CancelAllRunnables(Some(tag));
    assert Purge([Pending(a, 0)], {a}) == [];
    assert Purge([Pending(b, 0), Pending(a, 0)], {a}) == [Pending(b, 0)];
  }

  /** `removeCallbacks` is not scoped by tag: cancelling a tagged runnable also removes a later
      untagged post of the same runnable. */
  method CancelAlsoDropsUntaggedPost(a: Runnable) returns (e: MainThreadExecutor)
    ensures e.queue == [] && e.runnablesMap == map[]
  {
    e := new MainThreadExecutor();
    var tag := Tag(1);
    var st := e.PostTagged(Some(tag), Some(a));
    st := e.Post(Some(a));
    st := e.CancelSpecificRunnable(Some(tag), Some(a));
  }

  /** A runnable that has run stays tracked under its tag until it is cancelled. */
  method RunRunnableStaysTracked(a: Runnable) returns (e: MainThreadExecutor, ran: Option<Runnable>)
    ensures ran == Some(a) && e.queue == []
    ensures e.runnablesMap == map[Tag(1) := [a]]
  {
    e := new MainThreadExecutor();
    var st := e.PostTagged(Some(Tag(1)), Some(a));
    assert e.runnablesMap.Keys == {Tag(1)} && e.runnablesMap[Tag(1)] == [a];
    ran := e.RunNext();
  }

  /** Delayed posts of one runnable under one tag track it once, though each is queued. */
  method DelayedTrackedOnce(a: Runnable) returns (e: MainThreadExecutor)
    ensures e.runnablesMap == map[Tag(1) := [a]]
    ensures e.queue == [Pending(a, 10), Pending(a, 10)]
  {
    e := new MainThreadExecutor();
    var st := e.PostDelayed(Some(Tag(1)), Some(a), 10);
    assert e.runnablesMap.Keys == {Tag(1)} && e.runnablesMap[Tag(1)] == [a];
    st := e.PostDelayed(Some(Tag(1)), Some(a), 10);
    assert e.runnablesMap.Keys == {Tag(1)} && e.runnablesMap[Tag(1)] == [a];
  }
}
