/** AMainThreadExecutor: runnables posted to the main thread's handler, optionally under a tag so
    that they can be cancelled together. The handler's message queue is kept as Android's
    MessageQueue keeps it: ordered by due time, first-in first-out among equal times. */
module MainThread {
  import opened Common
  import opened SeqOps
  import TagLists

  const DELAY_MILL_NOT_POSITIVE := "delayMill <= 0"

  /** One posted runnable and the uptime (in milliseconds) at which it becomes due. */
  datatype Pending = Pending(runnable: Runnable, due: int)

  /** The queue's order: due times never decrease from the head. */
  predicate Ordered(q: seq<Pending>)
  {
    forall i, j :: 0 <= i < j < |q| ==> q[i].due <= q[j].due
  }

  /** No entry of `q` is due before `d`. */
  predicate DueFrom(q: seq<Pending>, d: int)
  {
    forall i :: 0 <= i < |q| ==> q[i].due >= d
  }

  /** The order of a queue with a head: the tail is ordered and due no earlier than the head. */
  lemma OrderedCons(x: Pending, s: seq<Pending>)
    ensures Ordered([x] + s) <==> Ordered(s) && DueFrom(s, x.due)
  {
    var r := [x] + s;
    if Ordered(r) {
      forall i, j | 0 <= i < j < |s|
        ensures s[i].due <= s[j].due
      {
        assert r[i + 1] == s[i] && r[j + 1] == s[j];
      }
      forall i | 0 <= i < |s|
        ensures s[i].due >= x.due
      {
        assert r[0] == x && r[i + 1] == s[i];
      }
    }
    if Ordered(s) && DueFrom(s, x.due) {
      forall i, j | 0 <= i < j < |r|
        ensures r[i].due <= r[j].due
      {
        assert r[j] == s[j - 1];
        if i > 0 {
          assert r[i] == s[i - 1];
        }
      }
    }
  }

  lemma DueFromCons(x: Pending, s: seq<Pending>, d: int)
    ensures DueFrom([x] + s, d) <==> x.due >= d && DueFrom(s, d)
  {
    var r := [x] + s;
    assert r[0] == x;
    assert forall i :: 0 <= i < |s| ==> r[i + 1] == s[i];
    if x.due >= d && DueFrom(s, d) {
      forall i | 0 <= i < |r|
        ensures r[i].due >= d
      {
        if i > 0 {
          assert r[i] == s[i - 1];
        }
      }
    }
  }

  /** Where a message due at `d` goes: after every leading entry due no later than `d`. */
  function InsertionPoint(q: seq<Pending>, d: int): (k: nat)
    ensures k <= |q|
    ensures forall i :: 0 <= i < k ==> q[i].due <= d
    ensures k < |q| ==> q[k].due > d
  {
    if q == [] || q[0].due > d then 0 else 1 + InsertionPoint(q[1..], d)
  }

  /** `MessageQueue.enqueueMessage`: the new entry goes before the first one due strictly later. */
  function Enqueue(q: seq<Pending>, p: Pending): (r: seq<Pending>)
    ensures |r| == |q| + 1
  {
    if q == [] || p.due < q[0].due then [p] + q
    else [q[0]] + Enqueue(q[1..], p)
  }

  /** The new entry lands at its insertion point, every other entry keeps its place relative to
      the others: first-in first-out among entries due at the same time. */
  lemma {:induction false} EnqueueSplices(q: seq<Pending>, p: Pending)
    ensures Enqueue(q, p) == q[..InsertionPoint(q, p.due)] + [p] + q[InsertionPoint(q, p.due)..]
  {
    if !(q == [] || p.due < q[0].due) {
      EnqueueSplices(q[1..], p);
      var k := InsertionPoint(q[1..], p.due);
      assert q[1..][..k] == q[1..k + 1] && q[1..][k..] == q[k + 1..];
      assert [q[0]] + q[1..k + 1] == q[..k + 1];
    }
  }

  /** Enqueueing adds exactly the new entry. */
  lemma EnqueueMultiset(q: seq<Pending>, p: Pending)
    ensures multiset(Enqueue(q, p)) == multiset(q) + multiset{p}
  {
    EnqueueSplices(q, p);
    var k := InsertionPoint(q, p.due);
    assert q == q[..k] + q[k..];
  }

  /** A lower bound on due times that the queue and the new entry meet holds afterwards. */
  lemma {:induction false} EnqueueDueFrom(q: seq<Pending>, p: Pending, d: int)
    requires DueFrom(q, d) && p.due >= d
    ensures DueFrom(Enqueue(q, p), d)
  {
    if q == [] || p.due < q[0].due {
      DueFromCons(p, q, d);
    } else {
      assert q == [q[0]] + q[1..];
      DueFromCons(q[0], q[1..], d);
      EnqueueDueFrom(q[1..], p, d);
      DueFromCons(q[0], Enqueue(q[1..], p), d);
    }
  }

  /** Enqueueing keeps the queue ordered by due time. */
  lemma {:induction false} EnqueueKeepsOrder(q: seq<Pending>, p: Pending)
    requires Ordered(q)
    ensures Ordered(Enqueue(q, p))
  {
    if q == [] || p.due < q[0].due {
      OrderedCons(p, q);
    } else {
      assert q == [q[0]] + q[1..];
      OrderedCons(q[0], q[1..]);
      EnqueueKeepsOrder(q[1..], p);
      EnqueueDueFrom(q[1..], p, q[0].due);
      OrderedCons(q[0], Enqueue(q[1..], p));
    }
  }

  /** `Handler.removeCallbacks` for every runnable in `rs`: every pending instance of them is
      dropped, and the other entries stay in their order. */
  function Purge(q: seq<Pending>, rs: set<Runnable>): (r: seq<Pending>)
    ensures |r| <= |q|
    ensures forall i :: 0 <= i < |r| ==> r[i].runnable !in rs
  {
    if q == [] then []
    else (if q[0].runnable in rs then [] else [q[0]]) + Purge(q[1..], rs)
  }

  /** The entries of runnables outside `rs` all survive a purge, as many times as before. */
  lemma {:induction false} PurgeKeepsOthers(q: seq<Pending>, rs: set<Runnable>, p: Pending)
    ensures multiset(Purge(q, rs))[p] == if p.runnable in rs then 0 else multiset(q)[p]
  {
    if q != [] {
      assert q == [q[0]] + q[1..];
      PurgeKeepsOthers(q[1..], rs, p);
    }
  }

  lemma {:induction false} PurgeDueFrom(q: seq<Pending>, rs: set<Runnable>, d: int)
    requires DueFrom(q, d)
    ensures DueFrom(Purge(q, rs), d)
  {
    if q != [] {
      PurgeDueFrom(q[1..], rs, d);
      var head := if q[0].runnable in rs then [] else [q[0]];
      var tail := Purge(q[1..], rs);
      assert forall i :: 0 <= i < |tail| ==> (head + tail)[i + |head|] == tail[i];
    }
  }

  /** A purge keeps the queue ordered. */
  lemma {:induction false} PurgeKeepsOrder(q: seq<Pending>, rs: set<Runnable>)
    requires Ordered(q)
    ensures Ordered(Purge(q, rs))
  {
    if q != [] {
      assert q == [q[0]] + q[1..];
      OrderedCons(q[0], q[1..]);
      PurgeKeepsOrder(q[1..], rs);
      if q[0].runnable !in rs {
        PurgeDueFrom(q[1..], rs, q[0].due);
        OrderedCons(q[0], Purge(q[1..], rs));
      }
    }
  }

  /** Purging nothing changes nothing. */
  lemma {:induction false} PurgeNothing(q: seq<Pending>)
    ensures Purge(q, {}) == q
  {
    if q != [] {
      PurgeNothing(q[1..]);
      assert q == [q[0]] + q[1..];
    }
  }

  /** Purging `xs`, then `ys`, is purging both at once. */
  lemma {:induction false} PurgeTwice(q: seq<Pending>, xs: set<Runnable>, ys: set<Runnable>)
    ensures Purge(Purge(q, xs), ys) == Purge(q, xs + ys)
  {
    if q != [] {
      PurgeTwice(q[1..], xs, ys);
      var head := if q[0].runnable in xs then [] else [q[0]];
      PurgeOfConcat(head, Purge(q[1..], xs), ys);
    }
  }

  lemma {:induction false} PurgeOfConcat(a: seq<Pending>, b: seq<Pending>, rs: set<Runnable>)
    ensures Purge(a + b, rs) == Purge(a, rs) + Purge(b, rs)
  {
    if a == [] {
      assert a + b == b;
    } else {
      assert (a + b)[0] == a[0];
      assert (a + b)[1..] == a[1..] + b;
      PurgeOfConcat(a[1..], b, rs);
    }
  }

  /** The elements of a list, as a set. */
  function Members(s: seq<Runnable>): set<Runnable>
  {
    set r | r in s
  }

  class MainThreadExecutor {
    /** `runnablesMap`: the runnables posted under each tag and not cancelled. */
    var runnablesMap: map<Tag, seq<Runnable>>
    /** The main handler's pending runnables. */
    var queue: seq<Pending>
    /** The current uptime in milliseconds. */
    var now: nat

    ghost predicate Valid()
      reads this
    {
      TagLists.NoEmptyEntries(runnablesMap) && Ordered(queue) && DueFrom(queue, 0)
    }

    constructor ()
      ensures Valid() && runnablesMap == map[] && queue == [] && now == 0
    {
      runnablesMap := map[];
      queue := [];
      now := 0;
    }

    /** `post(runnable)`: queued to run now, and not tracked under any tag. */
    method Post(runnable: Option<Runnable>) returns (st: Status)
      requires Valid()
      modifies this
      ensures Valid()
      ensures st == if runnable.None? then IllegalArgument(RUNNABLE_IS_NULL) else Ok
      ensures st.IllegalArgument? ==> queue == old(queue)
      ensures st.Ok? ==> queue == Enqueue(old(queue), Pending(runnable.value, now))
      ensures runnablesMap == old(runnablesMap) && now == old(now)
    {
      if runnable.None? {
        return IllegalArgument(RUNNABLE_IS_NULL);
      }
      EnqueueKeepsOrder(queue, Pending(runnable.value, now));
      EnqueueDueFrom(queue, Pending(runnable.value, now), 0);
      queue := Enqueue(queue, Pending(runnable.value, now));
      st := Ok;
    }

    /** `post(tag, runnable)`: tracked once more under the tag and queued to run now. */
    method PostTagged(tag: Option<Tag>, runnable: Option<Runnable>) returns (st: Status)
      requires Valid()
      modifies this
      ensures Valid()
      ensures st == if tag.None? then IllegalArgument(TAG_IS_NULL)
                    else if runnable.None? then IllegalArgument(RUNNABLE_IS_NULL)
                    else Ok
      ensures st.IllegalArgument? ==> queue == old(queue) && runnablesMap == old(runnablesMap)
      ensures st.Ok? ==>
        && runnablesMap == TagLists.Append(old(runnablesMap), tag.value, runnable.value)
        && queue == Enqueue(old(queue), Pending(runnable.value, now))
      ensures now == old(now)
    {
      if tag.None? {
        return IllegalArgument(TAG_IS_NULL);
      }
      if runnable.None? {
        return IllegalArgument(RUNNABLE_IS_NULL);
      }
      runnablesMap := TagLists.Append(runnablesMap, tag.value, runnable.value);
      EnqueueKeepsOrder(queue, Pending(runnable.value, now));
      EnqueueDueFrom(queue, Pending(runnable.value, now), 0);
      queue := Enqueue(queue, Pending(runnable.value, now));
      st := Ok;
    }

    /** `postAtFrontOfQueue`: tracked once more under the tag and put at the head of the queue. */
    method PostAtFrontOfQueue(tag: Option<Tag>, runnable: Option<Runnable>) returns (st: Status)
      requires Valid()
      modifies this
      ensures Valid()
      ensures st == if tag.None? then IllegalArgument(TAG_IS_NULL)
                    else if runnable.None? then IllegalArgument(RUNNABLE_IS_NULL)
                    else Ok
      ensures st.IllegalArgument? ==> queue == old(queue) && runnablesMap == old(runnablesMap)
      ensures st.Ok? ==>
        && runnablesMap == TagLists.Append(old(runnablesMap), tag.value, runnable.value)
        && queue == [Pending(runnable.value, 0)] + old(queue)
      ensures now == old(now)
    {
      if tag.None? {
        return IllegalArgument(TAG_IS_NULL);
      }
      if runnable.None? {
        return IllegalArgument(RUNNABLE_IS_NULL);
      }
      runnablesMap := TagLists.Append(runnablesMap, tag.value, runnable.value);
      OrderedCons(Pending(runnable.value, 0), queue);
      queue := [Pending(runnable.value, 0)] + queue;
      st := Ok;
    }

    /** `postDelayed`: tracked under the tag unless it already is, and queued to become due
        `delayMill` milliseconds from now; a delay that is not positive is rejected. */
    method PostDelayed(tag: Option<Tag>, runnable: Option<Runnable>, delayMill: int) returns (st: Status)
      requires Valid()
      modifies this
      ensures Valid()
      ensures st == if tag.None? then IllegalArgument(TAG_IS_NULL)
                    else if runnable.None? then IllegalArgument(RUNNABLE_IS_NULL)
                    else if delayMill <= 0 then IllegalArgument(DELAY_MILL_NOT_POSITIVE)
                    else Ok
      ensures st.IllegalArgument? ==> queue == old(queue) && runnablesMap == old(runnablesMap)
      ensures st.Ok? ==>
        && runnablesMap == TagLists.AppendIfAbsent(old(runnablesMap), tag.value, runnable.value)
        && queue == Enqueue(old(queue), Pending(runnable.value, now + delayMill))
      ensures now == old(now)
    {
      if tag.None? {
        return IllegalArgument(TAG_IS_NULL);
      }
      if runnable.None? {
        return IllegalArgument(RUNNABLE_IS_NULL);
      }
      if delayMill <= 0 {
        return IllegalArgument(DELAY_MILL_NOT_POSITIVE);
      }
      runnablesMap := TagLists.AppendIfAbsent(runnablesMap, tag.value, runnable.value);
      EnqueueKeepsOrder(queue, Pending(runnable.value, now + delayMill));
      EnqueueDueFrom(queue, Pending(runnable.value, now + delayMill), 0);
      queue := Enqueue(queue, Pending(runnable.value, now + delayMill));
      st := Ok;
    }

    /** `Handler.removeCallbacks(runnable)`: every pending instance of it leaves the queue. */
    method RemoveCallbacks(r: Runnable)
      requires Valid()
      modifies this
      ensures Valid()
      ensures queue == Purge(old(queue), {r})
      ensures runnablesMap == old(runnablesMap) && now == old(now)
    {
      PurgeKeepsOrder(queue, {r});
      PurgeDueFrom(queue, {r}, 0);
      queue := Purge(queue, {r});
    }

    /** `cancelSpecificRunnable`: a runnable tracked under the tag loses every pending instance
        and one tracking entry; the tag is dropped once its list is empty. An untracked runnable
        changes nothing. */
    method CancelSpecificRunnable(tag: Option<Tag>, runnable: Option<Runnable>) returns (st: Status)
      requires Valid()
      modifies this
      ensures Valid()
      ensures st == if tag.None? then IllegalArgument(TAG_IS_NULL)
                    else if runnable.None? then IllegalArgument(RUNNABLE_IS_NULL)
                    else Ok
      ensures st.IllegalArgument? ==> queue == old(queue) && runnablesMap == old(runnablesMap)
      ensures st.Ok? ==>
        var t, r := tag.value, runnable.value;
        if r in TagLists.ListOf(old(runnablesMap), t)
        then queue == Purge(old(queue), {r}) && runnablesMap == TagLists.RemoveOne(old(runnablesMap), t, r)
        else queue == old(queue) && runnablesMap == old(runnablesMap)
      ensures now == old(now)
    {
      if tag.None? {
        return IllegalArgument(TAG_IS_NULL);
      }
      if runnable.None? {
        return IllegalArgument(RUNNABLE_IS_NULL);
      }
      st := Ok;
      var t, r := tag.value, runnable.value;
      if t !in runnablesMap {
        return;
      }
      if r in runnablesMap[t] {
        RemoveCallbacks(r);
        runnablesMap := TagLists.RemoveOne(runnablesMap, t, r);
      }
    }

    /** `cancelAllRunnables`: every pending instance of every runnable tracked under the tag
        leaves the queue, and the tag is dropped. */
    method CancelAllRunnables(tag: Option<Tag>) returns (st: Status)
      requires Valid()
      modifies this
      ensures Valid()
      ensures st == if tag.None? then IllegalArgument(TAG_IS_NULL) else Ok
      ensures st.IllegalArgument? ==> queue == old(queue) && runnablesMap == old(runnablesMap)
      ensures st.Ok? ==>
        && queue == Purge(old(queue), Members(TagLists.ListOf(old(runnablesMap), tag.value)))
        && runnablesMap == old(runnablesMap) - {tag.value}
      ensures now == old(now)
    {
      if tag.None? {
        return IllegalArgument(TAG_IS_NULL);
      }
      st := Ok;
      var runnables := TagLists.ListOf(runnablesMap, tag.value);
      var i := 0;
      PurgeNothing(queue);
      assert Members(runnables[..0]) == {};
      while i < |runnables|
        invariant 0 <= i <= |runnables|
        invariant Valid()
        invariant queue == Purge(old(queue), Members(runnables[..i]))
        invariant runnablesMap == old(runnablesMap) && now == old(now)
      {
        assert Members(runnables[..i + 1]) == Members(runnables[..i]) + {runnables[i]} by {
          assert runnables[..i + 1] == runnables[..i] + [runnables[i]];
        }
        PurgeTwice(old(queue), Members(runnables[..i]), {runnables[i]});
        RemoveCallbacks(runnables[i]);
        i := i + 1;
      }
      assert runnables[..i] == runnables;
      runnablesMap := runnablesMap - {tag.value};
    }

    /** One turn of the main looper: the head of the queue runs if it is due. A runnable that
        runs stays tracked under its tag until it is cancelled. */
    method RunNext() returns (ran: Option<Runnable>)
      requires Valid()
      modifies this
      ensures Valid()
      ensures (old(queue) != [] && old(queue)[0].due <= now) ==>
                ran == Some(old(queue)[0].runnable) && queue == old(queue)[1..]
      ensures !(old(queue) != [] && old(queue)[0].due <= now) ==> ran == None && queue == old(queue)
      ensures runnablesMap == old(runnablesMap) && now == old(now)
    {
      if queue != [] && queue[0].due <= now {
        ran := Some(queue[0].runnable);
        queue := queue[1..];
      } else {
        ran := None;
      }
    }

    /** Time passes on the main thread's clock. */
    method Advance(ms: nat)
      modifies this
      ensures now == old(now) + ms
      ensures queue == old(queue) && runnablesMap == old(runnablesMap)
    {
      now := now + ms;
    }
  }
}
