/**
 * The generic component pool: a FIFO queue of inactive instances, preloaded
 * on construction, rented from the front and returned at the back.
 *
 * An instance whose game object has been destroyed compares equal to null in
 * the engine, so every `!= null` test of the source is a liveness test here:
 * the queue may hold destroyed instances, and renting skips them.
 */
module Pool {
  import opened Wrappers

  /** The asset the pool clones. */
  class Prefab {
    constructor() {}
  }

  /** A pooled component: whether its game object still exists, and whether it is active. */
  class Instance {
    var alive: bool
    var active: bool

    /** Object.Instantiate followed by SetActive(false): a live, inactive clone. */
    constructor Clone()
      ensures alive && !active
    {
      alive := true;
      active := false;
    }

    /** Object.Destroy on the instance's game object. */
    method Destroy()
      modifies this
      ensures !alive && active == old(active)
    {
      alive := false;
    }
  }

  /** The position of the first live instance of `q`, or |q| when every one is destroyed. */
  function FirstLive(q: seq<Instance>): (k: nat)
    reads q
    ensures k <= |q|
    ensures forall j :: 0 <= j < k ==> !q[j].alive
    ensures k < |q| ==> q[k].alive
    decreases |q|
  {
    if q == [] then 0
    else if q[0].alive then 0
    else 1 + FirstLive(q[1..])
  }

  /** Some instance of `q` is live. */
  predicate HasLive(q: seq<Instance>)
    reads q
  {
    exists j :: 0 <= j < |q| && q[j].alive
  }

  /** The first live position exists exactly when some instance is live. */
  lemma FirstLiveFound(q: seq<Instance>)
    ensures FirstLive(q) < |q| <==> HasLive(q)
  {
    if HasLive(q) {
      var j :| 0 <= j < |q| && q[j].alive;
      assert FirstLive(q) <= j;
    }
  }

  /**
   * Returning an instance at the back does not change which instance is
   * rented next while a live one is already queued: the queue is FIFO.
   */
  lemma {:induction false} EnqueueKeepsFront(q: seq<Instance>, x: Instance)
    requires HasLive(q)
    ensures FirstLive(q + [x]) == FirstLive(q)
    decreases |q|
  {
    if !q[0].alive {
      var j :| 0 <= j < |q| && q[j].alive;
      assert j > 0;
      assert q[1..][j - 1] == q[j];
      assert (q + [x])[1..] == q[1..] + [x];
      EnqueueKeepsFront(q[1..], x);
    }
  }

  /** Into an empty queue, or behind destroyed instances only, a live return is the next rent. */
  lemma {:induction false} EnqueueBehindDead(q: seq<Instance>, x: Instance)
    requires !HasLive(q) && x.alive
    ensures FirstLive(q + [x]) == |q|
    decreases |q|
  {
    if q != [] {
      assert !q[0].alive;
      assert (q + [x])[1..] == q[1..] + [x];
      assert !HasLive(q[1..]) by {
        forall j | 0 <= j < |q[1..]| ensures !q[1..][j].alive {
          assert q[1..][j] == q[j + 1];
        }
      }
      EnqueueBehindDead(q[1..], x);
    }
  }

  class ObjectPool {
    const prefab: Prefab
    var queue: seq<Instance>
    ghost var created: nat        // instances cloned so far
    ghost var returnCallbacks: nat  // OnReturn invocations

    /** The constructor's body, once the prefab is known to be non-null: clone `preload` inactive instances. */
    constructor Preloaded(prefab: Prefab, preload: int)
      ensures this.prefab == prefab
      ensures |queue| == if preload < 0 then 0 else preload
      ensures forall j :: 0 <= j < |queue| ==> fresh(queue[j]) && queue[j].alive && !queue[j].active
      ensures forall i, j :: 0 <= i < j < |queue| ==> queue[i] != queue[j]
      ensures created == |queue| && returnCallbacks == 0
    {
      this.prefab := prefab;
      queue := [];
      created := 0;
      returnCallbacks := 0;
      new;
      var i := 0;
      while i < preload
        invariant 0 <= i && (preload >= 0 ==> i <= preload) && (preload < 0 ==> i == 0)
        invariant |queue| == i && created == i && returnCallbacks == 0
        invariant forall j :: 0 <= j < |queue| ==> fresh(queue[j]) && queue[j].alive && !queue[j].active
        invariant forall a, b :: 0 <= a < b < |queue| ==> queue[a] != queue[b]
      {
        var inst := CreateInstance();
        queue := queue + [inst];
        i := i + 1;
      }
    }

    /** CreateInstance: a fresh, live, inactive clone of the prefab. */
    method CreateInstance() returns (inst: Instance)
      modifies this`created
      ensures fresh(inst) && inst.alive && !inst.active
      ensures created == old(created) + 1
    {
      inst := new Instance.Clone();
      created := created + 1;
    }

    /**
     * Rent: dequeue up to and including the first live instance and hand it
     * out; with no live instance the queue ends empty and a fresh clone is
     * handed out. Either way the instance is live and active.
     */
    method Rent() returns (inst: Instance)
      modifies this, queue
      ensures inst.alive && inst.active
      ensures old(FirstLive(queue)) < |old(queue)| ==>
        && inst == old(queue)[old(FirstLive(queue))]
        && queue == old(queue)[old(FirstLive(queue)) + 1..]
        && created == old(created)
      ensures old(FirstLive(queue)) == |old(queue)| ==>
        fresh(inst) && queue == [] && created == old(created) + 1
      ensures forall x :: x in old(queue) && x != inst ==> x.active == old(x.active)
      ensures forall x: Instance :: x in old(queue) ==> x.alive == old(x.alive)
      ensures returnCallbacks == old(returnCallbacks)
    {
      ghost var q := queue;
      ghost var n := 0;
      var found: Instance? := null;
      while |queue| > 0
        invariant 0 <= n <= |q| && queue == q[n..]
        invariant forall j :: 0 <= j < n ==> !q[j].alive
        invariant found == null
        modifies this`queue
      {
        var candidate := queue[0];
        queue := queue[1..];
        n := n + 1;
        if candidate.alive {
          found := candidate;
          break;
        }
      }
      assert FirstLive(q) == old(FirstLive(queue));
      if found == null {
        assert n == |q| && FirstLive(q) == |q|;
        found := CreateInstance();
      } else {
        assert found == q[n - 1];
        FirstLiveIsUnique(q, n - 1);
      }
      found.active := true;
      inst := found;
    }

    /** Return: a null or destroyed instance is ignored; otherwise call back, deactivate it and enqueue it. */
    method Return(instance: Instance?)
      modifies this`queue, this`returnCallbacks, instance
      ensures instance == null || !instance.alive ==>
        queue == old(queue) && returnCallbacks == old(returnCallbacks)
      ensures instance != null && old(instance.alive) ==>
        && queue == old(queue) + [instance]
        && !instance.active
        && returnCallbacks == old(returnCallbacks) + 1
      ensures instance != null ==> instance.alive == old(instance.alive)
    {
      if instance == null || !instance.alive {
        return;
      }
      returnCallbacks := returnCallbacks + 1;
      instance.active := false;
      queue := queue + [instance];
    }

    /** Clear: empty the queue, destroying every live instance in it. */
    method Clear()
      modifies this`queue, queue
      ensures queue == []
      ensures forall x :: x in old(queue) ==> !x.alive && x.active == old(x.active)
    {
      ghost var q := queue;
      ghost var n := 0;
      while |queue| > 0
        invariant 0 <= n <= |q| && queue == q[n..]
        invariant forall j :: 0 <= j < n ==> !q[j].alive
        invariant forall x :: x in q ==> x.active == old(x.active)
      {
        var i := queue[0];
        queue := queue[1..];
        n := n + 1;
        if i.alive {
          i.Destroy();
        }
      }
    }
  }

  /** A live position with only destroyed instances before it is the first live position. */
  lemma {:induction false} FirstLiveIsUnique(q: seq<Instance>, k: nat)
    requires k < |q| && q[k].alive
    requires forall j :: 0 <= j < k ==> !q[j].alive
    ensures FirstLive(q) == k
    decreases k
  {
    if k > 0 {
      assert !q[0].alive;
      forall j | 0 <= j < k - 1 ensures !q[1..][j].alive {
        assert q[1..][j] == q[j + 1];
      }
      FirstLiveIsUnique(q[1..], k - 1);
    }
  }

  /** The pool's constructor: a null prefab is an argument error, otherwise a preloaded pool. */
  method NewPool(prefab: Prefab?, preload: int) returns (r: Option<ObjectPool>)
    ensures prefab == null <==> r.None?
    ensures r.Some? ==>
      && fresh(r.value) && r.value.prefab == prefab
      && |r.value.queue| == (if preload < 0 then 0 else preload)
      && (forall j :: 0 <= j < |r.value.queue| ==> fresh(r.value.queue[j]) && r.value.queue[j].alive && !r.value.queue[j].active)
  {
    if prefab == null {
      return None;
    }
    var pool := new ObjectPool.Preloaded(prefab, preload);
    return Some(pool);
  }
}
