/**
 * The per-thread routing context (DBContextHolder): a ThreadLocal slot that
 * holds at most one tenant key per thread. The ThreadLocal is modelled as a
 * map from an abstract thread id to the bound key; a thread without an entry
 * reads null.
 */
module DbContextHolder {
  import opened Wrappers
  import opened DbTypes

  type ThreadId = nat

  /** The bindings of all threads; a missing entry is an unset (or removed) slot. */
  type Slots = map<ThreadId, DbType>

  /** What `get` on the ThreadLocal returns for thread t. */
  function Current(slots: Slots, t: ThreadId): Option<DbType> {
    if t in slots then Some(slots[t]) else None
  }

  /** The two operations that change a thread's slot. */
  datatype ContextOp =
    | SetOp(thread: ThreadId, db: DbType)
    | ClearOp(thread: ThreadId)

  /** The effect of one operation on the bindings. */
  function Step(slots: Slots, op: ContextOp): (r: Slots)
    // the acting thread reads back the key it set, or null after clear
    ensures Current(r, op.thread) == if op.SetOp? then Some(op.db) else None
    // no other thread's binding changes
    ensures forall u :: u != op.thread ==> Current(r, u) == Current(slots, u)
  {
    match op
    case SetOp(t, k) => slots[t := k]
    case ClearOp(t) => slots - {t}
  }

  /** The effect of a sequence of operations, first to last. */
  function Run(slots: Slots, ops: seq<ContextOp>): Slots
    decreases |ops|
  {
    if ops == [] then slots else Run(Step(slots, ops[0]), ops[1..])
  }

  /** Clearing an already-cleared slot is a no-op, not an error. */
  lemma ClearIdempotent(slots: Slots, t: ThreadId)
    ensures Step(Step(slots, ClearOp(t)), ClearOp(t)) == Step(slots, ClearOp(t))
    ensures Current(Step(Step(slots, ClearOp(t)), ClearOp(t)), t) == None
  {
  }

  /** Running two sequences one after the other is running their concatenation. */
  lemma {:induction false} RunAppend(slots: Slots, xs: seq<ContextOp>, ys: seq<ContextOp>)
    ensures Run(slots, xs + ys) == Run(Run(slots, xs), ys)
    decreases |xs|
  {
    if xs == [] {
      assert xs + ys == ys;
    } else {
      assert (xs + ys)[1..] == xs[1..] + ys;
      RunAppend(Step(slots, xs[0]), xs[1..], ys);
    }
  }

  /**
   * Thread isolation: any sequence of set/clear operations performed by other
   * threads leaves thread u's binding exactly as it was.
   */
  lemma {:induction false} RunIsolation(slots: Slots, ops: seq<ContextOp>, u: ThreadId)
    requires forall i :: 0 <= i < |ops| ==> ops[i].thread != u
    ensures Current(Run(slots, ops), u) == Current(slots, u)
    decreases |ops|
  {
    if ops != [] {
      RunIsolation(Step(slots, ops[0]), ops[1..], u);
    }
  }

  /**
   * A thread that clears its slot reads null from then on, whatever it held
   * before and whatever other threads do afterwards.
   */
  lemma {:induction false} ClearedStaysCleared(slots: Slots, before: seq<ContextOp>, t: ThreadId, after: seq<ContextOp>)
    requires forall i :: 0 <= i < |after| ==> after[i].thread != t
    ensures Current(Run(slots, before + [ClearOp(t)] + after), t) == None
  {
    RunAppend(slots, before + [ClearOp(t)], after);
    RunAppend(slots, before, [ClearOp(t)]);
    var cleared := Run(slots, before + [ClearOp(t)]);
    assert cleared == Step(Run(slots, before), ClearOp(t));
    RunIsolation(cleared, after, t);
  }

  /**
   * The ThreadLocal slot of DBContextHolder, shared by every caller: each
   * method acts on the slot of the calling thread t only.
   */
  class ContextHolder {
    var slots: Slots

    /** A fresh ThreadLocal: every thread reads null. */
    constructor ()
      ensures forall t :: CurrentDb(t) == None
    {
      slots := map[];
    }

    function CurrentDb(t: ThreadId): Option<DbType>
      reads this
    {
      Current(slots, t)
    }

    /** setCurrentDb: binds k for thread t, overwriting any earlier key. */
    method SetCurrentDb(t: ThreadId, k: DbType)
      modifies this
      ensures slots == Step(old(slots), SetOp(t, k))
      ensures CurrentDb(t) == Some(k)
      ensures forall u :: u != t ==> CurrentDb(u) == old(CurrentDb(u))
    {
      slots := slots[t := k];
    }

    /** getCurrentDb: reads thread t's key (None for null) and changes nothing. */
    method GetCurrentDb(t: ThreadId) returns (k: Option<DbType>)
      ensures k.Some? <==> t in slots
      ensures k.Some? ==> k.value == slots[t]
    {
      k := if t in slots then Some(slots[t]) else None;
    }

    /** clear: removes thread t's binding; clearing an unset slot is allowed. */
    method Clear(t: ThreadId)
      modifies this
      ensures slots == Step(old(slots), ClearOp(t))
      ensures CurrentDb(t) == None
      ensures forall u :: u != t ==> CurrentDb(u) == old(CurrentDb(u))
    {
      slots := slots - {t};
    }
  }
}
