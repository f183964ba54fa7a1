/**
 * The execution-context registry and the thread-local slot allocator of the
 * signal-stack platform layer.
 *
 * Every logical thread is a `sigthread_t` record. The process keeps one
 * `main_thread_` record, a pointer `current_thread_` to the record of the
 * running logical thread, and two counters: the next thread id and the next
 * thread-local key. A `ThreadHandle` (and so every `Thread`) owns a record of
 * its own inside its platform data.
 *
 * Here the records are one table: entry 0 is `main_thread_`, entry h >= 1
 * is the record owned by handle h, and `current` is the index that
 * `current_thread_` points at. Debug assertions of the source are `requires`.
 */
module ThreadEmulation {

  /** The id of a record that belongs to no started thread. */
  const kNoThread: int := -1

  /** Slots in every record, and the number of keys the process may create. */
  const kMaxThreadLocals: nat := 16

  /** An untyped `void*` value; 0 is the null pointer. */
  type Ptr = nat

  const Null: Ptr := 0

  /** The two kinds of thread handle. */
  datatype HandleKind = Self | Invalid

  /**
   * The callback and argument a record holds: `st_cb` and `st_ctx` are either
   * both zero, or `ThreadEntry` with the started thread (the handle) as argument.
   */
  datatype Entry = NoEntry | ThreadEntry(thread: nat)

  /** A `sigthread_t`; the saved jump buffer is not modelled. */
  datatype SigThread = SigThread(id: int, stack: Ptr, entry: Entry, locals: seq<Ptr>)

  predicate WellFormed(st: SigThread) {
    |st.locals| == kMaxThreadLocals
  }

  /** `sigthread_empty`: a zeroed record whose id is `kNoThread`. */
  function Empty(): (st: SigThread)
    ensures WellFormed(st)
    ensures st.id == kNoThread && st.stack == Null && st.entry == NoEntry
    ensures forall k :: 0 <= k < |st.locals| ==> st.locals[k] == Null
  {
    SigThread(kNoThread, Null, NoEntry, seq(kMaxThreadLocals, _ => Null))
  }

  /** How `Thread::Start` ends: it either runs the thread or exits the process. */
  datatype StartOutcome = Started | Exited(status: int, failedCall: string)

  /** What an operation that the platform cannot support does. */
  datatype Unsupported = AssertionFailed(message: string)

  class Registry {
    /** records[0] is `main_thread_`; records[h], h >= 1, is the record of handle h. */
    var records: seq<SigThread>
    /** The index `current_thread_` points at. */
    var current: nat
    /** `next_current_thread_id_`. */
    var nextThreadId: int
    /** `next_local_`. */
    var nextLocal: int

    /** The thread ids `Start` has handed out, in order. */
    ghost var assignedIds: seq<int>
    /** The keys `CreateThreadLocalKey` has handed out, in order. */
    ghost var issuedKeys: seq<int>

    ghost predicate Valid()
      reads this
    {
      && 1 <= |records| && current < |records|
      && (forall h :: 0 <= h < |records| ==> WellFormed(records[h]))
      && records[0].id == kNoThread
      && (forall h :: 0 <= h < |records| ==> kNoThread <= records[h].id < nextThreadId)
      && nextThreadId == |assignedIds|
      && (forall i :: 0 <= i < |assignedIds| ==> assignedIds[i] == i)
      && 0 <= nextLocal <= kMaxThreadLocals
      && nextLocal == |issuedKeys|
      && (forall i :: 0 <= i < |issuedKeys| ==> issuedKeys[i] == i)
    }

    /** The process-wide state at start-up: only `main_thread_`, and it is current. */
    constructor ()
      ensures Valid()
      ensures records == [Empty()] && current == 0
      ensures nextThreadId == 0 && nextLocal == 0
      ensures assignedIds == [] && issuedKeys == []
    {
      var main := Empty();
      records := [main];
      current := 0;
      nextThreadId := main.id + 1;
      nextLocal := 0;
      assignedIds := [];
      issuedKeys := [];
    }

    /** `ThreadHandle::IsSelf`: the handle's id equals the current record's id. */
    function IsSelf(h: nat): (r: bool)
      reads this
      requires Valid() && h < |records|
      ensures h == current ==> r
      ensures records[h] == records[current] ==> r
    {
      records[h].id == records[current].id
    }

    /** `ThreadHandle::IsValid`: the handle's id is not `kNoThread`. */
    function IsValid(h: nat): (r: bool)
      reads this
      requires Valid() && h < |records|
      ensures r ==> 0 <= records[h].id < nextThreadId
      ensures h == 0 ==> !r
    {
      records[h].id != kNoThread
    }

    /**
     * `new ThreadHandle(kind)`: a new handle whose record a SELF handle copies
     * by value from the current record and an INVALID handle gets zeroed.
     */
    method NewHandle(kind: HandleKind) returns (h: nat)
      requires Valid()
      modifies this
      ensures Valid()
      ensures h == old(|records|) && 1 <= h
      ensures records == old(records) + [if kind == Self then old(records[current]) else Empty()]
      ensures current == old(current) && nextThreadId == old(nextThreadId) && nextLocal == old(nextLocal)
      ensures assignedIds == old(assignedIds) && issuedKeys == old(issuedKeys)
      ensures kind == Self ==> IsSelf(h) && (current == 0 ==> !IsValid(h))
      ensures kind == Invalid ==> !IsValid(h) && (current == 0 ==> IsSelf(h))
    {
      var st := if kind == Self then records[current] else Empty();
      h := |records|;
      records := records + [st];
    }

    /** `new Thread()`: a handle built as INVALID. */
    method NewThread() returns (h: nat)
      requires Valid()
      modifies this
      ensures Valid()
      ensures h == old(|records|) && 1 <= h
      ensures records == old(records) + [Empty()]
      ensures current == old(current) && nextThreadId == old(nextThreadId) && nextLocal == old(nextLocal)
      ensures assignedIds == old(assignedIds) && issuedKeys == old(issuedKeys)
      ensures !IsValid(h)
      ensures forall k :: 0 <= k < kMaxThreadLocals ==> records[h].locals[k] == Null
    {
      h := NewHandle(Invalid);
    }

    /** `ThreadHandle::Initialize(kind)` on an existing handle h. */
    method Initialize(h: nat, kind: HandleKind)
      requires Valid() && 1 <= h < |records|
      modifies this
      ensures Valid()
      ensures records == old(records)[h := if kind == Self then old(records[current]) else Empty()]
      ensures current == old(current) && nextThreadId == old(nextThreadId) && nextLocal == old(nextLocal)
      ensures assignedIds == old(assignedIds) && issuedKeys == old(issuedKeys)
      ensures kind == Self ==> IsSelf(h)
      ensures kind == Invalid ==> !IsValid(h)
    {
      var st := if kind == Self then records[current] else Empty();
      records := records[h := st];
    }

    /**
     * The registry part of `Thread::Start` for the thread of handle h, with the
     * results of `sigaction`, `malloc` and `sigaltstack` as inputs. A failed
     * installation exits the process; otherwise the thread's record becomes
     * current and receives the next id. The signal delivery and the jump into
     * the new stack that follow are not modelled.
     */
    method Start(h: nat, sigactionOk: bool, stack: Ptr, sigaltstackOk: bool) returns (outcome: StartOutcome)
      requires Valid() && 1 <= h < |records|
      modifies this
      ensures Valid()
      ensures outcome == if !sigactionOk then Exited(1, "sigaction")
                         else if !sigaltstackOk then Exited(1, "sigaltstack")
                         else Started
      ensures outcome.Exited? ==>
                records == old(records) && current == old(current) &&
                nextThreadId == old(nextThreadId) && assignedIds == old(assignedIds)
      ensures outcome.Started? ==>
                && current == h
                && records == old(records)[h := old(records[h]).(id := old(nextThreadId), stack := stack, entry := ThreadEntry(h))]
                && nextThreadId == old(nextThreadId) + 1
                && assignedIds == old(assignedIds) + [old(nextThreadId)]
      ensures outcome.Started? ==>
                IsSelf(h) && IsValid(h) && forall g :: 0 <= g < |records| && g != h ==> !IsSelf(g)
      ensures nextLocal == old(nextLocal) && issuedKeys == old(issuedKeys)
    {
      if !sigactionOk {
        return Exited(1, "sigaction");
      }
      if !sigaltstackOk {
        return Exited(1, "sigaltstack");
      }
      current := h;
      var st := records[h].(id := nextThreadId);
      assignedIds := assignedIds + [nextThreadId];
      nextThreadId := nextThreadId + 1;
      st := st.(stack := stack);
      st := st.(entry := ThreadEntry(h));
      records := records[h := st];
      outcome := Started;
    }

    /** `Thread::Join`: not supported; its debug assertion fails on every call. */
    method Join(h: nat) returns (r: Unsupported)
      ensures r == AssertionFailed("Thread::Join() not supported")
    {
      r := AssertionFailed("Thread::Join() not supported");
    }

    /** `Thread::CreateThreadLocalKey`: the next key from the counter, never one handed out before. */
    method CreateThreadLocalKey() returns (key: int)
      requires Valid() && nextLocal < kMaxThreadLocals
      modifies this
      ensures Valid()
      ensures key == old(nextLocal) && 0 <= key < kMaxThreadLocals
      ensures nextLocal == old(nextLocal) + 1
      ensures key !in old(issuedKeys) && issuedKeys == old(issuedKeys) + [key]
      ensures forall k :: k in old(issuedKeys) ==> k < key
      ensures records == old(records) && current == old(current)
      ensures nextThreadId == old(nextThreadId) && assignedIds == old(assignedIds)
    {
      key := nextLocal;
      issuedKeys := issuedKeys + [key];
      nextLocal := nextLocal + 1;
    }

    /** `Thread::DeleteThreadLocalKey`: ignored; the key is never handed out again. */
    method DeleteThreadLocalKey(key: int)
      requires Valid()
      ensures unchanged(this)
    {
    }

    /** `Thread::YieldCPU`: not supported; ignored. */
    method YieldCPU()
      requires Valid()
      ensures unchanged(this)
    {
    }

    /** `Thread::GetThreadLocal`: slot `key` of the current record. */
    method GetThreadLocal(key: int) returns (value: Ptr)
      requires Valid() && 0 <= key < kMaxThreadLocals
      ensures value == records[current].locals[key]
    {
      value := records[current].locals[key];
    }

    /** `Thread::SetThreadLocal`: writes slot `key` of the current record and nothing else. */
    method SetThreadLocal(key: int, value: Ptr)
      requires Valid() && 0 <= key < kMaxThreadLocals
      modifies this
      ensures Valid()
      ensures records == old(records[current := records[current].(locals := records[current].locals[key := value])])
      ensures forall h, k :: 0 <= h < |records| && 0 <= k < kMaxThreadLocals && (h, k) != (current, key) ==>
                records[h].locals[k] == old(records[h].locals[k])
      ensures current == old(current) && nextThreadId == old(nextThreadId) && nextLocal == old(nextLocal)
      ensures assignedIds == old(assignedIds) && issuedKeys == old(issuedKeys)
    {
      var st := records[current];
      st := st.(locals := st.locals[key := value]);
      records := records[current := st];
    }
  }

  /** A value stored under a key is read back by the same context. */
  method SlotRoundTrip(reg: Registry, key: int, value: Ptr) returns (got: Ptr)
    requires reg.Valid() && 0 <= key < kMaxThreadLocals
    modifies reg
    ensures reg.Valid() && got == value
  {
    reg.SetThreadLocal(key, value);
    got := reg.GetThreadLocal(key);
  }

  /**
   * Slots are per context: after a value is stored, a newly started thread
   * reads null under the same key, and only that thread is `IsSelf`.
   */
  method SlotsArePerContext(reg: Registry, key: int, value: Ptr, stack: Ptr) returns (thread: nat, got: Ptr)
    requires reg.Valid() && 0 <= key < kMaxThreadLocals
    modifies reg
    ensures reg.Valid() && thread < |reg.records|
    ensures reg.current == thread && reg.IsSelf(thread) && reg.IsValid(thread)
    ensures got == Null
  {
    reg.SetThreadLocal(key, value);
    thread := reg.NewThread();
    var outcome := reg.Start(thread, true, stack, true);
    got := reg.GetThreadLocal(key);
  }

  /**
   * In a fresh process the first two started threads get ids 0 and 1, while
   * `main_thread_` keeps `kNoThread`, and the first three keys are 0, 1, 2.
   */
  method FreshProcessNumbering(stack: Ptr) returns (mainId: int, firstId: int, secondId: int, keys: seq<int>)
    ensures mainId == kNoThread && firstId == 0 && secondId == 1
    ensures keys == [0, 1, 2]
  {
    var reg := new Registry();
    var k0 := reg.CreateThreadLocalKey();
    var k1 := reg.CreateThreadLocalKey();
    var k2 := reg.CreateThreadLocalKey();
    keys := [k0, k1, k2];
    var a := reg.NewThread();
    var b := reg.NewThread();
    var outA := reg.Start(a, true, stack, true);
    var outB := reg.Start(b, true, stack, true);
    mainId, firstId, secondId := reg.records[0].id, reg.records[a].id, reg.records[b].id;
  }

  /**
   * Because `main_thread_` has id `kNoThread`, on the main context an INVALID
   * handle is `IsSelf`, and a SELF handle is not `IsValid`.
   */
  method MainContextQuirk() returns (invalidIsSelf: bool, selfIsValid: bool)
    ensures invalidIsSelf && !selfIsValid
  {
    var reg := new Registry();
    var inv := reg.NewHandle(Invalid);
    var self := reg.NewHandle(Self);
    invalidIsSelf := reg.IsSelf(inv);
    selfIsValid := reg.IsValid(self);
  }
}
