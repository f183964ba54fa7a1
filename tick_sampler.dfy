/**
 * The statistical sampler of the platform layer. A worker thread loops while
 * the sampler is active: each iteration stamps a `TickSample` with the VM
 * state, and when profiling suspends the profiled thread, reads its
 * registers, resumes it, and finally hands the sample to `Tick`.
 *
 * The calls `thread_suspend`, `thread_get_state`, `thread_resume`,
 * `SampleStack`, `Tick` and `OS::Sleep` are events of the loop's trace, and
 * `mach_thread_self`, `pthread_create`, `pthread_join` and
 * `mach_port_deallocate` are the calls `Start` and `Stop` record. What
 * `CpuProfiler::TickSampleEvent`, `VMState::current_state`,
 * `sched_get_priority_max` and `mach_task_self` return are plain inputs, with
 * no event of their own.
 */
module TickSampler {
  import opened Wrappers

  type Address = nat

  /** A Mach port naming a thread or a task. */
  type ThreadPort = nat

  /** The VM state tag, by its number. */
  type StateTag = nat

  /** The fields of a `TickSample` that this layer writes. */
  datatype TickSample = TickSample(state: StateTag, pc: Address, sp: Address, fp: Address)

  /** A `TickSample` built on the worker's stack: null pc, sp and fp. */
  const LocalSample: TickSample := TickSample(0, 0, 0, 0)

  /** The instruction, stack and frame registers `thread_get_state` reports. */
  datatype Registers = Registers(ip: Address, sp: Address, bp: Address)

  /** The answers the environment gives during one iteration of the loop. */
  datatype TickInput = TickInput(
    buffer: Option<TickSample>,  // CpuProfiler::TickSampleEvent(): a pooled sample and its contents, or NULL
    vmState: StateTag,           // VMState::current_state()
    suspendOk: bool,             // thread_suspend returned KERN_SUCCESS
    getStateOk: bool,            // thread_get_state returned KERN_SUCCESS
    registers: Registers)        // what thread_get_state filled in

  /** The calls one iteration makes, with the answer where the code looks at it. */
  datatype Event =
    | Suspend(thread: ThreadPort, ok: bool)
    | GetState(thread: ThreadPort, ok: bool)
    | SampleStack(sample: TickSample)
    | Resume(thread: ThreadPort)
    | Tick(sample: TickSample)
    | Sleep(milliseconds: int)

  datatype EventKind =
    SuspendCall | SuspendSucceeded | GetStateCall | SampleStackCall | ResumeCall | TickCall | SleepCall

  predicate IsKind(e: Event, k: EventKind) {
    match k
    case SuspendCall => e.Suspend?
    case SuspendSucceeded => e.Suspend? && e.ok
    case GetStateCall => e.GetState?
    case SampleStackCall => e.SampleStack?
    case ResumeCall => e.Resume?
    case TickCall => e.Tick?
    case SleepCall => e.Sleep?
  }

  /** The number of events of kind k in a trace. */
  function Count(t: seq<Event>, k: EventKind): (r: nat) {
    if t == [] then 0 else Count(t[..|t| - 1], k) + (if IsKind(t[|t| - 1], k) then 1 else 0)
  }

  lemma {:induction false} CountAppend(a: seq<Event>, b: seq<Event>, k: EventKind)
    ensures Count(a + b, k) == Count(a, k) + Count(b, k)
    decreases |b|
  {
    if b == [] {
      assert a + b == a;
    } else {
      assert (a + b)[..|a + b| - 1] == a + b[..|b| - 1];
      CountAppend(a, b[..|b| - 1], k);
    }
  }

  /** The sample an iteration starts from: the pooled one, or a local one when none is handed out. */
  function InitialSample(input: TickInput): (r: TickSample) {
    if input.buffer.Some? then input.buffer.value else LocalSample
  }

  /** The registers are read only when profiling and both Mach calls succeed. */
  predicate RegistersRead(profiling: bool, input: TickInput) {
    profiling && input.suspendOk && input.getStateOk
  }

  datatype TickOutcome = TickOutcome(events: seq<Event>, sample: TickSample)

  /** One iteration of `Sampler::PlatformData::Runner`, without the sleep that follows it. */
  function Iteration(profiling: bool, thread: ThreadPort, input: TickInput): (r: TickOutcome)
    ensures r.sample.state == input.vmState
    ensures RegistersRead(profiling, input) ==>
              r.sample.pc == input.registers.ip && r.sample.sp == input.registers.sp && r.sample.fp == input.registers.bp
    ensures !RegistersRead(profiling, input) ==>
              r.sample.pc == InitialSample(input).pc && r.sample.sp == InitialSample(input).sp &&
              r.sample.fp == InitialSample(input).fp
    ensures |r.events| > 0 && r.events[|r.events| - 1] == Tick(r.sample)
    ensures profiling ==> r.events[0] == Suspend(thread, input.suspendOk)
    ensures profiling && input.suspendOk ==>
              |r.events| >= 3 && r.events[1] == GetState(thread, input.getStateOk) &&
              r.events[|r.events| - 2] == Resume(thread)
    ensures RegistersRead(profiling, input) ==> |r.events| == 5 && r.events[2] == SampleStack(r.sample)
  {
    var stamped := InitialSample(input).(state := input.vmState);
    if !profiling then
      TickOutcome([Tick(stamped)], stamped)
    else if !input.suspendOk then
      TickOutcome([Suspend(thread, false), Tick(stamped)], stamped)
    else if !input.getStateOk then
      TickOutcome([Suspend(thread, true), GetState(thread, false), Resume(thread), Tick(stamped)], stamped)
    else
      var regs := input.registers;
      var s := stamped.(pc := regs.ip, sp := regs.sp, fp := regs.bp);
      TickOutcome([Suspend(thread, true), GetState(thread, true), SampleStack(s), Resume(thread), Tick(s)], s)
  }

  lemma CountPush(t: seq<Event>, e: Event, k: EventKind)
    ensures Count(t + [e], k) == Count(t, k) + (if IsKind(e, k) then 1 else 0)
  {
    assert (t + [e])[..|t|] == t;
  }

  function Ind(e: Event, k: EventKind): (r: nat) {
    if IsKind(e, k) then 1 else 0
  }

  lemma CountFive(a: Event, b: Event, c: Event, d: Event, e: Event, k: EventKind)
    ensures Count([a], k) == Ind(a, k)
    ensures Count([a, b], k) == Ind(a, k) + Ind(b, k)
    ensures Count([a, b, c], k) == Ind(a, k) + Ind(b, k) + Ind(c, k)
    ensures Count([a, b, c, d], k) == Ind(a, k) + Ind(b, k) + Ind(c, k) + Ind(d, k)
    ensures Count([a, b, c, d, e], k) == Ind(a, k) + Ind(b, k) + Ind(c, k) + Ind(d, k) + Ind(e, k)
  {
    CountPush([], a, k);
    assert [] + [a] == [a];
    CountPush([a], b, k);
    assert [a] + [b] == [a, b];
    CountPush([a, b], c, k);
    assert [a, b] + [c] == [a, b, c];
    CountPush([a, b, c], d, k);
    assert [a, b, c] + [d] == [a, b, c, d];
    CountPush([a, b, c, d], e, k);
    assert [a, b, c, d] + [e] == [a, b, c, d, e];
  }

  /**
   * How often an iteration makes each call: `Tick` once, a suspend exactly
   * when profiling, a register read and a resume exactly when the suspend
   * succeeded, `SampleStack` exactly when the registers were read, no sleep.
   */
  lemma IterationCounts(profiling: bool, thread: ThreadPort, input: TickInput)
    ensures var t := Iteration(profiling, thread, input).events;
      && Count(t, TickCall) == 1
      && Count(t, SleepCall) == 0
      && Count(t, SuspendCall) == (if profiling then 1 else 0)
      && Count(t, SuspendSucceeded) == (if profiling && input.suspendOk then 1 else 0)
      && Count(t, GetStateCall) == (if profiling && input.suspendOk then 1 else 0)
      && Count(t, ResumeCall) == (if profiling && input.suspendOk then 1 else 0)
      && Count(t, SampleStackCall) == (if RegistersRead(profiling, input) then 1 else 0)
  {
    var r := Iteration(profiling, thread, input);
    var t, sm := r.events, r.sample;
    forall k: EventKind
      ensures Count(t, k) == Ind(t[0], k) + (if |t| > 1 then Ind(t[1], k) else 0) +
                             (if |t| > 2 then Ind(t[2], k) else 0) + (if |t| > 3 then Ind(t[3], k) else 0) +
                             (if |t| > 4 then Ind(t[4], k) else 0)
    {
      var pad := Tick(sm);
      if |t| == 1 {
        CountFive(t[0], pad, pad, pad, pad, k);
        assert t == [t[0]];
      } else if |t| == 2 {
        CountFive(t[0], t[1], pad, pad, pad, k);
        assert t == [t[0], t[1]];
      } else if |t| == 4 {
        CountFive(t[0], t[1], t[2], t[3], pad, k);
        assert t == [t[0], t[1], t[2], t[3]];
      } else {
        CountFive(t[0], t[1], t[2], t[3], t[4], k);
        assert t == [t[0], t[1], t[2], t[3], t[4]];
      }
    }
  }

  /** One iteration, filling in the sample field by field. */
  method SampleTick(profiling: bool, thread: ThreadPort, input: TickInput)
    returns (events: seq<Event>, sample: TickSample)
    ensures TickOutcome(events, sample) == Iteration(profiling, thread, input)
  {
    if input.buffer.Some? {
      sample := input.buffer.value;
    } else {
      sample := LocalSample;
    }
    sample := sample.(state := input.vmState);
    events := [];
    if profiling {
      events := events + [Suspend(thread, input.suspendOk)];
      if input.suspendOk {
        events := events + [GetState(thread, input.getStateOk)];
        if input.getStateOk {
          sample := sample.(pc := input.registers.ip);
          sample := sample.(sp := input.registers.sp);
          sample := sample.(fp := input.registers.bp);
          events := events + [SampleStack(sample)];
        }
        events := events + [Resume(thread)];
      }
    }
    events := events + [Tick(sample)];
  }

  /** The trace of a loop that ran one iteration per input, each followed by a sleep. */
  function RunTrace(profiling: bool, thread: ThreadPort, interval: int, inputs: seq<TickInput>): (r: seq<Event>)
    decreases |inputs|
  {
    if inputs == [] then []
    else
      RunTrace(profiling, thread, interval, inputs[..|inputs| - 1]) +
      Iteration(profiling, thread, inputs[|inputs| - 1]).events + [Sleep(interval)]
  }

  /** A run over one more input is the run so far, that input's iteration, and a sleep. */
  lemma RunTraceExtend(profiling: bool, thread: ThreadPort, interval: int, inputs: seq<TickInput>, i: nat)
    requires i < |inputs|
    ensures RunTrace(profiling, thread, interval, inputs[..i + 1]) ==
            RunTrace(profiling, thread, interval, inputs[..i]) +
            Iteration(profiling, thread, inputs[i]).events + [Sleep(interval)]
  {
    assert inputs[..i + 1][..i] == inputs[..i];
  }

  /** The iterations whose suspend succeeded: none at all without profiling. */
  function Suspended(profiling: bool, inputs: seq<TickInput>): (r: nat)
    ensures r <= |inputs|
    ensures !profiling ==> r == 0
    decreases |inputs|
  {
    if inputs == [] then 0
    else Suspended(profiling, inputs[..|inputs| - 1]) + (if profiling && inputs[|inputs| - 1].suspendOk then 1 else 0)
  }

  /** The iterations that read the registers: only ones whose suspend succeeded. */
  function Read(profiling: bool, inputs: seq<TickInput>): (r: nat)
    ensures r <= Suspended(profiling, inputs)
    ensures !profiling ==> r == 0
    decreases |inputs|
  {
    if inputs == [] then 0
    else Read(profiling, inputs[..|inputs| - 1]) + (if RegistersRead(profiling, inputs[|inputs| - 1]) then 1 else 0)
  }

  lemma RunTraceStep(profiling: bool, thread: ThreadPort, interval: int, inputs: seq<TickInput>, k: EventKind)
    requires inputs != []
    ensures Count(RunTrace(profiling, thread, interval, inputs), k) ==
            Count(RunTrace(profiling, thread, interval, inputs[..|inputs| - 1]), k) +
            Count(Iteration(profiling, thread, inputs[|inputs| - 1]).events, k) +
            (if k == SleepCall then 1 else 0)
  {
    var before := RunTrace(profiling, thread, interval, inputs[..|inputs| - 1]);
    var step := Iteration(profiling, thread, inputs[|inputs| - 1]).events;
    CountAppend(before, step, k);
    CountPush(before + step, Sleep(interval), k);
  }

  /**
   * Over a whole run: one `Tick` and one sleep per iteration, a suspend per
   * iteration exactly when profiling, and a register read and a resume for
   * every successful suspend, so the profiled thread is never left
   * suspended; `SampleStack` once per iteration that read the registers.
   */
  lemma {:induction false} RunCounts(profiling: bool, thread: ThreadPort, interval: int, inputs: seq<TickInput>)
    ensures var t := RunTrace(profiling, thread, interval, inputs);
      && Count(t, TickCall) == |inputs|
      && Count(t, SleepCall) == |inputs|
      && Count(t, SuspendCall) == (if profiling then |inputs| else 0)
      && Count(t, SuspendSucceeded) == Suspended(profiling, inputs)
      && Count(t, GetStateCall) == Suspended(profiling, inputs)
      && Count(t, ResumeCall) == Suspended(profiling, inputs)
      && Count(t, SampleStackCall) == Read(profiling, inputs)
    decreases |inputs|
  {
    if inputs != [] {
      var prefix := inputs[..|inputs| - 1];
      var last := inputs[|inputs| - 1];
      RunCounts(profiling, thread, interval, prefix);
      IterationCounts(profiling, thread, last);
      RunTraceStep(profiling, thread, interval, inputs, TickCall);
      RunTraceStep(profiling, thread, interval, inputs, SleepCall);
      RunTraceStep(profiling, thread, interval, inputs, SuspendCall);
      RunTraceStep(profiling, thread, interval, inputs, SuspendSucceeded);
      RunTraceStep(profiling, thread, interval, inputs, GetStateCall);
      RunTraceStep(profiling, thread, interval, inputs, ResumeCall);
      RunTraceStep(profiling, thread, interval, inputs, SampleStackCall);
    }
  }

  /**
   * Without profiling a run touches the profiled thread not at all: its trace
   * holds no suspend, register read, resume or `SampleStack`, only ticks and sleeps.
   */
  lemma RunWithoutProfiling(thread: ThreadPort, interval: int, inputs: seq<TickInput>)
    ensures var t := RunTrace(false, thread, interval, inputs);
      && Count(t, SuspendCall) == 0 && Count(t, GetStateCall) == 0
      && Count(t, ResumeCall) == 0 && Count(t, SampleStackCall) == 0
      && Count(t, TickCall) == |inputs|
  {
    RunCounts(false, thread, interval, inputs);
  }

  /** The kernel and thread-library calls `Start` and `Stop` make. */
  datatype OsCall =
    | ThreadSelf(port: ThreadPort)                      // mach_thread_self
    | CreateWorker(worker: nat, fifoPriority: int)      // pthread_create, SCHED_FIFO at that priority
    | JoinWorker(worker: nat)                           // pthread_join
    | DeallocatePort(task: ThreadPort, port: ThreadPort) // mach_port_deallocate

  /** A `Sampler` together with its platform data. */
  class Sampler {
    /** `interval_`, in milliseconds. */
    const interval: int
    /** `profiling_`: whether the profiled thread's registers are read. */
    const profiling: bool
    /** `task_self_`. */
    const taskSelf: ThreadPort
    /** `active_`. */
    var active: bool
    /** `profiled_thread_`. */
    var profiledThread: ThreadPort
    /** `sampler_thread_`. */
    var samplerThread: nat
    /** The calls made so far by `Start` and `Stop`, in order. */
    var calls: seq<OsCall>

    /** `Sampler(interval, profiling)`; `taskSelf` is what `mach_task_self` returned. */
    constructor (interval: int, profiling: bool, taskSelf: ThreadPort)
      ensures this.interval == interval && this.profiling == profiling && this.taskSelf == taskSelf
      ensures !active && profiledThread == 0 && samplerThread == 0 && calls == []
    {
      this.interval := interval;
      this.profiling := profiling;
      this.taskSelf := taskSelf;
      active := false;
      profiledThread := 0;
      samplerThread := 0;
      calls := [];
    }

    /**
     * `Sampler::Start`: when profiling, records the calling thread; marks the
     * sampler active and creates the worker. `self`, `maxPriority` and
     * `worker` are what `mach_thread_self`, `sched_get_priority_max` and
     * `pthread_create` gave back.
     */
    method Start(self: ThreadPort, maxPriority: int, worker: nat)
      modifies this
      ensures active
      ensures profiledThread == if profiling then self else old(profiledThread)
      ensures samplerThread == worker
      ensures calls == old(calls) + (if profiling then [ThreadSelf(self)] else []) + [CreateWorker(worker, maxPriority)]
    {
      if profiling {
        profiledThread := self;
        calls := calls + [ThreadSelf(self)];
      }
      active := true;
      samplerThread := worker;
      calls := calls + [CreateWorker(worker, maxPriority)];
    }

    /** `Sampler::Stop`: clears the flag, joins the worker, and releases the port only when profiling. */
    method Stop()
      modifies this
      ensures !active
      ensures profiledThread == old(profiledThread) && samplerThread == old(samplerThread)
      ensures calls == old(calls) + [JoinWorker(samplerThread)] +
                       (if profiling then [DeallocatePort(taskSelf, profiledThread)] else [])
    {
      active := false;
      calls := calls + [JoinWorker(samplerThread)];
      if profiling {
        calls := calls + [DeallocatePort(taskSelf, profiledThread)];
      }
    }

    /**
     * `Sampler::PlatformData::Runner` for a run in which the active flag was
     * seen set |inputs| times: one iteration per input, each followed by a
     * sleep of `interval`. Also returns the sample each `Tick` received.
     */
    method Runner(inputs: seq<TickInput>) returns (trace: seq<Event>, samples: seq<TickSample>)
      ensures trace == RunTrace(profiling, profiledThread, interval, inputs)
      ensures |samples| == |inputs|
      ensures forall i :: 0 <= i < |inputs| ==> samples[i] == Iteration(profiling, profiledThread, inputs[i]).sample
    {
      var profiling, thread, interval := profiling, profiledThread, interval;
      trace, samples := [], [];
      var i := 0;
      while i < |inputs|
        invariant 0 <= i <= |inputs|
        invariant trace == RunTrace(profiling, thread, interval, inputs[..i])
        invariant |samples| == i
        invariant forall j :: 0 <= j < i ==> samples[j] == Iteration(profiling, thread, inputs[j]).sample
      {
        var events, sample := SampleTick(profiling, thread, inputs[i]);
        RunTraceExtend(profiling, thread, interval, inputs, i);
        trace := trace + events + [Sleep(interval)];
        samples := samples + [sample];
        i := i + 1;
      }
      assert inputs[..|inputs|] == inputs;
    }
  }

  /**
   * A full Start/Stop cycle: active after `Start`, inactive after `Stop`, the
   * worker that was created is the one joined, and the thread port is
   * captured and released exactly when profiling.
   */
  method StartStopCycle(interval: int, profiling: bool, task: ThreadPort, self: ThreadPort, maxPriority: int, worker: nat)
    returns (activeAfterStart: bool, activeAfterStop: bool, calls: seq<OsCall>)
    ensures activeAfterStart && !activeAfterStop
    ensures calls == (if profiling then [ThreadSelf(self)] else []) +
                     [CreateWorker(worker, maxPriority), JoinWorker(worker)] +
                     (if profiling then [DeallocatePort(task, self)] else [])
  {
    var s := new Sampler(interval, profiling, task);
    s.Start(self, maxPriority, worker);
    activeAfterStart := s.active;
    s.Stop();
    activeAfterStop := s.active;
    calls := s.calls;
  }
}
