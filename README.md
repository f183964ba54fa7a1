# Signal-stack platform layer: a verified model

This project models the sequential core of V8's signal-stack platform file
(`deps/v8-2.4.1/src/platform-sigstack.cc`), the platform layer used on Mac OS X.
It has four parts, one Dafny module each:

- **ThreadEmulation**: the execution-context registry and the thread-local slot
  allocator. Every logical thread is a `sigthread_t` record: an id, a stack
  pointer, an entry callback with its argument, and 16 slots. The class
  `Registry` holds the table of records and the index of the current one.
  Entry 0 is `main_thread_`, and entry h >= 1 is the record held by thread
  handle h. It also holds `next_current_thread_id_` and `next_local_`. The
  source's debug assertions become `requires` (what a build without them
  does is under "Left out"). The main record is built by
  `sigthread_empty`, so its id is `kNoThread` (-1). The first started thread
  therefore gets id 0. The model keeps both facts.
- **AddressLimits**: the conservative `[lowest, highest)` range of mapped
  addresses. `OS::Allocate` and `VirtualMemory::Commit` widen it after a
  successful `mmap`, and `OS::IsOutsideAllocatedSpace` queries it. Addresses
  are naturals. The result of `mmap` (and of `getpagesize`) is an input.
- **PlaceholderSync**: `MacOSMutex` and `MacOSSemaphore`. Every operation
  reports success and nothing blocks. Two client methods show what that
  means: a lock taken twice, and a timed wait that succeeds on a semaphore nobody
  signalled, whatever its count.
- **TickSampler**: one iteration of the sampler loop as a method
  (`SampleTick`) that fills in the sample field by field. It is proved equal
  to a specification function (`Iteration`). The loop itself (`Runner`) is
  proved equal to `RunTrace`. Lemmas count the calls in a run. `Sampler`'s
  `Start` and `Stop` are a small state machine over `active_`.

In `TickSampler`, the sampler loop's calls `thread_suspend`,
`thread_get_state`, `thread_resume`, `SampleStack`, `Tick` and `OS::Sleep` are
events in a trace. `Sampler.Start` and `Sampler.Stop` record their
`mach_thread_self`, `pthread_create`, `pthread_join` and `mach_port_deallocate`
calls in a list. Four results are plain inputs with no event, so their order
relative to the other calls is not modelled:

- `CpuProfiler::TickSampleEvent` (the input's `buffer`);
- `VMState::current_state` (the input's `vmState`);
- `sched_get_priority_max` (`Start`'s `maxPriority`);
- `mach_task_self` (the constructor's `taskSelf`).

The `pthread_attr_*` setup is not modelled.

In `ThreadEmulation` and `AddressLimits`, the results of `sigaction`,
`sigaltstack`, `malloc`, `mmap` and `getpagesize` are plain inputs. The
request an `mmap` call would receive is returned as a value.

Three behaviours of the code are worth stating:

- `Sampler::Start` does not check whether the sampler is already running, and
  `Sampler::Stop` does not check whether it is idle.
- A SELF handle is a by-value copy of the record current when it was made.
  It is `IsSelf` exactly while a record with the same id is current. When another
  thread starts, that thread gets a fresh id, so the snapshot stops being
  `IsSelf`. `Registry.Start` proves that at that moment no other record has
  the new id.
- `Thread::Start` never returns normally. It ends in `longjmp`, which re-enters
  the trampoline, and the trampoline calls the thread's entry
  (`ThreadEntry`, that is `Thread::Run`). `current_thread_` stays on the
  started thread. Whatever follows `Registry.Start` in the model
  (for example the `GetThreadLocal` in `SlotsArePerContext`) stands for code
  run by the started thread's `Run`.

## Model

| member | source | states |
|---|---|---|
| `ThreadEmulation.Empty` | deps/v8-2.4.1/src/platform-sigstack.cc:112-125 | a fresh record has id `kNoThread`, a null stack, no entry, and 16 null slots |
| `ThreadEmulation.Registry.constructor` | deps/v8-2.4.1/src/platform-sigstack.cc:105-109 | at start-up only the main record exists and is current; the next thread id is 0 (main's id + 1); the next key is 0 |
| `ThreadEmulation.Registry.IsSelf` | deps/v8-2.4.1/src/platform-sigstack.cc:454-456 | `IsSelf`: the handle's id equals the current record's id, so the current record and every by-value copy of it are `IsSelf` |
| `ThreadEmulation.Registry.IsValid` | deps/v8-2.4.1/src/platform-sigstack.cc:459-461 | `IsValid`: the handle's id is not `kNoThread`, so a valid handle holds an id `Start` has already handed out, and the main record is never valid |
| `ThreadEmulation.Registry.NewHandle` | deps/v8-2.4.1/src/platform-sigstack.cc:427-441 | a new handle's record is a by-value copy of the current record (SELF) or a zeroed record (INVALID); a SELF handle is `IsSelf`, and on main it is not `IsValid`; an INVALID handle is not `IsValid`, and on main it is `IsSelf`; nothing else changes |
| `ThreadEmulation.Registry.NewThread` | deps/v8-2.4.1/src/platform-sigstack.cc:464-465 | a new `Thread` holds an INVALID record: not `IsValid`, all 16 slots null |
| `ThreadEmulation.Registry.Initialize` | deps/v8-2.4.1/src/platform-sigstack.cc:427-446 | re-initialising handle h replaces only its record, by a copy of the current one (SELF) or a zeroed one (INVALID) |
| `ThreadEmulation.Registry.Start` | deps/v8-2.4.1/src/platform-sigstack.cc:479-513 | a failed `sigaction` or `sigaltstack` exits with status 1 and changes nothing; otherwise the thread's record becomes current, with id = the old counter, its stack and `ThreadEntry(h)`; the counter goes up by one; the thread is `IsSelf` and `IsValid`, and no other handle is `IsSelf` |
| `ThreadEmulation.Registry.Join` | deps/v8-2.4.1/src/platform-sigstack.cc:516-518 | `Join` always fails its assertion |
| `ThreadEmulation.Registry.CreateThreadLocalKey` | deps/v8-2.4.1/src/platform-sigstack.cc:521-527 | requires fewer than 16 keys handed out; returns the counter's value, which is in [0, 16), larger than every earlier key and never issued before; the counter goes up by one; the records do not change |
| `ThreadEmulation.Registry.DeleteThreadLocalKey` | deps/v8-2.4.1/src/platform-sigstack.cc:530-535 | deleting a key changes no state, so the key is never reused |
| `ThreadEmulation.Registry.YieldCPU` | deps/v8-2.4.1/src/platform-sigstack.cc:562-564 | yielding changes no state |
| `ThreadEmulation.Registry.GetThreadLocal` | deps/v8-2.4.1/src/platform-sigstack.cc:538-547 | for a key in [0, 16), returns that slot of the current record |
| `ThreadEmulation.Registry.SetThreadLocal` | deps/v8-2.4.1/src/platform-sigstack.cc:550-559 | for a key in [0, 16), changes slot `key` of the current record only; every other slot of every record keeps its value |
| `ThreadEmulation.SlotRoundTrip` | deps/v8-2.4.1/src/platform-sigstack.cc:538-559 | `Get(k)` after `Set(k, v)` on the same context returns v |
| `ThreadEmulation.SlotsArePerContext` | deps/v8-2.4.1/src/platform-sigstack.cc:501-559 | a value stored on one context is not seen by a newly started thread: it reads null under the same key, and it is current, `IsSelf` and `IsValid` |
| `ThreadEmulation.FreshProcessNumbering` | deps/v8-2.4.1/src/platform-sigstack.cc:105-106 | in a fresh process main keeps id -1, the first two started threads get ids 0 and 1, and the first three keys are 0, 1, 2 |
| `ThreadEmulation.MainContextQuirk` | deps/v8-2.4.1/src/platform-sigstack.cc:454-461 | on the main context an INVALID handle reports `IsSelf`, and a SELF handle is not `IsValid` |
| `AddressLimits.IsOutside` | deps/v8-2.4.1/src/platform-sigstack.cc:160-179 | an address is outside exactly when it is not in the half-open range [lowest, highest); when `highest <= lowest` every address is outside |
| `AddressLimits.Widened` | deps/v8-2.4.1/src/platform-sigstack.cc:169-174 | widening never raises `lowest` or lowers `highest`; the new range covers [address, address+size); each limit is either unchanged or exactly the block's edge |
| `AddressLimits.WidenedKeepsInside` | deps/v8-2.4.1/src/platform-sigstack.cc:169-179 | an address inside the range stays inside after widening |
| `AddressLimits.WidenedCoversBlock` | deps/v8-2.4.1/src/platform-sigstack.cc:169-179 | after widening by a block, none of its addresses is outside |
| `AddressLimits.InitiallyOutside` | deps/v8-2.4.1/src/platform-sigstack.cc:165-179 | before anything is mapped, every address is outside |
| `AddressLimits.WidenedByAllKeepsInside` | deps/v8-2.4.1/src/platform-sigstack.cc:160-174 | after any run of mappings, every address that was inside before is still inside: the limits only grow |
| `AddressLimits.WidenedByAllCovers` | deps/v8-2.4.1/src/platform-sigstack.cc:160-179 | after any run of successful mappings, no address of any mapped block is outside: the check is conservative |
| `AddressLimits.WidenedByAllMonotone` | deps/v8-2.4.1/src/platform-sigstack.cc:169-174 | over any run of mappings `lowest` only falls and `highest` only rises |
| `AddressLimits.SizeAsInt` | deps/v8-2.4.1/src/platform-sigstack.cc:169 | the `int size` parameter holds the 32-bit two's-complement value congruent to the `size_t` modulo 2^32, which is the size itself below 2^31 |
| `AddressLimits.WidenedAsWritten` | deps/v8-2.4.1/src/platform-sigstack.cc:169-174 | the update as written agrees with `Widened` for every size below 2^31, for blocks that end inside the address space |
| `AddressLimits.AsWrittenMissesLargeBlock` | deps/v8-2.4.1/src/platform-sigstack.cc:195-208 | a 2 GiB allocation at 2^32 is left outside by the as-written update but covered by `Widened` |
| `AddressLimits.AsWrittenMissesLargeBlocks` | deps/v8-2.4.1/src/platform-sigstack.cc:169-174 | for every size from 2^31 to 2^32 - 1 mapped at or above 2^31 and above the old high limit, the block's first byte is outside after the as-written update and inside after `Widened` |
| `AddressLimits.RoundUp` | deps/v8-2.4.1/src/platform-sigstack.cc:198 | the rounded size is at least the request, less than request + page size, and a multiple of the page size |
| `AddressLimits.Protections` | deps/v8-2.4.1/src/platform-sigstack.cc:199 | read and write are always requested; execute exactly when `is_executable` |
| `AddressLimits.AllocatedSpace.constructor` | deps/v8-2.4.1/src/platform-sigstack.cc:165-166 | initially `lowest` is the largest address and `highest` is 0 |
| `AddressLimits.AllocatedSpace.IsOutsideAllocatedSpace` | deps/v8-2.4.1/src/platform-sigstack.cc:177-179 | `IsOutsideAllocatedSpace`: true when the address is below `lowest`, or at or above `highest` |
| `AddressLimits.AllocatedSpace.UpdateAllocatedSpaceLimits` | deps/v8-2.4.1/src/platform-sigstack.cc:169-174 | the new limits are `Widened(old, address, size)`; the block is inside; everything inside before stays inside |
| `AddressLimits.AllocatedSpace.Allocate` | deps/v8-2.4.1/src/platform-sigstack.cc:195-210 | maps `RoundUp(requested, pagesize)` bytes with the right protections; a failed `mmap` returns NULL and leaves the limits alone; otherwise it returns the base and a size that is at least the request and page-aligned, and every byte of the block is inside |
| `AddressLimits.AllocatedSpace.Commit` | deps/v8-2.4.1/src/platform-sigstack.cc:401-411 | succeeds exactly when `mmap` does; only then are the limits widened by the block, and every byte of it is inside |
| `PlaceholderSync.Mutex.Lock` | deps/v8-2.4.1/src/platform-sigstack.cc:574 | `Lock` always returns 0 |
| `PlaceholderSync.Mutex.Unlock` | deps/v8-2.4.1/src/platform-sigstack.cc:576 | `Unlock` always returns 0 |
| `PlaceholderSync.CreateMutex` | deps/v8-2.4.1/src/platform-sigstack.cc:580-584 | returns a new mutex |
| `PlaceholderSync.LockTwice` | deps/v8-2.4.1/src/platform-sigstack.cc:574-576 | no exclusion: a second `Lock` without `Unlock` also succeeds |
| `PlaceholderSync.Semaphore.WaitTimeout` | deps/v8-2.4.1/src/platform-sigstack.cc:606-609 | a timed wait always reports success |
| `PlaceholderSync.CreateSemaphore` | deps/v8-2.4.1/src/platform-sigstack.cc:612-615 | returns a new semaphore, whatever the count |
| `PlaceholderSync.TimedWaitWithoutSignal` | deps/v8-2.4.1/src/platform-sigstack.cc:589-609 | for any initial count, a timed wait on a semaphore nobody has signalled reports success: the count is ignored |
| `TickSampler.Iteration` | deps/v8-2.4.1/src/platform-sigstack.cc:640-686 | the sample's state is the VM state; pc/sp/fp are the registers exactly when profiling, suspend and get-state all succeed, and otherwise those of the initial sample; `Tick` of the final sample comes last; a suspend comes first when profiling; after a successful suspend come get-state and, just before `Tick`, resume; `SampleStack` comes third when the registers were read |
| `TickSampler.IterationCounts` | deps/v8-2.4.1/src/platform-sigstack.cc:645-685 | per iteration: `Tick` once, no sleep, a suspend exactly when profiling, get-state and resume exactly when the suspend succeeded, `SampleStack` exactly when the registers were read |
| `TickSampler.SampleTick` | deps/v8-2.4.1/src/platform-sigstack.cc:641-685 | filling in the sample field by field gives exactly `Iteration`'s events and sample |
| `TickSampler.RunCounts` | deps/v8-2.4.1/src/platform-sigstack.cc:640-686 | over a run of n iterations: n ticks and n sleeps, n suspends when profiling and none otherwise, and as many get-states and resumes as successful suspends (the target is never left suspended); one `SampleStack` per iteration that read the registers |
| `TickSampler.RunWithoutProfiling` | deps/v8-2.4.1/src/platform-sigstack.cc:640-686 | without profiling, a run's trace holds no suspend, get-state, resume or `SampleStack` event, and one `Tick` per iteration |
| `TickSampler.Sampler.constructor` | deps/v8-2.4.1/src/platform-sigstack.cc:702-705 | a new sampler keeps its interval, profiling flag and task port; it is inactive, with no profiled thread or worker yet |
| `TickSampler.Sampler.Start` | deps/v8-2.4.1/src/platform-sigstack.cc:713-733 | `Start` captures the calling thread's port only when profiling, sets `active_`, and creates the worker at SCHED_FIFO maximum priority |
| `TickSampler.Sampler.Stop` | deps/v8-2.4.1/src/platform-sigstack.cc:736-748 | `Stop` clears `active_`, joins the worker, and deallocates the profiled port only when profiling |
| `TickSampler.Sampler.Runner` | deps/v8-2.4.1/src/platform-sigstack.cc:638-687 | the loop's trace is `RunTrace`: each iteration's events followed by a sleep of `interval`; the i-th tick receives `Iteration`'s sample for the i-th inputs |
| `TickSampler.StartStopCycle` | deps/v8-2.4.1/src/platform-sigstack.cc:713-748 | active after `Start`, inactive after `Stop`; the worker created is the one joined; the port is captured and released exactly when profiling |

## Left out

- Signal trampoline: installing the handler, the alternate stack, the self-directed `SIGUSR2`, the busy-wait on `sigthread_trampoline_complete_`, and `setjmp`/`longjmp`. Non-local jumps and signal delivery have no counterpart in Dafny. `Registry.Start` keeps the registry updates and the two fatal exits. The jump buffer is not a field of `SigThread`.
- Running `Thread::Run` on the new context (`ThreadEntry`): the model records only that the record's entry is `ThreadEntry` with the thread as argument.
- `Registry.Join`: the debug assertion is modelled as an `AssertionFailed` result. A `requires false` would make the member uncallable. In a build where `ASSERT` compiles to nothing (V8's release builds; `checks.h` is not part of this model), `Thread::Join` simply returns.
- Registry.CreateThreadLocalKey, Registry.GetThreadLocal, Registry.SetThreadLocal: the debug assertions are `requires`, so the model has only debug-build behaviour. In a build without assertions, a 17th `CreateThreadLocalKey` returns 16. `GetThreadLocal` and `SetThreadLocal` would then read or write past the end of the 16-slot `st_locals` array. Undefined behaviour has no counterpart here.
- Registry.Start: `next_current_thread_id_` is a C `int`. The model lets it grow without bound and does not model its overflow after 2^31 - 1 started threads.
- Per-record slots are a sequence inside a record value rather than an in-place array. The C record is copied by value when a SELF handle is made, and `SetThreadLocal` replaces the current record with one that differs in one slot.
- Real threading in the sampler. `pthread_create` and `pthread_join` are recorded as calls of `Start` and `Stop`, and `OS::Sleep` is an event of the loop's trace. The scheduling-attribute calls (`pthread_attr_init`, `pthread_attr_setinheritsched`, `pthread_attr_setschedpolicy`, `pthread_attr_setschedparam`) are not modelled. Only the `sched_get_priority_max` result is kept, as an input that becomes `CreateWorker`'s priority. The worker's race with `Stop` is not modelled.
- `Sampler.Runner`: the number of iterations is an input (how often the worker saw `active_` set), not read from the flag, because `Stop` runs concurrently with the loop.
- How the sampler's `SampleStack` and `Tick` callbacks, the profiler and the stack tracer use a sample: they live outside this file. Only the state, pc, sp and fp fields this layer writes are modelled. The null pc/sp/fp of a freshly built `TickSample` come from its constructor, which is not part of this model. The state number of `LocalSample` is a placeholder; it is always overwritten.
- `AllocatedSpace.Allocate`: the `LOG(StringEvent("OS::Allocate", "mmap failed"))` written on a failed `mmap` goes to the logger, outside this file. It is not modelled.
- Sampler.Start: the contract does not fix that `active_` is set before `pthread_create` is called. It records only that the worker was created and that the sampler is active afterwards.
- Memory-mapping I/O: `OS::Free`, `VirtualMemory`'s constructor, destructor and `Uncommit`, and `PosixMemoryMappedFile`. None of them touches the limits.
- `AllocatedSpace.Allocate`: the model does not wrap `requested + pagesize - 1` around at 2^64. `RoundUp` comes from `utils.h`, which is not part of this model. Its bit-mask form agrees with the division form used here for the power-of-two page sizes `getpagesize` returns.
- AllocatedSpace.UpdateAllocatedSpaceLimits, AllocatedSpace.Allocate, AllocatedSpace.Commit: the class uses the corrected update `Widened`, which takes the size whole. For a `size_t` of 2^31 or more, their promise that every byte of the block is inside does not hold of the source. The source's `int size` conversion is modelled in `WidenedAsWritten` (see "## Findings").
- Addresses are unbounded naturals: no pointer wrap-around past the end of the address space, except in `WidenedAsWritten`, whose end pointer wraps modulo 2^64 like the source's pointer arithmetic. Only the initial `lowest` is the 64-bit all-ones value; on the 32-bit build it would be 2^32 - 1.
- `MacOSSemaphore::Wait()`, `Signal()` and the constructors do nothing and are modelled as empty methods.
- Other OS plumbing: `OS::Setup`'s random seeding, `ceiling`, `Sleep`, `Abort`, `DebugBreak`, `StackWalk`, `LogSharedLibraryAddresses`, `LocalTimezone`, `LocalTimeOffset`, `ReleaseStore`, `CpuFeaturesImpliedByPlatform`, `ActivationFrameAlignment` and `AllocateAlignment`. These are foreign calls, floating point or constants.
- `src/v8-util.h`: argument-checking and property-setting glue over the embedding API, plus `FormatString`. It has no algorithmic content.

## Findings

| source | as written | input that shows it | evidently intended | confidence | as-written member | corrected member |
|---|---|---|---|---|---|---|
| deps/v8-2.4.1/src/platform-sigstack.cc:169-174 | `UpdateAllocatedSpaceLimits` takes `int size`, but `OS::Allocate` (line 208) and `VirtualMemory::Commit` (line 409) pass a `size_t`. A size of 2^31 or more wraps to a negative value, so on the 64-bit build `highest` can end below the block just mapped. On the 32-bit build sizes and pointers are both 32 bits, so the wrapped sum is the right end address. | `OS::Allocate(0x80000000, ...)` with 4096-byte pages and `mmap` returning 0x100000000: afterwards `IsOutsideAllocatedSpace(0x100000000)` is true | the range covers every mapped block, at any size | medium; not executed | `AddressLimits.WidenedAsWritten`, `AddressLimits.AsWrittenMissesLargeBlock`, `AddressLimits.AsWrittenMissesLargeBlocks` | `AddressLimits.Widened`, `AddressLimits.WidenedCoversBlock`, `AddressLimits.AllocatedSpace.UpdateAllocatedSpaceLimits` |
