# ComposerPool in Dafny

This project models `ComposerPool` from the Hyperledger Composer runtime for Fabric
(`packages/composer-runtime-hlfv1/composerpool.go`). The pool holds reusable `Composer`
handles and creates them lazily. While fewer than `PoolMax` handles exist, `Get` makes a
new handle, numbers it with the current `PoolCount` and increments the counter. Once the
ceiling is reached, `Get` takes the front handle of the `Pool` channel, which is a FIFO
of capacity `PoolMax`. `Put` sends a handle to the back of that channel and returns `true`.

Everything is in `composerpool.dfy`, module `ComposerPoolModel`, in two layers:

- A value-level state machine. `PoolState` holds the counter, `PoolMax`, the channel's
  capacity and contents, and two kinds of bookkeeping the Go code does not keep: the
  handles created so far, in order, and the handles callers currently hold. `GetStep` and
  `PutStep` are the two calls, `Init` is `NewComposerPool`, and `Run` executes a sequence
  of calls.
  - `WellFormed` is the invariant that every non-blocking call keeps, whatever handle is
    put back: `0 <= PoolCount <= PoolMax`, the channel within its capacity, and created
    handle `i` has `Index` `i`.
  - `Conserved` adds the conservation invariant that holds when callers put back only
    handles they hold. Every created handle is then either queued exactly once or
    checked out, never both.
- The class `ComposerPool`. Its fields `count` and `queue` are updated in place. `max`
  and `capacity` are `const`, so `PoolMax` cannot change after construction. The ghost
  fields `created` and `out` carry the bookkeeping. Each method's postcondition ties the
  new state to the state machine step, and also states the field changes directly.

A channel operation that would block in Go becomes a precondition:

- `Get` at the ceiling requires a non-empty channel.
- `Put` requires a channel that is not full.

`PutNeverBlocks` shows that under the one-`Put`-per-`Get` discipline, `Put`'s
precondition always holds.

The code and its description disagree in two places. In both, the model follows the code:

- The doc comment on `Get` (lines 41-42) says it returns an existing handle and creates
  one only if none is available. The code, however, creates a handle whenever
  `PoolCount < PoolMax`, even when handles are queued. So with capacity 3, the sequence
  Get, Put, Get yields handle 1 and leaves handle 0 queued, rather than reusing handle 0
  (`ScenarioReuseBelowCeiling`, `ScenarioGetPutGet`). A handle is reused only once the
  ceiling is reached (`ScenarioCapacityOne`).
- The doc comment on `Put` (lines 73-74) says it discards the handle when the pool is full.
  The code always sends, which blocks when the channel is full. No discard branch is
  modelled.

## Model

| member | source | states |
|---|---|---|
| `ComposerPoolModel.InitProperties` | packages/composer-runtime-hlfv1/composerpool.go:32-38 | a new pool satisfies conservation; it also spells out `Init`'s fields: counter 0, `PoolMax == max`, an empty channel of capacity `max` |
| `ComposerPoolModel.ComposerPool.constructor` | packages/composer-runtime-hlfv1/composerpool.go:28-39 | the object built by `NewComposerPool(max)` (for `max >= 1`) is the initial state: counter 0, `PoolMax` and channel capacity `max`, empty channel, invariants established |
| `ComposerPoolModel.GetCases` | packages/composer-runtime-hlfv1/composerpool.go:50-70 | spells out `GetStep` field by field, with no proof beyond its definition: below the ceiling, `Get` returns a handle whose index is the old counter, adds exactly 1 to the counter and leaves the channel unchanged even when it is non-empty; at the ceiling, it returns the front of the channel, removes only that element and leaves the counter unchanged; `PoolMax` and the capacity never change |
| `ComposerPoolModel.GetPreservesWellFormed` | packages/composer-runtime-hlfv1/composerpool.go:50-59 | because creation is guarded by `PoolCount < PoolMax`, `Get` keeps `0 <= PoolCount <= PoolMax`, the channel within capacity, and the numbering of created handles |
| `ComposerPoolModel.GetPreservesConserved` | packages/composer-runtime-hlfv1/composerpool.go:50-70 | `Get` keeps conservation; the handle it returns was not held by any caller (no double issue) and is a created handle |
| `ComposerPoolModel.CreateKeepsConserved` | packages/composer-runtime-hlfv1/composerpool.go:54-59 | a newly created handle was neither queued nor held before, so handing it out keeps conservation |
| `ComposerPoolModel.ReceiveKeepsConserved` | packages/composer-runtime-hlfv1/composerpool.go:68-70 | receiving the front handle moves it from the channel to the caller, keeps conservation, and the handle was not already held |
| `ComposerPoolModel.ComposerPool.Get` | packages/composer-runtime-hlfv1/composerpool.go:43-71 | the method performs exactly `GetStep` on the object's state: new handle numbered `old(count)` with `count` incremented and queue unchanged, or the old front of the queue with the rest kept and `count` unchanged; it keeps the invariant, and also keeps conservation with a handle no caller held |
| `ComposerPoolModel.PutAppends` | packages/composer-runtime-hlfv1/composerpool.go:80-81 | spells out `PutStep` field by field, with no proof beyond its definition: `Put` appends the handle at the back of the channel and leaves the counter, `PoolMax` and the capacity unchanged |
| `ComposerPoolModel.PutPreservesWellFormed` | packages/composer-runtime-hlfv1/composerpool.go:75-81 | a `Put` that does not block keeps the invariant |
| `ComposerPoolModel.QueueWithinCount` | packages/composer-runtime-hlfv1/composerpool.go:50-59 | under conservation, `|queue| <= PoolCount <= PoolMax` |
| `ComposerPoolModel.PutNeverBlocks` | packages/composer-runtime-hlfv1/composerpool.go:33 | under conservation, the channel of capacity `max` has room for any handle a caller holds, so the send never blocks |
| `ComposerPoolModel.PutPreservesConserved` | packages/composer-runtime-hlfv1/composerpool.go:75-81 | putting back a held handle is possible and keeps conservation |
| `ComposerPoolModel.ComposerPool.Put` | packages/composer-runtime-hlfv1/composerpool.go:75-82 | the method performs exactly `PutStep`: queue becomes `old(queue) + [composer]`, count unchanged, result `true`; it keeps the invariant, and keeps conservation when the handle was held |
| `ComposerPoolModel.CreatedAreNumbered` | packages/composer-runtime-hlfv1/composerpool.go:56-58 | created handles are pairwise distinct, and their indices are exactly `0 .. PoolCount-1` |
| `ComposerPoolModel.RunPreservesWellFormed` | packages/composer-runtime-hlfv1/composerpool.go:43-82 | along any sequence of non-blocking calls, the invariant holds, `PoolMax` and the capacity stay fixed, and the counter never decreases |
| `ComposerPoolModel.RunPreservesConserved` | packages/composer-runtime-hlfv1/composerpool.go:43-82 | along any sequence of calls with one `Put` per `Get`, conservation holds at the end and `|queue| <= PoolCount <= PoolMax` |
| `ComposerPoolModel.DisciplinedRunBlocksOnlyOnGet` | packages/composer-runtime-hlfv1/composerpool.go:68-80 | if a disciplined sequence of calls blocks, there is a call `k` that is a `Get`, the calls before it run without blocking, and the state they reach is at the ceiling with an empty channel; so a disciplined run never blocks on a `Put` |
| `ComposerPoolModel.ScenarioTwoGets` | packages/composer-runtime-hlfv1/composerpool.go:50-59 | with capacity 2, two `Get`s yield handles 0 and 1, and a third `Get` would block |
| `ComposerPoolModel.ScenarioReuseBelowCeiling` | packages/composer-runtime-hlfv1/composerpool.go:50-59 | with capacity 3, Get, Put, Get yields handles 0 then 1, with handle 0 left queued and the counter at 2 |
| `ComposerPoolModel.ScenarioCapacityOne` | packages/composer-runtime-hlfv1/composerpool.go:50-80 | with capacity 1, a second `Get` blocks until the handle is put back, then receives exactly that handle without creating another |
| `ComposerPoolModel.ScenarioGetPutGet` | packages/composer-runtime-hlfv1/composerpool.go:28-82 | the capacity-3 scenario run through the class, returning handles 0 and 1 |

## Left out

- The `sync.RWMutex` and the double-checked locking (lines 49-63) are not modelled. The lock makes the counter's test-and-increment atomic. Each channel operation is atomic on its own, and `Put` takes no lock at all. So every call has a single step that changes state, and the model runs those steps one after another. In that sequential model the two checks are one `if count < max`.
- The order among waiting callers is not modelled. A `Get` that passes the check at line 50 but fails the re-check at line 54 waits at line 68 while still holding the write lock, because the `Unlock` at line 53 is deferred. Meanwhile every other `Get` waits for the read lock at line 49.
- Channel blocking is modelled as preconditions (lines 68 and 80). Suspension, waking a waiter, and fairness among waiters are not modelled.
- The `logger.Debug` calls are not modelled. Apart from the nil case below, they have no effect on the pool's state.
- Nil handles are not modelled: a `Composer` in the model is never nil. In Go, `Put(nil)` panics at line 79, where the debug call reads `composer.Index`, and the send at line 80 never happens.
- The internals of `NewComposer()` (line 55) are not part of this model. A handle is the value `Composer(index)`.
- Handle identity is by index rather than by Go pointer. The invariant makes created indices distinct, so the two coincide for handles the pool creates. A foreign handle carrying a pool handle's index is not distinguished.
- Non-positive `max` is not modelled. The constructor requires `max >= 1`. In Go, a negative `max` panics in `make`, and `max == 0` gives an unbuffered channel.
- Go's fixed-width `int` is not modelled, and this loses nothing. `PoolCount` is only incremented while it is below `PoolMax`, which is itself an `int`, so the increment cannot overflow.
- The "discards it if the pool is currently at capacity" branch promised by the doc comment on `Put` is not modelled. The code never discards.
