# Gradient-checkpointing state store (burn-autodiff)

This project models the state store that burn's autodiff backend uses during
gradient checkpointing (`burn-autodiff/src/checkpoint/state.rs`). It also
proves properties of that model in Dafny.

- **`State`**: the record kept for one node of the computation graph. It is
  either `Recompute(nRequired)`, meaning the forward output must be rebuilt
  from the node's parents, or `Computed(content, nRequired)`, meaning the
  output is kept. `nRequired` counts the backward uses still expected; it is
  the model of the `n_required()` accessor.
- **`StateContent`**: the type-erased output (`Box<dyn Any + Send + Sync>`).
  It is modelled as a payload plus a `TypeTag` that stands for its dynamic
  type. A `downcast::<T>` succeeds only when the requested tag equals the
  stored one.
- **`BackwardStates`**: a class whose field `entries` is the
  `HashMap<NodeID, State>`. Each method is proved against a pure
  specification function of the old map:
  - `get_state` against `Take`;
  - `save` against `Saved`;
  - `extend` against `Extended`.

Every `panic!`, `unreachable!` and `unwrap` in the source is a fatal contract
violation, named by the `Panic` datatype. The specification functions return
an `Outcome` that says which violation fires, in the order the source meets
them. The methods `require` the condition under which none fires.

`checkpoint_state.dfy` holds the data model, the operations and the class.
`checkpoint_properties.dfy` holds the lemmas. They cover:

- merging compared with repeated incrementing;
- the exact-count consumption of one node;
- liveness of the counters;
- the algebra of `extend`;
- two worked scenarios.

Two points where the model follows the code rather than the protocol it is meant to serve:

- A non-final `get_state` of a `Recompute` node builds the decremented state
  to reinsert it. The code calls `to_state_content` on it, which is
  `unreachable!`. So `Take` returns `RecomputeAccessed` on both paths.
- The protocol expects that no entry ever has a zero counter. The code does not
  enforce this, because `insert_state` accepts any counter. The model states
  the invariant as `Live` and proves which operations preserve it.

## Model

| member | source | states |
|---|---|---|
| `CheckpointState.ToStateContent` | burn-autodiff/src/checkpoint/state.rs:25-48 | the content exists exactly for `Computed` states and rebuilds the state with its counter; a `Recompute` state is the fatal `RecomputeAccessed` |
| `CheckpointState.Downcast` | burn-autodiff/src/checkpoint/state.rs:129-141 | succeeds exactly when the requested tag equals the stored one and then returns the payload; otherwise the fatal `DowncastMismatch` |
| `CheckpointState.Increment` | burn-autodiff/src/checkpoint/state.rs:61-69 | the counter grows by exactly one; the kind and the content stay the same |
| `CheckpointState.Merge` | burn-autodiff/src/checkpoint/state.rs:71-91 | succeeds exactly when both states have the same kind, otherwise `MergeKindMismatch`; the counters are summed, and the kind and content of `self` are kept |
| `CheckpointState.Take` | burn-autodiff/src/checkpoint/state.rs:104-144 | the fatal paths in source order: missing entry, counter underflow, `Recompute` state, type mismatch; success exactly when none applies; output is the stored payload; with more than one use left the entry stays with the same content and the counter one smaller (size unchanged), on the last use the entry is gone (size one smaller); no other entry changes |
| `CheckpointState.Saved` | burn-autodiff/src/checkpoint/state.rs:157-169 | fails with `MissingEntry` exactly when the node is unregistered; otherwise the entry becomes `Computed` with the saved content and the old counter; same node set, other entries unchanged |
| `CheckpointState.Extended` | burn-autodiff/src/checkpoint/state.rs:171-196 | fails exactly when some shared node has different kinds on the two sides; node set is the union; nodes only in `self` are unchanged, nodes only in `other` hold `other`'s state, shared nodes hold the summed counter with `self`'s kind and content |
| `CheckpointState.BackwardStates.constructor` | burn-autodiff/src/checkpoint/state.rs:94-98 | the derived `Default` store is empty |
| `CheckpointState.BackwardStates.FromMap` | burn-autodiff/src/checkpoint/state.rs:94-98 | the derived `new(map)` store holds exactly the given map |
| `CheckpointState.BackwardStates.GetState` | burn-autodiff/src/checkpoint/state.rs:104-144 | under the no-panic condition, returns the stored payload and leaves exactly the map `Take` describes; the size is unchanged or one smaller on the last use |
| `CheckpointState.BackwardStates.GetStateRef` | burn-autodiff/src/checkpoint/state.rs:146-150 | returns `Some` exactly when the node has an entry, and then that entry; nothing changes |
| `CheckpointState.BackwardStates.InsertState` | burn-autodiff/src/checkpoint/state.rs:152-155 | the entry for the node is replaced by the given state; every other entry is unchanged |
| `CheckpointState.BackwardStates.Save` | burn-autodiff/src/checkpoint/state.rs:157-169 | on a registered node, the new map is the one `Saved` describes |
| `CheckpointState.BackwardStates.Extend` | burn-autodiff/src/checkpoint/state.rs:171-196 | the loop visits `other`'s nodes in an arbitrary order and ends with exactly the map `Extended` describes, so the order does not matter |
| `CheckpointState.BackwardStates.Len` | burn-autodiff/src/checkpoint/state.rs:198-200 | the number of nodes with an entry; zero exactly when the store is empty |
| `CheckpointState.BackwardStates.GetMut` | burn-autodiff/src/checkpoint/state.rs:202-204 | reports whether the node has an entry; when it does, the caller's in-place update of that state is what the entry holds afterwards, and nothing else changes |
| `CheckpointProperties.IncrementNAddsN` | burn-autodiff/src/checkpoint/state.rs:61-69 | `n` increments raise the counter by `n` and keep the kind and content |
| `CheckpointProperties.MergeIsRepeatedIncrement` | burn-autodiff/src/checkpoint/state.rs:61-91 | merging a state with `n` uses equals incrementing `n` times |
| `CheckpointProperties.MergeCommutes` | burn-autodiff/src/checkpoint/state.rs:71-91 | both merge directions give the same counter and kind; the same state when the contents agree |
| `CheckpointProperties.MergeAssociative` | burn-autodiff/src/checkpoint/state.rs:71-91 | merging three states of one kind does not depend on grouping |
| `CheckpointProperties.TakeUndoesIncrement` | burn-autodiff/src/checkpoint/state.rs:61-69 | one extra use registered by `increment` and consumed by one `get_state` leaves the map as it was |
| `CheckpointProperties.TakeKeepsLive` | burn-autodiff/src/checkpoint/state.rs:108-143 | on a map whose counters are all positive, `get_state` never underflows and leaves every counter positive |
| `CheckpointProperties.TakeClosedForm` | burn-autodiff/src/checkpoint/state.rs:109-143 | a successful `get_state` returns the stored payload and leaves the node removed on its last use, otherwise the same entry with its counter one smaller |
| `CheckpointProperties.DrainStep` | burn-autodiff/src/checkpoint/state.rs:104-144 | a sequence of `k + 1` calls is one call followed by `k` calls on the map it leaves |
| `CheckpointProperties.DrainLast` | burn-autodiff/src/checkpoint/state.rs:109-143 | the one call on a node with a single use left yields its payload and removes the node, leaving every other entry as it was |
| `CheckpointProperties.DrainMore` | burn-autodiff/src/checkpoint/state.rs:104-144 | with more than one use left, the `n` calls yield the payload once and then whatever the remaining `n - 1` calls yield from the map the first call leaves |
| `CheckpointProperties.DrainConserves` | burn-autodiff/src/checkpoint/state.rs:104-144 | a node registered for `n` uses yields its payload exactly `n` times and is then absent, with the rest of the map untouched |
| `CheckpointProperties.DrainOvershoot` | burn-autodiff/src/checkpoint/state.rs:109 | call `n + 1` on a node registered for `n` uses is the fatal `MissingEntry` |
| `CheckpointProperties.SaveThenTake` | burn-autodiff/src/checkpoint/state.rs:157-169 | after `save`, `get_state` with the saved type returns the saved value; with one registered use the node is then gone |
| `CheckpointProperties.SavedKeepsLive` | burn-autodiff/src/checkpoint/state.rs:157-169 | `save` keeps every counter positive |
| `CheckpointProperties.ExtendedWithEmpty` | burn-autodiff/src/checkpoint/state.rs:171-196 | extending with an empty store, or extending an empty store, changes nothing |
| `CheckpointProperties.ExtendedCommutes` | burn-autodiff/src/checkpoint/state.rs:171-196 | both directions give the same nodes, counters and kinds; the same map when the shared outputs agree |
| `CheckpointProperties.ExtendedAssociative` | burn-autodiff/src/checkpoint/state.rs:171-196 | extending three pairwise-compatible stores does not depend on grouping |
| `CheckpointProperties.ExtendedAssociativeAt` | burn-autodiff/src/checkpoint/state.rs:171-196 | for any node of the three stores, both groupings of the merges hold it and hold the same state for it |
| `CheckpointProperties.ExtendedKeepsLive` | burn-autodiff/src/checkpoint/state.rs:171-196 | merging two stores whose counters are all positive keeps them positive |
| `CheckpointProperties.ExtendedSize` | burn-autodiff/src/checkpoint/state.rs:171-196 | the merged store's size is the sum of both sizes minus the shared nodes |
| `CheckpointProperties.MergeExample` | burn-autodiff/src/checkpoint/state.rs:171-196 | `{A: Recompute(2), B: Computed(x, 1)}` extended by `{A: Recompute(3)}` is `{A: Recompute(5), B: Computed(x, 1)}`, in either direction |
| `CheckpointProperties.TwoUsesScenario` | burn-autodiff/src/checkpoint/state.rs:104-169 | register two uses, save "hello", get twice: both uses get "hello"; after the first, one entry with counter 1 is left; the store ends empty |

## Left out

- Debug output: the `println!` calls in `get_state` and the commented-out prints in `extend` are I/O and have no effect on the state.
- `CheckpointState.Increment`: counters are unbounded naturals. A `usize` `+= 1` that overflows at 2^64 is not modelled.
- `CheckpointState.Merge`: the same applies. An overflowing `+= n` is not modelled.
- `CheckpointState.Take`: `n_required() - 1` on a zero counter is modelled as the debug-build overflow panic (`CounterUnderflow`). A release build wraps to `usize::MAX` instead and goes on to the content and downcast checks; that path is not modelled.
- `Box<dyn Any>`, `downcast` and clone versus move are replaced by a tagged payload. A clone is equal to the original. `to_state_content` and `into_state_content` differ only in borrowing versus moving, so one function, `ToStateContent`, models both.
- `HashMap` hashing and iteration order are not modelled; the store is a mathematical map. `Extend` takes `other`'s nodes in an unspecified order.
- `CheckpointState.BackwardStates.Extend`: the method requires the two stores to be compatible. The partly merged store left behind by a panic in the middle of the loop is not modelled. `other` is read but not emptied, because the Rust value is moved in and dropped.
- `CheckpointState.BackwardStates.GetState`: the entry removed before a panic fires is not modelled, because the method requires that no panic fires.
- `CheckpointState.BackwardStates.GetMut`: the `&mut State` borrow is modelled as an update function applied to the entry and written back. Aliasing of the live reference is not modelled.
- `Send + Sync` and concurrency: the store is used sequentially.
- `src/train/logger/logger.rs`, `crates/burn-jit/src/kernel/conv/conv2d/gemm/spec.rs` and `crates/burn-jit/src/kernel/reduce/naive/mean_dim.rs` are not part of this model. The first is logging plumbing, the second holds only type-level declarations, and the third is a GPU kernel written against an external API.
