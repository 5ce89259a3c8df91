/**
 Model of the gradient-checkpointing state store of burn-autodiff
 (burn-autodiff/src/checkpoint/state.rs).

 A `State` records, for one computation-graph node, whether its forward
 output is kept (`Computed`) or must be rebuilt from the node's parents
 (`Recompute`), together with the number of backward uses still expected
 (`nRequired`).  `BackwardStates` maps node identifiers to states and hands
 the kept outputs out one use at a time, evicting an entry on its last use.

 Every `panic!`, `unreachable!` and `unwrap` of the source is a fatal
 contract violation.  The specification functions below return an
 `Outcome` that names which one fires; the methods of `BackwardStates`
 require the condition under which none fires.
 */
module CheckpointState {

  /** Identifier of a computation-graph node; only used as a lookup key. */
  datatype NodeId = NodeId(value: nat)

  /** The dynamic type of a type-erased payload (what `downcast` compares). */
  datatype TypeTag = TypeTag(id: nat)

  /** A type-erased node output: the payload and the tag of its dynamic type. */
  datatype StateContent<V> = StateContent(tag: TypeTag, payload: V)

  /** The state kept for one node. */
  datatype State<V> =
    | Recompute(nRequired: nat)
    | Computed(content: StateContent<V>, nRequired: nat)

  /** The fatal contract violations of the store. */
  datatype Panic =
    | MissingEntry       // `unwrap` of a lookup or removal that found no entry
    | CounterUnderflow   // `n_required() - 1` on a zero counter
    | RecomputeAccessed  // `unreachable!` when reading the content of a `Recompute` state
    | DowncastMismatch   // `unwrap` of a downcast to a type other than the stored one
    | MergeKindMismatch  // `panic!` when merging a `Recompute` with a `Computed` state

  /** Either a value, or the fatal violation that stops execution instead. */
  datatype Outcome<T> = Ok(value: T) | Panicked(panic: Panic)

  datatype Option<T> = None | Some(value: T)

  type StateMap<V> = map<NodeId, State<V>>

  /** True when `a` and `b` are both `Recompute` or both `Computed`. */
  predicate SameKind<V>(a: State<V>, b: State<V>)
  {
    a.Recompute? == b.Recompute?
  }

  // ---------------------------------------------------------------------
  // State
  // ---------------------------------------------------------------------

  /** `to_state_content` and `into_state_content`: the stored output of a
      `Computed` state; a `Recompute` state has none (a child was accessed
      before its parents). */
  function ToStateContent<V>(s: State<V>): (r: Outcome<StateContent<V>>)
    ensures r.Ok? <==> s.Computed?
    ensures r.Ok? ==> s == Computed(r.value, s.nRequired)
    ensures r.Panicked? ==> r.panic == RecomputeAccessed
  {
    match s
    case Recompute(_) => Panicked(RecomputeAccessed)
    case Computed(content, _) => Ok(content)
  }

  /** `downcast::<T>` of a stored content, where `want` is the tag of `T`. */
  function Downcast<V>(content: StateContent<V>, want: TypeTag): (r: Outcome<V>)
    ensures r.Ok? <==> content.tag == want
    ensures r.Ok? ==> r.value == content.payload
    ensures r.Panicked? ==> r.panic == DowncastMismatch
  {
    if content.tag == want then Ok(content.payload) else Panicked(DowncastMismatch)
  }

  /** `State::increment`: one more use is expected. */
  function Increment<V>(s: State<V>): (r: State<V>)
    ensures r.nRequired == s.nRequired + 1
    ensures SameKind(r, s) && (s.Computed? ==> r.content == s.content)
  {
    match s
    case Recompute(n) => Recompute(n + 1)
    case Computed(content, n) => Computed(content, n + 1)
  }

  /** `State::merge`: `s` absorbs the uses of `other`, a state recorded for the
      same node by another trace.  Mixing the two kinds is fatal. */
  function Merge<V>(s: State<V>, other: State<V>): (r: Outcome<State<V>>)
    ensures r.Ok? <==> SameKind(s, other)
    ensures r.Panicked? ==> r.panic == MergeKindMismatch
    ensures r.Ok? ==> r.value.nRequired == s.nRequired + other.nRequired
    ensures r.Ok? ==> SameKind(r.value, s) && (s.Computed? ==> r.value.content == s.content)
  {
    match other
    case Recompute(n) =>
      (match s
       case Recompute(m) => Ok(Recompute(m + n))
       case Computed(_, _) => Panicked(MergeKindMismatch))
    case Computed(_, n) =>
      (match s
       case Recompute(_) => Panicked(MergeKindMismatch)
       case Computed(content, m) => Ok(Computed(content, m + n)))
  }

  // ---------------------------------------------------------------------
  // Specification of the map operations
  // ---------------------------------------------------------------------

  /** Every entry still expects at least one use: an entry whose counter
      reaches zero is removed, never kept. */
  ghost predicate Live<V>(m: StateMap<V>)
  {
    forall k :: k in m ==> m[k].nRequired >= 1
  }

  /** `m` and `m'` hold the same entries on every node other than `id`. */
  ghost predicate AgreeExcept<V>(m: StateMap<V>, m': StateMap<V>, id: NodeId)
  {
    forall k :: k != id ==> (k in m <==> k in m') && (k in m ==> m'[k] == m[k])
  }

  /** The condition under which `get_state` for `id` and the type tagged
      `want` does not abort. */
  predicate CanGet<V>(m: StateMap<V>, id: NodeId, want: TypeTag)
  {
    id in m && m[id].nRequired >= 1 && m[id].Computed? && m[id].content.tag == want
  }

  /** What one `get_state` hands out and the map it leaves behind. */
  datatype Taken<V> = Taken(output: V, rest: StateMap<V>)

  /** `get_state`: remove the entry, decrement its counter, and either put the
      decremented state back and return a clone of its content, or, on the
      last use, return the content itself and leave the entry removed. */
  function Take<V>(m: StateMap<V>, id: NodeId, want: TypeTag): (r: Outcome<Taken<V>>)
    ensures r.Ok? <==> CanGet(m, id, want)
    ensures id !in m ==> r == Panicked(MissingEntry)
    ensures id in m && m[id].nRequired == 0 ==> r == Panicked(CounterUnderflow)
    ensures id in m && m[id].nRequired >= 1 && m[id].Recompute? ==> r == Panicked(RecomputeAccessed)
    ensures id in m && m[id].nRequired >= 1 && m[id].Computed? && m[id].content.tag != want ==> r == Panicked(DowncastMismatch)
    ensures CanGet(m, id, want) ==> r.value.output == m[id].content.payload
    ensures CanGet(m, id, want) ==> AgreeExcept(m, r.value.rest, id)
    ensures CanGet(m, id, want) && m[id].nRequired > 1 ==>
      && id in r.value.rest
      && r.value.rest[id].Computed?
      && r.value.rest[id].content == m[id].content
      && r.value.rest[id].nRequired == m[id].nRequired - 1
      && |r.value.rest| == |m|
    ensures CanGet(m, id, want) && m[id].nRequired == 1 ==>
      id !in r.value.rest && |r.value.rest| == |m| - 1
  {
    if id !in m then Panicked(MissingEntry)
    else
      var state := m[id];
      var removed := m - {id};
      if state.nRequired == 0 then Panicked(CounterUnderflow)
      else
        var remaining := state.nRequired - 1;
        if remaining > 0 then
          var newStoredState := state.(nRequired := remaining);
          match ToStateContent(newStoredState)
          case Panicked(p) => Panicked(p)
          case Ok(content) =>
            match Downcast(content, want)
            case Panicked(p) => Panicked(p)
            case Ok(output) =>
              assert removed[id := newStoredState].Keys == m.Keys;
              Ok(Taken(output, removed[id := newStoredState]))
        else
          match ToStateContent(state)
          case Panicked(p) => Panicked(p)
          case Ok(content) =>
            match Downcast(content, want)
            case Panicked(p) => Panicked(p)
            case Ok(output) => Ok(Taken(output, removed))
  }

  /** `save`: the registered entry for `id` becomes `Computed` with the saved
      content, keeping its counter; `id` must have been registered. */
  function Saved<V>(m: StateMap<V>, id: NodeId, saved: StateContent<V>): (r: Outcome<StateMap<V>>)
    ensures r.Ok? <==> id in m
    ensures r.Panicked? ==> r.panic == MissingEntry
    ensures r.Ok? ==> r.value.Keys == m.Keys && AgreeExcept(m, r.value, id)
    ensures r.Ok? ==> r.value[id].Computed? && r.value[id].content == saved
    ensures r.Ok? ==> r.value[id].nRequired == m[id].nRequired
  {
    if id !in m then Panicked(MissingEntry)
    else Ok(m[id := Computed(saved, m[id].nRequired)])
  }

  /** No node is `Recompute` on one side and `Computed` on the other. */
  predicate Compatible<V>(m: StateMap<V>, o: StateMap<V>)
  {
    forall k :: k in m && k in o ==> SameKind(m[k], o[k])
  }

  /** The entry for `k` once `o` has been merged into `m`. */
  function Combined<V>(m: StateMap<V>, o: StateMap<V>, k: NodeId): State<V>
    requires k in m || k in o
    requires Compatible(m, o)
  {
    if k in m && k in o then Merge(m[k], o[k]).value
    else if k in m then m[k]
    else o[k]
  }

  /** `extend`: every entry of `o` is merged into the entry of `m` for the same
      node, or added when `m` has none. */
  function Extended<V>(m: StateMap<V>, o: StateMap<V>): (r: Outcome<StateMap<V>>)
    ensures r.Ok? <==> Compatible(m, o)
    ensures r.Panicked? ==> r.panic == MergeKindMismatch
    ensures r.Ok? ==> r.value.Keys == m.Keys + o.Keys
    ensures r.Ok? ==> forall k :: k in m && k !in o ==> r.value[k] == m[k]
    ensures r.Ok? ==> forall k :: k in o && k !in m ==> r.value[k] == o[k]
    ensures r.Ok? ==> forall k :: k in m && k in o ==>
      && r.value[k].nRequired == m[k].nRequired + o[k].nRequired
      && SameKind(r.value[k], m[k])
      && (m[k].Computed? ==> r.value[k].content == m[k].content)
  {
    if Compatible(m, o) then Ok(map k | k in m.Keys + o.Keys :: Combined(m, o, k))
    else Panicked(MergeKindMismatch)
  }

  // ---------------------------------------------------------------------
  // BackwardStates
  // ---------------------------------------------------------------------

  /** Links node identifiers to their current state. */
  class BackwardStates<V> {
    var entries: StateMap<V>

    /** The derived `Default`: an empty store. */
    constructor ()
      ensures entries == map[]
    {
      entries := map[];
    }

    /** The derived `new`: a store holding exactly the given map. */
    constructor FromMap(m: StateMap<V>)
      ensures entries == m
    {
      entries := m;
    }

    /** Hands out the output of `nodeId` for one use and decrements its
        counter, evicting the entry on its last use. */
    method GetState(nodeId: NodeId, want: TypeTag) returns (output: V)
      requires CanGet(entries, nodeId, want)
      modifies this
      ensures Take(old(entries), nodeId, want) == Ok(Taken(output, entries))
      ensures output == old(entries[nodeId].content.payload)
      ensures |entries| == if old(entries[nodeId].nRequired) > 1 then old(|entries|) else old(|entries|) - 1
    {
      var state := entries[nodeId];
      entries := entries - {nodeId};
      var remaining := state.nRequired - 1;
      if remaining > 0 {
        var newStoredState := state.(nRequired := remaining);
        var content := ToStateContent(newStoredState).value;
        output := Downcast(content, want).value;
        InsertState(nodeId, newStoredState);
      } else {
        output := Downcast(ToStateContent(state).value, want).value;
      }
    }

    /** Read-only lookup, without decrementing. */
    function GetStateRef(nodeId: NodeId): (r: Option<State<V>>)
      reads this
      ensures r.Some? <==> nodeId in entries
      ensures r.Some? ==> r.value == entries[nodeId]
    {
      if nodeId in entries then Some(entries[nodeId]) else None
    }

    /** Places `state` for `nodeId`, replacing any earlier entry. */
    method InsertState(nodeId: NodeId, state: State<V>)
      modifies this
      ensures entries == old(entries)[nodeId := state]
    {
      entries := entries[nodeId := state];
    }

    /** Stores the output of an already registered node, keeping its counter. */
    method Save(nodeId: NodeId, saved: StateContent<V>)
      requires nodeId in entries
      modifies this
      ensures Saved(old(entries), nodeId, saved) == Ok(entries)
    {
      var nRequired := GetStateRef(nodeId).value.nRequired;
      InsertState(nodeId, Computed(saved, nRequired));
    }

    /** Merges the store `other` (consumed by the call) into this one. */
    method Extend(other: BackwardStates<V>)
      requires other != this
      requires Compatible(entries, other.entries)
      modifies this
      ensures Extended(old(entries), other.entries) == Ok(entries)
    {
      ghost var start := entries;
      var pending := other.entries.Keys;
      while pending != {}
        invariant pending <= other.entries.Keys
        invariant entries.Keys == start.Keys + (other.entries.Keys - pending)
        invariant forall k :: k in entries ==>
          entries[k] == if k in other.entries && k !in pending then Combined(start, other.entries, k) else start[k]
        decreases pending
      {
        var nodeId :| nodeId in pending;
        pending := pending - {nodeId};
        var state := other.entries[nodeId];
        if nodeId in entries {
          var s := entries[nodeId];
          entries := entries - {nodeId};
          s := Merge(s, state).value;
          entries := entries[nodeId := s];
        } else {
          entries := entries[nodeId := state];
        }
      }
      assert entries == Extended(start, other.entries).value;
    }

    /** Number of nodes that still have an entry. */
    function Len(): (n: nat)
      reads this
      ensures n == |entries.Keys|
      ensures n == 0 <==> entries == map[]
    {
      |entries|
    }

    /** The mutable borrow `get_mut`: when `nodeId` has an entry, the caller's
        in-place `update` of that state is what the entry holds afterwards. */
    method GetMut(nodeId: NodeId, update: State<V> -> State<V>) returns (found: bool)
      modifies this
      ensures found <==> nodeId in old(entries)
      ensures entries == if found then old(entries)[nodeId := update(old(entries)[nodeId])] else old(entries)
    {
      found := nodeId in entries;
      if found {
        entries := entries[nodeId := update(entries[nodeId])];
      }
    }
  }
}
