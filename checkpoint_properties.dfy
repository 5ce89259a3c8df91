/**
 Properties of the checkpoint state store: how merging relates to
 incrementing, what a sequence of uses of one node does, which operations
 keep every entry live, and the algebra of `extend`.
 */
module CheckpointProperties {
  import opened CheckpointState

  // ---------------------------------------------------------------------
  // State: increment and merge
  // ---------------------------------------------------------------------

  /** `n` successive calls of `increment`. */
  function IncrementN<V>(s: State<V>, n: nat): State<V>
  {
    if n == 0 then s else Increment(IncrementN(s, n - 1))
  }

  lemma {:induction false} IncrementNAddsN<V>(s: State<V>, n: nat)
    ensures IncrementN(s, n) == s.(nRequired := s.nRequired + n)
  {
    if n > 0 {
      IncrementNAddsN(s, n - 1);
    }
  }

  /** Merging a state that carries `n` uses is the same as incrementing `n`
      times: both ways of registering extra uses agree. */
  lemma MergeIsRepeatedIncrement<V>(s: State<V>, other: State<V>)
    requires SameKind(s, other)
    ensures Merge(s, other) == Ok(IncrementN(s, other.nRequired))
  {
    IncrementNAddsN(s, other.nRequired);
  }

  /** The direction of a merge does not change the counter or the kind, and
      when both sides hold the same output it changes nothing at all. */
  lemma MergeCommutes<V>(s: State<V>, other: State<V>)
    requires SameKind(s, other)
    ensures Merge(other, s).Ok?
    ensures Merge(s, other).value.nRequired == Merge(other, s).value.nRequired
    ensures SameKind(Merge(s, other).value, Merge(other, s).value)
    ensures (s.Recompute? || s.content == other.content) ==> Merge(s, other) == Merge(other, s)
  {
  }

  lemma MergeAssociative<V>(a: State<V>, b: State<V>, c: State<V>)
    requires SameKind(a, b) && SameKind(b, c)
    ensures Merge(a, b).Ok? && Merge(b, c).Ok?
    ensures Merge(Merge(a, b).value, c) == Merge(a, Merge(b, c).value)
  {
  }

  // ---------------------------------------------------------------------
  // get_state
  // ---------------------------------------------------------------------

  /** One extra use registered with `increment` and then consumed by one
      `get_state` leaves the store exactly as it was. */
  lemma TakeUndoesIncrement<V>(m: StateMap<V>, id: NodeId, want: TypeTag)
    requires CanGet(m, id, want)
    ensures Take(m[id := Increment(m[id])], id, want) == Ok(Taken(m[id].content.payload, m))
  {
    var bumped := m[id := Increment(m[id])];
    var rest := Take(bumped, id, want).value.rest;
    assert rest == m;
  }

  /** `get_state` on a store whose entries are all live never underflows, and
      the store it leaves is live again. */
  lemma TakeKeepsLive<V>(m: StateMap<V>, id: NodeId, want: TypeTag)
    requires Live(m)
    ensures Take(m, id, want) != Panicked(CounterUnderflow)
    ensures Take(m, id, want).Ok? ==> Live(Take(m, id, want).value.rest)
  {
  }

  /** What `k` successive calls of `get_state` on one node hand out, and the
      store they leave; the first fatal violation stops the sequence. */
  datatype Drained<V> = Drained(outputs: seq<V>, rest: StateMap<V>)

  function Drain<V>(m: StateMap<V>, id: NodeId, want: TypeTag, k: nat): Outcome<Drained<V>>
  {
    if k == 0 then Ok(Drained([], m))
    else
      match Take(m, id, want)
      case Panicked(p) => Panicked(p)
      case Ok(t) =>
        match Drain(t.rest, id, want, k - 1)
        case Panicked(p) => Panicked(p)
        case Ok(d) => Ok(Drained([t.output] + d.outputs, d.rest))
  }

  /** The map one successful `get_state` leaves: the entry is removed on its
      last use, otherwise kept with its counter one smaller. */
  function Consumed<V>(m: StateMap<V>, id: NodeId): StateMap<V>
    requires id in m && m[id].nRequired >= 1
  {
    if m[id].nRequired == 1 then m - {id} else m[id := m[id].(nRequired := m[id].nRequired - 1)]
  }

  /** A successful `get_state`, in closed form. */
  lemma TakeClosedForm<V>(m: StateMap<V>, id: NodeId, want: TypeTag)
    requires CanGet(m, id, want)
    ensures Take(m, id, want) == Ok(Taken(m[id].content.payload, Consumed(m, id)))
  {
    var rest := Take(m, id, want).value.rest;
    assert rest == Consumed(m, id);
  }

  /** `k + 1` calls are one call followed by `k` calls on the map it leaves. */
  lemma DrainStep<V>(m: StateMap<V>, id: NodeId, want: TypeTag, k: nat)
    requires CanGet(m, id, want)
    ensures Drain(m, id, want, k + 1)
         == match Drain(Consumed(m, id), id, want, k)
            case Panicked(p) => Panicked(p)
            case Ok(d) => Ok(Drained([m[id].content.payload] + d.outputs, d.rest))
  {
    TakeClosedForm(m, id, want);
  }

  /** `n` copies of `v`. */
  function Repeat<V>(v: V, n: nat): seq<V>
  {
    if n == 0 then [] else [v] + Repeat(v, n - 1)
  }

  lemma {:induction false} RepeatIsCopies<V>(v: V, n: nat)
    ensures |Repeat(v, n)| == n
    ensures forall i :: 0 <= i < n ==> Repeat(v, n)[i] == v
  {
    if n > 0 {
      RepeatIsCopies(v, n - 1);
    }
  }

  /** A non-final use keeps the node, one counter lower, and nothing else
      changes. */
  lemma ConsumedKeeps<V>(m: StateMap<V>, id: NodeId)
    requires id in m && m[id].nRequired > 1
    ensures id in Consumed(m, id)
    ensures Consumed(m, id)[id].Computed? == m[id].Computed?
    ensures Consumed(m, id)[id].Computed? ==> Consumed(m, id)[id].content == m[id].content
    ensures Consumed(m, id)[id].nRequired == m[id].nRequired - 1
    ensures Consumed(m, id) - {id} == m - {id}
  {
    assert Consumed(m, id) - {id} == m - {id};
  }

  /** The last registered use hands out the output and removes the node. */
  lemma DrainLast<V>(m: StateMap<V>, id: NodeId, want: TypeTag)
    requires CanGet(m, id, want) && m[id].nRequired == 1
    ensures Drain(m, id, want, 1) == Ok(Drained([m[id].content.payload], m - {id}))
  {
    DrainStep(m, id, want, 0);
    assert Consumed(m, id) == m - {id};
    assert Drain(m - {id}, id, want, 0) == Ok(Drained([], m - {id}));
    assert [m[id].content.payload] + [] == [m[id].content.payload];
  }

  /** A non-final use followed by the remaining ones hands out one output
      more than the remaining ones alone. */
  lemma DrainMore<V>(m: StateMap<V>, id: NodeId, want: TypeTag, later: seq<V>)
    requires CanGet(m, id, want) && m[id].nRequired > 1
    requires Drain(Consumed(m, id), id, want, m[id].nRequired - 1) == Ok(Drained(later, m - {id}))
    ensures Drain(m, id, want, m[id].nRequired) == Ok(Drained([m[id].content.payload] + later, m - {id}))
  {
    DrainStep(m, id, want, m[id].nRequired - 1);
  }

  /** Conservation: a node registered for `n` uses yields its output exactly
      `n` times and is then gone, the rest of the store untouched. */
  lemma {:induction false} DrainConserves<V>(m: StateMap<V>, id: NodeId, want: TypeTag)
    requires CanGet(m, id, want)
    ensures Drain(m, id, want, m[id].nRequired)
         == Ok(Drained(Repeat(m[id].content.payload, m[id].nRequired), m - {id}))
    decreases m[id].nRequired
  {
    var n, v := m[id].nRequired, m[id].content.payload;
    if n == 1 {
      DrainLast(m, id, want);
    } else {
      var c := Consumed(m, id);
      ConsumedKeeps(m, id);
      DrainConserves(c, id, want);
      DrainMore(m, id, want, Repeat(v, n - 1));
    }
  }

  /** One `get_state` more than the registered uses is the fatal
      `MissingEntry`. */
  lemma {:induction false} DrainOvershoot<V>(m: StateMap<V>, id: NodeId, want: TypeTag)
    requires CanGet(m, id, want)
    ensures Drain(m, id, want, m[id].nRequired + 1) == Panicked(MissingEntry)
    decreases m[id].nRequired
  {
    var n := m[id].nRequired;
    DrainStep(m, id, want, n);
    if n > 1 {
      ConsumedKeeps(m, id);
      DrainOvershoot(Consumed(m, id), id, want);
    } else {
      assert Take(m - {id}, id, want) == Panicked(MissingEntry);
    }
  }

  // ---------------------------------------------------------------------
  // save
  // ---------------------------------------------------------------------

  /** A saved output comes back from the next `get_state` that asks for its
      type; when one use was registered the node is then gone. */
  lemma SaveThenTake<V>(m: StateMap<V>, id: NodeId, saved: StateContent<V>)
    requires id in m && m[id].nRequired >= 1
    ensures CanGet(Saved(m, id, saved).value, id, saved.tag)
    ensures Take(Saved(m, id, saved).value, id, saved.tag).value.output == saved.payload
    ensures m[id].nRequired == 1 ==> Take(Saved(m, id, saved).value, id, saved.tag).value.rest == m - {id}
  {
  }

  lemma SavedKeepsLive<V>(m: StateMap<V>, id: NodeId, saved: StateContent<V>)
    requires Live(m) && id in m
    ensures Live(Saved(m, id, saved).value)
  {
  }

  // ---------------------------------------------------------------------
  // extend
  // ---------------------------------------------------------------------

  /** At every node both sides hold, a `Computed` entry holds the same output
      on both sides (the same value produced by two traces). */
  ghost predicate SamePayloads<V>(a: StateMap<V>, b: StateMap<V>)
  {
    forall k :: k in a && k in b && a[k].Computed? && b[k].Computed? ==> a[k].content == b[k].content
  }

  lemma ExtendedWithEmpty<V>(m: StateMap<V>)
    ensures Extended(m, map[]) == Ok(m)
    ensures Extended(map[], m) == Ok(m)
  {
    assert Extended(m, map[]).value == m;
    assert Extended(map[], m).value == m;
  }

  /** Merging in either direction gives the same nodes, counters and kinds,
      and the same store when the two sides agree on their outputs. */
  lemma ExtendedCommutes<V>(a: StateMap<V>, b: StateMap<V>)
    requires Compatible(a, b)
    ensures Compatible(b, a)
    ensures Extended(a, b).value.Keys == Extended(b, a).value.Keys
    ensures forall k :: k in Extended(a, b).value ==>
      && Extended(a, b).value[k].nRequired == Extended(b, a).value[k].nRequired
      && SameKind(Extended(a, b).value[k], Extended(b, a).value[k])
    ensures SamePayloads(a, b) ==> Extended(a, b) == Extended(b, a)
  {
    var ab, ba := Extended(a, b).value, Extended(b, a).value;
    if SamePayloads(a, b) {
      assert ab == ba;
    }
  }

  /** The entry of node `k` once `o` has been merged into `m`, for a node of
      `m`, of `o`, or of both. */
  lemma ExtendedAt<V>(m: StateMap<V>, o: StateMap<V>, k: NodeId)
    requires Compatible(m, o) && (k in m || k in o)
    ensures k in Extended(m, o).value
    ensures Extended(m, o).value[k] == Combined(m, o, k)
  {
  }

  lemma ExtendedCompatible<V>(a: StateMap<V>, b: StateMap<V>, c: StateMap<V>)
    requires Compatible(a, b) && Compatible(b, c) && Compatible(a, c)
    ensures Compatible(Extended(a, b).value, c)
    ensures Compatible(a, Extended(b, c).value)
  {
  }

  /** One node's entry does not depend on how three merges are grouped. */
  lemma ExtendedAssociativeAt<V>(a: StateMap<V>, b: StateMap<V>, c: StateMap<V>, k: NodeId)
    requires Compatible(a, b) && Compatible(b, c) && Compatible(a, c)
    requires k in a || k in b || k in c
    ensures Extended(a, b).Ok? && Compatible(Extended(a, b).value, c)
    ensures Extended(b, c).Ok? && Compatible(a, Extended(b, c).value)
    ensures k in Extended(Extended(a, b).value, c).value
    ensures k in Extended(a, Extended(b, c).value).value
    ensures Extended(Extended(a, b).value, c).value[k] == Extended(a, Extended(b, c).value).value[k]
  {
    ExtendedCompatible(a, b, c);
    if k in a || k in b {
      ExtendedAt(a, b, k);
    }
    if k in b || k in c {
      ExtendedAt(b, c, k);
    }
    ExtendedAt(Extended(a, b).value, c, k);
    ExtendedAt(a, Extended(b, c).value, k);
  }

  /** Merging three stores gives the same result however the merges are
      grouped. */
  lemma ExtendedAssociative<V>(a: StateMap<V>, b: StateMap<V>, c: StateMap<V>)
    requires Compatible(a, b) && Compatible(b, c) && Compatible(a, c)
    ensures Extended(a, b).Ok? && Compatible(Extended(a, b).value, c)
    ensures Extended(b, c).Ok? && Compatible(a, Extended(b, c).value)
    ensures Extended(Extended(a, b).value, c) == Extended(a, Extended(b, c).value)
  {
    ExtendedCompatible(a, b, c);
    var left := Extended(Extended(a, b).value, c).value;
    var right := Extended(a, Extended(b, c).value).value;
    assert left.Keys == right.Keys;
    forall k | k in left
      ensures left[k] == right[k]
    {
      ExtendedAssociativeAt(a, b, c, k);
    }
    assert left == right;
  }

  lemma ExtendedKeepsLive<V>(a: StateMap<V>, b: StateMap<V>)
    requires Live(a) && Live(b) && Compatible(a, b)
    ensures Live(Extended(a, b).value)
  {
  }

  /** The merged store holds one entry per node of either side. */
  lemma ExtendedSize<V>(a: StateMap<V>, b: StateMap<V>)
    requires Compatible(a, b)
    ensures |Extended(a, b).value| == |a| + |b| - |a.Keys * b.Keys|
  {
  }

  /** The worked merge of two partial stores: counters of the shared node
      add up and the direction does not matter. */
  lemma MergeExample<V>(x: StateContent<V>)
    ensures
      var left := map[NodeId(0) := Recompute(2), NodeId(1) := Computed(x, 1)];
      var right := map[NodeId(0) := Recompute(3)];
      var expected := map[NodeId(0) := Recompute(5), NodeId(1) := Computed(x, 1)];
      Extended(left, right) == Ok(expected) && Extended(right, left) == Ok(expected)
  {
    var left := map[NodeId(0) := Recompute(2), NodeId(1) := Computed(x, 1)];
    var right := map[NodeId(0) := Recompute(3)];
    var expected := map[NodeId(0) := Recompute(5), NodeId(1) := Computed(x, 1)];
    assert Extended(left, right).value == expected;
    assert Extended(right, left).value == expected;
  }

  // ---------------------------------------------------------------------
  // A backward pass driving the store
  // ---------------------------------------------------------------------

  /** A node registered for two uses, saved, then consumed twice: both uses
      receive the saved output, one entry with one use is left in between,
      and the store ends empty. */
  method TwoUsesScenario() returns (first: string, between: nat, counter: nat, second: string, left: nat)
    ensures first == "hello" && between == 1 && counter == 1
    ensures second == "hello" && left == 0
  {
    var store := new BackwardStates<string>();
    var x, text := NodeId(7), TypeTag(1);
    store.InsertState(x, Recompute(2));
    store.Save(x, StateContent(text, "hello"));
    first := store.GetState(x, text);
    between := store.Len();
    counter := store.GetStateRef(x).value.nRequired;
    second := store.GetState(x, text);
    left := store.Len();
  }
}
