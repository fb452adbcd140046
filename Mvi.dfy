/**
 * The generic Model-View-Intent engine: a container that owns one state,
 * changes it only through a pure reducer, and runs the side effects the
 * reducer requests.
 *
 * The two members a subclass must override become values supplied at
 * construction: `reduce`, and `handle`, which turns an effect and the
 * response the outside world gave it (of type R) into the intents the
 * handler sends back. The task that `send` spawns becomes an entry in the
 * `pending` queue; `RunEffect` is that task running later.
 */
module Mvi {
  import opened Wrappers

  /** The effects a reducer result schedules: none, or exactly the one returned. */
  function EffectList<E>(effect: Option<E>): (r: seq<E>)
    ensures |r| == (if effect.Some? then 1 else 0)
    ensures effect.Some? ==> r[0] == effect.value
  {
    match effect
    case None => []
    case Some(e) => [e]
  }

  /**
   * Sending `intents` one after another from state `s`: the state reached
   * and the effects scheduled, in order.
   */
  function Replay<S, I, E>(reduce: (S, I) -> (S, Option<E>), s: S, intents: seq<I>): (S, seq<E>)
    decreases |intents|
  {
    if intents == [] then (s, [])
    else
      var (next, effect) := reduce(s, intents[0]);
      var (last, effects) := Replay(reduce, next, intents[1..]);
      (last, EffectList(effect) + effects)
  }

  /** Replaying two batches in turn is replaying their concatenation. */
  lemma {:induction false} ReplayAppend<S, I, E>(reduce: (S, I) -> (S, Option<E>), s: S, a: seq<I>, b: seq<I>)
    ensures Replay(reduce, s, a + b) ==
              (Replay(reduce, Replay(reduce, s, a).0, b).0,
               Replay(reduce, s, a).1 + Replay(reduce, Replay(reduce, s, a).0, b).1)
  {
    if a == [] {
      assert a + b == b;
      assert Replay(reduce, s, a) == (s, []);
      assert [] + Replay(reduce, s, b).1 == Replay(reduce, s, b).1;
    } else {
      var (next, effect) := reduce(s, a[0]);
      assert (a + b)[0] == a[0];
      assert (a + b)[1..] == a[1..] + b;
      ReplayAppend(reduce, next, a[1..], b);
      var mid := Replay(reduce, next, a[1..]);
      assert Replay(reduce, s, a) == (mid.0, EffectList(effect) + mid.1);
      var tail := Replay(reduce, mid.0, b);
      assert Replay(reduce, s, a + b) == (tail.0, EffectList(effect) + (mid.1 + tail.1));
      assert EffectList(effect) + (mid.1 + tail.1) == (EffectList(effect) + mid.1) + tail.1;
    }
  }

  /** Replaying one more intent is one more reducer step after the rest. */
  lemma ReplaySnoc<S, I, E>(reduce: (S, I) -> (S, Option<E>), s: S, a: seq<I>, x: I)
    ensures Replay(reduce, s, a + [x]) ==
              (reduce(Replay(reduce, s, a).0, x).0,
               Replay(reduce, s, a).1 + EffectList(reduce(Replay(reduce, s, a).0, x).1))
  {
    ReplayAppend(reduce, s, a, [x]);
    var t := Replay(reduce, s, a).0;
    assert [x][0] == x && [x][1..] == [];
    assert Replay(reduce, reduce(t, x).0, []) == (reduce(t, x).0, []);
    assert Replay(reduce, t, [x]) == (reduce(t, x).0, EffectList(reduce(t, x).1) + []);
    assert EffectList(reduce(t, x).1) + [] == EffectList(reduce(t, x).1);
  }

  /** Replaying a single intent is one reducer step. */
  lemma ReplayOne<S, I, E>(reduce: (S, I) -> (S, Option<E>), s: S, x: I)
    ensures Replay(reduce, s, [x]) == (reduce(s, x).0, EffectList(reduce(s, x).1))
  {
    var (next, effect) := reduce(s, x);
    assert [x][0] == x && [x][1..] == [];
    assert Replay(reduce, next, []) == (next, []);
    assert EffectList(effect) + [] == EffectList(effect);
  }

  /** Each sent intent schedules at most one effect. */
  lemma {:induction false} ReplayEffectsBound<S, I, E>(reduce: (S, I) -> (S, Option<E>), s: S, intents: seq<I>)
    ensures |Replay(reduce, s, intents).1| <= |intents|
  {
    if intents != [] {
      ReplayEffectsBound(reduce, reduce(s, intents[0]).0, intents[1..]);
    }
  }

  /** The pending queue without its entry at `k`. */
  function RemoveAt<E>(q: seq<E>, k: nat): (r: seq<E>)
    requires k < |q|
    ensures |r| == |q| - 1
    ensures forall j :: 0 <= j < k ==> r[j] == q[j]
    ensures forall j :: k <= j < |r| ==> r[j] == q[j + 1]
  {
    q[..k] + q[k + 1..]
  }

  class Container<S, I, E, R> {
    /** The current state; only `Send` assigns it. */
    var state: S
    /** The side effects scheduled by `Send` and not yet run, oldest first. */
    var pending: seq<E>
    const reduce: (S, I) -> (S, Option<E>)
    const handle: (E, R) -> seq<I>

    constructor (initialState: S, reduce: (S, I) -> (S, Option<E>), handle: (E, R) -> seq<I>)
      ensures state == initialState && pending == []
      ensures this.reduce == reduce && this.handle == handle
    {
      state := initialState;
      pending := [];
      this.reduce := reduce;
      this.handle := handle;
    }

    /**
     * Runs the reducer, commits its state before returning, and schedules
     * the effect it returned, if any, and nothing else.
     */
    method Send(intent: I)
      modifies this
      ensures state == reduce(old(state), intent).0
      ensures pending == old(pending) + EffectList(reduce(old(state), intent).1)
    {
      var (newState, sideEffect) := reduce(state, intent);
      state := newState;
      if sideEffect.Some? {
        pending := pending + [sideEffect.value];
      }
    }

    /**
     * The scheduled task for `pending[k]` runs, given the response its
     * operation received. Effects may run in any order. The task itself
     * never writes `state`: every change comes from the `Send` calls the
     * handler makes, which may schedule further effects.
     */
    method RunEffect(k: nat, response: R)
      requires k < |pending|
      modifies this
      ensures var sent := handle(old(pending)[k], response);
              && state == Replay(reduce, old(state), sent).0
              && pending == RemoveAt(old(pending), k) + Replay(reduce, old(state), sent).1
    {
      var effect := pending[k];
      pending := RemoveAt(pending, k);
      var sent := handle(effect, response);
      ghost var s0, q0 := state, pending;
      var j := 0;
      while j < |sent|
        invariant 0 <= j <= |sent|
        invariant state == Replay(reduce, s0, sent[..j]).0
        invariant pending == q0 + Replay(reduce, s0, sent[..j]).1
      {
        ReplaySnoc(reduce, s0, sent[..j], sent[j]);
        assert sent[..j + 1] == sent[..j] + [sent[j]];
        Send(sent[j]);
        j := j + 1;
      }
      assert sent[..j] == sent;
    }
  }
}
