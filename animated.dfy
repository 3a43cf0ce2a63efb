/** Animated scalars ("shared values") and the transforms composed from them.

    The animation library drives each shared value with a spring. That integrator is
    not part of this model: a shared value is only where it is now (`current`, what
    reading `.value` returns and what the view shows) and where its spring is heading
    (`target`). `Settle` stands in for the library's convergence. */
module Animated {

  /** One animatable scalar. A value at rest has `current == target`. */
  datatype Shared = Shared(current: real, target: real)
  {
    predicate AtRest() { current == target }
  }

  /** A value resting at `v`: what `useSharedValue(v)` creates and what a direct
      write `x.value = v` leaves behind (no animation, the view jumps to `v`). */
  function At(v: real): Shared
  {
    Shared(v, v)
  }

  /** `x.value = withSpring(v, config)`: the spring is aimed at `v` and starts from
      wherever `x` is now, so the current value does not move yet. */
  function SpringTo(x: Shared, v: real): Shared
  {
    x.(target := v)
  }

  /** The spring has converged: the value rests at its target. */
  function Settle(x: Shared): Shared
  {
    At(x.target)
  }

  /** The kinds of transform entries the three views use. */
  datatype OpKind = TranslateX | TranslateY | RotateX | RotateY | RotateZ | Scale

  /** One transform entry: its kind and the amount read from a shared value. */
  datatype Op = Op(kind: OpKind, amount: real)

  /** The kinds of a transform, in order. */
  function Kinds(t: seq<Op>): seq<OpKind>
  {
    seq(|t|, i requires 0 <= i < |t| => t[i].kind)
  }

  /** An animated style's transform: one entry per (kind, source) pair, in the
      declared order, each reading the source's current value exactly once. */
  function Compose(kinds: seq<OpKind>, sources: seq<Shared>): (t: seq<Op>)
    requires |kinds| == |sources|
    ensures Kinds(t) == kinds
    ensures forall i :: 0 <= i < |t| ==> t[i].amount == sources[i].current
  {
    seq(|kinds|, i requires 0 <= i < |kinds| => Op(kinds[i], sources[i].current))
  }

  /** Composition sees only current values: two lists of sources that agree on
      their current values (whatever their targets) give the same transform. */
  lemma ComposeReadsOnlyCurrents(kinds: seq<OpKind>, a: seq<Shared>, b: seq<Shared>)
    requires |kinds| == |a| == |b|
    requires forall i :: 0 <= i < |a| ==> a[i].current == b[i].current
    ensures Compose(kinds, a) == Compose(kinds, b)
  {
  }
}
