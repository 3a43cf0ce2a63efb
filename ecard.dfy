/** The flip card (ECard.js).

    Five shared values (scale, translateY, rotationY, rotationX and the share
    buttons' opacity) and one piece of component state, `shareMode`. Each press of
    the "share" button aims four of the values at one of two coordinated target sets,
    chosen by `shareMode`, and then negates `shareMode`. */
module ECard {
  import opened Animated

  /** The four targets a press writes. */
  datatype Targets = Targets(rotationY: real, scale: real, translateY: real, opacity: real)

  /** Face up, full size, in place, share buttons hidden. */
  const FrontTargets: Targets := Targets(0.0, 1.0, 0.0, 0.0)
  /** Turned over, half size, raised by 140, share buttons shown. */
  const BackTargets: Targets := Targets(180.0, 0.5, -140.0, 1.0)

  datatype CardValues = CardValues(scale: Shared, translateY: Shared, rotationY: Shared,
                                   rotationX: Shared, opacity: Shared, shareMode: bool)

  /** The targets of the four values a press writes. */
  function TargetsOf(c: CardValues): Targets
  {
    Targets(c.rotationY.target, c.scale.target, c.translateY.target, c.opacity.target)
  }

  /** The current values of those four. */
  function CurrentsOf(c: CardValues): Targets
  {
    Targets(c.rotationY.current, c.scale.current, c.translateY.current, c.opacity.current)
  }

  /** The mount values: every value at rest, on the front face, rotationX 0, and
      `shareMode` true. */
  function Mount(): (c: CardValues)
    ensures c.scale.AtRest() && c.translateY.AtRest() && c.rotationY.AtRest()
    ensures c.rotationX.AtRest() && c.opacity.AtRest()
    ensures CurrentsOf(c) == FrontTargets && c.rotationX.current == 0.0
    ensures c.shareMode
  {
    CardValues(At(1.0), At(0.0), At(0.0), At(0.0), At(0.0), true)
  }

  /** `shareCard`: with `shareMode` set the card is aimed at its front, otherwise at
      its back; then `shareMode` flips. No value moves yet, and rotationX is never
      written. */
  function Press(c: CardValues): (r: CardValues)
    ensures TargetsOf(r) == (if c.shareMode then FrontTargets else BackTargets)
    ensures r.shareMode == !c.shareMode
    ensures CurrentsOf(r) == CurrentsOf(c) && r.rotationX == c.rotationX
  {
    var t := if c.shareMode then FrontTargets else BackTargets;
    CardValues(SpringTo(c.scale, t.scale), SpringTo(c.translateY, t.translateY),
               SpringTo(c.rotationY, t.rotationY), c.rotationX,
               SpringTo(c.opacity, t.opacity), !c.shareMode)
  }

  /** Every spring has converged. */
  function SettleAll(c: CardValues): (r: CardValues)
    ensures r.scale.AtRest() && r.translateY.AtRest() && r.rotationY.AtRest()
    ensures r.rotationX.AtRest() && r.opacity.AtRest()
    ensures TargetsOf(r) == TargetsOf(c) && r.rotationX.target == c.rotationX.target
    ensures r.shareMode == c.shareMode
  {
    CardValues(Settle(c.scale), Settle(c.translateY), Settle(c.rotationY),
               Settle(c.rotationX), Settle(c.opacity), c.shareMode)
  }

  /** `n` presses in a row. */
  function Presses(c: CardValues, n: nat): CardValues
  {
    if n == 0 then c else Press(Presses(c, n - 1))
  }

  /** The targets a press writes depend on `shareMode` alone, not on where the
      animated values are. */
  lemma PressIgnoresAnimatedValues(a: CardValues, b: CardValues)
    requires a.shareMode == b.shareMode
    ensures TargetsOf(Press(a)) == TargetsOf(Press(b))
    ensures Press(a).shareMode == Press(b).shareMode
  {
  }

  /** After `n` presses `shareMode` is back where it was exactly when `n` is even. */
  lemma {:induction false} PressesFlipParity(c: CardValues, n: nat)
    ensures Presses(c, n).shareMode == (if n % 2 == 0 then c.shareMode else !c.shareMode)
  {
    if n > 0 {
      PressesFlipParity(c, n - 1);
    }
  }

  /** No number of presses writes rotationX or moves any value. */
  lemma {:induction false} PressesOnlyAim(c: CardValues, n: nat)
    ensures Presses(c, n).rotationX == c.rotationX
    ensures CurrentsOf(Presses(c, n)) == CurrentsOf(c)
  {
    if n > 0 {
      PressesOnlyAim(c, n - 1);
    }
  }

  /** Press k+2 writes the same targets as press k: two presses restore the flag and
      the targets, and, once the springs converge, the whole card. */
  lemma PressesPeriodTwo(c: CardValues, k: nat)
    requires k >= 1
    ensures Presses(c, k + 2).shareMode == Presses(c, k).shareMode
    ensures TargetsOf(Presses(c, k + 2)) == TargetsOf(Presses(c, k))
    ensures SettleAll(Presses(c, k + 2)) == SettleAll(Presses(c, k))
  {
  }

  /** The first press after mount aims every value at the value it already has: the
      card does not visibly change. */
  lemma FirstPressKeepsMountValues()
    ensures TargetsOf(Press(Mount())) == CurrentsOf(Mount())
    ensures SettleAll(Press(Mount())) == Mount().(shareMode := false)
  {
  }

  /** From mount, the card is aimed at its back exactly after an even, nonzero number
      of presses, and at its front otherwise. */
  lemma {:induction false} PressesFromMount(n: nat)
    ensures TargetsOf(Presses(Mount(), n)) == if n > 0 && n % 2 == 0 then BackTargets else FrontTargets
    ensures Presses(Mount(), n).shareMode == (n % 2 == 0)
  {
    if n > 0 {
      PressesFromMount(n - 1);
    }
  }

  /** The share buttons' style. */
  datatype ShareOptions = ShareOptions(transform: seq<Op>, opacity: real)

  /** `cardTransform`: translate, then rotate about X, then about Y, then scale,
      each by the current value of its source. */
  function CardTransform(c: CardValues): (t: seq<Op>)
    ensures Kinds(t) == [TranslateY, RotateX, RotateY, Scale]
    ensures t[0].amount == c.translateY.current && t[1].amount == c.rotationX.current
    ensures t[2].amount == c.rotationY.current && t[3].amount == c.scale.current
  {
    Compose([TranslateY, RotateX, RotateY, Scale], [c.translateY, c.rotationX, c.rotationY, c.scale])
  }

  /** `shareOptionsStyle`: the same vertical translation as the card, and the
      buttons' opacity. */
  function ShareOptionsStyle(c: CardValues): (st: ShareOptions)
    ensures Kinds(st.transform) == [TranslateY] && st.transform[0].amount == c.translateY.current
    ensures st.opacity == c.opacity.current
  {
    ShareOptions(Compose([TranslateY], [c.translateY]), c.opacity.current)
  }

  /** The share buttons move with the card: their transform is the card's first
      entry. */
  lemma ShareOptionsFollowCard(c: CardValues)
    ensures ShareOptionsStyle(c).transform == CardTransform(c)[..1]
  {
  }

  /** Both styles depend on the current values alone. */
  lemma StylesReadOnlyCurrents(a: CardValues, b: CardValues)
    requires CurrentsOf(a) == CurrentsOf(b) && a.rotationX.current == b.rotationX.current
    ensures CardTransform(a) == CardTransform(b)
    ensures ShareOptionsStyle(a) == ShareOptionsStyle(b)
  {
  }

  /** The card component: shared values and `shareMode` are fields the press
      handler updates in place. */
  class Card {
    var scale: Shared
    var translateY: Shared
    var rotationY: Shared
    var rotationX: Shared
    var opacity: Shared
    var shareMode: bool

    function Values(): CardValues
      reads this
    {
      CardValues(scale, translateY, rotationY, rotationX, opacity, shareMode)
    }

    /** The card is always aimed at one of its two faces, and rotationX rests at 0. */
    ghost predicate Valid()
      reads this
    {
      (TargetsOf(Values()) == FrontTargets || TargetsOf(Values()) == BackTargets) &&
      rotationX == At(0.0)
    }

    constructor ()
      ensures Valid() && Values() == Mount()
    {
      scale := At(1.0);
      translateY := At(0.0);
      rotationY := At(0.0);
      rotationX := At(0.0);
      opacity := At(0.0);
      shareMode := true;
    }

    method ShareCard()
      requires Valid()
      modifies this
      ensures Valid() && Values() == Press(old(Values()))
    {
      if shareMode {
        rotationY := SpringTo(rotationY, 0.0);
        scale := SpringTo(scale, 1.0);
        translateY := SpringTo(translateY, 0.0);
        opacity := SpringTo(opacity, 0.0);
      } else {
        rotationY := SpringTo(rotationY, 180.0);
        scale := SpringTo(scale, 0.5);
        translateY := SpringTo(translateY, -140.0);
        opacity := SpringTo(opacity, 1.0);
      }
      shareMode := !shareMode;
    }

    /** Stands in for the animation library: every spring converges. */
    method Settle()
      requires Valid()
      modifies this
      ensures Valid() && Values() == SettleAll(old(Values()))
    {
      scale, translateY, rotationY := Animated.Settle(scale), Animated.Settle(translateY), Animated.Settle(rotationY);
      rotationX, opacity := Animated.Settle(rotationX), Animated.Settle(opacity);
    }
  }
}
