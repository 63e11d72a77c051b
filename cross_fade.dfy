/**
  The icon cross-fade component of src/components/CrossFadeIcon.js.

  The component keeps the icon it shows (`currentIcon`), the icon it is fading
  away from (`previousIcon`, `None` for `null`) and one animated value `fade`
  that drives both icons' opacity and rotation. A new `source` prop is folded
  into the state by a pure reducer (`Derive`, the component's
  getDerivedStateFromProps); after the update is committed, `DidUpdate` may
  reset `fade` to 1 and ask the animation engine to drive it to 0 in 200 ms.
  `Render` says what is drawn for a given value of `fade`.

  Icon sources are values of a type parameter `I`; Dafny's `==` on `I` stands
  for JavaScript's `===`. The icon module's `isValidIcon` and `isEqualIcon` are
  not part of this model and are passed in as an `IconModule` record.
*/
module CrossFade {
  import opened Optional

  /** The icon module's two predicates, left abstract. */
  datatype IconModule<-I> = IconModule(
    isValidIcon: Option<I> -> bool,
    isEqualIcon: (Option<I>, Option<I>) -> bool)

  /** The component's props: the icon to show, its colour and its size. */
  datatype Props<I> = Props(source: I, color: string, size: real)

  /** The part of the component state that the reducer reads and returns. */
  datatype IconState<I> = IconState(currentIcon: I, previousIcon: Option<I>)

  /** One `Animated.timing(fade, {toValue, duration}).start()` request. */
  datatype Timing = Timing(toValue: real, duration: nat)

  /** The request `DidUpdate` issues: fade to 0 over 200 ms. */
  const FadeOut: Timing := Timing(0.0, 200)

  /** A started animation: the value it starts from and its timing. */
  datatype Animation = Animation(fromValue: real, timing: Timing)

  /**
    getDerivedStateFromProps: `None` is the `null` it returns when the new
    source is identical to the current icon; otherwise the partial state that
    moves the current icon into `previousIcon`.
  */
  function Derive<I(==)>(nextProps: Props<I>, nextState: IconState<I>): (r: Option<IconState<I>>)
    ensures r.None? <==> nextProps.source == nextState.currentIcon
    ensures r.Some? ==> r.value.currentIcon == nextProps.source
    ensures r.Some? ==> r.value.previousIcon == Some(nextState.currentIcon)
    ensures r.Some? ==> r.value.previousIcon != Some(r.value.currentIcon)
  {
    if nextState.currentIcon == nextProps.source then None
    else Some(IconState(nextProps.source, Some(nextState.currentIcon)))
  }

  /** React's merge of a returned partial state; `null` leaves the state as it is. */
  function Merge<I>(s: IconState<I>, update: Option<IconState<I>>): IconState<I>
  {
    match update
    case None => s
    case Some(u) => u
  }

  /**
    The state after one new set of props has been derived and merged: the
    current icon is always the latest source, the previous icon is either kept
    or replaced by the old current icon, it is never reset to `null`, and the
    two icons stay distinct.
  */
  function Next<I(==)>(s: IconState<I>, p: Props<I>): (t: IconState<I>)
    ensures t.currentIcon == p.source
    ensures t == s <==> p.source == s.currentIcon
    ensures t != s ==> t.previousIcon == Some(s.currentIcon)
    ensures s.previousIcon.Some? ==> t.previousIcon.Some?
    ensures Distinct(s) ==> Distinct(t)
  {
    Merge(s, Derive(p, s))
  }

  /** The previous icon, when there is one, is not the current icon. */
  predicate Distinct<I(==)>(s: IconState<I>)
  {
    s.previousIcon != Some(s.currentIcon)
  }

  /** The state after a sequence of prop updates, applied in order. */
  function Run<I(==)>(s: IconState<I>, ps: seq<Props<I>>): IconState<I>
    decreases |ps|
  {
    if ps == [] then s else Run(Next(s, ps[0]), ps[1..])
  }

  /** After any non-empty sequence of updates the current icon is the last source. */
  lemma {:induction false} RunTracksLatestSource<I>(s: IconState<I>, ps: seq<Props<I>>)
    requires ps != []
    ensures Run(s, ps).currentIcon == ps[|ps| - 1].source
    decreases |ps|
  {
    if |ps| > 1 {
      RunTracksLatestSource(Next(s, ps[0]), ps[1..]);
    }
  }

  /** Every reachable state keeps the previous icon distinct from the current one. */
  lemma {:induction false} RunKeepsDistinct<I>(s: IconState<I>, ps: seq<Props<I>>)
    requires Distinct(s)
    ensures Distinct(Run(s, ps))
    decreases |ps|
  {
    if ps != [] {
      RunKeepsDistinct(Next(s, ps[0]), ps[1..]);
    }
  }

  /**
    The previous icon is non-null after a run exactly when it was non-null
    before or some update brought a source not identical to the starting
    current icon: nothing ever resets it to `null`.
  */
  lemma {:induction false} RunPreviousNonNull<I>(s: IconState<I>, ps: seq<Props<I>>)
    ensures Run(s, ps).previousIcon.Some? <==>
      (s.previousIcon.Some? || exists i :: 0 <= i < |ps| && ps[i].source != s.currentIcon)
    decreases |ps|
  {
    if ps != [] {
      var t := Next(s, ps[0]);
      RunPreviousNonNull(t, ps[1..]);
      if ps[0].source == s.currentIcon {
        assert t == s;
        if exists i :: 0 <= i < |ps| && ps[i].source != s.currentIcon {
          var i :| 0 <= i < |ps| && ps[i].source != s.currentIcon;
          assert ps[1..][i - 1].source != t.currentIcon;
        }
        forall i | 0 <= i < |ps[1..]| && ps[1..][i].source != t.currentIcon
          ensures ps[i + 1].source != s.currentIcon
        {
        }
      } else {
        assert t.previousIcon.Some?;
      }
    }
  }

  /**
    Whatever the previous icon is after a run, it was put there by the run's
    start: it is the starting previous icon, the starting current icon or one
    of the sources supplied along the way.
  */
  lemma {:induction false} RunPreviousWasCurrent<I>(s: IconState<I>, ps: seq<Props<I>>)
    ensures var r := Run(s, ps);
      r.previousIcon == s.previousIcon || r.previousIcon == Some(s.currentIcon) ||
      exists i :: 0 <= i < |ps| && r.previousIcon == Some(ps[i].source)
    decreases |ps|
  {
    if ps != [] {
      var t := Next(s, ps[0]);
      RunPreviousWasCurrent(t, ps[1..]);
      var r := Run(t, ps[1..]);
      if r.previousIcon == t.previousIcon {
      } else if r.previousIcon == Some(t.currentIcon) {
        assert r.previousIcon == Some(ps[0].source);
      } else {
        var i :| 0 <= i < |ps[1..]| && r.previousIcon == Some(ps[1..][i].source);
        assert r.previousIcon == Some(ps[i + 1].source);
      }
    }
  }

  /** A -> B -> C with each step a real change ends with current C and previous B. */
  lemma ThreeIconSequence<I>(s: IconState<I>, pb: Props<I>, pc: Props<I>)
    requires pb.source != s.currentIcon && pc.source != pb.source
    ensures Run(s, [pb, pc]) == IconState(pc.source, Some(pb.source))
  {
    var t := Next(s, pb);
    assert [pb, pc][1..] == [pc];
    assert Run(s, [pb, pc]) == Run(t, [pc]);
    assert [pc][1..] == [];
    assert Run(t, [pc]) == Next(t, pc);
  }

  /**
    The guard of componentDidUpdate: animate only when the new previous icon is
    valid and differs, by the icon module's equality, from the previous icon
    of the last committed state.
  */
  predicate Animates<I>(icons: IconModule<I>, prevPrevious: Option<I>, previous: Option<I>)
  {
    icons.isValidIcon(previous) && !icons.isEqualIcon(previous, prevPrevious)
  }

  /**
    When the icon module's equality is reflexive, an update that leaves the
    previous icon where it was starts no animation; in particular an update
    whose source is identical to the current icon never does.
  */
  lemma SettledUpdateDoesNotAnimate<I>(icons: IconModule<I>, s: IconState<I>, p: Props<I>)
    requires forall x :: icons.isEqualIcon(x, x)
    requires Next(s, p).previousIcon == s.previousIcon
    ensures !Animates(icons, s.previousIcon, Next(s, p).previousIcon)
  {
  }

  /**
    When the icon module's equality is no coarser than identity and the icon
    being replaced is valid, every real change of source in a reachable state
    restarts the fade.
  */
  lemma ChangeAnimates<I>(icons: IconModule<I>, s: IconState<I>, p: Props<I>)
    requires forall x, y :: icons.isEqualIcon(x, y) ==> x == y
    requires Distinct(s) && icons.isValidIcon(Some(s.currentIcon))
    requires p.source != s.currentIcon
    ensures Animates(icons, s.previousIcon, Next(s, p).previousIcon)
  {
    assert Next(s, p).previousIcon == Some(s.currentIcon);
  }

  /**
    A source that is not identical to the current icon but that the icon module
    calls equal to it (a look-alike) is still a change for the reducer, which
    compares by identity: the current icon moves into `previousIcon`, and the
    fade restarts because the guard compares with the old previous icon.
  */
  lemma LookAlikeSourceStillFades<I>(icons: IconModule<I>, a1: I, p: Props<I>)
    requires p.source != a1 && icons.isEqualIcon(Some(p.source), Some(a1))
    requires icons.isValidIcon(Some(a1)) && !icons.isEqualIcon(Some(a1), None)
    ensures Next(IconState(a1, None), p) == IconState(p.source, Some(a1))
    ensures Animates(icons, None, Next(IconState(a1, None), p).previousIcon)
  {
  }

  /**
    After such a look-alike swap, a real change to another icon does not fade:
    the guard finds the new previous icon equal to the one it replaces.
  */
  lemma ChangeAfterLookAlikeDoesNotFade<I>(icons: IconModule<I>, a1: I, a2: I, p: Props<I>)
    requires p.source != a2 && icons.isEqualIcon(Some(a2), Some(a1))
    ensures Next(IconState(a2, Some(a1)), p) == IconState(p.source, Some(a2))
    ensures !Animates(icons, Some(a1), Next(IconState(a2, Some(a1)), p).previousIcon)
  {
  }

  /** `Animated.Value`: its current value and the timed animations started on it. */
  class AnimatedValue {
    var value: real
    var requests: seq<Animation>

    constructor (initial: real)
      ensures value == initial && requests == []
    {
      value := initial;
      requests := [];
    }

    /** `setValue(v)`: jumps to `v`, starts nothing. */
    method SetValue(v: real)
      modifies this
      ensures value == v && requests == old(requests)
    {
      value := v;
    }

    /**
      `Animated.timing(this, t).start()`: the request is logged with the value
      it starts from; time is not modelled.
    */
    method Start(t: Timing)
      modifies this
      ensures value == old(value) && requests == old(requests) + [Animation(old(value), t)]
    {
      requests := requests + [Animation(value, t)];
    }
  }

  class CrossFadeIcon<I(==)> {
    var props: Props<I>
    var currentIcon: I
    var previousIcon: Option<I>
    /** Created with the component and never replaced. */
    const fade: AnimatedValue

    function State(): IconState<I>
      reads this
    {
      IconState(currentIcon, previousIcon)
    }

    /** The current icon is the latest source and differs from the previous icon. */
    ghost predicate Valid()
      reads this
    {
      currentIcon == props.source && Distinct(State())
    }

    /** The initial state: the supplied icon, no previous icon, `fade` at 1. */
    constructor (props: Props<I>)
      ensures Valid() && this.props == props
      ensures currentIcon == props.source && previousIcon == None
      ensures fresh(fade) && fade.value == 1.0 && fade.requests == []
    {
      this.props := props;
      currentIcon := props.source;
      previousIcon := None;
      fade := new AnimatedValue(1.0);
    }

    /** New props arrive: the derived state is merged in; `fade` is not touched. */
    method ReceiveProps(next: Props<I>)
      requires Valid()
      modifies this
      ensures Valid() && props == next
      ensures State() == Next(old(State()), next)
    {
      var s := Merge(State(), Derive(next, State()));
      props := next;
      currentIcon, previousIcon := s.currentIcon, s.previousIcon;
    }

    /**
      componentDidUpdate: unless the guard fails, reset `fade` to 1 and start
      one 200 ms animation to 0; otherwise change nothing.
    */
    method DidUpdate(prevState: IconState<I>, icons: IconModule<I>)
      modifies fade
      ensures !Animates(icons, prevState.previousIcon, previousIcon) ==> unchanged(fade)
      ensures Animates(icons, prevState.previousIcon, previousIcon) ==>
        fade.value == 1.0 && fade.requests == old(fade.requests) + [Animation(1.0, FadeOut)]
    {
      if !icons.isValidIcon(previousIcon) || icons.isEqualIcon(previousIcon, prevState.previousIcon) {
        return;
      }
      fade.SetValue(1.0);
      fade.Start(FadeOut);
    }

    /** One update cycle: derive and commit the new state, then run componentDidUpdate. */
    method Update(next: Props<I>, icons: IconModule<I>)
      requires Valid()
      modifies this, fade
      ensures Valid() && props == next
      ensures State() == Next(old(State()), next)
      ensures var animates := Animates(icons, old(previousIcon), previousIcon);
        && fade.value == (if animates then 1.0 else old(fade.value))
        && fade.requests == old(fade.requests) + (if animates then [Animation(1.0, FadeOut)] else [])
    {
      var prevState := State();
      ReceiveProps(next);
      DidUpdate(prevState, icons);
    }
  }

  /** An icon drawn by `render`. */
  datatype IconLayer<I> = IconLayer(source: I, size: real, color: string, opacity: real, rotateDeg: real)

  /** What `render` draws: a `size` x `size` box, the previous icon if any, the current icon. */
  datatype Frame<I> = Frame(width: real, height: real, previous: Option<IconLayer<I>>, current: IconLayer<I>)

  /** `interpolate` with input range [0, 1] and output range [from, to]. */
  function Interpolate(x: real, from: real, to: real): real
  {
    from + (to - from) * x
  }

  /**
    `render` for the current value of `fade`. The previous icon is drawn when it
    is truthy (`truthy` is JavaScript truthiness of an icon value); the current
    icon always. Opacities and rotations are in degrees.
  */
  function Render<I>(props: Props<I>, s: IconState<I>, fade: real, truthy: I -> bool): (f: Frame<I>)
    ensures f.width == props.size && f.height == props.size
    ensures f.current.source == s.currentIcon
    ensures f.previous.Some? <==> s.previousIcon.Some? && truthy(s.previousIcon.value)
    ensures f.previous.Some? ==> f.previous.value.source == s.previousIcon.value
    ensures f.current.size == props.size && f.current.color == props.color
    ensures f.previous.Some? ==> f.previous.value.size == props.size && f.previous.value.color == props.color
    ensures f.previous.None? ==> f.current.opacity == 1.0 && f.current.rotateDeg == 0.0
    ensures f.previous.Some? ==> f.previous.value.opacity == fade
    ensures f.previous.Some? ==> f.previous.value.opacity + f.current.opacity == 1.0
    ensures f.previous.Some? ==>
      f.previous.value.rotateDeg == -90.0 + 90.0 * fade && f.current.rotateDeg == -180.0 * fade
    ensures f.previous.Some? && fade == 0.0 ==> f.previous.value.rotateDeg == -90.0 && f.current.rotateDeg == 0.0
    ensures f.previous.Some? && fade == 1.0 ==> f.previous.value.rotateDeg == 0.0 && f.current.rotateDeg == -180.0
    ensures 0.0 <= fade <= 1.0 ==> 0.0 <= f.current.opacity <= 1.0 && -180.0 <= f.current.rotateDeg <= 0.0
    ensures 0.0 <= fade <= 1.0 && f.previous.Some? ==>
      0.0 <= f.previous.value.opacity <= 1.0 && -90.0 <= f.previous.value.rotateDeg <= 0.0
  {
    var hasPrevious := s.previousIcon.Some? && truthy(s.previousIcon.value);
    var opacityNext := if hasPrevious then Interpolate(fade, 1.0, 0.0) else 1.0;
    var rotatePrev := Interpolate(fade, -90.0, 0.0);
    var rotateNext := if hasPrevious then Interpolate(fade, 0.0, -180.0) else 0.0;
    var previous :=
      if hasPrevious then Some(IconLayer(s.previousIcon.value, props.size, props.color, fade, rotatePrev))
      else None;
    Frame(props.size, props.size, previous, IconLayer(s.currentIcon, props.size, props.color, opacityNext, rotateNext))
  }

  /**
    As `fade` runs down from 1 to 0 the previous icon turns from 0 to -90
    degrees and fades out while the current icon turns from -180 to 0 degrees
    and fades in: both move monotonically.
  */
  lemma RenderMonotonic<I>(props: Props<I>, s: IconState<I>, lo: real, hi: real, truthy: I -> bool)
    requires lo <= hi
    requires s.previousIcon.Some? && truthy(s.previousIcon.value)
    ensures var a, b := Render(props, s, lo, truthy), Render(props, s, hi, truthy);
      && a.previous.value.opacity <= b.previous.value.opacity
      && a.previous.value.rotateDeg <= b.previous.value.rotateDeg
      && a.current.opacity >= b.current.opacity
      && a.current.rotateDeg >= b.current.rotateDeg
  {
  }
}
