/** The integer state of the `CircleProgressBar` view: its maximum and progress
    fields, the two public setters, the normalisation rule `correctProgress`,
    the construction-time defaults and the validation of a configured maximum,
    and the size negotiation of `measure`. Drawing is not modelled. */
module CircleProgress {
  import opened KotlinInt

  datatype Option<T> = None | Some(value: T) {
    /** The configured value, or `default` when the attribute is absent. */
    function GetOr(default: T): (r: T) {
      match this
      case Some(v) => v
      case None => default
    }
  }

  // Construction-time defaults of the view.
  const DEFAULT_MAX: Int32 := 100
  const DEFAULT_PROGRESS: Int32 := 0
  const DEFAULT_START_ANGLE: real := -90.0
  const DEFAULT_END_ANGLE: real := 270.0
  const DEFAULT_REVERSE: bool := false
  const DEFAULT_ROUND_CAP: bool := true

  /* ---------------------------------------------------------------------
     Size negotiation
     --------------------------------------------------------------------- */

  /** The three modes a parent view can attach to a size it offers. */
  datatype SpecMode = Exactly | AtMost | Unspecified

  /** A measure spec, already split into its mode and its size. */
  datatype MeasureSpec = MeasureSpec(mode: SpecMode, size: nat)

  /** Kotlin's `min` on two sizes. */
  function Min(a: nat, b: nat): (m: nat) {
    if a <= b then a else b
  }

  /** The edge length the view asks for along one axis. `defaultSize` is the
      view's intrinsic 90dp edge in pixels. An exact size is obeyed; a capped
      size is obeyed only when the default does not fit under it; without a
      constraint the default is used. */
  function Measure(spec: MeasureSpec, defaultSize: nat): (result: nat)
    ensures spec.mode == Exactly ==> result == spec.size
    ensures spec.mode == AtMost ==> result <= spec.size && result <= defaultSize
    ensures spec.mode == AtMost ==> result == spec.size || result == defaultSize
    ensures spec.mode == Unspecified ==> result == defaultSize
  {
    if spec.mode == Exactly then spec.size
    else
      var result := defaultSize;
      if spec.mode == AtMost then Min(result, spec.size) else result
  }

  /** Under a cap the view takes the largest size that fits both the cap and
      its default. */
  lemma MeasureAtMostIsLargestFit(size: nat, defaultSize: nat, x: nat)
    requires x <= size && x <= defaultSize
    ensures x <= Measure(MeasureSpec(AtMost, size), defaultSize)
  {
  }

  /** A cap that leaves room for the default is the same as no constraint. */
  lemma MeasureRoomyCapIsUnconstrained(size: nat, defaultSize: nat)
    requires defaultSize <= size
    ensures Measure(MeasureSpec(AtMost, size), defaultSize)
         == Measure(MeasureSpec(Unspecified, size), defaultSize)
  {
  }

  /* ---------------------------------------------------------------------
     Progress normalisation
     --------------------------------------------------------------------- */

  /** The one input on which `correctProgress` fails: a progress above the
      maximum takes a remainder by the maximum, and Kotlin throws
      ArithmeticException when that maximum is 0. */
  predicate ThrowsArithmetic(progress: Int32, max: Int32) {
    progress > max && max == 0
  }

  lemma ThrowsOnlyOnPositiveProgressOverZero(progress: Int32, max: Int32)
    ensures ThrowsArithmetic(progress, max) <==> max == 0 && progress > 0
  {
  }

  /** `correctProgress`: the value `setProgress` stores for a requested
      `progress` under the current `max`. Values up to `max` pass through,
      negatives included; a value above `max` wraps around by `max`, landing
      on `max` itself instead of 0 when it is an exact multiple. */
  function CorrectProgress(progress: Int32, max: Int32): (r: Int32)
    requires !ThrowsArithmetic(progress, max)
    ensures progress <= max ==> r == progress
    ensures max > 0 ==> r <= max
    ensures 0 < max < progress && progress as int % max as int == 0 ==> r == max
    ensures 0 < max < progress && progress as int % max as int != 0 ==>
              r as int == progress as int % max as int && 0 < r < max
  {
    if progress > max then
      var rem := Rem(progress as int, max as int);
      if rem == 0 then max else rem as Int32
    else
      progress
  }

  /** With a negative maximum the remainder keeps the sign of the progress,
      so the stored value is either `max` (an exact multiple) or a nonzero
      value of the progress's sign smaller than `max` in magnitude, and can
      lie above `max`: max = -5 stores 2 for 7, -3 for -3, -5 for 10 and 0. */
  lemma {:induction false} CorrectProgressNegativeMax(progress: Int32, max: Int32)
    requires max < 0 && progress > max
    ensures var r := CorrectProgress(progress, max);
            r == max || (0 < Abs(r as int) < Abs(max as int) && (r > 0 <==> progress > 0))
    ensures CorrectProgress(progress, max) == max <==> Rem(progress as int, max as int) == 0
    ensures CorrectProgress(7, -5) == 2 && CorrectProgress(-3, -5) == -3
    ensures CorrectProgress(10, -5) == -5 && CorrectProgress(0, -5) == -5
  {
    assert Rem(7, -5) == 2 && Rem(-3, -5) == -3;
    assert Rem(10, -5) == 0 && Rem(0, -5) == 0;
  }

  /** Above any nonzero maximum, negative ones included, the stored value
      differs from the requested progress by a multiple `k` of `max`. */
  lemma {:induction false} CorrectProgressWraps(progress: Int32, max: Int32) returns (k: int)
    requires max != 0 && progress > max
    ensures progress as int == k * max as int + CorrectProgress(progress, max) as int
  {
    var p, m := progress as int, max as int;
    DivRem(p, m);
    if Rem(p, m) == 0 {
      k := Div(p, m) - 1;
      MulSub(Div(p, m), 1, m);
    } else {
      k := Div(p, m);
    }
  }

  /** ... and it is the only value in (0, max] that does. */
  lemma {:induction false} CorrectProgressUnique(progress: Int32, max: Int32, k: int, x: int)
    requires 0 < max < progress
    requires 0 < x <= max as int
    requires progress as int == k * max as int + x
    ensures x == CorrectProgress(progress, max) as int
  {
    var p, m := progress as int, max as int;
    if x < m {
      RemUnique(p, m, k, x);
    } else {
      MulSub(k + 1, 1, m);
      RemUnique(p, m, k + 1, 0);
    }
  }

  /** Normalising twice is normalising once, for every maximum on which the
      first normalisation succeeds, negative maxima included. */
  lemma {:induction false} CorrectProgressIdempotent(progress: Int32, max: Int32)
    requires !ThrowsArithmetic(progress, max)
    ensures !ThrowsArithmetic(CorrectProgress(progress, max), max)
    ensures CorrectProgress(CorrectProgress(progress, max), max) == CorrectProgress(progress, max)
  {
    var r := CorrectProgress(progress, max);
    if progress > max {
      var rem := Rem(progress as int, max as int);
      if rem != 0 {
        assert r as int == rem;
        if r > max {
          RemOfSmall(rem, max as int);
        }
      }
    }
  }

  /** A value already smaller than the divisor in magnitude is its own
      remainder. */
  lemma {:induction false} RemOfSmall(a: int, b: int)
    requires b != 0 && Abs(a) < Abs(b)
    ensures Rem(a, b) == a
  {
    RemUnique(a, b, 0, a);
  }

  /* ---------------------------------------------------------------------
     Configuration
     --------------------------------------------------------------------- */

  /** The state the view keeps that this model covers. */
  datatype WidgetState = WidgetState(
    max: Int32,
    progress: Int32,
    startAngle: real,
    endAngle: real,
    reverse: bool,
    roundCap: bool)

  /** The state of a view built without an attribute set. */
  const Defaults: WidgetState := WidgetState(
    DEFAULT_MAX, DEFAULT_PROGRESS, DEFAULT_START_ANGLE, DEFAULT_END_ANGLE,
    DEFAULT_REVERSE, DEFAULT_ROUND_CAP)

  /** The styled attributes a layout can give the view; `None` is an attribute
      the layout does not set. */
  datatype Attributes = Attributes(
    ringMax: Option<Int32>,
    progress: Option<Int32>,
    startAngle: Option<real>,
    endAngle: Option<real>,
    reverse: Option<bool>,
    roundCap: Option<bool>)

  /** The state that reading an attribute set produces: an absent attribute
      takes its default, a maximum that is not positive is replaced by the
      default maximum, and the progress is kept as given, uncorrected. */
  function Configured(attrs: Attributes): (s: WidgetState)
    ensures s.max > 0
    ensures attrs.ringMax.Some? && attrs.ringMax.value > 0 ==> s.max == attrs.ringMax.value
    ensures attrs.ringMax.None? || attrs.ringMax.value <= 0 ==> s.max == DEFAULT_MAX
    ensures s.progress == attrs.progress.GetOr(DEFAULT_PROGRESS)
    ensures s.startAngle == attrs.startAngle.GetOr(DEFAULT_START_ANGLE)
    ensures s.endAngle == attrs.endAngle.GetOr(DEFAULT_END_ANGLE)
    ensures s.reverse == attrs.reverse.GetOr(DEFAULT_REVERSE)
    ensures s.roundCap == attrs.roundCap.GetOr(DEFAULT_ROUND_CAP)
  {
    var m := attrs.ringMax.GetOr(DEFAULT_MAX);
    WidgetState(
      if m <= 0 then DEFAULT_MAX else m,
      attrs.progress.GetOr(DEFAULT_PROGRESS),
      attrs.startAngle.GetOr(DEFAULT_START_ANGLE),
      attrs.endAngle.GetOr(DEFAULT_END_ANGLE),
      attrs.reverse.GetOr(DEFAULT_REVERSE),
      attrs.roundCap.GetOr(DEFAULT_ROUND_CAP))
  }

  /** The state of a freshly built view: without an attribute set the
      defaults, otherwise what the attribute set configures. Either way the
      maximum is positive. */
  function InitialState(attrs: Option<Attributes>): (s: WidgetState)
    ensures s.max > 0
    ensures attrs.None? ==> s == Defaults
    ensures attrs.Some? ==> s == Configured(attrs.value)
  {
    match attrs
    case None => Defaults
    case Some(a) => Configured(a)
  }

  /** An attribute set that sets nothing yields the defaults. */
  lemma EmptyAttributesAreDefaults()
    ensures InitialState(Some(Attributes(None, None, None, None, None, None)))
         == InitialState(None)
  {
  }

  /** A configured progress above the maximum is stored as given; only an
      explicit `setProgress` would have corrected it. */
  lemma ConfiguredProgressIsNotCorrected()
    ensures var s := InitialState(Some(Attributes(Some(100), Some(150), None, None, None, None)));
            s.max == 100 && s.progress == 150 && CorrectProgress(150, 100) == 50
  {
  }

  /* ---------------------------------------------------------------------
     Calls on the public API
     --------------------------------------------------------------------- */

  /** A call the host makes on the view's two public setters. */
  datatype Call = SetMaxValueCall(newMax: Int32) | SetProgressCall(newProgress: Int32)

  /** The state after one call, or `None` when the call throws. */
  function Apply(s: WidgetState, c: Call): (r: Option<WidgetState>)
    ensures r.None? <==> c.SetProgressCall? && ThrowsArithmetic(c.newProgress, s.max)
    ensures c.SetMaxValueCall? ==> r == Some(s.(max := c.newMax))
    ensures c.SetProgressCall? && r.Some? ==>
              r.value == s.(progress := CorrectProgress(c.newProgress, s.max))
  {
    match c
    case SetMaxValueCall(m) => Some(s.(max := m))
    case SetProgressCall(p) =>
      if ThrowsArithmetic(p, s.max) then None
      else Some(s.(progress := CorrectProgress(p, s.max)))
  }

  /** The state after a sequence of calls, or `None` when one of them throws:
      the exception ends the sequence. */
  function Run(s: WidgetState, calls: seq<Call>): (r: Option<WidgetState>)
    decreases |calls|
  {
    if calls == [] then Some(s)
    else
      match Apply(s, calls[0])
      case None => None
      case Some(next) => Run(next, calls[1..])
  }

  /** No call in the sequence sets a maximum that is not positive. */
  predicate KeepsMaxPositive(calls: seq<Call>) {
    forall i :: 0 <= i < |calls| && calls[i].SetMaxValueCall? ==> calls[i].newMax > 0
  }

  /** Running `calls` and then `c` is one step after the run of `calls`. */
  lemma {:induction false} RunSnoc(s: WidgetState, calls: seq<Call>, c: Call)
    ensures Run(s, calls + [c]) ==
              match Run(s, calls)
              case None => None
              case Some(t) => Apply(t, c)
    decreases |calls|
  {
    if calls == [] {
      assert [] + [c] == [c];
      assert [c][1..] == [];
    } else {
      assert (calls + [c])[0] == calls[0];
      assert (calls + [c])[1..] == calls[1..] + [c];
      match Apply(s, calls[0])
      case None =>
      case Some(next) => RunSnoc(next, calls[1..], c);
    }
  }

  /** While every maximum the host sets is positive, starting from a positive
      maximum, no call throws and the maximum stays positive. */
  lemma {:induction false} PositiveMaxNeverThrows(s: WidgetState, calls: seq<Call>)
    requires s.max > 0 && KeepsMaxPositive(calls)
    ensures Run(s, calls).Some? && Run(s, calls).value.max > 0
    decreases |calls|
  {
    if calls != [] {
      var next := Apply(s, calls[0]).value;
      assert KeepsMaxPositive(calls[1..]) by {
        forall i | 0 <= i < |calls[1..]| && calls[1..][i].SetMaxValueCall?
          ensures calls[1..][i].newMax > 0
        {
          assert calls[1..][i] == calls[i + 1];
        }
      }
      PositiveMaxNeverThrows(next, calls[1..]);
    }
  }

  /** A freshly built view, used only with positive maxima, never throws; a
      run that ends with `setProgress` leaves the progress at most the
      maximum. */
  lemma {:induction false} ConstructedViewNeverThrows(attrs: Option<Attributes>, calls: seq<Call>, p: Int32)
    requires KeepsMaxPositive(calls)
    ensures Run(InitialState(attrs), calls).Some?
    ensures var r := Run(InitialState(attrs), calls + [SetProgressCall(p)]);
            r.Some? && r.value.progress <= r.value.max
  {
    var s := InitialState(attrs);
    PositiveMaxNeverThrows(s, calls);
    RunSnoc(s, calls, SetProgressCall(p));
  }

  /* ---------------------------------------------------------------------
     The view
     --------------------------------------------------------------------- */

  /** The outcome of a call that may throw. */
  datatype Completion = Returned | ThrewArithmeticException

  class CircleProgressBar {
    var max: Int32
    var progress: Int32
    var startAngle: real
    var endAngle: real
    var reverse: bool
    var roundCap: bool

    // The size the last measure pass settled on, and the copy of it taken on
    // a size change.
    var measuredWidth: nat
    var measuredHeight: nat
    var mWidth: nat
    var mHeight: nat

    /** How many redraws the view has requested with `invalidate()`. */
    ghost var redraws: nat

    function State(): WidgetState
      reads this
    {
      WidgetState(max, progress, startAngle, endAngle, reverse, roundCap)
    }

    /** Builds the view; with an attribute set, the attributes are parsed
        over the defaults. No redraw is requested. */
    constructor (attrs: Option<Attributes>)
      ensures State() == InitialState(attrs)
      ensures State().max > 0
      ensures measuredWidth == measuredHeight == mWidth == mHeight == 0
      ensures redraws == 0
    {
      max := DEFAULT_MAX;
      progress := DEFAULT_PROGRESS;
      startAngle := DEFAULT_START_ANGLE;
      endAngle := DEFAULT_END_ANGLE;
      reverse := DEFAULT_REVERSE;
      roundCap := DEFAULT_ROUND_CAP;
      measuredWidth, measuredHeight := 0, 0;
      mWidth, mHeight := 0, 0;
      redraws := 0;
      new;
      if attrs.Some? {
        ParseAttribute(attrs.value);
      }
    }

    /** Reads the attribute set into the fields. */
    method ParseAttribute(attrs: Attributes)
      modifies this`max, this`progress, this`startAngle, this`endAngle,
               this`reverse, this`roundCap
      ensures State() == Configured(attrs)
    {
      max := attrs.ringMax.GetOr(DEFAULT_MAX);
      if max <= 0 {
        max := DEFAULT_MAX;
      }
      startAngle := attrs.startAngle.GetOr(DEFAULT_START_ANGLE);
      endAngle := attrs.endAngle.GetOr(DEFAULT_END_ANGLE);
      reverse := attrs.reverse.GetOr(DEFAULT_REVERSE);
      roundCap := attrs.roundCap.GetOr(DEFAULT_ROUND_CAP);
      progress := attrs.progress.GetOr(DEFAULT_PROGRESS);
    }

    /** Settles the measured size, each axis on its own. */
    method OnMeasure(widthSpec: MeasureSpec, heightSpec: MeasureSpec, defaultSize: nat)
      modifies this`measuredWidth, this`measuredHeight
      ensures measuredWidth == Measure(widthSpec, defaultSize)
      ensures measuredHeight == Measure(heightSpec, defaultSize)
      ensures State() == old(State())
    {
      measuredWidth := Measure(widthSpec, defaultSize);
      measuredHeight := Measure(heightSpec, defaultSize);
    }

    /** Takes the new size from the measured size, not from the arguments. */
    method OnSizeChanged(w: nat, h: nat, oldw: nat, oldh: nat)
      modifies this`mWidth, this`mHeight
      ensures mWidth == measuredWidth && mHeight == measuredHeight
      ensures State() == old(State())
    {
      mWidth := measuredWidth;
      mHeight := measuredHeight;
    }

    /** Stores any maximum, zero and negatives included, and requests a
        redraw. */
    method SetMaxValue(newMax: Int32)
      modifies this`max, this`redraws
      ensures State() == old(State()).(max := newMax)
      ensures Some(State()) == Apply(old(State()), SetMaxValueCall(newMax))
      ensures redraws == old(redraws) + 1
    {
      max := newMax;
      redraws := redraws + 1;
    }

    /** Stores the corrected progress and requests a redraw. A progress above
        a zero maximum throws before anything is stored or redrawn. */
    method SetProgress(newProgress: Int32) returns (outcome: Completion)
      modifies this`progress, this`redraws
      ensures outcome == (if ThrowsArithmetic(newProgress, max) then ThrewArithmeticException else Returned)
      ensures outcome == ThrewArithmeticException ==>
                State() == old(State()) && redraws == old(redraws)
      ensures outcome == Returned ==>
                State() == old(State()).(progress := CorrectProgress(newProgress, max))
                && redraws == old(redraws) + 1
      ensures max > 0 ==> outcome == Returned && progress <= max
      ensures Apply(old(State()), SetProgressCall(newProgress))
           == if outcome == Returned then Some(State()) else None
    {
      if ThrowsArithmetic(newProgress, max) {
        return ThrewArithmeticException;
      }
      progress := CorrectProgress(newProgress, max);
      redraws := redraws + 1;
      return Returned;
    }
  }

  /** A usage example that models nothing in the view: what a caller can
      conclude from the view's contracts alone. */
  method Client()
  {
    var bar := new CircleProgressBar(Some(Attributes(Some(100), Some(150), None, None, None, None)));
    assert bar.progress == 150;
    var outcome := bar.SetProgress(150);
    assert outcome == Returned && bar.progress == 50;
    bar.SetMaxValue(50);
    outcome := bar.SetProgress(100);
    assert bar.progress == 50;
    outcome := bar.SetProgress(-20);
    assert bar.progress == -20;
    bar.SetMaxValue(0);
    outcome := bar.SetProgress(5);
    assert outcome == ThrewArithmeticException && bar.progress == -20 && bar.max == 0;
    assert bar.redraws == 5;
  }
}
