/** The dice area widget and the renderer it owns while realized. The GL
    side (vertex, index and shader objects, frames) is not modelled; what is
    kept is the collection of dice, the size counter and the six per-kind
    instance buffers, which `Scenes` describes as a value. */
module Area {
  import opened Dice
  import opened Scenes

  /** The kinds of `dice`, in order. A die's kind is a constant, so this
      reads no mutable state. */
  function KindsOf(dice: seq<Die>): (ks: seq<DieKind>)
    ensures |ks| == |dice|
    ensures forall i | 0 <= i < |dice| :: ks[i] == dice[i].kind
  {
    seq(|dice|, i requires 0 <= i < |dice| => dice[i].kind)
  }

  class Renderer {
    var dice: seq<Die>
    var prevSize: nat
    var fourPerInstance: seq<Attr>
    var sixPerInstance: seq<Attr>
    var eightPerInstance: seq<Attr>
    var tenPerInstance: seq<Attr>
    var twelvePerInstance: seq<Attr>
    var twentyPerInstance: seq<Attr>

    /** The bookkeeping of this renderer as a `Scenes.Scene` value. */
    function State(): Scene
      reads this
    {
      Scene(KindsOf(dice), prevSize,
            fourPerInstance, sixPerInstance, eightPerInstance,
            tenPerInstance, twelvePerInstance, twentyPerInstance)
    }

    /** The bookkeeping invariant, every die valid, and no die twice. */
    ghost predicate Valid()
      reads this, dice
    {
      && SceneInv(State())
      && (forall i | 0 <= i < |dice| :: dice[i].Valid())
      && (forall i, j | 0 <= i < j < |dice| :: dice[i] != dice[j])
    }

    /** A new renderer: no dice, size counter zero, six empty buffers. */
    constructor ()
      ensures Valid()
      ensures dice == [] && State() == InitialScene()
    {
      dice := [];
      prevSize := 0;
      fourPerInstance, sixPerInstance, eightPerInstance := [], [], [];
      tenPerInstance, twelvePerInstance, twentyPerInstance := [], [], [];
      InitialSceneInv();
    }

    /** The refresh step of a frame: when the collection size differs from
        the one last seen and is exactly one, the buffer of the first die's
        kind is rebuilt as one origin instance and the size recorded. */
    method Refresh()
      requires Valid()
      modifies this`prevSize, this`fourPerInstance, this`sixPerInstance, this`eightPerInstance,
               this`tenPerInstance, this`twelvePerInstance, this`twentyPerInstance
      ensures Valid()
      ensures State() == Refreshed(old(State()))
    {
      RefreshedKeepsInv(State());
      var size := |dice|;
      if size != prevSize {
        if size == 1 {
          var oneDie := [ORIGIN];
          match dice[0].kind {
            case Four => fourPerInstance := oneDie;
            case Six => sixPerInstance := oneDie;
            case Eight => eightPerInstance := oneDie;
            case Ten => tenPerInstance := oneDie;
            case Twelve => twelvePerInstance := oneDie;
            case Twenty => twentyPerInstance := oneDie;
          }
          prevSize := size;
        }
      }
    }

    /** The draw step of a frame: one guarded draw call per kind, in draw
        order. Returns the kinds a draw call was issued for. */
    method IssueDrawCalls() returns (calls: seq<DieKind>)
      requires Valid()
      ensures Bounded(State()) && calls == DrawCalls(State())
    {
      ghost var s := State();
      DrawCallsAsWritten(s);
      assert PerInstance(s, Four) == fourPerInstance && PerInstance(s, Six) == sixPerInstance;
      assert PerInstance(s, Eight) == eightPerInstance && PerInstance(s, Ten) == tenPerInstance;
      assert PerInstance(s, Twelve) == twelvePerInstance && PerInstance(s, Twenty) == twentyPerInstance;
      calls := [];
      if DrawGuard(|fourPerInstance|) { calls := [Four]; }
      if DrawGuard(|sixPerInstance|) { calls := calls + [Six]; }
      if DrawGuard(|eightPerInstance|) { calls := calls + [Eight]; }
      if DrawGuard(|tenPerInstance|) { calls := calls + [Ten]; }
      if DrawGuard(|twelvePerInstance|) { calls := calls + [Twelve]; }
      if DrawGuard(|twentyPerInstance|) { calls := calls + [Twenty]; }
    }

    /** One frame: the refresh step, then the draw calls. */
    method Draw() returns (calls: seq<DieKind>)
      requires Valid()
      modifies this`prevSize, this`fourPerInstance, this`sixPerInstance, this`eightPerInstance,
               this`tenPerInstance, this`twelvePerInstance, this`twentyPerInstance
      ensures Valid()
      ensures State() == Refreshed(old(State()))
      ensures Bounded(State()) && calls == DrawCalls(State())
    {
      Refresh();
      calls := IssueDrawCalls();
    }
  }

  /** The widget: it holds a renderer between realize and unrealize. */
  class DiceArea {
    var renderer: Renderer?

    ghost predicate Valid()
      reads this, renderer, if renderer == null then [] else renderer.dice
    {
      renderer != null ==> renderer.Valid()
    }

    /** A new widget holds no renderer until it is realized. */
    constructor ()
      ensures Valid() && renderer == null
    {
      renderer := null;
    }

    /** Realize: when the widget reports a GL error nothing happens;
        otherwise a new renderer replaces whatever was held. */
    method Realize(hasError: bool)
      requires Valid()
      modifies this
      ensures Valid()
      ensures hasError ==> renderer == old(renderer)
      ensures !hasError ==>
        renderer != null && fresh(renderer) && renderer.dice == [] && renderer.State() == InitialScene()
    {
      if hasError {
        return;
      }
      renderer := new Renderer();
    }

    /** Unrealize: the renderer is dropped. */
    method Unrealize()
      modifies this
      ensures Valid() && renderer == null
    {
      renderer := null;
    }

    /** Render one frame. The renderer is unwrapped, so it must be present.
        The widget reports the frame as not handled. */
    method Render() returns (handled: bool, calls: seq<DieKind>)
      requires Valid() && renderer != null
      modifies renderer
      ensures Valid()
      ensures renderer.dice == old(renderer.dice)
      ensures renderer.State() == Refreshed(old(renderer.State()))
      ensures calls == DrawCalls(renderer.State())
      ensures !handled
    {
      calls := renderer.Draw();
      handled := false;
    }

    /** The new state after adding one die of kind `kind`: with no renderer
        nothing changes; otherwise a fresh, valid die of that kind stamped
        with the current time is the last of the collection and everything
        before it is as it was. */
    twostate predicate AddedOne(kind: DieKind, clock: Clock)
      reads this, renderer, clock, if renderer == null then [] else renderer.dice
    {
      && renderer == old(renderer)
      && (renderer == null ==> clock.reading == old(clock.reading))
      && (renderer != null ==>
            var n := |old(renderer.dice)|;
            && |renderer.dice| == n + 1
            && renderer.dice[..n] == old(renderer.dice)
            && fresh(renderer.dice[n])
            && renderer.dice[n].kind == kind
            && old(clock.reading) <= clock.reading
            && renderer.dice[n].time == Some(clock.reading)
            && renderer.State() == Added(old(renderer.State()), kind))
    }

    method AddDie(kind: DieKind, clock: Clock)
      requires Valid()
      modifies renderer, clock
      ensures Valid() && AddedOne(kind, clock)
    {
      if renderer != null {
        StepKeepsInv(renderer.State(), Add(kind));
        var die := new Die(kind, clock);
        renderer.dice := renderer.dice + [die];
        assert KindsOf(renderer.dice) == KindsOf(old(renderer.dice)) + [kind];
      }
    }

    method AddFour(clock: Clock)
      requires Valid()
      modifies renderer, clock
      ensures Valid() && AddedOne(Four, clock)
    {
      AddDie(Four, clock);
    }

    method AddSix(clock: Clock)
      requires Valid()
      modifies renderer, clock
      ensures Valid() && AddedOne(Six, clock)
    {
      AddDie(Six, clock);
    }

    method AddEight(clock: Clock)
      requires Valid()
      modifies renderer, clock
      ensures Valid() && AddedOne(Eight, clock)
    {
      AddDie(Eight, clock);
    }

    method AddTen(clock: Clock)
      requires Valid()
      modifies renderer, clock
      ensures Valid() && AddedOne(Ten, clock)
    {
      AddDie(Ten, clock);
    }

    method AddTwelve(clock: Clock)
      requires Valid()
      modifies renderer, clock
      ensures Valid() && AddedOne(Twelve, clock)
    {
      AddDie(Twelve, clock);
    }

    method AddTwenty(clock: Clock)
      requires Valid()
      modifies renderer, clock
      ensures Valid() && AddedOne(Twenty, clock)
    {
      AddDie(Twenty, clock);
    }

    /** Roll every placed die in place, in collection order. With no
        renderer nothing changes. Otherwise the collection and the
        bookkeeping are as they were, every die shows a value of its own range
        and carries a time read during this call, and the times follow the
        order of the collection. */
    method Roll(clock: Clock)
      requires Valid()
      modifies clock, if renderer == null then [] else renderer.dice
      ensures Valid()
      ensures renderer == null ==> clock.reading == old(clock.reading)
      ensures renderer != null ==>
        var dice := renderer.dice;
        && dice == old(renderer.dice)
        && renderer.State() == old(renderer.State())
        && (forall i | 0 <= i < |dice| ::
              && InRange(dice[i].kind, dice[i].val)
              && dice[i].time.Some?
              && old(clock.reading) <= dice[i].time.value <= clock.reading)
        && (forall i, j | 0 <= i < j < |dice| :: dice[i].time.value <= dice[j].time.value)
    {
      if renderer != null {
        var dice := renderer.dice;
        ghost var start := clock.reading;
        var i := 0;
        while i < |dice|
          invariant 0 <= i <= |dice|
          invariant start <= clock.reading
          invariant forall j | 0 <= j < |dice| :: dice[j].Valid()
          invariant forall j | 0 <= j < i :: start <= dice[j].time.value <= clock.reading
          invariant forall j, k | 0 <= j < k < i :: dice[j].time.value <= dice[k].time.value
        {
          dice[i].Roll(clock);
          assert forall j | 0 <= j < |dice| && j != i :: dice[j] != dice[i];
          i := i + 1;
        }
      }
    }
  }
}
