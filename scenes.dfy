/** The renderer's bookkeeping as a value: the kinds of the placed dice, the
    collection size seen by the last refresh, and the six per-kind instance
    buffers. The class `Area.Renderer` is proved against these functions;
    the lemmas here state what holds of every sequence of operations. */
module Scenes {
  import opened Dice

  /** A world transform. The renderer only ever builds translations; the
      matrix entries themselves are floating point and are not modelled. */
  datatype Transform = Translation(x: real, y: real, z: real)

  /** One element of a per-instance buffer. */
  datatype Attr = Attr(worldMatrix: Transform)

  /** The instance placed at the origin with no rotation. */
  const ORIGIN: Attr := Attr(Translation(0.0, 0.0, 0.0))

  /** The order in which `draw` visits the kinds. */
  const DRAW_ORDER: seq<DieKind> := [Four, Six, Eight, Ten, Twelve, Twenty]

  /** Largest value of a 64-bit `usize`. */
  const USIZE_MAX: nat := 0xFFFF_FFFF_FFFF_FFFF

  datatype Scene = Scene(
    kinds: seq<DieKind>,  // the kinds of the placed dice, in the order added
    prevSize: nat,        // collection size at the last rebuild
    four: seq<Attr>,
    six: seq<Attr>,
    eight: seq<Attr>,
    ten: seq<Attr>,
    twelve: seq<Attr>,
    twenty: seq<Attr>)

  /** The per-instance buffer of kind `kind`. */
  function PerInstance(s: Scene, kind: DieKind): seq<Attr> {
    match kind
    case Four => s.four
    case Six => s.six
    case Eight => s.eight
    case Ten => s.ten
    case Twelve => s.twelve
    case Twenty => s.twenty
  }

  /** `s` with the buffer of `kind` replaced by `b` and nothing else changed. */
  function WithPerInstance(s: Scene, kind: DieKind, b: seq<Attr>): (r: Scene)
    ensures PerInstance(r, kind) == b
    ensures forall k :: k != kind ==> PerInstance(r, k) == PerInstance(s, k)
    ensures r.kinds == s.kinds && r.prevSize == s.prevSize
  {
    match kind
    case Four => s.(four := b)
    case Six => s.(six := b)
    case Eight => s.(eight := b)
    case Ten => s.(ten := b)
    case Twelve => s.(twelve := b)
    case Twenty => s.(twenty := b)
  }

  /** State of a freshly constructed renderer. */
  function InitialScene(): (s: Scene)
    ensures s.kinds == [] && s.prevSize == 0
    ensures forall k :: PerInstance(s, k) == []
  {
    Scene([], 0, [], [], [], [], [], [])
  }

  /** `add_*` on a present renderer: one die of kind `kind` at the end. */
  function Added(s: Scene, kind: DieKind): (r: Scene)
    ensures |r.kinds| == |s.kinds| + 1 && r.kinds[..|s.kinds|] == s.kinds
    ensures r.kinds[|s.kinds|] == kind
    ensures forall k :: multiset(r.kinds)[k] == multiset(s.kinds)[k] + (if k == kind then 1 else 0)
    ensures r.prevSize == s.prevSize && forall k :: PerInstance(r, k) == PerInstance(s, k)
  {
    s.(kinds := s.kinds + [kind])
  }

  /** The refresh step of `draw`: only when the collection size differs from
      the one last seen AND is exactly one is anything rebuilt, and then only
      the buffer of the first die's kind, which becomes one instance at the
      origin. */
  function Refreshed(s: Scene): (r: Scene)
    ensures r.kinds == s.kinds
    ensures |s.kinds| != s.prevSize && |s.kinds| == 1 ==>
      && r.prevSize == 1
      && PerInstance(r, s.kinds[0]) == [ORIGIN]
      && forall k :: k != s.kinds[0] ==> PerInstance(r, k) == PerInstance(s, k)
    ensures !(|s.kinds| != s.prevSize && |s.kinds| == 1) ==> r == s
  {
    var size := |s.kinds|;
    if size != s.prevSize && size == 1 then
      WithPerInstance(s, s.kinds[0], [ORIGIN]).(prevSize := size)
    else
      s
  }

  /** Rust's `!` on a `usize`: the bitwise complement, which for an unsigned
      64-bit value equals `USIZE_MAX - x`. */
  function Complement(x: nat): nat
    requires x <= USIZE_MAX
  {
    USIZE_MAX - x
  }

  /** The draw guard as written, `!len > 0`: `!` binds tighter than `>`, so
      the guard compares the complement of the length with zero and fails
      only for the largest length. */
  function DrawGuard(len: nat): (b: bool)
    requires len <= USIZE_MAX
    ensures b <==> len != USIZE_MAX
    ensures len == 0 ==> b
  {
    Complement(len) > 0
  }

  /** Every buffer length fits a `usize`. */
  predicate Bounded(s: Scene) {
    forall k :: |PerInstance(s, k)| <= USIZE_MAX
  }

  /** The kinds `draw` issues a draw call for, in draw order. */
  function DrawCalls(s: Scene): (ks: seq<DieKind>)
    requires Bounded(s)
    ensures forall k :: k in ks <==> |PerInstance(s, k)| != USIZE_MAX
  {
    (if DrawGuard(|PerInstance(s, Four)|) then [Four] else []) +
    (if DrawGuard(|PerInstance(s, Six)|) then [Six] else []) +
    (if DrawGuard(|PerInstance(s, Eight)|) then [Eight] else []) +
    (if DrawGuard(|PerInstance(s, Ten)|) then [Ten] else []) +
    (if DrawGuard(|PerInstance(s, Twelve)|) then [Twelve] else []) +
    (if DrawGuard(|PerInstance(s, Twenty)|) then [Twenty] else [])
  }

  /** The guard evidently intended: draw a kind only when it has instances. */
  function IntendedDrawCalls(s: Scene): (ks: seq<DieKind>)
    ensures forall k :: k in ks <==> PerInstance(s, k) != []
  {
    (if |s.four| > 0 then [Four] else []) +
    (if |s.six| > 0 then [Six] else []) +
    (if |s.eight| > 0 then [Eight] else []) +
    (if |s.ten| > 0 then [Ten] else []) +
    (if |s.twelve| > 0 then [Twelve] else []) +
    (if |s.twenty| > 0 then [Twenty] else [])
  }

  /** What every reachable renderer state satisfies: `prevSize` is 0 or 1;
      at 0 every buffer is empty; at 1 there is a first die, its kind's buffer
      holds one origin instance and every other buffer is empty. */
  ghost predicate SceneInv(s: Scene) {
    && s.prevSize <= 1
    && (s.prevSize == 0 ==> forall k :: PerInstance(s, k) == [])
    && (s.prevSize == 1 ==>
          && |s.kinds| >= 1
          && PerInstance(s, s.kinds[0]) == [ORIGIN]
          && forall k :: k != s.kinds[0] ==> PerInstance(s, k) == [])
  }

  lemma InitialSceneInv()
    ensures SceneInv(InitialScene())
  {
  }

  lemma RefreshedKeepsInv(s: Scene)
    requires SceneInv(s)
    ensures SceneInv(Refreshed(s))
  {
  }

  /** One operation on a present renderer, as the host and the buttons issue them. */
  datatype Event = Add(kind: DieKind) | Roll | Draw

  /** The effect of one event on the bookkeeping. Rolling changes only die
      values and times, which the bookkeeping does not hold. */
  function Step(s: Scene, e: Event): Scene {
    match e
    case Add(kind) => Added(s, kind)
    case Roll => s
    case Draw => Refreshed(s)
  }

  function Run(s: Scene, es: seq<Event>): Scene
    decreases |es|
  {
    if es == [] then s else Run(Step(s, es[0]), es[1..])
  }

  /** Every operation keeps the invariant. */
  lemma StepKeepsInv(s: Scene, e: Event)
    requires SceneInv(s)
    ensures SceneInv(Step(s, e))
  {
    match e
    case Add(kind) =>
    case Roll =>
    case Draw => RefreshedKeepsInv(s);
  }

  /** Every sequence of operations keeps the invariant. */
  lemma {:induction false} RunKeepsInv(s: Scene, es: seq<Event>)
    requires SceneInv(s)
    ensures SceneInv(Run(s, es))
    decreases |es|
  {
    if es != [] {
      StepKeepsInv(s, es[0]);
      RunKeepsInv(Step(s, es[0]), es[1..]);
    }
  }

  /** From construction on, `prevSize` is 0 or 1, every buffer holds at most
      one instance, and at most one buffer is non-empty. */
  lemma ReachableBounds(es: seq<Event>)
    ensures var r := Run(InitialScene(), es);
      && r.prevSize <= 1
      && (forall k :: |PerInstance(r, k)| <= 1)
      && (forall k, k' :: PerInstance(r, k) != [] && PerInstance(r, k') != [] ==> k == k')
  {
    InitialSceneInv();
    RunKeepsInv(InitialScene(), es);
  }

  /** One die placed on a fresh renderer, then one frame: the buffer of its
      kind holds exactly one instance, at the origin, and every other buffer
      is empty. */
  lemma {:induction false} SingleDieAtOrigin(kind: DieKind)
    ensures var r := Run(InitialScene(), [Add(kind), Draw]);
      && r.prevSize == 1
      && PerInstance(r, kind) == [ORIGIN]
      && forall k :: k != kind ==> PerInstance(r, k) == []
  {
    var s1 := Step(InitialScene(), Add(kind));
    assert s1.kinds == [kind];
    var s2 := Step(s1, Draw);
    assert Run(InitialScene(), [Add(kind), Draw]) == Run(s1, [Draw]);
    assert Run(s1, [Draw]) == Run(s2, []);
  }

  /** Once two or more dice are placed before any refresh has rebuilt a
      buffer, no later operation ever rebuilds one: the collection only grows,
      so its size is never exactly one again. */
  lemma {:induction false} NoRefreshAfterTwo(s: Scene, es: seq<Event>)
    requires s.prevSize == 0 && |s.kinds| >= 2
    ensures Run(s, es).prevSize == 0
    ensures forall k :: PerInstance(Run(s, es), k) == PerInstance(s, k)
    decreases |es|
  {
    if es != [] {
      NoRefreshAfterTwo(Step(s, es[0]), es[1..]);
    }
  }

  /** The first die placed stays the only one drawn with instances: once a
      refresh has happened, later operations change no buffer. */
  lemma {:induction false} RefreshHappensOnce(s: Scene, es: seq<Event>)
    requires SceneInv(s) && s.prevSize == 1
    ensures |Run(s, es).kinds| >= |s.kinds|
    ensures Run(s, es).prevSize == 1
    ensures Run(s, es).kinds[0] == s.kinds[0]
    ensures forall k :: PerInstance(Run(s, es), k) == PerInstance(s, k)
    decreases |es|
  {
    if es != [] {
      StepKeepsInv(s, es[0]);
      RefreshHappensOnce(Step(s, es[0]), es[1..]);
    }
  }

  /** As written, the guard lets every kind through in every reachable
      state: six draw calls per frame, even with no die placed. */
  lemma DrawCallsAsWritten(s: Scene)
    requires SceneInv(s)
    ensures Bounded(s)
    ensures DrawCalls(s) == DRAW_ORDER
  {
    forall k ensures |PerInstance(s, k)| <= 1 {
      if s.prevSize == 1 && k == s.kinds[0] {
      } else {
        assert PerInstance(s, k) == [];
      }
    }
  }

  /** With no die placed, the code as written still issues six draw calls. */
  lemma EmptySceneDrawsSix()
    ensures DrawCalls(InitialScene()) == DRAW_ORDER
  {
    DrawCallsAsWritten(InitialScene());
  }

  /** With the intended guard, a frame draws exactly the first die's kind
      once a refresh has happened, and nothing before. */
  lemma IntendedDrawCallsReachable(s: Scene)
    requires SceneInv(s)
    ensures IntendedDrawCalls(s) == if s.prevSize == 0 then [] else [s.kinds[0]]
  {
    var nonEmpty := (k: DieKind) => s.prevSize == 1 && k == s.kinds[0];
    assert PerInstance(s, Four) != [] <==> nonEmpty(Four);
    assert PerInstance(s, Six) != [] <==> nonEmpty(Six);
    assert PerInstance(s, Eight) != [] <==> nonEmpty(Eight);
    assert PerInstance(s, Ten) != [] <==> nonEmpty(Ten);
    assert PerInstance(s, Twelve) != [] <==> nonEmpty(Twelve);
    assert PerInstance(s, Twenty) != [] <==> nonEmpty(Twenty);
  }
}
