/**
 * The controller over its whole lifetime: the engine delivers input events and
 * callbacks one at a time, in any order, and between fixed steps its physics
 * solver rewrites the body's velocity. These lemmas state what holds after any
 * such sequence: the facing sign and the slide timer stay in range, and each
 * jump press or release has an effect at most once.
 */
module Lifetime {
  import opened Motion

  /** One thing the engine does to the controller. */
  datatype Event =
    | Move(axis: Vec2)          // the move action's value changed
    | Jump(pressed: bool)       // the jump button went down or up
    | Fixed(grounded: bool)     // a fixed step, with the ground test's answer
    | Frame(dt: real)           // a rendered frame, with its duration
    | Physics(velocity: Vec2)   // the solver integrated the body

  /** The controller's response to one event. */
  function Dispatch(t: Tuning, s: Snapshot, e: Event): Snapshot
  {
    match e
    case Move(axis) => OnMove(s, axis)
    case Jump(pressed) => OnJump(s, pressed)
    case Fixed(grounded) => FixedUpdate(t, s, grounded)
    case Frame(dt) => Update(t, s, dt)
    case Physics(v) => s.(velocity := v)
  }

  /** The state after the events, delivered in order. */
  function Run(t: Tuning, s: Snapshot, es: seq<Event>): Snapshot
    decreases |es|
  {
    if es == [] then s else Run(t, Dispatch(t, s, es[0]), es[1..])
  }

  /** Frame times are never negative. */
  predicate ForwardInTime(es: seq<Event>)
  {
    forall i :: 0 <= i < |es| && es[i].Frame? ==> es[i].dt >= 0.0
  }

  /**
   * What every reachable state satisfies: the facing is a sign; a running
   * slide has at most the full duration left and either time still on the
   * clock or was restarted this frame; a stopped slide has run out.
   */
  predicate Invariant(t: Tuning, s: Snapshot)
  {
    && (s.facing == 1 || s.facing == -1)
    && (s.isSliding ==> s.slideTimer <= t.slideDuration && (s.slideTimer > 0.0 || s.slideTimer == t.slideDuration))
    && (!s.isSliding ==> s.slideTimer <= 0.0)
  }

  /** A freshly started controller satisfies the invariant. */
  lemma StartEstablishes(t: Tuning, velocity: Vec2, gravityScale: real, localScale: Vec3)
    ensures Invariant(t, Start(t, Spawned(velocity, gravityScale, localScale)))
  {
  }

  /** Every event preserves the invariant, provided frame time does not run backwards. */
  lemma DispatchPreserves(t: Tuning, s: Snapshot, e: Event)
    requires Invariant(t, s)
    requires e.Frame? ==> e.dt >= 0.0
    ensures Invariant(t, Dispatch(t, s, e))
  {
  }

  /** Any sequence of events preserves the invariant. */
  lemma {:induction false} RunPreserves(t: Tuning, s: Snapshot, es: seq<Event>)
    requires Invariant(t, s)
    requires ForwardInTime(es)
    ensures Invariant(t, Run(t, s, es))
    decreases |es|
  {
    if es != [] {
      DispatchPreserves(t, s, es[0]);
      assert ForwardInTime(es[1..]) by {
        forall i | 0 <= i < |es[1..]| && es[1..][i].Frame?
          ensures es[1..][i].dt >= 0.0
        {
          assert es[1..][i] == es[i + 1];
        }
      }
      RunPreserves(t, Dispatch(t, s, es[0]), es[1..]);
    }
  }

  /**
   * Over the whole lifetime, from spawn then Start: the facing is always
   * plus or minus one, a running slide never has more than the full duration
   * left, and a stopped slide's timer is at or below zero.
   */
  lemma {:induction false} LifetimeInvariant(
    t: Tuning, velocity: Vec2, gravityScale: real, localScale: Vec3, es: seq<Event>)
    requires ForwardInTime(es)
    ensures var s := Run(t, Start(t, Spawned(velocity, gravityScale, localScale)), es);
            && (s.facing == 1 || s.facing == -1)
            && (s.isSliding ==> s.slideTimer <= t.slideDuration)
            && (!s.isSliding ==> s.slideTimer <= 0.0)
  {
    var s0 := Start(t, Spawned(velocity, gravityScale, localScale));
    StartEstablishes(t, velocity, gravityScale, localScale);
    RunPreserves(t, s0, es);
  }

  // ---------------------------------------------------------------------------
  // At-most-once consumption of the jump latches

  function B2N(b: bool): nat
  {
    if b then 1 else 0
  }

  /** Number of press events. */
  function Presses(es: seq<Event>): nat
    decreases |es|
  {
    if es == [] then 0 else B2N(es[0] == Jump(true)) + Presses(es[1..])
  }

  /** Number of release events. */
  function Releases(es: seq<Event>): nat
    decreases |es|
  {
    if es == [] then 0 else B2N(es[0] == Jump(false)) + Releases(es[1..])
  }

  /** Number of fixed steps during the run in which the jump branch fired. */
  function Impulses(t: Tuning, s: Snapshot, es: seq<Event>): nat
    decreases |es|
  {
    if es == [] then 0
    else
      var fired := es[0].Fixed? && Impulse(BeforeJump(t, s, es[0].grounded));
      B2N(fired) + Impulses(t, Dispatch(t, s, es[0]), es[1..])
  }

  /** Number of fixed steps during the run in which the cut branch fired. */
  function Cuts(t: Tuning, s: Snapshot, es: seq<Event>): nat
    decreases |es|
  {
    if es == [] then 0
    else
      var fired := es[0].Fixed? && Cut(BeforeJump(t, s, es[0].grounded));
      B2N(fired) + Cuts(t, Dispatch(t, s, es[0]), es[1..])
  }

  /**
   * Each press makes at most one jump: the jumps performed plus a press still
   * latched at the end never outnumber the presses delivered plus a press
   * latched at the start.
   */
  lemma {:induction false} JumpsAtMostPresses(t: Tuning, s: Snapshot, es: seq<Event>)
    ensures Impulses(t, s, es) + B2N(Run(t, s, es).jumpPressed) <= Presses(es) + B2N(s.jumpPressed)
    decreases |es|
  {
    if es != [] {
      JumpsAtMostPresses(t, Dispatch(t, s, es[0]), es[1..]);
    }
  }

  /**
   * Each release shortens at most one jump: the cuts performed plus a release
   * still latched at the end never outnumber the releases delivered plus a
   * release latched at the start.
   */
  lemma {:induction false} CutsAtMostReleases(t: Tuning, s: Snapshot, es: seq<Event>)
    ensures Cuts(t, s, es) + B2N(Run(t, s, es).jumpReleased) <= Releases(es) + B2N(s.jumpReleased)
    decreases |es|
  {
    if es != [] {
      CutsAtMostReleases(t, Dispatch(t, s, es[0]), es[1..]);
    }
  }

  /**
   * A worked example: standing still with the axis pushed
   * right and the button pressed, a grounded fixed step jumps at full speed;
   * releasing the button and stepping again in the air picks the rising
   * gravity and halves the upward speed with the default cut multiplier.
   */
  lemma JumpThenCut(t: Tuning, s: Snapshot)
    requires !s.isSliding && t.jumpCutMultiplier == INITIAL_TUNING.jumpCutMultiplier && t.jumpForce > DEAD_BAND
    ensures var s1 := Run(t, s, [Move(Vec2(1.0, 0.0)), Jump(true), Fixed(true)]);
            && s1.velocity == Vec2(t.speed, t.jumpForce)
            && !s1.jumpPressed && !s1.jumpReleased
            && var s2 := Run(t, s1, [Jump(false), Fixed(false)]);
               && s2.gravityScale == t.jumpGravity
               && s2.velocity == Vec2(t.speed, t.jumpForce / 2.0)
               && !s2.jumpReleased
  {
  }
}
