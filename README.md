# Bounty-Runner player controller

A model of the `Player` component from the Bounty-Runner 2D platformer. It is a
per-step state machine. Each fixed physics step it does four things:

- picks a gravity scale from the vertical speed;
- records whether the character is on the ground;
- sets the horizontal speed from the move axis, unless sliding;
- handles jump presses and releases, which are latched as one-shot flags.

Each rendered frame it does two things:

- turns the character to face the move axis;
- runs down a slide timer. A new slide starts whenever the character is on the ground.

The model has three modules:

- `Motion` (`motion.dfy`) describes the state as a value, `Snapshot`. It holds the rigid
  body's velocity and gravity scale, the transform's local scale, the two jump latches,
  the facing sign, the ground flag and the slide state. The read-only tunables are a
  value, `Tuning`. Each of the component's methods is a pure step function
  `Snapshot -> Snapshot`. Its `ensures` clauses say what the step does and what it leaves
  alone.
- `Controller` (`controller.dfy`) is the imperative form. The class `Player` holds the
  component's own fields and refers to a `RigidBody` and a `Transform` object owned by
  the engine. Its methods assign those fields in place, in the order the component does.
  Each method is proved to leave `State()` equal to the matching `Motion` function applied
  to the old state.
- `Lifetime` (`lifetime.dfy`) lets the engine drive the controller with any sequence of
  events: move, jump press or release, fixed step, frame, and the physics solver
  rewriting the velocity. Over any such run it proves three things:
  - the facing sign and the slide timer stay in range;
  - each jump press causes at most one jump;
  - each jump release causes at most one jump cut.

Three points about the code's behaviour:

- The slide timer is decreased by the whole frame time. It therefore ends at or below
  zero, not at exactly zero. It is not kept non-negative either: a stopped slide's timer
  is only known to be at or below zero (`Lifetime.Invariant`).
- `FixedUpdate` picks the gravity scale before the jump. So the step that jumps still uses
  the pre-jump vertical speed. The rising scale takes effect only from the next fixed step
  (`Motion.FixedUpdate`, `Lifetime.JumpThenCut`).
- The slide restarts whenever the character is grounded and not sliding, every frame. The
  model keeps this behaviour (`Motion.HandleSlide`: `s.isGrounded ==> r.isSliding`).

## Model

| member | source | states |
|---|---|---|
| `Motion.Spawned` | Assets/Player/Player.cs:11-35 | a new controller has no move input, both jump latches clear, facing 1, not grounded, not sliding, slide timer 0; the body and transform start with the values the engine gave them |
| `Motion.PhaseOf` | Assets/Player/Player.cs:106-121 | the vertical regime is falling iff vy < -0.1, rising iff vy > 0.1, resting iff -0.1 <= vy <= 0.1 (both boundaries count as resting) |
| `Motion.Start` | Assets/Player/Player.cs:38-45 | Start sets the gravity scale to the resting one and changes nothing else |
| `Motion.ApplyGravity` | Assets/Player/Player.cs:106-121 | the gravity scale becomes the fall, jump or normal gravity by the three-way threshold on vy; velocity and every other field are unchanged |
| `Motion.CheckGrounded` | Assets/Player/Player.cs:157-160 | the ground flag becomes the ground test's answer; nothing else changes |
| `Motion.HandleMovement` | Assets/Player/Player.cs:64-68 | horizontal speed becomes axis times speed regardless of its old value; vertical speed and every other field are unchanged |
| `Motion.HandleJump` | Assets/Player/Player.cs:70-86 | the release latch is always clear afterwards; vx never changes; a grounded press sets vy to the jump force and clears the press; an ungrounded press stays latched; a release with no jump that step and vy > 0 multiplies vy by the cut multiplier; otherwise velocity is unchanged, so a jump is never cut in its own step |
| `Motion.HandleSlide` | Assets/Player/Player.cs:88-104 | while sliding, vx becomes slide speed times facing and vy is kept; the timer drops by exactly dt; off the ground the slide goes on iff the new timer is above zero; a grounded controller is always sliding afterwards; entering a slide, or restarting one, sets the timer to the slide duration; not sliding leaves velocity untouched |
| `Motion.Flip` | Assets/Player/Player.cs:122-134 | facing becomes 1 when the axis is above 0.1, -1 when below -0.1, and is kept otherwise; a facing in {-1, 1} stays in {-1, 1}; the local scale becomes (facing, 1, 1) |
| `Motion.OnMove` | Assets/Player/Player.cs:136-139 | the move axis is stored; nothing else changes |
| `Motion.OnJump` | Assets/Player/Player.cs:143-154 | a press sets the press latch and clears the release latch; a release sets the release latch and leaves the press latch as it was |
| `Motion.FixedUpdate` | Assets/Player/Player.cs:53-62 | the gravity scale follows the velocity at the start of the step; not sliding gives vx = axis times speed; sliding leaves vx unchanged; the release latch is clear afterwards; a grounded press gives vy = jump force; otherwise a pending release with vy > 0 multiplies vy by the cut multiplier, and in every other case vy is kept; an airborne step keeps a press latched and no step invents one; facing, slide state and input are untouched |
| `Motion.Update` | Assets/Player/Player.cs:47-51 | facing becomes 1 when the axis is above 0.1, -1 when below -0.1, and is kept otherwise, so a sign stays a sign; the scale mirrors it; a running slide pushes along the facing chosen in the same frame; the slide timer drops by exactly dt; off the ground the slide goes on iff the new timer is above zero, and a stopped slide stays stopped with its timer; a grounded controller always ends the frame sliding; a slide entered or restarted has the full duration; jump latches, gravity and input are untouched |
| `Lifetime.StartEstablishes` | Assets/Player/Player.cs:11-45 | after creation and Start, the facing is a sign and the slide timer satisfies the slide invariant |
| `Lifetime.DispatchPreserves` | Assets/Player/Player.cs:38-160 | every callback, input event or physics update keeps facing in {-1, 1}, keeps a running slide's timer at most the duration, and keeps a stopped slide's timer at or below zero, when frame time is not negative |
| `Lifetime.RunPreserves` | Assets/Player/Player.cs:38-160 | any sequence of events with non-negative frame times preserves that invariant |
| `Lifetime.LifetimeInvariant` | Assets/Player/Player.cs:11-160 | over the whole lifetime from spawn and Start, facing is always 1 or -1, a running slide never has more than the full duration left, and a stopped slide's timer is at or below zero |
| `Lifetime.JumpsAtMostPresses` | Assets/Player/Player.cs:70-154 | over any run, the jumps performed plus a press still latched never exceed the presses delivered plus a press latched at the start: each press jumps at most once |
| `Lifetime.CutsAtMostReleases` | Assets/Player/Player.cs:70-154 | over any run, the jump cuts performed plus a release still latched never exceed the releases delivered plus one latched at the start: each release cuts at most once |
| `Lifetime.JumpThenCut` | Assets/Player/Player.cs:53-86 | axis right, press, grounded step: velocity is (speed, jump force) and both latches are clear; then release and an airborne step: the rising gravity is chosen and vy is halved with the default cut multiplier |
| `Controller.RigidBody.constructor` | Assets/Player/Player.cs:7 | the body holds the velocity and gravity scale it is created with |
| `Controller.Transform.constructor` | Assets/Player/Player.cs:9 | the transform holds the local scale it is created with |
| `Controller.Player.constructor` | Assets/Player/Player.cs:11-35 | the controller's fields hold their initialisers, as `Motion.Spawned` states |
| `Controller.Player.Start` | Assets/Player/Player.cs:38-45 | the new state is `Motion.Start` of the old |
| `Controller.Player.Update` | Assets/Player/Player.cs:47-51 | calling Flip then HandleSlide leaves the state `Motion.Update` prescribes |
| `Controller.Player.FixedUpdate` | Assets/Player/Player.cs:53-62 | calling the four steps in order leaves the state `Motion.FixedUpdate` prescribes |
| `Controller.Player.HandleMovement` | Assets/Player/Player.cs:64-68 | the new state is `Motion.HandleMovement` of the old |
| `Controller.Player.HandleJump` | Assets/Player/Player.cs:70-86 | the in-place jump and cut branches leave the state `Motion.HandleJump` prescribes |
| `Controller.Player.HandleSlide` | Assets/Player/Player.cs:88-104 | the in-place timer and slide updates leave the state `Motion.HandleSlide` prescribes |
| `Controller.Player.ApplyGravity` | Assets/Player/Player.cs:106-121 | the new state is `Motion.ApplyGravity` of the old |
| `Controller.Player.Flip` | Assets/Player/Player.cs:122-134 | the new state is `Motion.Flip` of the old |
| `Controller.Player.OnMove` | Assets/Player/Player.cs:136-139 | the new state is `Motion.OnMove` of the old |
| `Controller.Player.OnJump` | Assets/Player/Player.cs:143-154 | the new state is `Motion.OnJump` of the old |
| `Controller.Player.CheckGrounded` | Assets/Player/Player.cs:157-160 | the new state is `Motion.CheckGrounded` of the old |

## Left out

- The ground overlap query (the ground-check anchor, radius and layer mask, line 159) is an
  engine geometry test. Its answer is the `grounded` parameter of `CheckGrounded` and
  `FixedUpdate`.
- The component lookups in `Start` (lines 40-42) are engine wiring. The body and transform
  objects are constructor parameters instead.
- The frame time is the `dt` parameter of `Update` and `HandleSlide`. The engine's
  scheduling of frames against fixed steps is any order of events in `Lifetime.Run`. The
  callbacks run one at a time, so there is no concurrency to model.
- The physics solver's integration of the body is not modelled. `Lifetime.Event.Physics`
  lets it set any new velocity between callbacks.
- Decoding of input-system values is not modelled. `OnMove` takes the axis as a vector and
  `OnJump` takes the pressed flag as a boolean.
- Single-precision floating point is modelled as exact reals. The thresholds `0.1f` are the
  real 0.1; the single-precision constant is slightly larger than that. Rounding of the
  products is not modelled either.
- Only the x component of the local scale depends on the controller. The transform's
  other components are stored as the constants 1 that the component writes.
- The `Player` tunables are editor-settable public fields. The model reads them as one
  constant `Tuning` value. Their initialisers are `Motion.INITIAL_TUNING`.
- Motion.Spawned and Lifetime.LifetimeInvariant: the component's input and slide fields
  are serialized, so a scene can store start values that replace the initialisers (a
  stored facing of 0, for one, stays 0 while the axis is inside the dead band). Such
  stored values are not modelled: `Spawned` uses the initialisers. `Lifetime.RunPreserves`
  covers any start state that meets `Lifetime.Invariant`.
