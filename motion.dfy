/**
 * The per-step behaviour of the platformer character controller, as pure
 * transitions over a snapshot of every field the controller reads or writes.
 * Each function here specifies one method of the controller class in
 * module Controller; the class's methods are proved to change their
 * fields exactly as these functions say.
 */
module Motion {

  /** A two-component vector (velocity, move axis). */
  datatype Vec2 = Vec2(x: real, y: real)

  /** A three-component vector (the transform's local scale). */
  datatype Vec3 = Vec3(x: real, y: real, z: real)

  /** The tunables the controller only reads (set in the editor before play). */
  datatype Tuning = Tuning(
    speed: real,
    jumpForce: real,
    jumpCutMultiplier: real,
    normalGravity: real,
    jumpGravity: real,
    fallGravity: real,
    slideDuration: real,
    slideSpeed: real)

  /** The field initialisers of the controller's tunables; the rest default to zero. */
  const INITIAL_TUNING := Tuning(
    speed := 20.0, jumpForce := 0.0, jumpCutMultiplier := 0.5,
    normalGravity := 0.0, jumpGravity := 0.0, fallGravity := 0.0,
    slideDuration := 0.6, slideSpeed := 12.0)

  /** Half-width of the dead band around zero used by both the gravity choice and the facing flip. */
  const DEAD_BAND: real := 0.1

  /**
   * Everything the controller state machine reads or writes: the rigid body's
   * velocity and gravity scale, the transform's local scale, and the
   * controller's own input latches, facing sign and slide state.
   */
  datatype Snapshot = Snapshot(
    velocity: Vec2,
    gravityScale: real,
    localScale: Vec3,
    moveInput: Vec2,
    jumpPressed: bool,
    jumpReleased: bool,
    facing: int,
    isGrounded: bool,
    isSliding: bool,
    slideTimer: real)

  /** The controller right after it is created: its own fields hold their initialisers,
      the engine-owned body and transform hold whatever the engine gave them. */
  function Spawned(velocity: Vec2, gravityScale: real, localScale: Vec3): (s: Snapshot)
    ensures s.velocity == velocity && s.gravityScale == gravityScale && s.localScale == localScale
    ensures !s.jumpPressed && !s.jumpReleased && s.facing == 1
    ensures !s.isGrounded && !s.isSliding && s.slideTimer == 0.0
  {
    Snapshot(velocity, gravityScale, localScale, Vec2(0.0, 0.0), false, false, 1, false, false, 0.0)
  }

  // ---------------------------------------------------------------------------
  // Gravity scale

  /** The three vertical regimes the gravity scale distinguishes. */
  datatype Phase = Falling | Rising | Resting

  /** The regime of a vertical velocity: exactly one of the three, with the
      boundaries at plus and minus DEAD_BAND counted as resting. */
  function PhaseOf(vy: real): (p: Phase)
    ensures p == Falling <==> vy < -DEAD_BAND
    ensures p == Rising <==> vy > DEAD_BAND
    ensures p == Resting <==> -DEAD_BAND <= vy <= DEAD_BAND
  {
    if vy < -DEAD_BAND then Falling
    else if vy > DEAD_BAND then Rising
    else Resting
  }

  /** The gravity scale configured for a regime. */
  function ScaleFor(t: Tuning, p: Phase): real
  {
    match p
    case Falling => t.fallGravity
    case Rising => t.jumpGravity
    case Resting => t.normalGravity
  }

  /** Start: the body begins with the resting gravity scale. */
  function Start(t: Tuning, s: Snapshot): (r: Snapshot)
    ensures r.gravityScale == t.normalGravity
    ensures r.(gravityScale := s.gravityScale) == s
  {
    s.(gravityScale := t.normalGravity)
  }

  /** ApplyGravity: the scale follows the regime of the current vertical
      velocity; the velocity itself and everything else are left alone. */
  function ApplyGravity(t: Tuning, s: Snapshot): (r: Snapshot)
    ensures s.velocity.y < -DEAD_BAND ==> r.gravityScale == t.fallGravity
    ensures s.velocity.y > DEAD_BAND ==> r.gravityScale == t.jumpGravity
    ensures -DEAD_BAND <= s.velocity.y <= DEAD_BAND ==> r.gravityScale == t.normalGravity
    ensures r.gravityScale == ScaleFor(t, PhaseOf(s.velocity.y))
    ensures r.(gravityScale := s.gravityScale) == s
  {
    var vy := s.velocity.y;
    if vy < -DEAD_BAND then s.(gravityScale := t.fallGravity)
    else if vy > DEAD_BAND then s.(gravityScale := t.jumpGravity)
    else s.(gravityScale := t.normalGravity)
  }

  // ---------------------------------------------------------------------------
  // Ground check and horizontal movement

  /** CheckGrounded: records the result of the engine's ground overlap test. */
  function CheckGrounded(s: Snapshot, grounded: bool): (r: Snapshot)
    ensures r.isGrounded == grounded
    ensures r.(isGrounded := s.isGrounded) == s
  {
    s.(isGrounded := grounded)
  }

  /** HandleMovement: horizontal speed is the axis times the speed, whatever it was before. */
  function HandleMovement(t: Tuning, s: Snapshot): (r: Snapshot)
    ensures r.velocity.x == s.moveInput.x * t.speed
    ensures r.velocity.y == s.velocity.y
    ensures r.(velocity := s.velocity) == s
  {
    s.(velocity := Vec2(s.moveInput.x * t.speed, s.velocity.y))
  }

  // ---------------------------------------------------------------------------
  // Jump

  /** The jump branch fires: a latched press while on the ground. */
  predicate Impulse(s: Snapshot)
  {
    s.jumpPressed && s.isGrounded
  }

  /** The cut branch fires: a latched release, no jump this step, still moving up. */
  predicate Cut(s: Snapshot)
  {
    !Impulse(s) && s.jumpReleased && s.velocity.y > 0.0
  }

  /**
   * HandleJump: a latched press is consumed only on the ground and sets the
   * vertical speed to the jump force; a latched release shortens an upward
   * motion by the cut multiplier; the release latch never survives the step,
   * and a jump is never cut in the step that started it.
   */
  function HandleJump(t: Tuning, s: Snapshot): (r: Snapshot)
    ensures !r.jumpReleased
    ensures r.velocity.x == s.velocity.x
    ensures Impulse(s) ==> r.velocity.y == t.jumpForce && !r.jumpPressed
    ensures !Impulse(s) ==> r.jumpPressed == s.jumpPressed
    ensures Cut(s) ==> r.velocity.y == s.velocity.y * t.jumpCutMultiplier
    ensures !Impulse(s) && !Cut(s) ==> r.velocity == s.velocity
    ensures r.(velocity := s.velocity, jumpPressed := s.jumpPressed, jumpReleased := s.jumpReleased) == s
  {
    var jumped :=
      if s.jumpPressed && s.isGrounded then
        s.(velocity := Vec2(s.velocity.x, t.jumpForce), jumpPressed := false, jumpReleased := false)
      else s;
    if jumped.jumpReleased then
      var cut :=
        if jumped.velocity.y > 0.0 then
          jumped.(velocity := Vec2(jumped.velocity.x, jumped.velocity.y * t.jumpCutMultiplier))
        else jumped;
      cut.(jumpReleased := false)
    else jumped
  }

  // ---------------------------------------------------------------------------
  // Slide

  /**
   * HandleSlide: while sliding, the timer runs down by the frame time and the
   * body is pushed along the facing direction at the slide speed; the slide
   * ends once the timer is at or below zero. Whenever the controller is on the
   * ground and not sliding, a new slide starts with a full timer.
   */
  function HandleSlide(t: Tuning, s: Snapshot, dt: real): (r: Snapshot)
    ensures s.isSliding ==> r.velocity == Vec2(t.slideSpeed * (s.facing as real), s.velocity.y)
    ensures !s.isSliding ==> r.velocity == s.velocity
    ensures s.isSliding && s.slideTimer - dt > 0.0 ==> r.isSliding && r.slideTimer == s.slideTimer - dt
    ensures s.isSliding && s.slideTimer - dt <= 0.0 && !s.isGrounded ==>
              !r.isSliding && r.slideTimer == s.slideTimer - dt
    ensures !s.isSliding && !s.isGrounded ==> !r.isSliding && r.slideTimer == s.slideTimer
    ensures s.isGrounded ==> r.isSliding
    ensures r.isSliding && (!s.isSliding || s.slideTimer - dt <= 0.0) ==> r.slideTimer == t.slideDuration
    ensures r.(velocity := s.velocity, isSliding := s.isSliding, slideTimer := s.slideTimer) == s
  {
    var ran :=
      if s.isSliding then
        var timer := s.slideTimer - dt;
        s.(slideTimer := timer,
           velocity := Vec2(t.slideSpeed * (s.facing as real), s.velocity.y),
           isSliding := !(timer <= 0.0))
      else s;
    if ran.isGrounded && !ran.isSliding then
      ran.(isSliding := true, slideTimer := t.slideDuration)
    else ran
  }

  // ---------------------------------------------------------------------------
  // Facing

  /** Flip: the axis beyond the dead band picks the facing sign, inside it the
      sign is kept; the transform's x scale then mirrors the facing. */
  function Flip(s: Snapshot): (r: Snapshot)
    ensures s.moveInput.x > DEAD_BAND ==> r.facing == 1
    ensures s.moveInput.x < -DEAD_BAND ==> r.facing == -1
    ensures -DEAD_BAND <= s.moveInput.x <= DEAD_BAND ==> r.facing == s.facing
    ensures (s.facing == 1 || s.facing == -1) ==> (r.facing == 1 || r.facing == -1)
    ensures r.localScale == Vec3(r.facing as real, 1.0, 1.0)
    ensures r.(facing := s.facing, localScale := s.localScale) == s
  {
    var facing :=
      if s.moveInput.x > DEAD_BAND then 1
      else if s.moveInput.x < -DEAD_BAND then -1
      else s.facing;
    s.(facing := facing, localScale := Vec3(facing as real, 1.0, 1.0))
  }

  // ---------------------------------------------------------------------------
  // Input callbacks

  /** OnMove: stores the move axis. */
  function OnMove(s: Snapshot, axis: Vec2): (r: Snapshot)
    ensures r.moveInput == axis
    ensures r.(moveInput := s.moveInput) == s
  {
    s.(moveInput := axis)
  }

  /** OnJump: a press latches the press and discards a pending release; a
      release latches the release and leaves a pending press alone. */
  function OnJump(s: Snapshot, pressed: bool): (r: Snapshot)
    ensures pressed ==> r.jumpPressed && !r.jumpReleased
    ensures !pressed ==> r.jumpReleased && r.jumpPressed == s.jumpPressed
    ensures r.(jumpPressed := s.jumpPressed, jumpReleased := s.jumpReleased) == s
  {
    if pressed then s.(jumpPressed := true, jumpReleased := false)
    else s.(jumpReleased := true)
  }

  // ---------------------------------------------------------------------------
  // Engine callbacks

  /** The state HandleJump sees inside a fixed step. */
  function BeforeJump(t: Tuning, s: Snapshot, grounded: bool): Snapshot
  {
    var checked := CheckGrounded(ApplyGravity(t, s), grounded);
    if !checked.isSliding then HandleMovement(t, checked) else checked
  }

  /**
   * FixedUpdate: gravity from the velocity at the start of the step, then the
   * ground check, then movement unless sliding, then the jump. While sliding
   * the horizontal speed is untouched, since only movement writes it here.
   */
  function FixedUpdate(t: Tuning, s: Snapshot, grounded: bool): (r: Snapshot)
    ensures r.isGrounded == grounded
    ensures r.gravityScale == ScaleFor(t, PhaseOf(s.velocity.y))
    ensures !s.isSliding ==> r.velocity.x == s.moveInput.x * t.speed
    ensures s.isSliding ==> r.velocity.x == s.velocity.x
    ensures !r.jumpReleased
    ensures s.jumpPressed && grounded ==> r.velocity.y == t.jumpForce && !r.jumpPressed
    ensures !(s.jumpPressed && grounded) && s.jumpReleased && s.velocity.y > 0.0 ==>
              r.velocity.y == s.velocity.y * t.jumpCutMultiplier
    ensures !(s.jumpPressed && grounded) && !(s.jumpReleased && s.velocity.y > 0.0) ==>
              r.velocity.y == s.velocity.y
    ensures !grounded ==> r.jumpPressed == s.jumpPressed
    ensures !s.jumpPressed ==> !r.jumpPressed
    ensures r.(velocity := s.velocity, gravityScale := s.gravityScale, isGrounded := s.isGrounded,
               jumpPressed := s.jumpPressed, jumpReleased := s.jumpReleased) == s
  {
    HandleJump(t, BeforeJump(t, s, grounded))
  }

  /**
   * Update: the facing flip, then the slide. The slide pushes along the facing
   * chosen in this same frame; a grounded controller always ends the frame
   * sliding.
   */
  function Update(t: Tuning, s: Snapshot, dt: real): (r: Snapshot)
    ensures s.moveInput.x > DEAD_BAND ==> r.facing == 1
    ensures s.moveInput.x < -DEAD_BAND ==> r.facing == -1
    ensures -DEAD_BAND <= s.moveInput.x <= DEAD_BAND ==> r.facing == s.facing
    ensures (s.facing == 1 || s.facing == -1) ==> (r.facing == 1 || r.facing == -1)
    ensures r.localScale == Vec3(r.facing as real, 1.0, 1.0)
    ensures s.isSliding ==> r.velocity == Vec2(t.slideSpeed * (r.facing as real), s.velocity.y)
    ensures !s.isSliding ==> r.velocity == s.velocity
    ensures s.isSliding && s.slideTimer - dt > 0.0 ==> r.isSliding && r.slideTimer == s.slideTimer - dt
    ensures s.isSliding && s.slideTimer - dt <= 0.0 && !s.isGrounded ==>
              !r.isSliding && r.slideTimer == s.slideTimer - dt
    ensures !s.isSliding && !s.isGrounded ==> !r.isSliding && r.slideTimer == s.slideTimer
    ensures s.isGrounded ==> r.isSliding
    ensures r.isSliding && (!s.isSliding || s.slideTimer - dt <= 0.0) ==> r.slideTimer == t.slideDuration
    ensures r.(velocity := s.velocity, localScale := s.localScale, facing := s.facing,
               isSliding := s.isSliding, slideTimer := s.slideTimer) == s
  {
    HandleSlide(t, Flip(s), dt)
  }
}
