/**
 * The character controller as the engine sees it: an object whose callbacks
 * assign its own fields and those of the engine-owned rigid body and
 * transform in place. Every method is proved to leave the combined state
 * exactly as the matching step function of module Motion prescribes.
 */
module Controller {
  import opened Motion

  /** The engine's 2D rigid body, as far as the controller touches it. */
  class RigidBody {
    var linearVelocity: Vec2
    var gravityScale: real

    constructor (linearVelocity: Vec2, gravityScale: real)
      ensures this.linearVelocity == linearVelocity && this.gravityScale == gravityScale
    {
      this.linearVelocity := linearVelocity;
      this.gravityScale := gravityScale;
    }
  }

  /** The engine's transform, as far as the controller touches it. */
  class Transform {
    var localScale: Vec3

    constructor (localScale: Vec3)
      ensures this.localScale == localScale
    {
      this.localScale := localScale;
    }
  }

  class Player {
    const tuning: Tuning
    const rb: RigidBody
    const playerTransform: Transform

    var moveInput: Vec2
    var jumpPressed: bool
    var jumpReleased: bool
    var facingDirection: int
    var isGrounded: bool
    var isSliding: bool
    var slideTimer: real

    /** The abstract state: the controller's fields together with the body's and the transform's. */
    function State(): Snapshot
      reads this, rb, playerTransform
    {
      Snapshot(rb.linearVelocity, rb.gravityScale, playerTransform.localScale,
               moveInput, jumpPressed, jumpReleased, facingDirection,
               isGrounded, isSliding, slideTimer)
    }

    /** Creation with the field initialisers; the body and transform come from the engine. */
    constructor (tuning: Tuning, rb: RigidBody, playerTransform: Transform)
      ensures this.tuning == tuning && this.rb == rb && this.playerTransform == playerTransform
      ensures State() == Spawned(rb.linearVelocity, rb.gravityScale, playerTransform.localScale)
    {
      this.tuning := tuning;
      this.rb := rb;
      this.playerTransform := playerTransform;
      moveInput := Vec2(0.0, 0.0);
      jumpPressed := false;
      jumpReleased := false;
      facingDirection := 1;
      isGrounded := false;
      isSliding := false;
      slideTimer := 0.0;
    }

    method Start()
      modifies rb
      ensures State() == Motion.Start(tuning, old(State()))
    {
      rb.gravityScale := tuning.normalGravity;
    }

    method Update(dt: real)
      modifies this, playerTransform, rb
      ensures State() == Motion.Update(tuning, old(State()), dt)
    {
      Flip();
      HandleSlide(dt);
    }

    method FixedUpdate(grounded: bool)
      modifies this, rb
      ensures State() == Motion.FixedUpdate(tuning, old(State()), grounded)
    {
      ApplyGravity();
      CheckGrounded(grounded);
      if !isSliding {
        HandleMovement();
      }
      HandleJump();
    }

    method HandleMovement()
      modifies rb
      ensures State() == Motion.HandleMovement(tuning, old(State()))
    {
      rb.linearVelocity := Vec2(moveInput.x * tuning.speed, rb.linearVelocity.y);
    }

    method HandleJump()
      modifies this, rb
      ensures State() == Motion.HandleJump(tuning, old(State()))
    {
      if jumpPressed && isGrounded {
        rb.linearVelocity := Vec2(rb.linearVelocity.x, tuning.jumpForce);
        jumpPressed := false;
        jumpReleased := false;
      }
      if jumpReleased {
        if rb.linearVelocity.y > 0.0 {
          rb.linearVelocity := Vec2(rb.linearVelocity.x, rb.linearVelocity.y * tuning.jumpCutMultiplier);
        }
        jumpReleased := false;
      }
    }

    /** The frame time is a parameter: the engine's clock is not part of the model. */
    method HandleSlide(dt: real)
      modifies this, rb
      ensures State() == Motion.HandleSlide(tuning, old(State()), dt)
    {
      if isSliding {
        slideTimer := slideTimer - dt;
        rb.linearVelocity := Vec2(tuning.slideSpeed * (facingDirection as real), rb.linearVelocity.y);
        if slideTimer <= 0.0 {
          isSliding := false;
        }
      }
      if isGrounded && !isSliding {
        isSliding := true;
        slideTimer := tuning.slideDuration;
      }
    }

    method ApplyGravity()
      modifies rb
      ensures State() == Motion.ApplyGravity(tuning, old(State()))
    {
      if rb.linearVelocity.y < -DEAD_BAND {
        rb.gravityScale := tuning.fallGravity;
      } else if rb.linearVelocity.y > DEAD_BAND {
        rb.gravityScale := tuning.jumpGravity;
      } else {
        rb.gravityScale := tuning.normalGravity;
      }
    }

    method Flip()
      modifies this, playerTransform
      ensures State() == Motion.Flip(old(State()))
    {
      if moveInput.x > DEAD_BAND {
        facingDirection := 1;
      } else if moveInput.x < -DEAD_BAND {
        facingDirection := -1;
      }
      playerTransform.localScale := Vec3(facingDirection as real, 1.0, 1.0);
    }

    /** The move action's decoded axis is a parameter. */
    method OnMove(value: Vec2)
      modifies this
      ensures State() == Motion.OnMove(old(State()), value)
    {
      moveInput := value;
    }

    /** The jump action's pressed state is a parameter. */
    method OnJump(isPressed: bool)
      modifies this
      ensures State() == Motion.OnJump(old(State()), isPressed)
    {
      if isPressed {
        jumpPressed := true;
        jumpReleased := false;
      } else {
        jumpReleased := true;
      }
    }

    /** The ground overlap test's answer is a parameter. */
    method CheckGrounded(grounded: bool)
      modifies this
      ensures State() == Motion.CheckGrounded(old(State()), grounded)
    {
      isGrounded := grounded;
    }
  }
}
