/**
 * PlayerController (Player/PlayerController.cs): joystick movement relative to the
 * camera and a single jump that is re-armed by any collision. The joystick axes and
 * the camera's flattened, normalised forward and right vectors are inputs.
 */
module PlayerControl {
  import opened Engine

  /** The horizontal velocity the joystick asks for: forward by the vertical axis, right by the horizontal one. */
  function MoveDirection(forward: Vec3, right: Vec3, moveX: real, moveZ: real, speed: real): Vec3 {
    forward.Scale(moveZ).Plus(right.Scale(moveX)).Scale(speed)
  }

  class PlayerController {
    const rb: Rigidbody
    const speed: real
    const jumpForce: real
    var canJump: bool

    constructor (rb: Rigidbody, speed: real, jumpForce: real)
      ensures this.rb == rb && this.speed == speed && this.jumpForce == jumpForce && canJump
    {
      this.rb := rb;
      this.speed := speed;
      this.jumpForce := jumpForce;
      canJump := true;
    }

    /**
     * MovePlayer: the horizontal velocity follows the joystick, the vertical one (falling
     * or jumping) is kept. `forward` and `right` are the camera axes with y removed and
     * normalised.
     */
    method MovePlayer(forward: Vec3, right: Vec3, moveX: real, moveZ: real)
      modifies rb
      ensures rb.state.velocity.y == old(rb.state.velocity.y)
      ensures rb.state.velocity.x == speed * (moveZ * forward.x + moveX * right.x)
      ensures rb.state.velocity.z == speed * (moveZ * forward.z + moveX * right.z)
      ensures rb.state == old(rb.state).(velocity := rb.state.velocity)
    {
      var moveDirection := MoveDirection(forward, right, moveX, moveZ, speed);
      rb.state := rb.state.(velocity := Vec3(moveDirection.x, rb.state.velocity.y, moveDirection.z));
    }

    /** Jump: only when armed; sets the vertical velocity and disarms. */
    method Jump()
      modifies this`canJump, rb
      ensures !canJump
      ensures old(canJump) ==>
        rb.state == old(rb.state).(velocity := Vec3(old(rb.state.velocity.x), jumpForce, old(rb.state.velocity.z)))
      ensures !old(canJump) ==> rb.state == old(rb.state)
    {
      if canJump {
        rb.state := rb.state.(velocity := Vec3(rb.state.velocity.x, jumpForce, rb.state.velocity.z));
        canJump := false;
      }
    }

    /** Any collision re-arms the jump. */
    method OnCollisionEnter()
      modifies this`canJump
      ensures canJump
    {
      canJump := true;
    }
  }

  /** Without a collision in between, a second jump does nothing: one jump per landing. */
  method JumpTwice(pc: PlayerController)
    modifies pc`canJump, pc.rb
    ensures !pc.canJump
    ensures old(pc.canJump) ==>
      pc.rb.state == old(pc.rb.state).(velocity := Vec3(old(pc.rb.state.velocity.x), pc.jumpForce, old(pc.rb.state.velocity.z)))
    ensures !old(pc.canJump) ==> pc.rb.state == old(pc.rb.state)
  {
    pc.Jump();
    pc.Jump();
  }
}
