/**
 * ItemPickup (Types/ItemPickup.cs): a trigger-based grabber that takes the first
 * object tagged "Item" touching it, carries it at an adjustable distance in front of
 * a hold point (keys Q and E) and throws it on a right click. Key and mouse state,
 * the hold point and the facing direction are inputs of each frame.
 */
module Pickup {
  import opened Engine
  import opened Holding

  /** How far one frame of Q or E moves the item. */
  const HoldStep := 0.1

  const InitialHoldDistance := 2.0

  /** The Q/E adjustment of one frame: Q first (closer, not below `lo`), then E (farther, not above `hi`). */
  function NextHoldDistance(d: real, q: bool, e: bool, lo: real, hi: real): (r: real)
    ensures lo <= hi && lo <= d <= hi ==> lo <= r <= hi
    ensures !q && !e ==> r == d
    ensures q && !e ==> r == Max(lo, d - HoldStep)
    ensures e && !q ==> r == Min(hi, d + HoldStep)
    ensures q && e && lo <= d - HoldStep && d <= hi ==> r == d
  {
    var closer := if q then Max(lo, d - HoldStep) else d;
    if e then Min(hi, closer + HoldStep) else closer
  }

  /** The Q and E keys held in one frame. */
  datatype Keys = Keys(q: bool, e: bool)

  function HoldDistanceAfter(d: real, frames: seq<Keys>, lo: real, hi: real): real
    decreases |frames|
  {
    if frames == [] then d else HoldDistanceAfter(NextHoldDistance(d, frames[0].q, frames[0].e, lo, hi), frames[1..], lo, hi)
  }

  /** Once within the limits, the hold distance stays within them however the keys are pressed. */
  lemma {:induction false} HoldDistanceStaysInRange(d: real, frames: seq<Keys>, lo: real, hi: real)
    requires lo <= d <= hi
    ensures lo <= HoldDistanceAfter(d, frames, lo, hi) <= hi
    decreases |frames|
  {
    if frames != [] {
      HoldDistanceStaysInRange(NextHoldDistance(d, frames[0].q, frames[0].e, lo, hi), frames[1..], lo, hi);
    }
  }

  /** Holding Q long enough brings the item to the near limit, and it stays there. */
  lemma {:induction false} HoldingQReachesNearLimit(d: real, n: nat, lo: real, hi: real)
    requires lo <= d <= hi && d - n as real * HoldStep <= lo
    ensures HoldDistanceAfter(d, seq(n, _ => Keys(true, false)), lo, hi) == lo
    decreases n
  {
    var frames := seq(n, _ => Keys(true, false));
    if n > 0 {
      var d1 := NextHoldDistance(d, true, false, lo, hi);
      assert frames[1..] == seq(n - 1, _ => Keys(true, false));
      if d - HoldStep <= lo {
        assert d1 == lo;
        HoldingQReachesNearLimit(d1, n - 1, lo, hi);
      } else {
        assert d1 == d - HoldStep;
        HoldingQReachesNearLimit(d1, n - 1, lo, hi);
      }
    }
  }

  class ItemPickup {
    const throwForce: real
    const minHoldDistance: real
    const maxHoldDistance: real
    var grabbedItem: Option<EntityId>
    var grabbedRb: Rigidbody?
    var currentHoldDistance: real

    ghost predicate Valid()
      reads this
    {
      grabbedRb != null ==> grabbedItem.Some?
    }

    constructor (throwForce: real, minHoldDistance: real, maxHoldDistance: real)
      ensures Valid()
      ensures this.throwForce == throwForce && this.minHoldDistance == minHoldDistance && this.maxHoldDistance == maxHoldDistance
      ensures grabbedItem == None && grabbedRb == null && currentHoldDistance == InitialHoldDistance
    {
      this.throwForce := throwForce;
      this.minHoldDistance := minHoldDistance;
      this.maxHoldDistance := maxHoldDistance;
      grabbedItem := None;
      grabbedRb := null;
      currentHoldDistance := InitialHoldDistance;
    }

    /**
     * The outcome of ThrowItem on the held body `rb`: physics on, one impulse along
     * `forward`, the slots emptied. Without a body the first access throws and nothing changes.
     */
    twostate predicate ThrowOutcome(rb: Rigidbody?, forward: Vec3)
      reads this, rb
    {
      if rb == null then
        grabbedItem == old(grabbedItem) && grabbedRb == null
      else
        && rb.state == old(rb.state).(isKinematic := false).WithImpulse(forward.Scale(throwForce))
        && grabbedItem == None && grabbedRb == null
    }

    /**
     * Update: while something is held, place it `currentHoldDistance` ahead of the hold
     * point (`placed`), then apply Q/E, then throw on a right click.
     */
    method Update(holdPos: Vec3, holdForward: Vec3, q: bool, e: bool, rightClick: bool, forward: Vec3)
      returns (placed: Option<Vec3>)
      requires Valid()
      modifies this`currentHoldDistance, this`grabbedItem, this`grabbedRb, grabbedRb
      ensures Valid()
      ensures old(grabbedItem).None? ==>
        && placed == None && currentHoldDistance == old(currentHoldDistance)
        && grabbedItem == None && grabbedRb == old(grabbedRb)
      ensures old(grabbedItem).Some? ==>
        && placed == Some(Ahead(holdPos, holdForward, old(currentHoldDistance)))
        && currentHoldDistance == NextHoldDistance(old(currentHoldDistance), q, e, minHoldDistance, maxHoldDistance)
      ensures old(grabbedItem).Some? && !rightClick ==>
        grabbedItem == old(grabbedItem) && grabbedRb == old(grabbedRb) && (grabbedRb != null ==> grabbedRb.state == old(grabbedRb.state))
      ensures old(grabbedItem).Some? && rightClick ==> ThrowOutcome(old(grabbedRb), forward)
    {
      placed := None;
      if grabbedItem.Some? {
        placed := Some(Ahead(holdPos, holdForward, currentHoldDistance));
        if q {
          currentHoldDistance := Max(minHoldDistance, currentHoldDistance - HoldStep);
        }
        if e {
          currentHoldDistance := Min(maxHoldDistance, currentHoldDistance + HoldStep);
        }
        if rightClick {
          ThrowItem(forward);
        }
      }
    }

    /** `other` touched the trigger; `taggedItem` is its "Item" tag, `otherRb` its Rigidbody. */
    method OnTriggerEnter(other: EntityId, taggedItem: bool, otherRb: Rigidbody?)
      requires Valid()
      modifies this`grabbedItem, this`grabbedRb, otherRb
      ensures Valid()
      ensures taggedItem && old(grabbedItem).None? ==>
        && grabbedItem == Some(other) && grabbedRb == otherRb
        && (otherRb != null ==> otherRb.state == old(otherRb.state).(isKinematic := true))
      ensures !(taggedItem && old(grabbedItem).None?) ==>
        && grabbedItem == old(grabbedItem) && grabbedRb == old(grabbedRb)
        && (otherRb != null ==> otherRb.state == old(otherRb.state))
    {
      if taggedItem && grabbedItem.None? {
        grabbedItem := Some(other);
        grabbedRb := otherRb;
        if grabbedRb == null {
          return;
        }
        grabbedRb.state := grabbedRb.state.(isKinematic := true);
      }
    }

    method ThrowItem(forward: Vec3)
      requires Valid()
      modifies this`grabbedItem, this`grabbedRb, grabbedRb
      ensures Valid()
      ensures ThrowOutcome(old(grabbedRb), forward)
    {
      if grabbedRb == null {
        return;
      }
      grabbedRb.state := grabbedRb.state.(isKinematic := false);
      grabbedRb.state := grabbedRb.state.WithImpulse(forward.Scale(throwForce));
      grabbedItem := None;
      grabbedRb := null;
    }
  }
}
