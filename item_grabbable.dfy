/**
 * ItemGrabbable (Types/ItemGrabbable.cs): an Item the player can carry, which takes
 * damage from fast movement and hard impacts (at most once per cooldown), goes
 * kinematic in the cart, and shows a green outline while highlighted.
 *
 * The class inheritance ItemGrabbable : Item is modelled by composition: `item` is
 * the Item part. Positions, frame times and vector magnitudes are inputs; parents are
 * entity ids (None for the scene root).
 */
module Grabbables {
  import opened Engine
  import opened Items

  const SpeedThreshold := 10.0
  const CooldownTime := 0.2

  /** Mathf.CeilToInt(weight * speed * 0.1). */
  function ImpactDamage(weight: real, speed: real): (d: int)
    ensures d as real - 1.0 < weight * speed * 0.1 <= d as real
    ensures weight * speed > 0.0 ==> d >= 1
    ensures weight * speed == 0.0 ==> d == 0
  {
    CeilToInt(weight * speed * 0.1)
  }

  /** The shared damage gate: fast enough, and the cooldown since the last damage is over. */
  predicate Harmful(speed: real, now: real, lastDamageTime: real) {
    speed > SpeedThreshold && now > lastDamageTime + CooldownTime
  }

  /** One speed sample or collision at time `now`. */
  datatype Impact = Impact(speed: real, time: real)

  /** The times at which a run of samples deals damage, starting from `last`. */
  function DamageTimes(last: real, impacts: seq<Impact>): (ts: seq<real>)
    ensures |ts| <= |impacts|
    decreases |impacts|
  {
    if impacts == [] then []
    else if Harmful(impacts[0].speed, impacts[0].time, last) then [impacts[0].time] + DamageTimes(impacts[0].time, impacts[1..])
    else DamageTimes(last, impacts[1..])
  }

  /** Each damage time is more than the cooldown after the previous one (and after `last`). */
  ghost predicate Spaced(last: real, ts: seq<real>) {
    && (ts != [] ==> ts[0] > last + CooldownTime)
    && (forall k :: 0 < k < |ts| ==> ts[k] > ts[k - 1] + CooldownTime)
  }

  /** However the samples arrive, damage is dealt at most once per cooldown window. */
  lemma {:induction false} DamageTimesSpaced(last: real, impacts: seq<Impact>)
    ensures Spaced(last, DamageTimes(last, impacts))
    decreases |impacts|
  {
    if impacts != [] {
      var i := impacts[0];
      if Harmful(i.speed, i.time, last) {
        DamageTimesSpaced(i.time, impacts[1..]);
        var rest := DamageTimes(i.time, impacts[1..]);
        var ts := [i.time] + rest;
        forall k | 0 < k < |ts|
          ensures ts[k] > ts[k - 1] + CooldownTime
        {
          if k > 1 {
            assert ts[k] == rest[k - 1] && ts[k - 1] == rest[k - 2];
          }
        }
      } else {
        DamageTimesSpaced(last, impacts[1..]);
      }
    }
  }

  /** After Awake (lastDamageTime = -cooldown) the first fast sample at a positive time deals damage. */
  lemma FirstImpactNotBlocked(speed: real, now: real)
    requires speed > SpeedThreshold && now > 0.0
    ensures Harmful(speed, now, -CooldownTime)
    ensures DamageTimes(-CooldownTime, [Impact(speed, now)]) == [now]
  {
  }

  class ItemGrabbable {
    const item: Item
    const rb: Rigidbody
    const originalOutlineColor: Color
    const originalParent: Option<EntityId>
    var lastPosition: Vec3
    var lastDamageTime: real
    var isInCart: bool
    var outlineColor: Color
    var parent: Option<EntityId>

    /**
     * Awake, for an object at `position` whose outline colour and parent are as given;
     * `isInCart` is the serialized value, which Awake does not touch.
     */
    constructor Awake(item: Item, rb: Rigidbody, position: Vec3, outlineColor: Color, parent: Option<EntityId>, isInCart: bool)
      ensures this.item == item && this.rb == rb
      ensures lastPosition == position && lastDamageTime == -CooldownTime && this.isInCart == isInCart
      ensures this.outlineColor == outlineColor && originalOutlineColor == outlineColor
      ensures this.parent == parent && originalParent == parent
    {
      this.item := item;
      this.rb := rb;
      lastPosition := position;
      lastDamageTime := -CooldownTime;
      this.isInCart := isInCart;
      this.outlineColor := outlineColor;
      originalOutlineColor := outlineColor;
      this.parent := parent;
      originalParent := parent;
    }

    /** The effect of the damage gate for a sample of `speed` at time `now`. */
    twostate predicate Sampled(speed: real, now: real)
      reads this, item
    {
      if Harmful(speed, now, old(lastDamageTime)) then
        item.Status() == Damaged(old(item.Status()), ImpactDamage(item.weight, speed)) && lastDamageTime == now
      else
        item.Status() == old(item.Status()) && lastDamageTime == old(lastDamageTime)
    }

    method ApplyImpact(speed: real, now: real)
      modifies this`lastDamageTime, item`currentHP, item`destroyed
      ensures Sampled(speed, now)
    {
      if speed > SpeedThreshold && now > lastDamageTime + CooldownTime {
        var damage := CeilToInt(item.weight * speed * 0.1);
        item.TakeDamage(damage);
        lastDamageTime := now;
      }
    }

    /**
     * Update with the object at `position` this frame (`moved` is the distance from
     * the previous position, `deltaTime` the frame time, `now` the clock): a
     * speed check while not in the cart.
     */
    method Update(position: Vec3, moved: real, deltaTime: real, now: real)
      requires deltaTime > 0.0 && IsLength(position.Minus(lastPosition), moved)
      modifies this`lastPosition, this`lastDamageTime, item`currentHP, item`destroyed
      ensures old(isInCart) ==>
        lastPosition == old(lastPosition) && lastDamageTime == old(lastDamageTime) && item.Status() == old(item.Status())
      ensures !old(isInCart) ==> lastPosition == position && Sampled(moved / deltaTime, now)
    {
      if !isInCart {
        var speed := moved / deltaTime;
        lastPosition := position;
        ApplyImpact(speed, now);
      }
    }

    /** A collision while the body moves at `speed` (the magnitude of its velocity). */
    method OnCollisionEnter(speed: real, now: real)
      requires IsLength(rb.state.velocity, speed)
      modifies this`lastDamageTime, item`currentHP, item`destroyed
      ensures Sampled(speed, now)
    {
      ApplyImpact(speed, now);
    }

    /** The same check, run when the item is thrown. */
    method OnThrow(speed: real, now: real)
      requires IsLength(rb.state.velocity, speed)
      modifies this`lastDamageTime, item`currentHP, item`destroyed
      ensures Sampled(speed, now)
    {
      ApplyImpact(speed, now);
    }

    /** In the cart the body is kinematic (physics off); out of it, physics again. */
    method SetInCart(inCart: bool)
      modifies this`isInCart, rb
      ensures isInCart == inCart
      ensures rb.state == old(rb.state).(isKinematic := inCart)
    {
      isInCart := inCart;
      if isInCart {
        rb.state := rb.state.(isKinematic := true);
      } else {
        rb.state := rb.state.(isKinematic := false);
      }
    }

    /** Green while highlighted, the colour found at Awake otherwise. */
    method SetOutline(isHighlighted: bool)
      modifies this`outlineColor
      ensures outlineColor == (if isHighlighted then Green else originalOutlineColor)
    {
      outlineColor := if isHighlighted then Green else originalOutlineColor;
    }

    method DetachFromParent()
      modifies this`parent
      ensures parent == None
    {
      parent := None;
    }

    /** Back under the parent the object had at Awake. */
    method ReattachToParent()
      modifies this`parent
      ensures parent == originalParent
    {
      parent := originalParent;
    }
  }
}
