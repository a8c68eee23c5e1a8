/**
 * The older PlayerGrabSystem (at the top of the scripts folder): grab whatever the ray
 * hits on the pickup layer, drop, throw without any surface check, lift and lower
 * the held item, and a single outline channel for ItemGrabbables.
 *
 * Holding is always physics-based here (gravity off and rotation frozen), so the body
 * changes on grab and drop are those of the newer system with physics holding.
 */
module LegacyGrabSystem {
  import opened Engine
  import opened Highlight
  import opened Holding
  import GrabSystem

  /** HighlightItem for one probe result. */
  function Arbitrate(c: Channel, p: Probe): (r: Channel)
    ensures Exclusive(c) ==> Exclusive(r)
    ensures p.Miss? ==> r.last == None && r.outlined == c.outlined - OptionSet(c.last)
    ensures p.Struck? && p.hit.grabbable ==> r.last == Some(p.hit.entity) && p.hit.entity in r.outlined
    ensures p.Struck? && !p.hit.grabbable ==> r == c
  {
    match p
    case Miss => Release(c)
    case Struck(hit) => if hit.grabbable then Retarget(c, hit.entity) else c
  }

  function ArbitrateAll(c: Channel, probes: seq<Probe>): Channel
    decreases |probes|
  {
    if probes == [] then c else ArbitrateAll(Arbitrate(c, probes[0]), probes[1..])
  }

  /** Frame after frame, at most one item is outlined, and it is the remembered one. */
  lemma {:induction false} ArbitrateAllExclusive(c: Channel, probes: seq<Probe>)
    requires Exclusive(c)
    ensures Exclusive(ArbitrateAll(c, probes))
    decreases |probes|
  {
    if probes != [] {
      ArbitrateAllExclusive(Arbitrate(c, probes[0]), probes[1..]);
    }
  }

  /** Rigidbody changes on a throw: gravity on, rotation free, one impulse (isKinematic is not touched). */
  function Fling(s: BodyState, impulse: Vec3): (r: BodyState)
    ensures r.useGravity && !r.rotationFrozen && r.isKinematic == s.isKinematic
    ensures r.velocity == s.velocity && r.angularVelocity == s.angularVelocity
    ensures r.impulses == s.impulses + [impulse]
  {
    s.(useGravity := true, rotationFrozen := false).WithImpulse(impulse)
  }

  /** The vertical lift/lower step of HandleHolding: lifting wins over lowering. */
  function LiftLower(target: Vec3, isLifting: bool, isLowering: bool, liftSpeed: real, lowerSpeed: real): (r: Vec3)
    ensures r.x == target.x && r.z == target.z
    ensures isLifting ==> r.y == target.y + liftSpeed
    ensures !isLifting && isLowering ==> r.y == target.y - lowerSpeed
    ensures !isLifting && !isLowering ==> r == target
  {
    if isLifting then target.(y := target.y + liftSpeed)
    else if isLowering then target.(y := target.y - lowerSpeed)
    else target
  }

  class PlayerGrabSystem {
    const hold: HoldSettings
    const throwForce: real
    const liftSpeed: real
    const lowerSpeed: real
    const defaultDotColor: Color
    const highlightDotColor: Color

    var grabbedItem: Option<EntityId>
    var grabbedRb: Rigidbody?
    var isLifting: bool
    var isLowering: bool
    var lastHighlightedItem: Option<EntityId>
    var outlinedItems: set<EntityId>
    var uiHolding: bool
    var dotColor: Color

    function Outline(): Channel
      reads this
    {
      Channel(lastHighlightedItem, outlinedItems)
    }

    ghost predicate Valid()
      reads this, grabbedRb
    {
      && (grabbedRb != null ==> grabbedItem.Some? && !grabbedRb.state.useGravity && grabbedRb.state.rotationFrozen)
      && (uiHolding <==> grabbedRb != null)
      && !(isLifting && isLowering)
      && Exclusive(Outline())
    }

    constructor (hold: HoldSettings, throwForce: real, liftSpeed: real, lowerSpeed: real, defaultDotColor: Color, highlightDotColor: Color)
      ensures Valid()
      ensures this.hold == hold && this.throwForce == throwForce && this.liftSpeed == liftSpeed && this.lowerSpeed == lowerSpeed
      ensures this.defaultDotColor == defaultDotColor && this.highlightDotColor == highlightDotColor
      ensures grabbedItem == None && grabbedRb == null && !uiHolding && !isLifting && !isLowering
      ensures Outline() == Unlit && dotColor == defaultDotColor
    {
      this.hold := hold;
      this.throwForce := throwForce;
      this.liftSpeed := liftSpeed;
      this.lowerSpeed := lowerSpeed;
      this.defaultDotColor := defaultDotColor;
      this.highlightDotColor := highlightDotColor;
      grabbedItem := None;
      grabbedRb := null;
      isLifting := false;
      isLowering := false;
      lastHighlightedItem := None;
      outlinedItems := {};
      uiHolding := false;
      dotColor := defaultDotColor;
    }

    /** What TryPickup does for probe `p`: take any hit object, with no component check. */
    twostate predicate PickedUp(p: Probe)
      reads this, ProbedBody(p)
    {
      match p
      case Miss =>
        grabbedItem == old(grabbedItem) && grabbedRb == old(grabbedRb) && uiHolding == old(uiHolding)
      case Struck(hit) =>
        && grabbedItem == Some(hit.entity) && grabbedRb == hit.rb
        && (hit.rb != null ==> hit.rb.state == GrabSystem.Grasp(old(hit.rb.state), true) && uiHolding)
        && (hit.rb == null ==> uiHolding == old(uiHolding))
    }

    /** The held slot is emptied and `rb`, the body that was held, is released. */
    twostate predicate Dropped(rb: Rigidbody?)
      reads this, rb
    {
      && grabbedItem == None && grabbedRb == null && !uiHolding
      && (rb != null ==> rb.state == GrabSystem.Ungrasp(old(rb.state), true))
    }

    /** The Grab/Drop button. */
    method ToggleGrabDrop(p: Probe)
      requires Valid()
      modifies this`grabbedItem, this`grabbedRb, this`uiHolding, ProbedBody(p), grabbedRb
      ensures Valid()
      ensures old(grabbedItem).None? ==> PickedUp(p)
      ensures old(grabbedItem).Some? ==> Dropped(old(grabbedRb))
      ensures old(grabbedItem).Some? && ProbedBody(p) != null && ProbedBody(p) != old(grabbedRb) ==>
        ProbedBody(p).state == old(ProbedBody(p).state)
    {
      if grabbedItem.None? {
        TryPickup(p);
      } else {
        DropItem();
      }
    }

    method TryPickup(p: Probe)
      requires Valid() && grabbedItem.None?
      modifies this`grabbedItem, this`grabbedRb, this`uiHolding, ProbedBody(p)
      ensures Valid()
      ensures PickedUp(p)
    {
      if p.Struck? {
        grabbedItem := Some(p.hit.entity);
        grabbedRb := p.hit.rb;
        if grabbedRb != null {
          grabbedRb.state := grabbedRb.state.(velocity := Zero, angularVelocity := Zero);
          grabbedRb.state := grabbedRb.state.(useGravity := false);
          grabbedRb.state := grabbedRb.state.(rotationFrozen := true);
          uiHolding := true;
        }
      }
    }

    method DropItem()
      requires Valid()
      modifies this`grabbedItem, this`grabbedRb, this`uiHolding, grabbedRb
      ensures Valid()
      ensures Dropped(old(grabbedRb))
    {
      if grabbedRb != null {
        grabbedRb.state := grabbedRb.state.(useGravity := true);
        grabbedRb.state := grabbedRb.state.(rotationFrozen := false);
      }
      grabbedItem := None;
      grabbedRb := null;
      uiHolding := false;
    }

    /**
     * The Throw button: no surface test in this version. A held object without a
     * Rigidbody makes the first body access throw, which aborts the call unchanged.
     */
    method ThrowItem(forward: Vec3)
      requires Valid()
      modifies this`grabbedItem, this`grabbedRb, this`uiHolding, grabbedRb
      ensures Valid()
      ensures old(grabbedItem).None? || old(grabbedRb) == null ==>
        grabbedItem == old(grabbedItem) && grabbedRb == old(grabbedRb) && uiHolding == old(uiHolding)
      ensures old(grabbedItem).Some? && old(grabbedRb) != null ==>
        && grabbedItem == None && grabbedRb == null && !uiHolding
        && old(grabbedRb).state == Fling(old(grabbedRb.state), forward.Scale(throwForce))
    {
      if grabbedItem.Some? && grabbedRb != null {
        grabbedRb.state := grabbedRb.state.(useGravity := true);
        grabbedRb.state := grabbedRb.state.(rotationFrozen := false);
        grabbedRb.state := grabbedRb.state.WithImpulse(forward.Scale(throwForce));
        grabbedItem := None;
        grabbedRb := null;
        uiHolding := false;
      }
    }

    method LiftItem()
      modifies this`isLifting, this`isLowering
      ensures isLifting && !isLowering
    {
      isLifting := true;
      isLowering := false;
    }

    method LowerItem()
      modifies this`isLifting, this`isLowering
      ensures isLowering && !isLifting
    {
      isLowering := true;
      isLifting := false;
    }

    method StopLiftingLowering()
      modifies this`isLifting, this`isLowering
      ensures !isLifting && !isLowering
    {
      isLifting := false;
      isLowering := false;
    }

    /**
     * HandleHolding: the position the held body is moved towards (`moveTo`, from its
     * current position `current`) and, when the anti-clipping line cast is `blocked`,
     * the position it is snapped to (`placeAt`). `distance` and `blockedDistance` are the
     * engine's distances from the camera to the weighted hold point and to the
     * backed-off blocking point. The lift or lower step comes after the distance guard.
     */
    method HandleHolding(cam: Vec3, forward: Vec3, current: Vec3, deltaTime: real,
                         distance: real, blocked: Option<Vec3>, blockedDistance: real)
      returns (moveTo: Option<Vec3>, placeAt: Option<Vec3>)
      requires grabbedItem.Some? && grabbedRb != null ==>
        IsLength(WeightedTarget(cam, forward, hold, grabbedRb.mass).Minus(cam), distance)
      requires blocked.Some? ==> IsLength(blocked.value.Minus(forward.Scale(ClipBackoff)).Minus(cam), blockedDistance)
      ensures grabbedItem.None? || HoldingFaults() ==> moveTo == None && placeAt == None
      ensures grabbedItem.Some? && grabbedRb != null ==>
        && moveTo == Some(Lerp(current, LiftLower(KeepAway(WeightedTarget(cam, forward, hold, grabbedRb.mass), distance, cam, forward, hold.minHoldDistance),
                                                  isLifting, isLowering, liftSpeed, lowerSpeed), deltaTime * hold.smoothing))
        && placeAt == ClipGuard(blocked, blockedDistance, cam, forward, hold.minHoldDistance)
    {
      moveTo, placeAt := None, None;
      if grabbedItem.Some? && grabbedRb != null {
        var holdPosition := Ahead(cam, forward, hold.holdDistance);
        holdPosition := holdPosition.(y := holdPosition.y + hold.heightAdjustment - grabbedRb.mass * hold.weightFactor);
        assert holdPosition == WeightedTarget(cam, forward, hold, grabbedRb.mass);
        if distance < hold.minHoldDistance {
          holdPosition := Ahead(cam, forward, hold.minHoldDistance);
        }
        if isLifting {
          holdPosition := holdPosition.(y := holdPosition.y + liftSpeed);
        } else if isLowering {
          holdPosition := holdPosition.(y := holdPosition.y - lowerSpeed);
        }
        moveTo := Some(Lerp(current, holdPosition, deltaTime * hold.smoothing));
        placeAt := ClipGuard(blocked, blockedDistance, cam, forward, hold.minHoldDistance);
      }
    }

    /** HandleHolding throws (reading the mass of a missing Rigidbody) before it moves anything. */
    predicate HoldingFaults()
      reads this
    {
      grabbedItem.Some? && grabbedRb == null
    }

    /** The crosshair dot: highlight colour iff the probe hit anything on the pickup layer. */
    method UpdateDotColor(p: Probe)
      modifies this`dotColor
      ensures dotColor == (if p.Struck? then highlightDotColor else defaultDotColor)
    {
      if p.Struck? {
        dotColor := highlightDotColor;
      } else {
        dotColor := defaultDotColor;
      }
    }

    method HighlightItem(p: Probe)
      requires Valid()
      modifies this`lastHighlightedItem, this`outlinedItems
      ensures Valid()
      ensures Outline() == Arbitrate(old(Outline()), p)
    {
      if p.Struck? {
        if p.hit.grabbable {
          if lastHighlightedItem.Some? && lastHighlightedItem.value != p.hit.entity {
            outlinedItems := outlinedItems - {lastHighlightedItem.value};
          }
          outlinedItems := outlinedItems + {p.hit.entity};
          lastHighlightedItem := Some(p.hit.entity);
        }
      } else if lastHighlightedItem.Some? {
        outlinedItems := outlinedItems - {lastHighlightedItem.value};
        lastHighlightedItem := None;
      }
    }

    /**
     * One frame: the hold controller, then the dot and the highlight, both from the same
     * probe result (the debug line is not modelled). When the hold controller throws, the
     * rest of the frame is skipped.
     */
    method Update(p: Probe, cam: Vec3, forward: Vec3, current: Vec3, deltaTime: real,
                  distance: real, blocked: Option<Vec3>, blockedDistance: real)
      returns (moveTo: Option<Vec3>, placeAt: Option<Vec3>)
      requires Valid()
      requires grabbedItem.Some? && grabbedRb != null ==>
        IsLength(WeightedTarget(cam, forward, hold, grabbedRb.mass).Minus(cam), distance)
      requires blocked.Some? ==> IsLength(blocked.value.Minus(forward.Scale(ClipBackoff)).Minus(cam), blockedDistance)
      modifies this`dotColor, this`lastHighlightedItem, this`outlinedItems
      ensures Valid()
      ensures old(HoldingFaults()) ==> dotColor == old(dotColor) && Outline() == old(Outline()) && moveTo == None && placeAt == None
      ensures !old(HoldingFaults()) ==>
        && dotColor == (if p.Struck? then highlightDotColor else defaultDotColor)
        && Outline() == Arbitrate(old(Outline()), p)
    {
      moveTo, placeAt := HandleHolding(cam, forward, current, deltaTime, distance, blocked, blockedDistance);
      if HoldingFaults() {
        return;
      }
      UpdateDotColor(p);
      HighlightItem(p);
    }
  }
}
