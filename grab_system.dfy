/**
 * The player's grab / drop / throw / interact state machine and its two-channel
 * highlight arbiter (the newer PlayerGrabSystem, under Player/).
 *
 * The slot `grabbedItem` is Idle when None and Holding otherwise. The probe result
 * of the frame, the "surface too close" ray test and the view direction are inputs.
 * UIManager.SetUIState is recorded as `uiHolding`, Interactable.Interact() calls as
 * the log `interactions`, and SetOutline calls as the outlined sets of each channel.
 */
module GrabSystem {
  import opened Engine
  import opened Highlight
  import opened Holding

  /** The two outline channels: Interactables and ItemGrabbables. */
  datatype Highlights = Highlights(interactables: Channel, items: Channel)

  const NothingLit := Highlights(Unlit, Unlit)

  /** Within each channel, only the remembered entity can be outlined. */
  ghost predicate PerChannel(h: Highlights) {
    Exclusive(h.interactables) && Exclusive(h.items)
  }

  /** HighlightAndGrabOrInteractItem for one probe result. */
  function Arbitrate(h: Highlights, p: Probe): (r: Highlights)
    ensures PerChannel(h) ==> PerChannel(r)
    ensures p.Miss? && PerChannel(h) ==> r == NothingLit
    ensures p.Miss? ==> r.interactables.last == None && r.items.last == None
    ensures Classify(p).InteractableTarget? ==>
      r.interactables.last == Some(p.hit.entity) && p.hit.entity in r.interactables.outlined && r.items == h.items
    ensures Classify(p).GrabbableTarget? ==>
      r.items.last == Some(p.hit.entity) && p.hit.entity in r.items.outlined && r.interactables == h.interactables
    ensures Classify(p).OtherTarget? ==> r == h
  {
    match Classify(p)
    case NoTarget => Highlights(Release(h.interactables), Release(h.items))
    case InteractableTarget(e) => h.(interactables := Retarget(h.interactables, e))
    case GrabbableTarget(e) => h.(items := Retarget(h.items, e))
    case OtherTarget(_) => h
  }

  /** The arbiter run once per frame over a sequence of probe results. */
  function ArbitrateAll(h: Highlights, probes: seq<Probe>): Highlights
    decreases |probes|
  {
    if probes == [] then h else ArbitrateAll(Arbitrate(h, probes[0]), probes[1..])
  }

  /** Frame after frame, each channel outlines at most its remembered entity. */
  lemma {:induction false} ArbitrateAllPerChannel(h: Highlights, probes: seq<Probe>)
    requires PerChannel(h)
    ensures PerChannel(ArbitrateAll(h, probes))
    decreases |probes|
  {
    if probes != [] {
      ArbitrateAllPerChannel(Arbitrate(h, probes[0]), probes[1..]);
    }
  }

  /**
   * Highlighting is exclusive per channel only: looking at a grabbable and then at a
   * different interactable leaves both outlined.
   */
  lemma ChannelSwitchLeavesBothOutlined(g: EntityId, d: EntityId)
    ensures var r := ArbitrateAll(NothingLit, [Struck(Hit(g, false, true, null)), Struck(Hit(d, true, false, null))]);
      r.items.outlined == {g} && r.interactables.outlined == {d}
  {
    var probes := [Struck(Hit(g, false, true, null)), Struck(Hit(d, true, false, null))];
    var r1 := Arbitrate(NothingLit, probes[0]);
    var r2 := Arbitrate(r1, probes[1]);
    assert r1.items.outlined == {g} && r1.interactables == Unlit;
    assert r2.items.outlined == {g} && r2.interactables.outlined == {d};
    assert ArbitrateAll(r1, probes[1..]) == ArbitrateAll(r2, []) == r2;
  }

  /** Rigidbody changes on a grab: at rest, then gravity off and rotation frozen, or kinematic. */
  function Grasp(s: BodyState, usePhysics: bool): (r: BodyState)
    ensures r.velocity == Zero && r.angularVelocity == Zero && r.impulses == s.impulses
    ensures usePhysics ==> !r.useGravity && r.rotationFrozen && r.isKinematic == s.isKinematic
    ensures !usePhysics ==> r.isKinematic && r.useGravity == s.useGravity && r.rotationFrozen == s.rotationFrozen
  {
    var still := s.(velocity := Zero, angularVelocity := Zero);
    if usePhysics then still.(useGravity := false, rotationFrozen := true) else still.(isKinematic := true)
  }

  /** Rigidbody changes on a drop: gravity on and rotation free again, or not kinematic. */
  function Ungrasp(s: BodyState, usePhysics: bool): (r: BodyState)
    ensures r.velocity == s.velocity && r.angularVelocity == s.angularVelocity && r.impulses == s.impulses
    ensures usePhysics ==> r.useGravity && !r.rotationFrozen && r.isKinematic == s.isKinematic
    ensures !usePhysics ==> !r.isKinematic && r.useGravity == s.useGravity && r.rotationFrozen == s.rotationFrozen
  {
    if usePhysics then s.(useGravity := true, rotationFrozen := false) else s.(isKinematic := false)
  }

  /** Rigidbody changes on a throw: every flag released and one impulse applied. */
  function Fling(s: BodyState, impulse: Vec3): (r: BodyState)
    ensures r.useGravity && !r.isKinematic && !r.rotationFrozen
    ensures r.velocity == s.velocity && r.angularVelocity == s.angularVelocity
    ensures r.impulses == s.impulses + [impulse]
  {
    s.(useGravity := true, isKinematic := false, rotationFrozen := false).WithImpulse(impulse)
  }

  /** A drop undoes a grab of a free body, except that the body has been stopped. */
  lemma DropUndoesGrab(s: BodyState, usePhysics: bool)
    requires s.useGravity && !s.rotationFrozen && !s.isKinematic
    ensures Ungrasp(Grasp(s, usePhysics), usePhysics) == s.(velocity := Zero, angularVelocity := Zero)
  {
  }

  class PlayerGrabSystem {
    const usePhysics: bool
    const hold: HoldSettings
    const throwForce: real
    const defaultDotColor: Color
    const highlightDotColor: Color

    var grabbedItem: Option<EntityId>
    var grabbedRb: Rigidbody?
    var lastInteractable: Option<EntityId>
    var lastHighlightedItem: Option<EntityId>
    var outlinedInteractables: set<EntityId>
    var outlinedItems: set<EntityId>
    var interactions: seq<EntityId>
    var uiHolding: bool
    var dotColor: Color

    function Outlines(): Highlights
      reads this
    {
      Highlights(Channel(lastInteractable, outlinedInteractables), Channel(lastHighlightedItem, outlinedItems))
    }

    /** The flags a held body carries in the configured holding mode. */
    ghost predicate HoldsBody(s: BodyState) {
      if usePhysics then !s.useGravity && s.rotationFrozen else s.isKinematic
    }

    ghost predicate Valid()
      reads this, grabbedRb
    {
      && (grabbedRb != null ==> grabbedItem.Some? && HoldsBody(grabbedRb.state))
      && (uiHolding <==> grabbedRb != null)
      && PerChannel(Outlines())
    }

    constructor (usePhysics: bool, hold: HoldSettings, throwForce: real, defaultDotColor: Color, highlightDotColor: Color)
      ensures Valid()
      ensures this.usePhysics == usePhysics && this.hold == hold && this.throwForce == throwForce
      ensures this.defaultDotColor == defaultDotColor && this.highlightDotColor == highlightDotColor
      ensures grabbedItem == None && grabbedRb == null && !uiHolding && interactions == []
      ensures Outlines() == NothingLit && dotColor == defaultDotColor
    {
      this.usePhysics := usePhysics;
      this.hold := hold;
      this.throwForce := throwForce;
      this.defaultDotColor := defaultDotColor;
      this.highlightDotColor := highlightDotColor;
      grabbedItem := None;
      grabbedRb := null;
      lastInteractable := None;
      lastHighlightedItem := None;
      outlinedInteractables := {};
      outlinedItems := {};
      interactions := [];
      uiHolding := false;
      dotColor := defaultDotColor;
    }

    /** What TryPickupOrInteract does for probe `p`, between the old state and now. */
    twostate predicate PickedUpOrInteracted(p: Probe)
      reads this, ProbedBody(p)
    {
      var t := Classify(p);
      && interactions == (if t.InteractableTarget? then old(interactions) + [t.id] else old(interactions))
      && if t.GrabbableTarget? then
           && grabbedItem == Some(t.id) && grabbedRb == p.hit.rb
           && (p.hit.rb != null ==> p.hit.rb.state == Grasp(old(p.hit.rb.state), usePhysics) && uiHolding)
           && (p.hit.rb == null ==> uiHolding == old(uiHolding))
         else
           && grabbedItem == old(grabbedItem) && grabbedRb == old(grabbedRb) && uiHolding == old(uiHolding)
           && (ProbedBody(p) != null ==> ProbedBody(p).state == old(ProbedBody(p).state))
    }

    /** The held slot is emptied and `rb`, the body that was held, is released. */
    twostate predicate Dropped(rb: Rigidbody?)
      reads this, rb
    {
      && grabbedItem == None && grabbedRb == null && !uiHolding
      && (rb != null ==> rb.state == Ungrasp(old(rb.state), usePhysics))
    }

    /** The held slot is emptied and `rb` is thrown with `impulse`. */
    twostate predicate Thrown(rb: Rigidbody?, impulse: Vec3)
      reads this, rb
    {
      && grabbedItem == None && grabbedRb == null && !uiHolding
      && (rb != null ==> rb.state == Fling(old(rb.state), impulse))
    }

    /** The Grab/Drop/Interact button. */
    method OnGrabDropInteract(p: Probe)
      requires Valid()
      modifies this`grabbedItem, this`grabbedRb, this`interactions, this`uiHolding, ProbedBody(p), grabbedRb
      ensures Valid()
      ensures old(grabbedItem).None? ==> PickedUpOrInteracted(p)
      ensures old(grabbedItem).Some? ==> Dropped(old(grabbedRb)) && interactions == old(interactions)
      ensures old(grabbedItem).Some? && ProbedBody(p) != null && ProbedBody(p) != old(grabbedRb) ==>
        ProbedBody(p).state == old(ProbedBody(p).state)
    {
      if grabbedItem.None? {
        TryPickupOrInteract(p);
      } else {
        DropItem();
      }
    }

    method TryPickupOrInteract(p: Probe)
      requires Valid() && grabbedItem.None?
      modifies this`grabbedItem, this`grabbedRb, this`interactions, this`uiHolding, ProbedBody(p)
      ensures Valid()
      ensures PickedUpOrInteracted(p)
    {
      if p.Struck? {
        var hit := p.hit;
        if hit.interactable {
          interactions := interactions + [hit.entity];
          return;
        }
        if hit.grabbable {
          grabbedItem := Some(hit.entity);
          grabbedRb := hit.rb;
          if grabbedRb != null {
            grabbedRb.state := grabbedRb.state.(velocity := Zero, angularVelocity := Zero);
            if usePhysics {
              grabbedRb.state := grabbedRb.state.(useGravity := false);
              grabbedRb.state := grabbedRb.state.(rotationFrozen := true);
            } else {
              grabbedRb.state := grabbedRb.state.(isKinematic := true);
            }
            uiHolding := true;
          }
        }
      }
    }

    method DropItem()
      requires Valid()
      modifies this`grabbedItem, this`grabbedRb, this`uiHolding, grabbedRb
      ensures Valid()
      ensures Dropped(old(grabbedRb))
    {
      if grabbedRb != null {
        if usePhysics {
          grabbedRb.state := grabbedRb.state.(useGravity := true);
          grabbedRb.state := grabbedRb.state.(rotationFrozen := false);
        } else {
          grabbedRb.state := grabbedRb.state.(isKinematic := false);
        }
      }
      grabbedItem := None;
      grabbedRb := null;
      uiHolding := false;
    }

    /**
     * The Throw button; `surfaceTooClose` is the forward ray test within minHoldDistance.
     * A held object without a Rigidbody makes the first body access throw, which
     * aborts the call before anything has changed.
     */
    method ThrowItem(surfaceTooClose: bool, forward: Vec3)
      requires Valid()
      modifies this`grabbedItem, this`grabbedRb, this`uiHolding, grabbedRb
      ensures Valid()
      ensures old(grabbedItem).None? || surfaceTooClose || old(grabbedRb) == null ==>
        && grabbedItem == old(grabbedItem) && grabbedRb == old(grabbedRb) && uiHolding == old(uiHolding)
        && (grabbedRb != null ==> grabbedRb.state == old(grabbedRb.state))
      ensures old(grabbedItem).Some? && !surfaceTooClose && old(grabbedRb) != null ==>
        Thrown(old(grabbedRb), forward.Scale(throwForce))
    {
      if grabbedItem.Some? {
        if surfaceTooClose {
          return;
        }
        if grabbedRb == null {
          return;
        }
        grabbedRb.state := grabbedRb.state.(useGravity := true);
        grabbedRb.state := grabbedRb.state.(isKinematic := false);
        grabbedRb.state := grabbedRb.state.(rotationFrozen := false);
        grabbedRb.state := grabbedRb.state.WithImpulse(forward.Scale(throwForce));
        grabbedItem := None;
        grabbedRb := null;
        uiHolding := false;
      }
    }

    /** HandleHolding throws (reading the mass of a missing Rigidbody) before it moves anything. */
    predicate HoldingFaults()
      reads this
    {
      grabbedItem.Some? && usePhysics && grabbedRb == null
    }

    /**
     * HandleHolding: with physics, the position the held body is moved towards
     * (`moveTo`, from its current position `current`) and, when the anti-clipping line
     * cast is `blocked`, the position it is snapped to (`placeAt`); without physics the
     * item is placed straight at the hold point. `distance` and `blockedDistance` are the
     * engine's distances from the camera to the weighted hold point and to the
     * backed-off blocking point.
     */
    method HandleHolding(cam: Vec3, forward: Vec3, current: Vec3, deltaTime: real,
                         distance: real, blocked: Option<Vec3>, blockedDistance: real)
      returns (moveTo: Option<Vec3>, placeAt: Option<Vec3>)
      requires grabbedItem.Some? && usePhysics && grabbedRb != null ==>
        IsLength(WeightedTarget(cam, forward, hold, grabbedRb.mass).Minus(cam), distance)
      requires blocked.Some? ==> IsLength(blocked.value.Minus(forward.Scale(ClipBackoff)).Minus(cam), blockedDistance)
      ensures grabbedItem.None? || HoldingFaults() ==> moveTo == None && placeAt == None
      ensures grabbedItem.Some? && !usePhysics ==> moveTo == None && placeAt == Some(Ahead(cam, forward, hold.holdDistance))
      ensures grabbedItem.Some? && usePhysics && grabbedRb != null ==>
        && moveTo == Some(Lerp(current, KeepAway(WeightedTarget(cam, forward, hold, grabbedRb.mass), distance, cam, forward, hold.minHoldDistance), deltaTime * hold.smoothing))
        && placeAt == ClipGuard(blocked, blockedDistance, cam, forward, hold.minHoldDistance)
    {
      moveTo, placeAt := None, None;
      if grabbedItem.Some? {
        var holdPosition := Ahead(cam, forward, hold.holdDistance);
        if usePhysics {
          if grabbedRb == null {
            return;
          }
          holdPosition := holdPosition.(y := holdPosition.y + hold.heightAdjustment - grabbedRb.mass * hold.weightFactor);
          assert holdPosition == WeightedTarget(cam, forward, hold, grabbedRb.mass);
          if distance < hold.minHoldDistance {
            holdPosition := Ahead(cam, forward, hold.minHoldDistance);
          }
          moveTo := Some(Lerp(current, holdPosition, deltaTime * hold.smoothing));
          placeAt := ClipGuard(blocked, blockedDistance, cam, forward, hold.minHoldDistance);
        } else {
          placeAt := Some(holdPosition);
        }
      }
    }

    /** The crosshair dot: highlight colour iff the probe hit an Interactable or an ItemGrabbable. */
    method UpdateDotColor(p: Probe)
      modifies this`dotColor
      ensures dotColor == (if p.Struck? && (p.hit.interactable || p.hit.grabbable) then highlightDotColor else defaultDotColor)
    {
      if p.Struck? {
        if p.hit.interactable {
          dotColor := highlightDotColor;
          return;
        }
        if p.hit.grabbable {
          dotColor := highlightDotColor;
          return;
        }
      }
      dotColor := defaultDotColor;
    }

    method HighlightAndGrabOrInteractItem(p: Probe)
      requires Valid()
      modifies this`lastInteractable, this`lastHighlightedItem, this`outlinedInteractables, this`outlinedItems
      ensures Valid()
      ensures Outlines() == Arbitrate(old(Outlines()), p)
    {
      if p.Struck? {
        var hit := p.hit;
        if hit.interactable {
          if lastInteractable.Some? && lastInteractable.value != hit.entity {
            outlinedInteractables := outlinedInteractables - {lastInteractable.value};
          }
          outlinedInteractables := outlinedInteractables + {hit.entity};
          lastInteractable := Some(hit.entity);
          return;
        }
        if hit.grabbable {
          if lastHighlightedItem.Some? && lastHighlightedItem.value != hit.entity {
            outlinedItems := outlinedItems - {lastHighlightedItem.value};
          }
          outlinedItems := outlinedItems + {hit.entity};
          lastHighlightedItem := Some(hit.entity);
        }
      } else {
        if lastInteractable.Some? {
          outlinedInteractables := outlinedInteractables - {lastInteractable.value};
          lastInteractable := None;
        }
        if lastHighlightedItem.Some? {
          outlinedItems := outlinedItems - {lastHighlightedItem.value};
          lastHighlightedItem := None;
        }
      }
    }

    /**
     * One frame: the hold controller, then the dot and the highlight, both from the same
     * probe result. When the hold controller throws, the rest of the frame is skipped.
     */
    method Update(p: Probe, cam: Vec3, forward: Vec3, current: Vec3, deltaTime: real,
                  distance: real, blocked: Option<Vec3>, blockedDistance: real)
      returns (moveTo: Option<Vec3>, placeAt: Option<Vec3>)
      requires Valid()
      requires grabbedItem.Some? && usePhysics && grabbedRb != null ==>
        IsLength(WeightedTarget(cam, forward, hold, grabbedRb.mass).Minus(cam), distance)
      requires blocked.Some? ==> IsLength(blocked.value.Minus(forward.Scale(ClipBackoff)).Minus(cam), blockedDistance)
      modifies this`dotColor, this`lastInteractable, this`lastHighlightedItem, this`outlinedInteractables, this`outlinedItems
      ensures Valid()
      ensures old(HoldingFaults()) ==> dotColor == old(dotColor) && Outlines() == old(Outlines()) && moveTo == None && placeAt == None
      ensures !old(HoldingFaults()) ==>
        && dotColor == (if p.Struck? && (p.hit.interactable || p.hit.grabbable) then highlightDotColor else defaultDotColor)
        && Outlines() == Arbitrate(old(Outlines()), p)
    {
      moveTo, placeAt := HandleHolding(cam, forward, current, deltaTime, distance, blocked, blockedDistance);
      if HoldingFaults() {
        return;
      }
      UpdateDotColor(p);
      HighlightAndGrabOrInteractItem(p);
    }
  }
}
