# Grocery game core in Dafny

This project models the game logic of a small Unity grocery game as Dafny state
machines and proves what each piece does. The pieces are:

- the player's grab / drop / throw / interact controller and its outline highlighting,
  in the current version (`Player/PlayerGrabSystem.cs`) and the older one
  (`PlayerGrabSystem.cs`);
- the hit points of a product (`Abstract/Item.cs`) and the cooldown-gated impact damage
  of a carriable product (`Types/ItemGrabbable.cs`);
- the truck's product inventory, a name-to-count table (`Truck.cs`);
- the door toggle (`Door.cs`);
- the trigger-based pickup with an adjustable hold distance (`Types/ItemPickup.cs`);
- the shelf filler, which lays random products out on a grid, and its editor variant
  (`Shelf.cs`, `Editor/Shelf.cs`);
- the touch-drag look control (`FirstPersonCamera.cs`);
- the jump gate and joystick movement (`Player/PlayerController.cs`).

Each MonoBehaviour whose fields change in place is a Dafny `class` with those fields.
Its methods change only what their `modifies` clauses name. Each method's `ensures`
ties the new state to a pure function of the old state (`Arbitrate`, `Added`,
`Removed`, `Damaged`, `TouchStep`, `NextHoldDistance`, `PlanFrom`, `Palette`, ...).
Lemmas prove what the game relies on about those functions over whole runs of inputs.

Every engine query is an input of the operation that makes it:

- the forward ray cast of the grab systems is a `Probe` (a miss, or a hit with its
  Interactable / ItemGrabbable components and its Rigidbody, possibly null);
- the "surface too close" test and the anti-clipping line cast are inputs;
- `Time.time`, `Time.deltaTime`, the screen width and touches are parameters;
- vector lengths come in as numbers, tied to their vectors by `IsLength`
  (the square of the length is the squared norm), so no square root is needed;
- the random product picks are a sequence `draws` (a product with its bounds size, or
  `Throws`, an exception raised at that pick), and the random colours are a sequence
  of colour components.

The engine's own effects are recorded in fields:

- a Rigidbody is a class holding a `BodyState` record (gravity, rotation constraint,
  kinematic flag, velocities and the list of impulses applied);
- `Destroy` sets a `destroyed` flag (an item with no hit points, a second truck);
- `SetOutline` calls are recorded as the set of outlined entities in each channel;
- `Interact` calls are recorded as a log of entity ids;
- `UIManager.SetUIState` is the boolean `uiHolding`.

A NullReferenceException ends the operation with the fields assigned so far.
The model follows the source here: `ThrowItem` with a held object that has no Rigidbody
changes nothing, and `OnTriggerEnter` of the pickup stores the object before the
null Rigidbody is touched.

Three behaviours of the code are easy to misread; in each of them the model follows the code:

- Highlighting is exclusive per channel only. Looking at a grabbable and then at a
  different interactable leaves both outlined. The invariant proved is the per-channel
  one (`GrabSystem.ArbitrateAllPerChannel`), and `GrabSystem.ChannelSwitchLeavesBothOutlined`
  exhibits two outlined entities at once.
- The shelf's fit check ignores `positionOffset` and has no lower bound on x, z or y
  (`ShelfLayout.Fits`).
- A new layer on the shelf rises by the height of the last item placed only, not by
  the tallest item of the layer (`ShelfLayout.AdvanceMoves`).

## Model

| member | source | states |
|---|---|---|
| Engine.Clamp | Assets/_Game/Scripts/FirstPersonCamera.cs:60 | Mathf.Clamp: a value inside the bounds is kept, one below goes to the lower bound, one above to the upper bound, and with proper bounds the result lies within them |
| Engine.CeilToInt | Assets/_Game/Scripts/Types/ItemGrabbable.cs:41 | the result is the least integer not below its argument |
| Engine.Max | Assets/_Game/Scripts/Types/ItemPickup.cs:21 | Mathf.Max: at least both arguments and equal to one of them |
| Engine.Min | Assets/_Game/Scripts/Types/ItemPickup.cs:23 | Mathf.Min: at most both arguments and equal to one of them |
| Engine.BodyState.WithImpulse | Assets/_Game/Scripts/Types/ItemPickup.cs:45 | an impulse AddForce appends the force to the body's impulse log and changes nothing else |
| Engine.Classify | Assets/_Game/Scripts/Player/PlayerGrabSystem.cs:76-84 | a hit with an Interactable counts as an Interactable even if it also has an ItemGrabbable; otherwise it is a grabbable if it has one, else another object; a miss is no target |
| Highlight.Retarget | Assets/_Game/Scripts/Player/PlayerGrabSystem.cs:241-246 | the remembered entity is un-outlined if it is a different one, the new one is outlined and remembered, no other outline changes, and an exclusive channel ends with exactly the new entity outlined |
| Highlight.Release | Assets/_Game/Scripts/Player/PlayerGrabSystem.cs:264-274 | the remembered entity is un-outlined and forgotten; an exclusive channel ends with nothing outlined |
| Holding.AheadDistance | Assets/_Game/Scripts/Player/PlayerGrabSystem.cs:120 | with a unit view direction, the hold point `d` ahead of the camera is at distance `d` from it |
| Holding.KeepAway | Assets/_Game/Scripts/Player/PlayerGrabSystem.cs:127-131 | a hold point closer than the minimum distance is replaced by the point at the minimum distance straight ahead, otherwise kept; the result is at distance max(distance, minimum) |
| Holding.Lerp | Assets/_Game/Scripts/Player/PlayerGrabSystem.cs:134 | Vector3.Lerp clamps its parameter: at or below 0 the start, at or above 1 the end, linear in between |
| Holding.ClipGuard | Assets/_Game/Scripts/Player/PlayerGrabSystem.cs:147-161 | the item is placed only when the line cast is blocked, 0.2 short of the blocking point, and never closer to the camera than the minimum hold distance |
| GrabSystem.Arbitrate | Assets/_Game/Scripts/Player/PlayerGrabSystem.cs:233-276 | one highlight step: an Interactable hit retargets the interactable channel and leaves the items channel untouched, a grabbable hit the reverse, a hit with neither changes nothing, a miss releases both channels; per-channel exclusivity is kept |
| GrabSystem.ArbitrateAllPerChannel | Assets/_Game/Scripts/Player/PlayerGrabSystem.cs:233-276 | over any run of frames, each channel outlines at most the entity it remembers |
| GrabSystem.ChannelSwitchLeavesBothOutlined | Assets/_Game/Scripts/Player/PlayerGrabSystem.cs:238-259 | looking at a grabbable and then at an interactable leaves one entity outlined in each channel: highlighting is not globally exclusive |
| GrabSystem.Grasp | Assets/_Game/Scripts/Player/PlayerGrabSystem.cs:93-107 | a grab stops the body; with physics holding it turns gravity off and freezes rotation, otherwise it makes the body kinematic |
| GrabSystem.Ungrasp | Assets/_Game/Scripts/Player/PlayerGrabSystem.cs:165-176 | a drop turns gravity on and frees rotation with physics holding, otherwise clears the kinematic flag; velocities and impulses are kept |
| GrabSystem.Fling | Assets/_Game/Scripts/Player/PlayerGrabSystem.cs:192-195 | a throw turns gravity on, clears the kinematic flag and the constraints, and applies exactly one impulse |
| GrabSystem.DropUndoesGrab | Assets/_Game/Scripts/Player/PlayerGrabSystem.cs:93-107 | dropping a grabbed free body restores all its flags; only its velocities stay zeroed |
| GrabSystem.PlayerGrabSystem.constructor | Assets/_Game/Scripts/Player/PlayerGrabSystem.cs:13-38 | the controller starts empty-handed, not holding in the UI, with nothing outlined and the default dot colour |
| GrabSystem.PlayerGrabSystem.OnGrabDropInteract | Assets/_Game/Scripts/Player/PlayerGrabSystem.cs:58-68 | with an empty slot the button picks up or interacts, with a held item it drops it and interacts with nothing; never both |
| GrabSystem.PlayerGrabSystem.TryPickupOrInteract | Assets/_Game/Scripts/Player/PlayerGrabSystem.cs:70-114 | an Interactable hit is interacted with and nothing is grabbed; a grabbable hit fills the slot and, with a Rigidbody, grasps it and sets the UI to holding; anything else changes nothing |
| GrabSystem.PlayerGrabSystem.DropItem | Assets/_Game/Scripts/Player/PlayerGrabSystem.cs:163-180 | the held body is released as by Ungrasp, both references are cleared and the UI shows not holding |
| GrabSystem.PlayerGrabSystem.ThrowItem | Assets/_Game/Scripts/Player/PlayerGrabSystem.cs:182-206 | nothing happens when nothing is held, when a surface is too close, or when the held object has no Rigidbody; otherwise the body is flung with forward * throwForce and the slot is emptied |
| GrabSystem.PlayerGrabSystem.HandleHolding | Assets/_Game/Scripts/Player/PlayerGrabSystem.cs:116-161 | with physics the body is moved by Lerp towards the weighted, distance-guarded hold point and then clip-guarded; without physics the item is put at the plain hold point; nothing moves when nothing is held |
| GrabSystem.PlayerGrabSystem.UpdateDotColor | Assets/_Game/Scripts/Player/PlayerGrabSystem.cs:208-231 | the dot has the highlight colour exactly when the probe hits an Interactable or an ItemGrabbable |
| GrabSystem.PlayerGrabSystem.HighlightAndGrabOrInteractItem | Assets/_Game/Scripts/Player/PlayerGrabSystem.cs:233-276 | the outline state after the call is Arbitrate of the state before |
| GrabSystem.PlayerGrabSystem.Update | Assets/_Game/Scripts/Player/PlayerGrabSystem.cs:49-55 | a frame runs the hold controller, then the dot and the highlight from the same probe; a faulting hold controller skips the rest of the frame |
| LegacyGrabSystem.Arbitrate | Assets/_Game/Scripts/PlayerGrabSystem.cs:201-222 | a grabbable hit retargets the single channel, a miss releases it, any other hit changes nothing; exclusivity is kept |
| LegacyGrabSystem.ArbitrateAllExclusive | Assets/_Game/Scripts/PlayerGrabSystem.cs:201-222 | over any run of frames at most one item is outlined, and it is the remembered one |
| LegacyGrabSystem.Fling | Assets/_Game/Scripts/PlayerGrabSystem.cs:156-167 | a throw turns gravity on, frees rotation and applies one impulse; the kinematic flag is untouched |
| LegacyGrabSystem.LiftLower | Assets/_Game/Scripts/PlayerGrabSystem.cs:111-118 | lifting raises the target by liftSpeed and wins over lowering, lowering drops it by lowerSpeed; only the height changes |
| LegacyGrabSystem.PlayerGrabSystem.constructor | Assets/_Game/Scripts/PlayerGrabSystem.cs:14-40 | the controller starts empty-handed, neither lifting nor lowering, with nothing outlined and the default dot colour |
| LegacyGrabSystem.PlayerGrabSystem.ToggleGrabDrop | Assets/_Game/Scripts/PlayerGrabSystem.cs:60-70 | with an empty slot the button picks up, with a held item it drops it |
| LegacyGrabSystem.PlayerGrabSystem.TryPickup | Assets/_Game/Scripts/PlayerGrabSystem.cs:72-95 | any hit object is grabbed with no component check; with a Rigidbody it is stopped, gravity goes off, rotation is frozen and the UI shows holding |
| LegacyGrabSystem.PlayerGrabSystem.DropItem | Assets/_Game/Scripts/PlayerGrabSystem.cs:144-154 | the held body gets gravity back and its rotation freed, both references are cleared and the UI shows not holding |
| LegacyGrabSystem.PlayerGrabSystem.ThrowItem | Assets/_Game/Scripts/PlayerGrabSystem.cs:156-167 | with no surface check, a held body is always flung with forward * throwForce and the slot emptied; nothing changes when nothing is held |
| LegacyGrabSystem.PlayerGrabSystem.LiftItem | Assets/_Game/Scripts/PlayerGrabSystem.cs:224-228 | lifting on, lowering off |
| LegacyGrabSystem.PlayerGrabSystem.LowerItem | Assets/_Game/Scripts/PlayerGrabSystem.cs:230-234 | lowering on, lifting off |
| LegacyGrabSystem.PlayerGrabSystem.StopLiftingLowering | Assets/_Game/Scripts/PlayerGrabSystem.cs:236-240 | both flags off; the class invariant keeps them from ever being on together |
| LegacyGrabSystem.PlayerGrabSystem.HandleHolding | Assets/_Game/Scripts/PlayerGrabSystem.cs:97-142 | the body is moved by Lerp towards the weighted, distance-guarded hold point with the lift/lower step applied after the guard, then clip-guarded |
| LegacyGrabSystem.PlayerGrabSystem.UpdateDotColor | Assets/_Game/Scripts/PlayerGrabSystem.cs:169-180 | the dot has the highlight colour exactly when the probe hits anything on the pickup layer |
| LegacyGrabSystem.PlayerGrabSystem.HighlightItem | Assets/_Game/Scripts/PlayerGrabSystem.cs:201-222 | the outline state after the call is Arbitrate of the state before |
| LegacyGrabSystem.PlayerGrabSystem.Update | Assets/_Game/Scripts/PlayerGrabSystem.cs:51-57 | a frame runs the hold controller, then the dot and the highlight from the same probe; a faulting hold controller skips the rest |
| Items.Damaged | Assets/_Game/Scripts/Abstract/Item.cs:17-24 | hit points drop by exactly the amount, and the item is destroyed once they are at zero or below (and stays destroyed) |
| Items.DamagedAllEffect | Assets/_Game/Scripts/Abstract/Item.cs:17-24 | a run of damage subtracts the sum of its amounts, and the item ends destroyed iff some call left it at zero or below |
| Items.SumPrefixesMonotone | Assets/_Game/Scripts/Abstract/Item.cs:17-24 | with non-negative amounts, no prefix of a run subtracts more than the whole run |
| Items.NonNegativeDamageDestroysAtEnd | Assets/_Game/Scripts/Abstract/Item.cs:17-24 | with non-negative amounts, a live item ends destroyed iff its final hit points are at zero or below |
| Items.Item.constructor | Assets/_Game/Scripts/Abstract/Item.cs:5-10 | the component's settings as given, hit points at the default 0 before Start |
| Items.Item.Start | Assets/_Game/Scripts/Abstract/Item.cs:12-15 | hit points are set to the maximum |
| Items.Item.TakeDamage | Assets/_Game/Scripts/Abstract/Item.cs:17-24 | the item's health after the call is Damaged of the health before |
| Grabbables.ImpactDamage | Assets/_Game/Scripts/Types/ItemGrabbable.cs:41 | the damage is the ceiling of weight * speed * 0.1: at least 1 for any positive impact, 0 for none |
| Grabbables.DamageTimes | Assets/_Game/Scripts/Types/ItemGrabbable.cs:39-44 | no more damage events than samples |
| Grabbables.DamageTimesSpaced | Assets/_Game/Scripts/Types/ItemGrabbable.cs:39-44 | however the samples arrive, successive damage events are more than the cooldown apart |
| Grabbables.FirstImpactNotBlocked | Assets/_Game/Scripts/Types/ItemGrabbable.cs:20 | after Awake, the first fast sample at a positive time deals damage |
| Grabbables.ItemGrabbable.Awake | Assets/_Game/Scripts/Types/ItemGrabbable.cs:16-24 | the last position is the current one, the last damage time is minus the cooldown, the outline colour and parent are saved, and the in-cart flag keeps its serialized value |
| Grabbables.ItemGrabbable.ApplyImpact | Assets/_Game/Scripts/Types/ItemGrabbable.cs:39-44 | a fast sample outside the cooldown deals ImpactDamage and records the time; any other sample leaves hit points and the time unchanged |
| Grabbables.ItemGrabbable.Update | Assets/_Game/Scripts/Types/ItemGrabbable.cs:26-37 | in the cart nothing changes; otherwise the last position becomes the current one and the frame speed goes through the damage gate |
| Grabbables.ItemGrabbable.OnCollisionEnter | Assets/_Game/Scripts/Types/ItemGrabbable.cs:47-55 | the body's speed goes through the same damage gate |
| Grabbables.ItemGrabbable.OnThrow | Assets/_Game/Scripts/Types/ItemGrabbable.cs:57-65 | the body's speed goes through the same damage gate |
| Grabbables.ItemGrabbable.SetInCart | Assets/_Game/Scripts/Types/ItemGrabbable.cs:67-79 | isInCart and the body's kinematic flag both become the argument; nothing else of the body changes |
| Grabbables.ItemGrabbable.SetOutline | Assets/_Game/Scripts/Types/ItemGrabbable.cs:81-84 | green while highlighted, the colour saved at Awake otherwise |
| Grabbables.ItemGrabbable.DetachFromParent | Assets/_Game/Scripts/Types/ItemGrabbable.cs:86-89 | the object is moved to the scene root |
| Grabbables.ItemGrabbable.ReattachToParent | Assets/_Game/Scripts/Types/ItemGrabbable.cs:91-94 | the object is back under the parent saved at Awake |
| Inventory.Count | Assets/_Game/Scripts/Truck.cs:45 | an absent name counts zero |
| Inventory.Added | Assets/_Game/Scripts/Truck.cs:43-54 | one more of the name, a new entry with count 1 if it was absent; other names unchanged; all counts stay positive |
| Inventory.Removed | Assets/_Game/Scripts/Truck.cs:56-67 | an absent name leaves the table unchanged; otherwise one fewer, and the entry goes when it drops to zero; other names unchanged; all counts stay positive |
| Inventory.RemoveUndoesAdd | Assets/_Game/Scripts/Truck.cs:43-67 | adding a name and removing it again restores the table |
| Inventory.CountsWhatIsInside | Assets/_Game/Scripts/Truck.cs:25-67 | over any run of enter and exit events in which no exit is unmatched, a name's count is its initial count plus its entries minus its exits |
| Inventory.Truck.constructor | Assets/_Game/Scripts/Truck.cs:8 | an empty inventory |
| Inventory.Truck.OnTriggerEnter | Assets/_Game/Scripts/Truck.cs:25-32 | an entering ItemGrabbable is added, any other object is ignored |
| Inventory.Truck.OnTriggerExit | Assets/_Game/Scripts/Truck.cs:34-41 | a leaving ItemGrabbable is removed, any other object is ignored |
| Inventory.Truck.AddItem | Assets/_Game/Scripts/Truck.cs:43-54 | the table after the call is Added of the table before |
| Inventory.Truck.RemoveItem | Assets/_Game/Scripts/Truck.cs:56-67 | the table after the call is Removed of the table before |
| Inventory.TruckSlot.constructor | Assets/_Game/Scripts/Truck.cs:7 | no instance before any truck is awake |
| Inventory.Awake | Assets/_Game/Scripts/Truck.cs:12-23 | the first truck becomes the instance; a later one leaves the instance alone and is destroyed |
| Doors.Door.Awake | Assets/_Game/Scripts/Door.cs:11-15 | a closed door that saves its outline colour |
| Doors.Door.Interact | Assets/_Game/Scripts/Door.cs:17-24 | with an Animator the door toggles and the Animator's parameter follows; without one nothing changes |
| Doors.Door.SetOutline | Assets/_Game/Scripts/Door.cs:25-28 | green while highlighted, the colour saved at Awake otherwise |
| Doors.InteractTwice | Assets/_Game/Scripts/Door.cs:17-24 | the first interaction opens a closed door, and two restore the original state |
| Pickup.NextHoldDistance | Assets/_Game/Scripts/Types/ItemPickup.cs:20-23 | Q moves the item 0.1 closer but not below the minimum, E 0.1 farther but not above the maximum; a distance within the limits stays within them |
| Pickup.HoldDistanceStaysInRange | Assets/_Game/Scripts/Types/ItemPickup.cs:10-23 | once within the limits, the hold distance stays within them over any run of key presses |
| Pickup.HoldingQReachesNearLimit | Assets/_Game/Scripts/Types/ItemPickup.cs:20-21 | holding Q for enough frames brings the item to the near limit exactly |
| Pickup.ItemPickup.constructor | Assets/_Game/Scripts/Types/ItemPickup.cs:6-12 | empty-handed, with the hold distance at 2 |
| Pickup.ItemPickup.Update | Assets/_Game/Scripts/Types/ItemPickup.cs:14-30 | while holding, the item is placed at the hold point plus forward times the distance from before this frame's Q/E step, then the step is applied, then a right click throws; with nothing held nothing changes |
| Pickup.ItemPickup.OnTriggerEnter | Assets/_Game/Scripts/Types/ItemPickup.cs:32-40 | an object tagged Item is taken only when nothing is held, and its body becomes kinematic; otherwise nothing changes |
| Pickup.ItemPickup.ThrowItem | Assets/_Game/Scripts/Types/ItemPickup.cs:42-48 | the held body loses its kinematic flag, gets one impulse forward * throwForce and the slot is emptied; without a body nothing changes |
| PlayerControl.PlayerController.constructor | Assets/_Game/Scripts/Player/PlayerController.cs:5-9 | a controller that can jump |
| PlayerControl.PlayerController.MovePlayer | Assets/_Game/Scripts/Player/PlayerController.cs:23-42 | the horizontal velocity follows the joystick along the camera's axes; the vertical velocity and the rest of the body are kept |
| PlayerControl.PlayerController.Jump | Assets/_Game/Scripts/Player/PlayerController.cs:44-51 | when armed, the vertical velocity becomes jumpForce with x and z kept, and the jump is disarmed; when not armed nothing changes |
| PlayerControl.PlayerController.OnCollisionEnter | Assets/_Game/Scripts/Player/PlayerController.cs:53-56 | any collision re-arms the jump |
| PlayerControl.JumpTwice | Assets/_Game/Scripts/Player/PlayerController.cs:44-51 | a second jump without a collision in between changes nothing: an armed controller ends with exactly the body state of one jump, a disarmed one with the body unchanged |
| Camera.TouchStep | Assets/_Game/Scripts/FirstPersonCamera.cs:35-69 | a dead-zone touch is ignored, Ended and Canceled included; Began starts a drag, Ended and Canceled stop it; Moved turns the view only during a drag, with the pitch clamped |
| Camera.PitchStaysClamped | Assets/_Game/Scripts/FirstPersonCamera.cs:59-60 | the pitch never leaves the vertical limit over any run of touches |
| Camera.NoDragWithoutBegan | Assets/_Game/Scripts/FirstPersonCamera.cs:45-49 | with no drag on, touches without a Began never move the view |
| Camera.FirstPersonCamera.constructor | Assets/_Game/Scripts/FirstPersonCamera.cs:9-18 | level pitch, no drag, the settings as given |
| Camera.FirstPersonCamera.Update | Assets/_Game/Scripts/FirstPersonCamera.cs:29-33 | with dragging disabled or no touch nothing changes; otherwise the first touch is applied by TouchStep |
| Camera.FirstPersonCamera.HandleTouchInput | Assets/_Game/Scripts/FirstPersonCamera.cs:35-69 | the look state after the call is TouchStep of the first touch; the camera's rotation is set exactly when a drag moves |
| Camera.FirstPersonCamera.AdjustSensitivity | Assets/_Game/Scripts/FirstPersonCamera.cs:72-75 | the sensitivity becomes the argument and nothing else changes |
| ShelfLayout.AdvanceMoves | Assets/_Game/Scripts/Shelf.cs:68-78 | the cursor steps along x; on a full row it returns to the row start and steps along z; on a full layer it returns to the corner and rises by the item's height plus the gap; with a non-negative gap each step moves forward |
| ShelfLayout.PlanFromFacts | Assets/_Game/Scripts/Shelf.cs:44-78 | at most itemCount items are placed, in pick order, each one that it fits where it goes; the first goes to the start cursor; the run ends finished, at the first product that does not fit, or at the first pick that throws |
| ShelfLayout.PlanFromSteps | Assets/_Game/Scripts/Shelf.cs:62-78 | the first placed item stands at the start cursor, each later one at the cursor advanced from the one before it by that item's height, and the final cursor is advanced from the last item placed |
| ShelfLayout.TicksClosedForm | Assets/_Game/Scripts/Shelf.cs:137-139 | a loop from x stepping by s while below w runs ceil((w - x) / s) times |
| ShelfLayout.Palette | Assets/_Game/Scripts/Shelf.cs:137-143 | one opaque colour per cell, the k-th made from the k-th random triple |
| Shelves.Shelf.constructor | Assets/_Game/Scripts/Shelf.cs:7-22 | the Inspector settings, the mesh bounds and the existing children; nothing placed and no colours yet |
| Shelves.Shelf.Start | Assets/_Game/Scripts/Shelf.cs:24-28 | the size is adjusted as by AdjustDepthAndWidth |
| Shelves.Shelf.AdjustDepthAndWidth | Assets/_Game/Scripts/Shelf.cs:82-98 | only with automatic sizing and a mesh do width and depth change, to the scaled mesh bounds |
| Shelves.Shelf.UpdatePlacedItems | Assets/_Game/Scripts/Shelf.cs:100-107 | the placed-items list becomes exactly the shelf's children |
| Shelves.Shelf.CheckIfItemCanFit | Assets/_Game/Scripts/Shelf.cs:109-116 | an item fits iff it crosses neither the right half-width, nor the back half-depth, nor the height |
| Shelves.Shelf.PlaceItemsOnShelf | Assets/_Game/Scripts/Shelf.cs:30-80 | the children and the layout gain exactly the items PlanFrom places, at their positions, in order; a non-fitting item is not kept; placedItems ends equal to the children; the result says whether a pick threw |
| Shelves.Shelf.InitializeGridColors | Assets/_Game/Scripts/Shelf.cs:132-146 | the first call fills the table with one colour per grid cell, later calls leave it unchanged |
| EditorShelves.Shelf.Layout | Assets/_Game/Scripts/Editor/Shelf.cs:65-73 | the editor shelf steps with max(gap, 0), never with a negative gap |
| EditorShelves.Shelf.AdjustDepthAndWidth | Assets/_Game/Scripts/Editor/Shelf.cs:84-100 | only with automatic sizing and a mesh do width and depth change, to the scaled mesh bounds |
| EditorShelves.Shelf.UpdatePlacedItems | Assets/_Game/Scripts/Editor/Shelf.cs:102-109 | the placed-items list becomes exactly the shelf's children |
| EditorShelves.Shelf.CheckIfItemCanFit | Assets/_Game/Scripts/Editor/Shelf.cs:111-118 | the same three-bound fit rule |
| EditorShelves.Shelf.PlaceItemsOnShelf | Assets/_Game/Scripts/Editor/Shelf.cs:29-82 | as in the game shelf with the clamped gap; an exception is caught and ends placement with the items already placed kept |
| EditorShelves.Shelf.InitializeGridColors | Assets/_Game/Scripts/Editor/Shelf.cs:134-148 | the first call fills the table with one colour per grid cell of the clamped grid, later calls leave it unchanged |
| EditorShelves.Shelf.ClearChildren | Assets/_Game/Scripts/Editor/Shelf.cs:186-199 | every child is destroyed, from the last to the first, and none is left |
| EditorShelves.Reversed | Assets/_Game/Scripts/Editor/Shelf.cs:190-193 | the destruction order: the same children, last first |

## Left out

- Physics queries (Raycast, Linecast, the mesh and renderer bounds, vector magnitudes) are inputs; MovePosition and direct position writes are returned as values, not applied to a transform.
- Floating-point rounding: all quantities are exact reals, and integers are unbounded (a hit-point counter never wraps).
- Quaternion rotations: the player body's rotation is its accumulated yaw in degrees and the camera's local rotation is its pitch.
- UIManager (button text and visibility), SimpleSceneManager (scene loading and quitting) and ShelfEditor.cs (Inspector buttons that call the shelf methods) are not part of this model; the UI state is the flag `uiHolding`.
- Editor/ShelfProductPool.cs is reduced to the `draws` input: which prefab the random pick chooses and the size GetItemSize computes for it. The rescaling of an instantiated item by the shelf's scale only serves that size and is folded into it.
- The Interactable base class is not a Dafny trait; Door is a plain class, and the grab system reaches it through the probe's `interactable` flag and the log of interactions.
- Truck.UpdateUI (text in the dictionary's enumeration order), OnDrawGizmos, the LineRenderer set-up and debug drawing are presentation only.
- Unity's deferred Destroy and the "destroyed object compares equal to null" rule: a destroyed entity keeps its state and is only flagged, so a destroyed held item still counts as held.
- The newer grab system's `initialPickupPosition` is written but never read.
- FirstPersonCamera.Start only wires the sensitivity slider to AdjustSensitivity.
- The editor shelf's Start is empty.
- PlayerController.Start and Update only fetch the body and call MovePlayer; MovePlayer's flattening and normalising of the camera axes is done by the caller.
- The key, mouse and touch devices are inputs of each frame.
- Shelves.Shelf.PlaceItemsOnShelf: requires at least one pick per requested item in `draws`, because the random picks are supplied up front.
- EditorShelves.Shelf.PlaceItemsOnShelf: requires at least one pick per requested item in `draws`, for the same reason.
- Shelves.Shelf.InitializeGridColors: requires positive cell steps (cellSize + gap), because with a non-positive step and a positive width or depth the source loop never ends; a non-positive step with a non-positive width and depth, where the source loop ends at once, is excluded too. It also requires enough random colour triples for every cell.
- EditorShelves.Shelf.InitializeGridColors: requires positive cell sizes, because with a non-positive cell size and a positive width or depth the source loop never ends; a non-positive cell size with a non-positive width and depth, where the source loop ends at once, is excluded too. It also requires enough random colour triples.
- Grabbables.ItemGrabbable.Update: requires a positive frame time, so a paused frame (deltaTime 0 while the time scale is 0) is not modelled; there the source's float division gives NaN, or infinity for a moved item, which then passes the speed gate.
- GrabSystem.PlayerGrabSystem.HandleHolding: requires the engine's distances to be the lengths of their vectors, which the engine guarantees.
- LegacyGrabSystem.PlayerGrabSystem.HandleHolding: requires the engine's distances to be the lengths of their vectors, for the same reason.
