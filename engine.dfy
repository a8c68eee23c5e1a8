/**
 * The slice of the game engine that the grocery game's scripts touch, with every
 * engine query replaced by a value the caller supplies: vectors, colours, the
 * Mathf helpers, rigid bodies (a class, because several components hold a
 * reference to the same body and change it in place) and the result of the
 * forward ray cast that the grab systems use to find a target.
 */
module Engine {

  datatype Option<T> = None | Some(value: T)

  /** The ids in an optional slot, as a set: {} or {x}. */
  function OptionSet<T>(o: Option<T>): (s: set<T>)
    ensures o.None? <==> s == {}
    ensures o.Some? ==> s == {o.value}
  {
    if o.Some? then {o.value} else {}
  }

  /** Stable handle of a scene object (a GameObject or one of its components). */
  type EntityId = nat

  datatype Vec3 = Vec3(x: real, y: real, z: real) {
    function Plus(o: Vec3): Vec3 { Vec3(x + o.x, y + o.y, z + o.z) }
    function Minus(o: Vec3): Vec3 { Vec3(x - o.x, y - o.y, z - o.z) }
    function Scale(k: real): Vec3 { Vec3(k * x, k * y, k * z) }
  }

  const Zero := Vec3(0.0, 0.0, 0.0)

  /**
   * `m` is the Euclidean length of `v` (Vector3.magnitude). The engine computes it
   * with a square root; the model receives it as an input tied to `v` by this relation.
   */
  ghost predicate IsLength(v: Vec3, m: real) {
    m >= 0.0 && m * m == SqLength(v)
  }

  /** Squared Euclidean length (Vector3.sqrMagnitude). */
  function SqLength(v: Vec3): real {
    v.x * v.x + v.y * v.y + v.z * v.z
  }

  datatype Color = Color(r: real, g: real, b: real, a: real)

  /** Color.green and Color.white of the engine. */
  const Green := Color(0.0, 1.0, 0.0, 1.0)
  const White := Color(1.0, 1.0, 1.0, 1.0)

  function Max(a: real, b: real): (r: real)
    ensures r >= a && r >= b && (r == a || r == b)
  {
    if a >= b then a else b
  }

  function Min(a: real, b: real): (r: real)
    ensures r <= a && r <= b && (r == a || r == b)
  {
    if a <= b then a else b
  }

  /**
   * Mathf.Clamp: the lower bound is tested first, so with `lo > hi` the result is
   * `lo` for values below it and `hi` otherwise.
   */
  function Clamp(v: real, lo: real, hi: real): (r: real)
    ensures lo <= hi ==> lo <= r <= hi
    ensures lo <= v <= hi ==> r == v
    ensures v < lo ==> r == lo
    ensures lo <= v && hi < v ==> r == hi
  {
    if v < lo then lo else if v > hi then hi else v
  }

  /** Mathf.CeilToInt: the least integer not below `x`. */
  function CeilToInt(x: real): (r: int)
    ensures r as real - 1.0 < x <= r as real
  {
    -((-x).Floor)
  }

  /**
   * The part of a Rigidbody the scripts read and write. `rotationFrozen` stands for
   * `constraints == FreezeRotation` (false: `RigidbodyConstraints.None`), and
   * `impulses` lists every AddForce(f, ForceMode.Impulse) applied so far, oldest first.
   */
  datatype BodyState = BodyState(
    useGravity: bool,
    rotationFrozen: bool,
    isKinematic: bool,
    velocity: Vec3,
    angularVelocity: Vec3,
    impulses: seq<Vec3>)
  {
    /** AddForce(f, ForceMode.Impulse). */
    function WithImpulse(f: Vec3): (r: BodyState)
      ensures r.impulses == impulses + [f]
      ensures r.(impulses := impulses) == this
    {
      this.(impulses := impulses + [f])
    }
  }

  /** A fresh body as the engine creates it: gravity on, no constraints, at rest. */
  const RestingBody := BodyState(true, false, false, Zero, Zero, [])

  class Rigidbody {
    const mass: real
    var state: BodyState

    constructor (mass: real)
      ensures this.mass == mass && state == RestingBody
    {
      this.mass := mass;
      state := RestingBody;
    }
  }

  /**
   * What the forward ray hit: the object, whether it carries an Interactable
   * component and/or an ItemGrabbable component, and its Rigidbody (null if none).
   */
  datatype Hit = Hit(entity: EntityId, interactable: bool, grabbable: bool, rb: Rigidbody?)

  /** Result of Physics.Raycast along the view direction within the pickup range and layer. */
  datatype Probe = Miss | Struck(hit: Hit)

  /** The Rigidbody of the probed object, or null. */
  function ProbedBody(p: Probe): Rigidbody? {
    if p.Struck? then p.hit.rb else null
  }

  datatype Target = NoTarget | InteractableTarget(id: EntityId) | GrabbableTarget(id: EntityId) | OtherTarget(id: EntityId)

  /**
   * How the newer grab system reads a probe: the Interactable component is looked up
   * first, so an object that has both components counts as Interactable.
   */
  function Classify(p: Probe): (t: Target)
    ensures p.Miss? <==> t.NoTarget?
    ensures p.Struck? && p.hit.interactable ==> t == InteractableTarget(p.hit.entity)
    ensures p.Struck? && !p.hit.interactable && p.hit.grabbable ==> t == GrabbableTarget(p.hit.entity)
    ensures p.Struck? && !p.hit.interactable && !p.hit.grabbable ==> t == OtherTarget(p.hit.entity)
  {
    match p
    case Miss => NoTarget
    case Struck(h) =>
      if h.interactable then InteractableTarget(h.entity)
      else if h.grabbable then GrabbableTarget(h.entity)
      else OtherTarget(h.entity)
  }
}
