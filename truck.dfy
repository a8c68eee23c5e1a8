/**
 * Truck (Truck.cs): the cart's inventory, a count per product name of the grabbable
 * items inside its trigger volume, and the scene-wide single instance.
 */
module Inventory {
  import opened Grabbables

  /** How many items called `n` the inventory lists (absent names count zero). */
  function Count(m: map<string, int>, n: string): (c: int)
    ensures n !in m ==> c == 0
  {
    if n in m then m[n] else 0
  }

  /** Every listed name has a positive count: names are removed when they reach zero. */
  ghost predicate Positive(m: map<string, int>) {
    forall n :: n in m ==> m[n] >= 1
  }

  /** AddItem: one more `n`, a new entry with count 1 if there was none. */
  function Added(m: map<string, int>, n: string): (r: map<string, int>)
    ensures Count(r, n) == Count(m, n) + 1
    ensures n in r && r.Keys == m.Keys + {n}
    ensures forall x :: x != n ==> Count(r, x) == Count(m, x)
    ensures Positive(m) ==> Positive(r)
  {
    if n in m then m[n := m[n] + 1] else m[n := 1]
  }

  /** RemoveItem: one fewer `n`, and the entry goes when it drops to zero; unknown names are ignored. */
  function Removed(m: map<string, int>, n: string): (r: map<string, int>)
    ensures n !in m ==> r == m
    ensures Positive(m) ==> Count(r, n) == if Count(m, n) > 0 then Count(m, n) - 1 else 0
    ensures n in m && m[n] <= 1 ==> n !in r
    ensures r.Keys <= m.Keys
    ensures forall x :: x != n ==> Count(r, x) == Count(m, x)
    ensures Positive(m) ==> Positive(r)
  {
    if n in m then
      var c := m[n] - 1;
      if c <= 0 then m - {n} else m[n := c]
    else m
  }

  /** An item that enters and leaves again leaves the inventory as it was. */
  lemma RemoveUndoesAdd(m: map<string, int>, n: string)
    requires Positive(m)
    ensures Removed(Added(m, n), n) == m
  {
    if n in m {
      assert Removed(Added(m, n), n) == m[n := m[n]];
    } else {
      assert Added(m, n) - {n} == m;
    }
  }

  /** A trigger event of the cart volume, for an item with the given product name. */
  datatype Event = Enter(name: string) | Exit(name: string)

  function Apply(m: map<string, int>, e: Event): map<string, int> {
    match e
    case Enter(n) => Added(m, n)
    case Exit(n) => Removed(m, n)
  }

  /** The inventory after the events, oldest first. */
  function ApplyAll(m: map<string, int>, events: seq<Event>): map<string, int>
    decreases |events|
  {
    if events == [] then m else Apply(ApplyAll(m, events[..|events| - 1]), events[|events| - 1])
  }

  /** No prefix of the run lets more `n` leave than were there: every exit matches an item inside. */
  ghost predicate Matched(m: map<string, int>, events: seq<Event>, n: string) {
    forall k :: 0 <= k <= |events| ==>
      multiset(events[..k])[Exit(n)] <= Count(m, n) + multiset(events[..k])[Enter(n)]
  }

  lemma MultisetSnoc(s: seq<Event>)
    requires s != []
    ensures multiset(s) == multiset(s[..|s| - 1]) + multiset{s[|s| - 1]}
  {
    assert s == s[..|s| - 1] + [s[|s| - 1]];
  }

  /**
   * When every exit of `n` matches an item inside, the inventory counts exactly the
   * items that are in the cart: those it started with, plus entries, minus exits.
   */
  lemma {:induction false} CountsWhatIsInside(m: map<string, int>, events: seq<Event>, n: string)
    requires Positive(m)
    requires Matched(m, events, n)
    ensures Positive(ApplyAll(m, events))
    ensures Count(ApplyAll(m, events), n) == Count(m, n) + multiset(events)[Enter(n)] - multiset(events)[Exit(n)]
    decreases |events|
  {
    if events != [] {
      var init := events[..|events| - 1];
      var e := events[|events| - 1];
      assert Matched(m, init, n) by {
        forall k | 0 <= k <= |init|
          ensures multiset(init[..k])[Exit(n)] <= Count(m, n) + multiset(init[..k])[Enter(n)]
        {
          assert init[..k] == events[..k];
        }
      }
      CountsWhatIsInside(m, init, n);
      MultisetSnoc(events);
      assert events[..|events|] == events;
    }
  }

  class Truck {
    var items: map<string, int>
    var destroyed: bool

    ghost predicate Valid()
      reads this
    {
      Positive(items)
    }

    constructor ()
      ensures Valid() && items == map[] && !destroyed
    {
      items := map[];
      destroyed := false;
    }

    /** The trigger volume was entered by `other`'s ItemGrabbable component, or by an object without one (null). */
    method OnTriggerEnter(other: ItemGrabbable?)
      requires Valid()
      modifies this`items
      ensures Valid()
      ensures other == null ==> items == old(items)
      ensures other != null ==> items == Added(old(items), other.item.itemName)
    {
      if other != null {
        AddItem(other);
      }
    }

    method OnTriggerExit(other: ItemGrabbable?)
      requires Valid()
      modifies this`items
      ensures Valid()
      ensures other == null ==> items == old(items)
      ensures other != null ==> items == Removed(old(items), other.item.itemName)
    {
      if other != null {
        RemoveItem(other);
      }
    }

    method AddItem(item: ItemGrabbable)
      requires Valid()
      modifies this`items
      ensures Valid()
      ensures items == Added(old(items), item.item.itemName)
    {
      var name := item.item.itemName;
      if name in items {
        items := items[name := items[name] + 1];
      } else {
        items := items[name := 1];
      }
    }

    method RemoveItem(item: ItemGrabbable)
      requires Valid()
      modifies this`items
      ensures Valid()
      ensures items == Removed(old(items), item.item.itemName)
    {
      var name := item.item.itemName;
      if name in items {
        items := items[name := items[name] - 1];
        if items[name] <= 0 {
          items := items - {name};
        }
      }
    }
  }

  /** The static Truck.Instance. */
  class TruckSlot {
    var instance: Truck?

    constructor ()
      ensures instance == null
    {
      instance := null;
    }
  }

  /** Awake of `truck`: the first truck becomes the instance; later ones destroy themselves. */
  method Awake(slot: TruckSlot, truck: Truck)
    modifies slot, truck`destroyed
    ensures old(slot.instance) == null ==> slot.instance == truck && truck.destroyed == old(truck.destroyed)
    ensures old(slot.instance) != null ==> slot.instance == old(slot.instance) && truck.destroyed
  {
    if slot.instance == null {
      slot.instance := truck;
    } else {
      truck.destroyed := true;
    }
  }
}
