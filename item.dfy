/**
 * Item (Abstract/Item.cs): the catalogue data of a product and its hit points.
 * Destroy(gameObject) is recorded as the flag `destroyed`; the engine removes the
 * object at the end of the frame, which the model does not track.
 */
module Items {

  /** Hit points and whether Destroy has been called on the item's object. */
  datatype Health = Health(hp: int, destroyed: bool)

  /** TakeDamage on a health value: subtract, and destroy once hit points reach zero. */
  function Damaged(h: Health, amount: int): (r: Health)
    ensures r.hp == h.hp - amount
    ensures r.destroyed <==> h.destroyed || r.hp <= 0
    ensures h.destroyed ==> r.destroyed
  {
    Health(h.hp - amount, h.destroyed || h.hp - amount <= 0)
  }

  /** TakeDamage called with each amount in turn. */
  function DamagedAll(h: Health, amounts: seq<int>): Health
    decreases |amounts|
  {
    if amounts == [] then h else DamagedAll(Damaged(h, amounts[0]), amounts[1..])
  }

  function Sum(s: seq<int>): int
    decreases |s|
  {
    if s == [] then 0 else s[0] + Sum(s[1..])
  }

  /** Some call of the run left the item at zero hit points or fewer. */
  ghost predicate EverLethal(hp: int, amounts: seq<int>) {
    exists k :: 1 <= k <= |amounts| && hp - Sum(amounts[..k]) <= 0
  }

  lemma SumPrefixStep(a: seq<int>, k: nat)
    requires 1 <= k <= |a|
    ensures Sum(a[..k]) == a[0] + Sum(a[1..][..k - 1])
  {
    assert a[..k][1..] == a[1..][..k - 1];
  }

  /**
   * After a run of hits the damage adds up, and the item is destroyed exactly when it
   * already was or some hit of the run brought it to zero hit points or fewer.
   */
  lemma {:induction false} DamagedAllEffect(h: Health, amounts: seq<int>)
    ensures DamagedAll(h, amounts).hp == h.hp - Sum(amounts)
    ensures DamagedAll(h, amounts).destroyed <==> h.destroyed || EverLethal(h.hp, amounts)
    decreases |amounts|
  {
    if amounts != [] {
      var h1 := Damaged(h, amounts[0]);
      var rest := amounts[1..];
      DamagedAllEffect(h1, rest);
      if EverLethal(h.hp, amounts) && !h.destroyed && h1.hp > 0 {
        var k :| 1 <= k <= |amounts| && h.hp - Sum(amounts[..k]) <= 0;
        SumPrefixStep(amounts, k);
        assert 1 <= k - 1 <= |rest| && h1.hp - Sum(rest[..k - 1]) <= 0;
      }
      if EverLethal(h1.hp, rest) {
        var k :| 1 <= k <= |rest| && h1.hp - Sum(rest[..k]) <= 0;
        SumPrefixStep(amounts, k + 1);
        assert 1 <= k + 1 <= |amounts| && h.hp - Sum(amounts[..k + 1]) <= 0;
      }
      if h1.hp <= 0 {
        SumPrefixStep(amounts, 1);
        assert Sum(amounts[1..][..0]) == 0;
        assert h.hp - Sum(amounts[..1]) <= 0;
      }
    }
  }

  lemma {:induction false} SumPrefixesMonotone(a: seq<int>, k: nat)
    requires forall i :: 0 <= i < |a| ==> a[i] >= 0
    requires k <= |a|
    ensures Sum(a[..k]) <= Sum(a)
    decreases |a|
  {
    if k > 0 {
      SumPrefixStep(a, k);
      SumPrefixesMonotone(a[1..], k - 1);
    } else if a != [] {
      SumPrefixesMonotone(a[1..], 0);
      assert a[..0] == a[1..][..0];
    }
  }

  /**
   * Damage is never negative in the game (it is a ceiling of a non-negative product), so
   * an item that was alive is destroyed after a non-empty run exactly when its final hit
   * points are zero or fewer.
   */
  lemma NonNegativeDamageDestroysAtEnd(h: Health, amounts: seq<int>)
    requires forall i :: 0 <= i < |amounts| ==> amounts[i] >= 0
    requires !h.destroyed && amounts != []
    ensures DamagedAll(h, amounts).destroyed <==> DamagedAll(h, amounts).hp <= 0
  {
    DamagedAllEffect(h, amounts);
    if EverLethal(h.hp, amounts) {
      var k :| 1 <= k <= |amounts| && h.hp - Sum(amounts[..k]) <= 0;
      SumPrefixesMonotone(amounts, k);
    }
    if h.hp - Sum(amounts) <= 0 {
      assert amounts[..|amounts|] == amounts;
    }
  }

  class Item {
    const itemName: string
    const category: string
    const id: int
    const weight: real
    const maxHP: int
    var currentHP: int
    var destroyed: bool

    function Status(): Health
      reads this
    {
      Health(currentHP, destroyed)
    }

    /** The component as created: hit points at the language default 0 until Start runs. */
    constructor (itemName: string, category: string, id: int, weight: real, maxHP: int)
      ensures this.itemName == itemName && this.category == category && this.id == id
      ensures this.weight == weight && this.maxHP == maxHP
      ensures Status() == Health(0, false)
    {
      this.itemName := itemName;
      this.category := category;
      this.id := id;
      this.weight := weight;
      this.maxHP := maxHP;
      currentHP := 0;
      destroyed := false;
    }

    method Start()
      modifies this`currentHP
      ensures currentHP == maxHP
    {
      currentHP := maxHP;
    }

    method TakeDamage(amount: int)
      modifies this`currentHP, this`destroyed
      ensures Status() == Damaged(old(Status()), amount)
    {
      currentHP := currentHP - amount;
      if currentHP <= 0 {
        destroyed := true;
      }
    }
  }
}
