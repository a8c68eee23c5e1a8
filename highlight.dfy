/**
 * The outline bookkeeping both grab systems do per channel: a channel remembers the
 * entity it last outlined (`lastInteractable`, `lastHighlightedItem`) and the set of
 * entities of that kind whose outline is currently on (the effect of their
 * SetOutline(true) / SetOutline(false) calls).
 */
module Highlight {
  import opened Engine

  datatype Channel = Channel(last: Option<EntityId>, outlined: set<EntityId>)

  const Unlit := Channel(None, {})

  /** Every outlined entity of the channel is the one it remembers. */
  ghost predicate Exclusive(c: Channel) {
    c.outlined <= OptionSet(c.last)
  }

  /**
   * The probe now points at `e`: un-outline the remembered entity if it is a
   * different one, outline `e`, remember `e`.
   */
  function Retarget(c: Channel, e: EntityId): (r: Channel)
    ensures r.last == Some(e) && e in r.outlined
    ensures c.last.Some? && c.last.value != e ==> c.last.value !in r.outlined
    ensures r.outlined - {e} <= c.outlined
    ensures forall x :: x in c.outlined && x != e && c.last != Some(x) ==> x in r.outlined
    ensures Exclusive(c) ==> r.outlined == {e}
  {
    var kept := if c.last.Some? && c.last.value != e then c.outlined - {c.last.value} else c.outlined;
    Channel(Some(e), kept + {e})
  }

  /** The probe lost its target: un-outline the remembered entity and forget it. */
  function Release(c: Channel): (r: Channel)
    ensures r.last == None
    ensures r.outlined == c.outlined - OptionSet(c.last)
    ensures Exclusive(c) ==> r == Unlit
  {
    if c.last.Some? then Channel(None, c.outlined - {c.last.value}) else c
  }
}
