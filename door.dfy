/**
 * Door (Door.cs): an Interactable that opens and closes when interacted with, if it
 * has an Animator, and shows a green outline while highlighted. The Animator is
 * reduced to its "isOpen" parameter.
 */
module Doors {
  import opened Engine

  class Door {
    const hasAnimator: bool
    const originalOutlineColor: Color
    var isOpen: bool
    var animatorIsOpen: bool
    var outlineColor: Color

    /** The Animator parameter follows the door's own state. */
    ghost predicate Valid()
      reads this
    {
      hasAnimator ==> animatorIsOpen == isOpen
    }

    /** Awake: a closed door remembering the outline colour it was built with. */
    constructor Awake(hasAnimator: bool, outlineColor: Color)
      ensures Valid()
      ensures this.hasAnimator == hasAnimator && !isOpen && !animatorIsOpen
      ensures this.outlineColor == outlineColor && originalOutlineColor == outlineColor
    {
      this.hasAnimator := hasAnimator;
      originalOutlineColor := outlineColor;
      isOpen := false;
      animatorIsOpen := false;
      this.outlineColor := outlineColor;
    }

    /** Toggle the door; without an Animator nothing happens. */
    method Interact()
      requires Valid()
      modifies this`isOpen, this`animatorIsOpen
      ensures Valid()
      ensures hasAnimator ==> isOpen == !old(isOpen) && animatorIsOpen == isOpen
      ensures !hasAnimator ==> isOpen == old(isOpen) && animatorIsOpen == old(animatorIsOpen)
    {
      if hasAnimator {
        isOpen := !isOpen;
        animatorIsOpen := isOpen;
      }
    }

    /** Green while highlighted, the colour found at Awake otherwise. */
    method SetOutline(isHighlighted: bool)
      modifies this`outlineColor
      ensures outlineColor == (if isHighlighted then Green else originalOutlineColor)
    {
      outlineColor := if isHighlighted then Green else originalOutlineColor;
    }
  }

  /** Interacting twice puts the door back as it was; interacting once opens a closed door. */
  method InteractTwice(d: Door) returns (openedOnce: bool)
    requires d.Valid() && d.hasAnimator
    modifies d`isOpen, d`animatorIsOpen
    ensures d.Valid()
    ensures openedOnce == !old(d.isOpen)
    ensures d.isOpen == old(d.isOpen) && d.animatorIsOpen == old(d.animatorIsOpen)
  {
    d.Interact();
    openedOnce := d.isOpen;
    d.Interact();
  }
}
