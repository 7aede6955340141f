/**
 * The one part of the GUI toolkit the navigator depends on: every `cx.new(...)` allocates a
 * new entity, and entities are told apart by identity.  The demo views that `create_view`
 * allocates draw their identities from a counter, so an identity handed out now differs from
 * every one handed out before.  The showcase entity is a Dafny object instead, told apart by
 * object identity.
 */
module Toolkit {

  /** The toolkit's entity allocator. */
  class EntityIds {
    var next: nat

    constructor ()
      ensures next == 0
    {
      next := 0;
    }

    /** Allocate a new entity identity. */
    method Fresh() returns (id: nat)
      modifies this
      ensures id == old(next) && next == old(next) + 1
    {
      id := next;
      next := next + 1;
    }
  }
}
