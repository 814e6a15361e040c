/** `Object<HandleType>`: the owning wrapper that destroys its name only when it holds one, under a
    single-owner discipline (at most one `Object` per GL name). */
module Objects {
  import opened GlTypes
  import opened Driver

  class Object {
    /** The handle subobject: the GL name held, zero for none. */
    var handle: GLuint
    const driver: Driver

    /** The driver's invariant holds and a held name is registered as owned by this object. */
    ghost predicate Valid()
      reads this, driver
    {
      driver.Valid() && (handle != 0 ==> handle in driver.owner && driver.owner[handle] == this)
    }

    /** The create constructor, which holds the name `HandleType::create` returns, and the adopt
        constructor, which holds the given handle: either way the object owns `handle`. */
    constructor(driver: Driver, handle: GLuint)
      requires driver.Valid() && (handle == 0 || driver.Unused(handle))
      modifies driver`owner
      ensures this.driver == driver && this.handle == handle && Valid()
      ensures driver.destroyed == old(driver.destroyed)
      ensures driver.owner == if handle == 0 then old(driver.owner) else old(driver.owner)[handle := this]
    {
      this.driver := driver;
      this.handle := handle;
      new;
      if handle != 0 {
        driver.owner := driver.owner[handle := this];
      }
    }

    /** The destructor, also the first step of move assignment: destroys the held name only when it
        is not zero, and gives up its ownership. */
    method Dispose()
      requires Valid()
      modifies driver
      ensures driver.Valid()
      ensures driver.destroyed == old(driver.destroyed) + (if handle != 0 then [handle] else [])
      ensures driver.owner == old(driver.owner) - {handle}
    {
      if handle != 0 {
        DestroyKeepsOnce(driver.destroyed, handle);
        driver.Destroy(handle);
        driver.owner := driver.owner - {handle};
      }
    }

    /** The move constructor: takes the other object's name and leaves it holding zero; nothing is
        destroyed. */
    constructor Move(other: Object)
      requires other.Valid()
      modifies other, other.driver`owner
      ensures driver == other.driver && handle == old(other.handle) && other.handle == 0
      ensures Valid() && other.Valid()
      ensures driver.destroyed == old(other.driver.destroyed)
      ensures driver.owner == if handle == 0 then old(other.driver.owner) else old(other.driver.owner)[handle := this]
    {
      driver := other.driver;
      handle := other.handle;
      new;
      other.handle := 0;
      if handle != 0 {
        driver.owner := driver.owner[handle := this];
      }
    }

    /** Assignment from a handle: destroys the held name whatever it is, zero included, then holds
        the new handle. */
    method AssignHandle(h: GLuint)
      requires Valid() && (h == 0 || driver.Unused(h))
      modifies this, driver
      ensures handle == h && Valid()
      ensures driver.destroyed == old(driver.destroyed) + [old(handle)]
      ensures driver.owner == var rest := old(driver.owner) - {old(handle)}; if h == 0 then rest else rest[h := this]
    {
      DestroyKeepsOnce(driver.destroyed, handle);
      driver.Destroy(handle);
      driver.owner := driver.owner - {handle};
      handle := h;
      if h != 0 {
        driver.owner := driver.owner[h := this];
      }
    }

    /** Move assignment: destroys the held name only when it is not zero, takes the other object's
        name and leaves the other holding zero. Moving an object into itself destroys its name and
        leaves it holding zero. */
    method MoveAssign(other: Object)
      requires Valid() && other.Valid() && other.driver == driver
      modifies this, other, driver
      ensures other != this ==> handle == old(other.handle) && other.handle == 0
      ensures other == this ==> handle == 0
      ensures Valid() && other.Valid()
      ensures driver.destroyed == old(driver.destroyed) + (if old(handle) != 0 then [old(handle)] else [])
      ensures other != this ==>
        (driver.owner == var rest := old(driver.owner) - {old(handle)};
                         if old(other.handle) == 0 then rest else rest[old(other.handle) := this])
      ensures other == this ==> driver.owner == old(driver.owner) - {old(handle)}
    {
      Dispose();
      var h := other.handle;
      handle := h;
      other.handle := 0;
      if other != this && h != 0 {
        driver.owner := driver.owner[h := this];
      }
    }
  }
}
