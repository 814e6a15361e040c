/** `Guard<HandleType>`: a unique-pointer-like owner of one GL name that destroys whatever it holds,
    zero included, when it is destroyed or reset. */
module Guards {
  import opened GlTypes
  import opened Driver

  class Guard {
    var handle: GLuint
    const driver: Driver

    /** Holds the name `HandleType::create` returned; nothing is destroyed. */
    constructor(driver: Driver, created: GLuint)
      ensures this.driver == driver && handle == created
    {
      this.driver := driver;
      handle := created;
    }

    /** The destructor: destroys the held handle unconditionally, even a zero one. */
    method Dispose()
      modifies driver`destroyed
      ensures driver.destroyed == old(driver.destroyed) + [handle]
    {
      driver.Destroy(handle);
    }

    /** `release`: returns the held handle and holds zero instead; nothing is destroyed. */
    method Release() returns (h: GLuint)
      modifies this`handle
      ensures h == old(handle) && handle == 0
    {
      h := handle;
      handle := 0;
    }

    /** `reset`: destroys the held handle, then holds the new one, which may be zero. */
    method Reset(h: GLuint)
      modifies this`handle, driver`destroyed
      ensures driver.destroyed == old(driver.destroyed) + [old(handle)] && handle == h
    {
      driver.Destroy(handle);
      handle := h;
    }

    /** The move constructor: takes the other guard's handle through its `release`, so the other
        holds zero; nothing is destroyed. */
    constructor Move(other: Guard)
      modifies other`handle
      ensures driver == other.driver && handle == old(other.handle) && other.handle == 0
    {
      driver := other.driver;
      var h := other.Release();
      handle := h;
    }

    /** Move assignment: `reset(other.release())`. The held handle is destroyed and the other's taken,
        leaving the other at zero. A guard moved into itself destroys zero and keeps its handle. */
    method MoveAssign(other: Guard)
      modifies this`handle, other`handle, driver`destroyed
      ensures other != this ==>
        handle == old(other.handle) && other.handle == 0 && driver.destroyed == old(driver.destroyed) + [old(handle)]
      ensures other == this ==> handle == old(handle) && driver.destroyed == old(driver.destroyed) + [0]
    {
      var h := other.Release();
      Reset(h);
    }

    /** `getHandle` and `operator*`: the held handle; nothing changes. */
    function GetHandle(): (h: GLuint)
      reads this
      ensures h == handle
    {
      handle
    }
  }
}
