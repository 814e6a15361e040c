/** The GL driver as the ownership wrappers see it: it destroys object names on request and answers
    whether a name refers to a live object. Which name a creation call returns is the driver's
    choice, so the wrappers take it as a parameter. */
module Driver {
  import opened GlTypes

  class Driver {
    /** Every name passed to a destroy call, in call order. */
    ghost var destroyed: seq<GLuint>
    /** The owning wrapper of each name currently owned under the single-owner discipline. */
    ghost var owner: map<GLuint, object>
    /** The driver's validation query (`glIsBuffer` and the like). */
    const validate: GLuint -> bool

    /** A driver that has destroyed nothing and whose names have no owner yet. */
    constructor(validate: GLuint -> bool)
      ensures destroyed == [] && owner == map[] && this.validate == validate
    {
      destroyed := [];
      owner := map[];
      this.validate := validate;
    }

    /** No non-zero name was destroyed twice, no owned name is zero, and no owned name has been
        destroyed. */
    ghost predicate Valid()
      reads this
    {
      && DestroyedOnce(destroyed)
      && 0 !in owner
      && forall n :: n in owner ==> n !in destroyed
    }

    /** A name a wrapper may take ownership of: nobody owns it and it was never destroyed. */
    ghost predicate Unused(name: GLuint)
      reads this
    {
      name !in owner && name !in destroyed
    }

    /** `HandleType::destroy(name)`: one more name in the log, even zero. */
    method Destroy(name: GLuint)
      modifies this`destroyed
      ensures destroyed == old(destroyed) + [name]
    {
      destroyed := destroyed + [name];
    }
  }

  /** Each non-zero name occurs at most once in the log. */
  ghost predicate DestroyedOnce(log: seq<GLuint>)
  {
    forall i, j :: 0 <= i < j < |log| && log[i] == log[j] ==> log[i] == 0
  }

  /** Logging zero, or a name not logged before, keeps every non-zero name logged at most once. */
  lemma DestroyKeepsOnce(log: seq<GLuint>, name: GLuint)
    requires DestroyedOnce(log)
    requires name == 0 || name !in log
    ensures DestroyedOnce(log + [name])
  {
    var log' := log + [name];
    assert forall k :: 0 <= k < |log| ==> log'[k] == log[k];
  }
}
