/** The reference-particle push every thin element inherits from the Thin
    mixin.  The mixin's source (mixin/thin.H) is not part of this model; the
    push is taken to leave the reference particle unchanged, as a thin element
    has no length to advance it over.  This is an assumption of the model. */
module ThinElement {
  import opened ReferenceParticle

  /** Pushes the reference particle through a thin element: by assumption,
      nothing changes. */
  method PushReference(refpart: RefPart)
    ensures unchanged(refpart)
  {
  }
}
