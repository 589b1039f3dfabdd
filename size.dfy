/** Integer page sizes. */
module Types {

  /** A width and a height; pages keep theirs as 32-bit integers. */
  class Size {
    var width: int
    var height: int

    constructor (width: int, height: int)
      ensures this.width == width && this.height == height
    {
      this.width := width;
      this.height := height;
    }

    /**
     * Overwrites both dimensions. The new size does not depend on the old
     * one, so resizing twice to the same values is the same as once.
     */
    method Resize(width: int, height: int)
      modifies this
      ensures this.width == width && this.height == height
    {
      this.width := width;
      this.height := height;
    }

    /** Derived equality: field by field. */
    predicate Equals(other: Size)
      reads this, other
    {
      width == other.width && height == other.height
    }
  }

  /** Size equality is an equivalence: reflexive, symmetric and transitive. */
  lemma EqualsIsEquivalence(s: Size, t: Size, u: Size)
    ensures s.Equals(s)
    ensures s.Equals(t) ==> t.Equals(s)
    ensures s.Equals(t) && t.Equals(u) ==> s.Equals(u)
  {
  }
}
