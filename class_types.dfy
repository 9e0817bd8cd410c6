/**
 * Run-time type information for the observed objects.
 *
 * A class is known by its own name together with its (single) base class, so a
 * `ClassType` value is the whole ancestry chain up to a root class.
 * `IsBaseOf(b, d)` is the model of `std::is_base_of<b, d>`: like the C++ trait on
 * class types it is reflexive.  An object is its address plus its most-derived
 * (dynamic) type; `DynamicCast` is `dynamic_cast<U*>` applied to a typed pointer.
 */
module ClassTypes {
  import opened Wrappers

  datatype ClassType = Root(name: string) | Derived(name: string, base: ClassType)

  /** An object in memory: where it lives and what it really is. */
  datatype Obj = Obj(addr: nat, dynType: ClassType)

  /** `b` is `d` itself or one of its (direct or indirect) base classes. */
  predicate IsBaseOf(b: ClassType, d: ClassType)
    decreases d
  {
    b == d || (d.Derived? && IsBaseOf(b, d.base))
  }

  /** A pointer of static type `T*` holding `p` is null or points to an instance of `t`. */
  predicate IsTypedAs(p: Option<Obj>, t: ClassType)
  {
    p.Some? ==> IsBaseOf(t, p.value.dynType)
  }

  /**
   * `dynamic_cast<U*>(p)`: the same pointer when the object it points to is an
   * instance of `u`, null otherwise (and null for a null pointer).
   */
  function DynamicCast(p: Option<Obj>, u: ClassType): Option<Obj>
  {
    if p.Some? && IsBaseOf(u, p.value.dynType) then p else None
  }

  /** is_base_of is transitive: a base of a base is a base. */
  lemma {:induction false} BaseOfTransitive(a: ClassType, b: ClassType, c: ClassType)
    requires IsBaseOf(a, b) && IsBaseOf(b, c)
    ensures IsBaseOf(a, c)
    decreases c
  {
    if b != c {
      BaseOfTransitive(a, b, c.base);
    }
  }

  /**
   * What a successful `dynamic_cast<U*>` gives the caller: a pointer usable as
   * a `U*` and as a pointer to every base `b` of `U`, which a second cast to
   * `U` leaves unchanged.
   */
  lemma DynamicCastSound(p: Option<Obj>, u: ClassType, b: ClassType)
    requires IsBaseOf(b, u)
    ensures IsTypedAs(DynamicCast(p, u), u)
    ensures IsTypedAs(DynamicCast(p, u), b)
    ensures DynamicCast(DynamicCast(p, u), u) == DynamicCast(p, u)
  {
    UpCastTyped(DynamicCast(p, u), u, b);
  }

  /** Up-casting a well-typed pointer keeps it well typed for the base class. */
  lemma UpCastTyped(p: Option<Obj>, t: ClassType, u: ClassType)
    requires IsTypedAs(p, t) && IsBaseOf(u, t)
    ensures IsTypedAs(p, u)
  {
    if p.Some? {
      BaseOfTransitive(u, t, p.value.dynType);
    }
  }

  /**
   * Up-cast to `u` and then down-cast back to the original type `t` returns the
   * very same pointer: the object is still an instance of `t`.
   */
  lemma UpThenDownCast(p: Option<Obj>, t: ClassType, u: ClassType)
    requires IsTypedAs(p, t) && IsBaseOf(u, t)
    ensures DynamicCast(p, u) == p
    ensures DynamicCast(DynamicCast(p, u), t) == p
  {
    UpCastTyped(p, t, u);
  }
}
