/**
 * Client programs over the handle classes, in the way the header is meant to be
 * used: an object of dynamic type `obj.dynType` embeds an anchor of static type
 * `t`, handles are taken from the anchor, copied and re-typed, and the object
 * dies while handles still observe it.
 */
module Scenarios {
  import opened Wrappers
  import opened ClassTypes
  import opened WeakPointers

  /**
   * Handles from a live anchor see the object; an up-cast shares the block;
   * after the object dies both report null, and destroying the last handle
   * deletes the block (its reference comes back null).
   */
  method ObserveThenOutlive(t: ClassType, base: ClassType, obj: Obj)
      returns (seen: Option<Obj>, upSeen: Option<Obj>, countAlive: nat, nullAfter: bool,
               countAfter: nat, lastReleased: bool)
    requires IsBaseOf(t, obj.dynType) && IsBaseOf(base, t)
    ensures seen == Some(obj) && upSeen == Some(obj)
    ensures countAlive == 3
    ensures nullAfter && countAfter == 2
    ensures lastReleased
  {
    var anchor := new WeakPtrController(t, Some(obj));
    var h1 := anchor.GetWeakPtr();
    var h2 := h1.GetUpCast(base);
    seen, upSeen := h1.GetPtr(), h2.GetPtr();
    countAlive := h1.GetRefCount();
    anchor.Destroy();
    nullAfter := h1.IsNull() && h2.IsNull();
    countAfter := h2.GetRefCount();
    h1.Destroy();
    h2.Destroy();
    lastReleased := h2.info == null;
  }

  /**
   * A down-cast to a class the object is not an instance of yields an empty
   * handle and leaves the source and the count alone; a down-cast back to the
   * real type after an up-cast sees the same object.
   */
  method DownCasts(t: ClassType, base: ClassType, other: ClassType, obj: Obj)
      returns (wrongNull: bool, sourceSeen: Option<Obj>, countAfterWrong: nat, backSeen: Option<Obj>)
    requires IsBaseOf(t, obj.dynType) && IsBaseOf(base, t)
    requires IsBaseOf(t, other) && !IsBaseOf(other, obj.dynType)
    ensures wrongNull && sourceSeen == Some(obj) && countAfterWrong == 2
    ensures backSeen == Some(obj)
  {
    var anchor := new WeakPtrController(t, Some(obj));
    var h := anchor.GetWeakPtr();
    var wrong := h.GetDownCast(other);
    wrongNull := wrong.IsNull();
    sourceSeen := h.GetPtr();
    countAfterWrong := h.GetRefCount();
    var up := h.GetUpCast(base);
    var back := up.GetDownCast(t);
    backSeen := back.GetPtr();
  }

  /** Once the object is gone a down-cast fails even to the object's own type. */
  method DownCastAfterDeath(t: ClassType, obj: Obj) returns (castNull: bool, count: nat)
    requires IsBaseOf(t, obj.dynType)
    ensures castNull && count == 1
  {
    var anchor := new WeakPtrController(t, Some(obj));
    var h := anchor.GetWeakPtr();
    anchor.Destroy();
    var d := h.GetDownCast(t);
    castNull := d.IsNull();
    count := h.GetRefCount();
  }

  /**
   * Self-assignment of a handle that is its block's only observer, with
   * `operator=` as written: the live object is no longer observed and the
   * block is gone.
   */
  method SelfAssignSoleObserver(t: ClassType, obj: Obj)
      returns (nullBefore: bool, nullAfter: bool, countAfter: nat)
    requires IsBaseOf(t, obj.dynType)
    ensures !nullBefore && nullAfter && countAfter == 0
  {
    var block := new PtrInfo(Some(obj));
    var h := new WeakPtr.FromInfo(t, block);
    nullBefore := h.IsNull();
    h.Assign(h);
    nullAfter := h.IsNull();
    countAfter := h.GetRefCount();
  }

  /** The same program with the corrected assignment keeps the handle bound. */
  method SelfAssignSoleObserverCorrected(t: ClassType, obj: Obj)
      returns (nullBefore: bool, nullAfter: bool, seen: Option<Obj>, countAfter: nat)
    requires IsBaseOf(t, obj.dynType)
    ensures !nullBefore && !nullAfter && seen == Some(obj) && countAfter == 1
  {
    var block := new PtrInfo(Some(obj));
    var h := new WeakPtr.FromInfo(t, block);
    nullBefore := h.IsNull();
    h.AssignSameBlockSafe(h);
    nullAfter := h.IsNull();
    seen := h.GetPtr();
    countAfter := h.GetRefCount();
  }

  /** Assigning between handles of two different objects moves one count across. */
  method AssignAcrossBlocks(t: ClassType, a: Obj, b: Obj)
      returns (seen: Option<Obj>, countA: nat, countB: nat)
    requires IsBaseOf(t, a.dynType) && IsBaseOf(t, b.dynType)
    ensures seen == Some(b) && countA == 1 && countB == 3
  {
    var anchorA := new WeakPtrController(t, Some(a));
    var anchorB := new WeakPtrController(t, Some(b));
    var ha := anchorA.GetWeakPtr();
    var hb := anchorB.GetWeakPtr();
    ha.Assign(hb);
    seen := ha.GetPtr();
    countA := anchorA.weakPtr.GetRefCount();
    countB := hb.GetRefCount();
  }
}
