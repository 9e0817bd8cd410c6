/**
 * Non-owning observer handles over a shared indirection block.
 *
 * `PtrInfo` is the indirection block: the untyped object pointer and the number
 * of handles that observe it.  `WeakPtr` is the observer handle of static type
 * `staticType` (the template argument `T`).  `WeakPtrController` is the anchor an
 * observed object embeds: it creates the block and clears its pointer when the
 * object dies.
 *
 * Ghost fields carry the bookkeeping the code leaves implicit: `handles`, the
 * set of handles currently bound to a block (so `refCount == |handles|` is the
 * exact form of "one count per observer"); `live`, which becomes false when
 * `decrement` deletes the block; `obj`, the pointer the block was created
 * with; and `cleared`, set when the anchor nulls the pointer.  The stored
 * pointer is always `obj` until the anchor clears it, and null afterwards.
 */
module WeakPointers {
  import opened Wrappers
  import opened ClassTypes

  /** The life cycle of one handle. */
  datatype HandleState = Empty | BoundAlive | BoundDead

  class PtrInfo {
    var ptr: Option<Obj>
    var refCount: nat
    ghost const obj: Option<Obj>
    ghost var cleared: bool
    ghost var live: bool
    ghost var handles: set<WeakPtr>

    /**
     * The count is exactly the number of handles bound to this block, and the
     * pointer is the one the block was made for until the anchor clears it.
     */
    ghost predicate Valid()
      reads this, handles
    {
      refCount == |handles| &&
      (forall h :: h in handles ==> h.info == this) &&
      ptr == (if cleared then None else obj)
    }

    /** `PtrInfo(void* ptr)`: stores the pointer, nobody observes it yet. */
    constructor (ptr: Option<Obj>)
      ensures this.ptr == ptr && obj == ptr && !cleared && refCount == 0
      ensures live && handles == {} && Valid()
    {
      this.ptr := ptr;
      obj := ptr;
      cleared := false;
      refCount := 0;
      live := true;
      handles := {};
    }

    /** `increment()`: one more observer, namely `h`, which already refers to this block. */
    method Increment(ghost h: WeakPtr)
      requires Valid() && live
      requires h.info == this && h !in handles
      modifies this`refCount, this`handles
      ensures refCount == old(refCount) + 1
      ensures handles == old(handles) + {h}
      ensures Valid()
    {
      refCount := refCount + 1;
      handles := handles + {h};
    }

    /**
     * `static decrement(PtrInfo*& p_info)`: the reference parameter is modelled by
     * returning its new value, which the caller stores back.  Null is left alone;
     * otherwise handle `h` stops counting, and when the count reaches zero the
     * block is deleted and the reference becomes null.
     */
    static method Decrement(p: PtrInfo?, ghost h: WeakPtr) returns (p': PtrInfo?)
      requires p != null ==> p.Valid() && p.live && h in p.handles
      modifies p
      ensures p == null ==> p' == null
      ensures p != null ==> p.refCount == old(p.refCount) - 1
      ensures p != null ==> p.handles == old(p.handles) - {h}
      ensures p != null ==> p.ptr == old(p.ptr) && p.cleared == old(p.cleared) && p.Valid()
      ensures p != null ==> (p' == null <==> p.refCount == 0) && (p' != null ==> p' == p)
      ensures p != null ==> (p.live <==> p.refCount != 0)
    {
      if p == null {
        return null;
      }
      p.refCount := p.refCount - 1;
      p.handles := p.handles - {h};
      p' := p;
      if p.refCount == 0 {
        p.live := false;
        p' := null;
      }
    }

    /** `isNull()`: the anchor has cleared the pointer, or the block was made for null. */
    function IsNull(): (r: bool)
      reads this, handles
      ensures Valid() ==> (r <==> cleared || obj == None)
    {
      ptr.None?
    }

    /**
     * `getPtr<T>()`: the pointer the block was created with, unchanged by the
     * type erasure, until the anchor clears it; null from then on.
     */
    function GetPtr(): (r: Option<Obj>)
      reads this, handles
      ensures Valid() ==> r == (if cleared then None else obj)
      ensures Valid() ==> (r == None <==> IsNull())
    {
      ptr
    }

    /** `getRefCount()`: the number of handles observing this block. */
    function GetRefCount(): (r: nat)
      requires Valid()
      reads this, handles
      ensures r == |handles|
      ensures (exists h :: h in handles) ==> r > 0
    {
      refCount
    }
  }

  class WeakPtr {
    const staticType: ClassType
    var info: PtrInfo?

    /**
     * A bound handle is counted by its live block, and the block's pointer is
     * null or points to an instance of this handle's static type.
     */
    ghost predicate Valid()
      reads this, info, if info == null then {} else info.handles
    {
      info != null ==>
        info.live && this in info.handles && info.Valid() && IsTypedAs(info.ptr, staticType)
    }

    ghost function State(): HandleState
      reads this, info
    {
      if info == null then Empty
      else if info.ptr.Some? then BoundAlive
      else BoundDead
    }

    /** `WeakPtr()`: an empty handle. */
    constructor Default(t: ClassType)
      ensures staticType == t && info == null
      ensures State() == Empty && Valid()
    {
      staticType := t;
      info := null;
    }

    /** `explicit WeakPtr(PtrInfo* p_ptrInfo)`: binds to `p` and counts itself unless `p` is null. */
    constructor FromInfo(t: ClassType, p: PtrInfo?)
      requires p != null ==> p.Valid() && p.live && IsTypedAs(p.ptr, t)
      modifies p
      ensures staticType == t && info == p && Valid()
      ensures p != null ==> p.refCount == old(p.refCount) + 1 && p.handles == old(p.handles) + {this}
      ensures p != null ==> p.ptr == old(p.ptr) && p.cleared == old(p.cleared) && p.live
    {
      staticType := t;
      info := p;
      new;
      if info != null {
        info.Increment(this);
      }
    }

    /** `WeakPtr(const WeakPtr& other)`: shares `other`'s block, one more count. */
    constructor Copy(other: WeakPtr)
      requires other.Valid()
      modifies other.info
      ensures staticType == other.staticType && info == other.info
      ensures Valid() && other.Valid()
      ensures info != null ==> info.refCount == old(other.info.refCount) + 1
      ensures info != null ==> info.handles == old(other.info.handles) + {this}
      ensures info != null ==> info.ptr == old(other.info.ptr) && info.cleared == old(other.info.cleared) && info.live
    {
      staticType := other.staticType;
      info := other.info;
      new;
      if info != null {
        info.Increment(this);
      }
    }

    /**
     * `~WeakPtr()`: releases the block once.  The field is nulled only when the
     * release deleted the block; the handle must not be used afterwards.
     */
    method Destroy()
      requires Valid()
      modifies this, info
      ensures old(info) == null ==> info == null
      ensures old(info) != null ==> old(info).refCount == old(info.refCount) - 1
      ensures old(info) != null ==> old(info).handles == old(info.handles) - {this}
      ensures old(info) != null ==> old(info).ptr == old(info.ptr) && old(info).cleared == old(info.cleared) && old(info).Valid()
      ensures old(info) != null ==> (old(info).live <==> old(info).refCount != 0)
      ensures old(info) != null ==> (info == null <==> old(info).refCount == 0)
      ensures info != null ==> info == old(info)
    {
      info := PtrInfo.Decrement(info, this);
    }

    /**
     * `operator=(const WeakPtr& other)`, as written: release the old block first,
     * then adopt `other`'s block.  When `other` is this very handle and it is the
     * block's only observer, the release deletes the block and nulls the field
     * that is then copied, so the handle ends up empty.
     */
    method Assign(other: WeakPtr)
      requires Valid() && other.Valid() && other.staticType == staticType
      modifies this, info, other.info
      ensures Valid() && other.Valid()
      // self-assignment of the sole observer: the block is released and deleted
      ensures other == this && old(info) != null && old(info.refCount) == 1 ==>
        info == null && !old(info).live && old(info).refCount == 0 && old(info).handles == {}
      // every other case: the handle now shares the source's block
      ensures !(other == this && old(info) != null && old(info.refCount) == 1) ==>
        info == old(other.info)
      // distinct blocks: the old one lost a count (maybe deleted), the new one gained one
      ensures old(info) != old(other.info) && old(info) != null ==>
        old(info).refCount == old(info.refCount) - 1 && old(info).handles == old(info.handles) - {this} &&
        (old(info).live <==> old(info).refCount != 0)
      ensures old(info) != old(other.info) && old(other.info) != null ==>
        old(other.info).refCount == old(other.info.refCount) + 1 &&
        old(other.info).handles == old(other.info.handles) + {this}
      // same block, not the sole-observer self-assignment: the count is as before
      ensures old(info) == old(other.info) && old(info) != null && !(other == this && old(info.refCount) == 1) ==>
        old(info).refCount == old(info.refCount) && old(info).handles == old(info.handles)
      ensures old(info) != null ==> old(info).ptr == old(info.ptr) && old(info).cleared == old(info.cleared)
      ensures old(other.info) != null ==> old(other.info).ptr == old(other.info.ptr) && old(other.info).cleared == old(other.info.cleared)
    {
      info := PtrInfo.Decrement(info, this);
      info := other.info;
      if info != null {
        info.Increment(this);
      }
    }

    /**
     * Assignment with the evident intent that self-assignment is harmless: a
     * handle already bound to the source's block keeps its count.
     */
    method AssignSameBlockSafe(other: WeakPtr)
      requires Valid() && other.Valid() && other.staticType == staticType
      modifies this, info, other.info
      ensures Valid() && other.Valid()
      ensures info == old(other.info)
      ensures old(info) == old(other.info) && old(info) != null ==>
        old(info).refCount == old(info.refCount) && old(info).handles == old(info.handles) && old(info).live
      ensures old(info) != old(other.info) && old(info) != null ==>
        old(info).refCount == old(info.refCount) - 1 && old(info).handles == old(info.handles) - {this} &&
        (old(info).live <==> old(info).refCount != 0)
      ensures old(info) != old(other.info) && old(other.info) != null ==>
        old(other.info).refCount == old(other.info.refCount) + 1 &&
        old(other.info).handles == old(other.info.handles) + {this}
      ensures old(info) != null ==> old(info).ptr == old(info.ptr) && old(info).cleared == old(info.cleared)
      ensures old(other.info) != null ==> old(other.info).ptr == old(other.info.ptr) && old(other.info).cleared == old(other.info.cleared)
    {
      if info != other.info {
        info := PtrInfo.Decrement(info, this);
        info := other.info;
        if info != null {
          info.Increment(this);
        }
      }
    }

    /** `clear()`: releases the block once and leaves the handle empty. */
    method Clear()
      requires Valid()
      modifies this, info
      ensures info == null && Valid() && IsNull() && GetRefCount() == 0
      ensures old(info) != null ==> old(info).refCount == old(info.refCount) - 1
      ensures old(info) != null ==> old(info).handles == old(info.handles) - {this}
      ensures old(info) != null ==> old(info).ptr == old(info.ptr) && old(info).cleared == old(info.cleared) && old(info).Valid()
      ensures old(info) != null ==> (old(info).live <==> old(info).refCount != 0)
    {
      info := PtrInfo.Decrement(info, this);
      info := null;
    }

    /** `getUpCast<U>()`, `U` a base of `T`: a new handle of type `u` on the same block. */
    method GetUpCast(u: ClassType) returns (r: WeakPtr)
      requires Valid() && IsBaseOf(u, staticType)
      modifies info
      ensures fresh(r) && r.staticType == u && r.info == info
      ensures r.Valid() && Valid()
      ensures r.GetPtr() == GetPtr()
      ensures info != null ==> info.refCount == old(info.refCount) + 1
      ensures info != null ==> info.handles == old(info.handles) + {r} && info.ptr == old(info.ptr) && info.cleared == old(info.cleared)
    {
      if info != null {
        UpCastTyped(info.ptr, staticType, u);
      }
      r := new WeakPtr.FromInfo(u, info);
    }

    /**
     * `getDownCast<U>()`, `U` derived from `T`: a new handle of type `u` on the
     * same block when the live object is an instance of `u`, an empty handle
     * otherwise (in particular when the object is already gone).
     */
    method GetDownCast(u: ClassType) returns (r: WeakPtr)
      requires Valid() && IsBaseOf(staticType, u)
      modifies info
      ensures fresh(r) && r.staticType == u
      ensures r.Valid() && Valid()
      ensures DynamicCast(GetPtr(), u).Some? ==> r.info == info
      ensures DynamicCast(GetPtr(), u).None? ==> r.info == null
      ensures r.GetPtr() == DynamicCast(GetPtr(), u)
      ensures info != null ==> info.ptr == old(info.ptr) && info.cleared == old(info.cleared)
      ensures info != null && DynamicCast(GetPtr(), u).Some? ==>
        info.refCount == old(info.refCount) + 1 && info.handles == old(info.handles) + {r}
      ensures info != null && DynamicCast(GetPtr(), u).None? ==>
        info.refCount == old(info.refCount) && info.handles == old(info.handles)
    {
      if DynamicCast(GetPtr(), u).Some? {
        r := new WeakPtr.FromInfo(u, info);
      } else {
        r := new WeakPtr.FromInfo(u, null);
      }
    }

    /** `isNull()`: no block, or the observed object is gone. */
    function IsNull(): (r: bool)
      reads this, info, if info == null then {} else info.handles
      ensures r <==> GetPtr() == None
      ensures r <==> State() != BoundAlive
    {
      info == null || info.IsNull()
    }

    /**
     * `getPtr()`: the observed object as a `T*`, null when there is none.  On a
     * valid handle it is the object its block was created for until the anchor
     * clears the block, and it really points to an instance of `T`.
     */
    function GetPtr(): (r: Option<Obj>)
      reads this, info, if info == null then {} else info.handles
      ensures info == null ==> r == None
      ensures r.Some? <==> State() == BoundAlive
      ensures Valid() && info != null ==> r == (if info.cleared then None else info.obj)
      ensures Valid() ==> IsTypedAs(r, staticType)
    {
      if info != null then info.GetPtr() else None
    }

    /** `getRefCount()`: how many handles, this one included, share this handle's block. */
    function GetRefCount(): (r: nat)
      requires Valid()
      reads this, info, if info == null then {} else info.handles
      ensures info == null ==> r == 0
      ensures info != null ==> r == |info.handles| && r >= 1
    {
      if info != null then info.GetRefCount() else 0
    }
  }

  class WeakPtrController {
    const staticType: ClassType
    const weakPtr: WeakPtr

    ghost predicate Valid()
      reads this, weakPtr, weakPtr.info, if weakPtr.info == null then {} else weakPtr.info.handles
    {
      weakPtr.Valid() && weakPtr.staticType == staticType
    }

    /**
     * `explicit WeakPtrController(T* ptr)`: allocates a block for `ptr`, which
     * the controller's own handle then counts once.
     */
    constructor (t: ClassType, ptr: Option<Obj>)
      requires IsTypedAs(ptr, t)
      ensures Valid() && staticType == t
      ensures fresh(weakPtr) && weakPtr.info != null && fresh(weakPtr.info)
      ensures weakPtr.info.ptr == ptr && weakPtr.info.refCount == 1
      ensures weakPtr.info.handles == {weakPtr} && weakPtr.info.live
    {
      var block := new PtrInfo(ptr);
      staticType := t;
      weakPtr := new WeakPtr.FromInfo(t, block);
    }

    /**
     * `~WeakPtrController()`: nulls the block's pointer without freeing the
     * block; then the member handle is destroyed, releasing one count.  Every
     * handle still on the block reports null.
     */
    method Destroy()
      requires Valid()
      modifies weakPtr, weakPtr.info
      ensures old(weakPtr.info) != null ==> old(weakPtr.info).ptr == None && old(weakPtr.info).cleared
      ensures old(weakPtr.info) != null ==> old(weakPtr.info).refCount == old(weakPtr.info.refCount) - 1
      ensures old(weakPtr.info) != null ==> old(weakPtr.info).handles == old(weakPtr.info.handles) - {weakPtr}
      ensures old(weakPtr.info) != null ==> old(weakPtr.info).Valid()
      ensures old(weakPtr.info) != null ==> (old(weakPtr.info).live <==> old(weakPtr.info).refCount != 0)
      ensures old(weakPtr.info) != null ==>
        forall h :: h in old(weakPtr.info).handles ==> h.Valid() && h.IsNull()
    {
      if weakPtr.info != null {
        weakPtr.info.ptr := None;
        weakPtr.info.cleared := true;
      }
      weakPtr.Destroy();
    }

    /** `getWeakPtr()`: a copy of the controller's handle, one more count. */
    method GetWeakPtr() returns (r: WeakPtr)
      requires Valid()
      modifies weakPtr.info
      ensures fresh(r) && r.staticType == staticType && r.info == weakPtr.info
      ensures r.Valid() && Valid()
      ensures r.GetPtr() == weakPtr.GetPtr()
      ensures weakPtr.info != null ==> weakPtr.info.refCount == old(weakPtr.info.refCount) + 1
      ensures weakPtr.info != null ==> weakPtr.info.handles == old(weakPtr.info.handles) + {r}
      ensures weakPtr.info != null ==> weakPtr.info.ptr == old(weakPtr.info.ptr) && weakPtr.info.cleared == old(weakPtr.info.cleared)
    {
      r := new WeakPtr.Copy(weakPtr);
    }
  }
}
