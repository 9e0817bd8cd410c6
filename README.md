# Weak observer handles: a Dafny model of `weak_ptr.hpp`

`weak_ptr.hpp` (namespace `is`) lets any number of holders observe an object they
do not own. They can ask whether it is still alive, and they stop seeing it the
moment it is destroyed. The header has three parts:

- `PtrInfo` is the indirection block. It holds the untyped object pointer
  `m_ptr` and the observer count `m_refCount`. Its static `decrement` is the only
  path that deletes a block.
- `WeakPtr<T>` is the observer handle. Constructing or copying one counts it.
  Destroying, assigning or clearing it releases it once. It also answers
  liveness queries and makes re-typed handles (up-cast, checked down-cast).
- `WeakPtrController<T>` is the anchor embedded in the observed object. It
  creates the block, hands out handles, and on destruction nulls the block's
  pointer without freeing the block.

The model is imperative, like the header. The Dafny files are:

- `weak_ptr.dfy` (module `WeakPointers`) has the classes `PtrInfo`, `WeakPtr` and
  `WeakPtrController`. They have the header's fields, and their methods change
  the fields in place.
- `class_types.dfy` (module `ClassTypes`) gives objects a run-time type. An
  object is an address plus its most-derived class. A class is its
  single-inheritance ancestry chain. `IsBaseOf` models `std::is_base_of` and
  `DynamicCast` models `dynamic_cast`.
- `wrappers.dfy` has `Option`, whose `None` stands for a null pointer.
- `scenarios.dfy` has client programs: the life cycle of an anchored object, the
  casts, and assignment.

Ghost fields of `PtrInfo` hold the bookkeeping the C++ leaves implicit:
- `handles` is the set of handles bound to the block. `PtrInfo.Valid()` states
  `refCount == |handles|`: the count is exactly the number of observers.
- `live` becomes false when `decrement` deletes the block.
- `obj` is the pointer the block was created with.
- `cleared` is set by the anchor's destructor, the only code that writes
  `m_ptr`. `PtrInfo.Valid()` ties the stored pointer to both: it is `obj` until
  the anchor clears it, and null afterwards.

`WeakPtr.Valid()` says that a bound handle is in its live block's `handles`.
It also says the block's pointer is null or points to an instance of the
handle's static type. So in the model `getPtr<T>` always yields a null pointer
or one to an instance of `T`. That rests on the model's assumption that every
base-class subobject sits at offset 0 (see "## Left out").

`PtrInfo::decrement(PtrInfo*& p_info)` takes its argument by reference. It
becomes `PtrInfo.Decrement(p, h)`, which returns the reference's new value, and
the caller stores that back (`info := PtrInfo.Decrement(info, this)`). This
keeps the aliasing the header has in `operator=`. There, `other.m_pPtrInfo` is
read after `decrement` may have nulled the same field.

Typos in the header are modelled as evidently meant:
- the missing `)` at weak_ptr.hpp:65;
- `getPtr<T>` without a call at weak_ptr.hpp:79;
- `asset` for `assert` at weak_ptr.hpp:90.

## Model

| member | source | states |
|---|---|---|
| `WeakPointers.PtrInfo.constructor` | weak_ptr.hpp:110-113 | a new block stores the given pointer (remembered as the block's object, not yet cleared) with count 0, is live and has no observers |
| `WeakPointers.PtrInfo.Increment` | weak_ptr.hpp:115 | the count rises by exactly one, and the new observer is now among the block's handles |
| `WeakPointers.PtrInfo.Decrement` | weak_ptr.hpp:117-126 | a null reference is left alone; otherwise the count falls by one, the releasing handle leaves the block, and the block is deleted with the reference nulled exactly when the count reaches 0 (otherwise the reference is unchanged) |
| `WeakPointers.PtrInfo.IsNull` | weak_ptr.hpp:128 | on a valid block, true exactly when the anchor has cleared the pointer or the block was created for a null pointer |
| `WeakPointers.PtrInfo.GetPtr` | weak_ptr.hpp:130-134 | on a valid block, the pointer the block was created with until the anchor clears it and null from then on; null exactly when `IsNull` |
| `WeakPointers.PtrInfo.GetRefCount` | weak_ptr.hpp:136-139 | the count equals the number of handles bound to the block, and is positive when any handle is bound |
| `WeakPointers.WeakPtr.Default` | weak_ptr.hpp:18-22 | a default handle is empty (no block) |
| `WeakPointers.WeakPtr.FromInfo` | weak_ptr.hpp:24-27 | binds to the given block and adds one count, or stays empty (counting nothing) for null |
| `WeakPointers.WeakPtr.Copy` | weak_ptr.hpp:29-35 | the copy shares the source's block and adds one count; copying an empty handle counts nothing; the source stays valid |
| `WeakPointers.WeakPtr.Destroy` | weak_ptr.hpp:21 | releases the block exactly once: one count less, deleted and nulled exactly when the count reaches 0 |
| `WeakPointers.WeakPtr.Assign` | weak_ptr.hpp:37-46 | with distinct blocks the old one loses a count (and is deleted at 0), the new one gains a count, and the handle then references the source's block; with the same block, the count is unchanged, except that a handle that is its block's only observer, assigned to itself, ends up empty and the block is deleted |
| `WeakPointers.WeakPtr.Clear` | weak_ptr.hpp:48-52 | afterwards the handle is empty (`IsNull`, count 0), and the previous block lost exactly one count |
| `WeakPointers.WeakPtr.GetUpCast` | weak_ptr.hpp:54-59 | for a base class `u`, a new handle of type `u` on the same block sees the same object; one count is added and the source is unchanged |
| `WeakPointers.WeakPtr.GetDownCast` | weak_ptr.hpp:61-70 | the new handle shares the block (one count added) exactly when the live object is an instance of `u`; otherwise, including after the object died, it is empty and no count changes |
| `WeakPointers.WeakPtr.IsNull` | weak_ptr.hpp:72-75 | true exactly when there is no block or the block's pointer is null, i.e. the handle is not bound to a live object |
| `WeakPointers.WeakPtr.GetPtr` | weak_ptr.hpp:77-80 | null without a block, non-null exactly in the bound-and-alive state; on a valid bound handle it is the object the block was created for until the anchor clears it; on a valid handle the `T*` is null or really points to an instance of `T` |
| `WeakPointers.WeakPtr.GetRefCount` | weak_ptr.hpp:99-102 | 0 for an empty handle, otherwise the number of handles (this one included, so at least 1) sharing its block |
| `WeakPointers.WeakPtrController.constructor` | weak_ptr.hpp:158-160 | allocates a fresh live block for the object pointer, counted once by the anchor's own handle |
| `WeakPointers.WeakPtrController.Destroy` | weak_ptr.hpp:150-156 | the block's pointer becomes null (the block is marked cleared); only the member handle's own release touches the count (deleting the block only if that was the last count); every handle still on the block then reports null |
| `WeakPointers.WeakPtrController.GetWeakPtr` | weak_ptr.hpp:174 | a new handle on the anchor's block, seeing the same object, with one count added |
| `ClassTypes.DynamicCastSound` | weak_ptr.hpp:65 | the result of `dynamic_cast<U*>` is null or points to an instance of `U` and of every base of `U`, and casting it to `U` again changes nothing |
| `ClassTypes.BaseOfTransitive` | weak_ptr.hpp:57 | a base of a base is a base (`is_base_of` is transitive) |
| `ClassTypes.UpCastTyped` | weak_ptr.hpp:57-58 | a pointer to an instance of `T` is also a pointer to an instance of any base of `T` |
| `ClassTypes.UpThenDownCast` | weak_ptr.hpp:54-70 | up-casting a live `T` pointer and down-casting it back to `T` yields the same pointer |
| `Scenarios.ObserveThenOutlive` | weak_ptr.hpp:150-174 | handles from a live anchor and their up-casts see the object (count 3 with the anchor's own); after the object dies both report null (count 2), and destroying the last handle deletes the block |
| `Scenarios.DownCasts` | weak_ptr.hpp:54-70 | a down-cast to a class the object is not an instance of gives an empty handle and leaves the source and the count alone; up-cast then down-cast back sees the same object |
| `Scenarios.DownCastAfterDeath` | weak_ptr.hpp:61-70 | after the object dies a down-cast fails even to its own class, and the count is unchanged |
| `Scenarios.SelfAssignSoleObserver` | weak_ptr.hpp:37-46 | `h = h` on a handle that is the only observer of a live object leaves it null with count 0 |
| `Scenarios.SelfAssignSoleObserverCorrected` | weak_ptr.hpp:37-46 | with the corrected assignment the same program keeps the handle bound to the live object with count 1 |
| `Scenarios.AssignAcrossBlocks` | weak_ptr.hpp:37-46 | assigning a handle of object B to a handle of object A moves one count from A's block to B's |
| `WeakPointers.WeakPtr.AssignSameBlockSafe` | weak_ptr.hpp:37-46 | corrected assignment: afterwards the handle always references the source's block; with the same block nothing changes (self-assignment included), and with distinct blocks one count moves across |

## Left out

- Deleting memory (weak_ptr.hpp:123, 159): `delete` is the ghost flag `live` becoming false, and `new` is object allocation.
- `WeakPointers.WeakPtr.Destroy`: models only the release. The handle object itself stays allocated, and the C++ rule that a destroyed object is never used again is not represented.
- `operator*`, `operator->` and `operator T*` (weak_ptr.hpp:82-97): raw dereference guarded by `assert(!isNull())`, with nothing to model beyond `IsNull` and `GetPtr`.
- `getDownCastUnsafe` (weak_ptr.hpp:166-172): its body is incomplete and does not compile.
- The macros `DEFINE_WEAK_CONTROLLER` / `DEFINE_WEAK_GET` (weak_ptr.hpp:177-182): boilerplate; the second calls a function that does not exist.
- The defaulted copy constructor and copy assignment of `WeakPtrController` (weak_ptr.hpp:163-164): they copy or assign the member handle, which is `WeakPtr.Copy` and `WeakPtr.Assign`. The deleted default constructor (weak_ptr.hpp:162) has nothing to model.
- `reinterpret_cast` of `void*` (weak_ptr.hpp:133): the block stores the object itself (address plus dynamic type), and every typed pointer is taken to have the address of the untyped one. The model thus assumes that every base-class subobject sits at offset 0. C++ does not promise this even under single inheritance. With `struct B { int x; }; struct D : B { virtual ~D(); }`, the usual ABIs put `D`'s vtable pointer first and `B` after it. There, `getUpCast<B>()` on a handle from `WeakPtrController<D>` would make `getPtr` reinterpret `&d` as a `B*` at the wrong address. Address adjustment, and multiple inheritance, are not modelled.
- RTTI: `dynamic_cast` is a test of the object's class tag against single-inheritance ancestry chains. Non-polymorphic classes, where `dynamic_cast` would not compile, are not modelled.
- `static_assert(std::is_base_of…)` (weak_ptr.hpp:57, 64) is a compile-time check. The model turns it into a precondition of `GetUpCast` / `GetDownCast`.
- `size_t` wrap-around of `m_refCount`: the count is a `nat`. Under the modelled invariant `decrement` never runs on a count of 0, so it cannot wrap. Overflow past `SIZE_MAX` increments is not modelled.
- `WeakPointers.PtrInfo.Increment`: requires that the block is valid and live and that the handle being counted already refers to it and is not yet counted. This is ghost bookkeeping; every call in the header satisfies it. An increment with no new handle behind it is outside the model.
- `WeakPointers.PtrInfo.Decrement`: requires, for a non-null block, that it is live and that the releasing handle is counted. The header never releases a handle twice, and a second release would wrap the `size_t` count.
- Thread safety: there is none in the header, and the model is sequential.

## Findings

| source | as written | input that shows it | evidently intended | confidence | as-written member | corrected member |
|---|---|---|---|---|---|---|
| weak_ptr.hpp:37-46 | `operator=` releases the old block before reading `other.m_pPtrInfo`. On self-assignment `decrement` has already deleted the block and nulled that same field when the count was 1 | a handle that is the only observer of a block whose object is alive, assigned to itself (`Scenarios.SelfAssignSoleObserver`: before, not null; after, null with count 0 and the block deleted) | self-assignment leaves the handle bound and its count unchanged | medium, not executed | `WeakPointers.WeakPtr.Assign` | `WeakPointers.WeakPtr.AssignSameBlockSafe` |

The intended behaviour is the usual contract of C++ copy assignment: `x = x`
must leave `x` unchanged. The header's `operator=` breaks it when the count is
1. The defaulted `WeakPtrController::operator=` reaches the same path: `c = c`
with no outstanding handles empties the anchor while the object is alive. The corrected member skips the
release-and-reacquire when both handles already share a block.
`Scenarios.SelfAssignSoleObserverCorrected` shows it on the same input.
