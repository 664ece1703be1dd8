/** `rtc::ScopedCFTypeRef`: a single-slot owner of a CoreFoundation object.
    Every operation either retains (CFRetain) or releases (CFRelease) the
    objects it touches; the retain counts CoreFoundation keeps are modelled
    as a ghost map, so the accounting of each operation can be stated
    exactly. The template parameter T (a CoreFoundation pointer type) is
    erased to `CFTypeRef`. */
module CoreFoundation {

  /** A CoreFoundation object pointer; `NullRef` is nullptr. */
  datatype CFTypeRef = NullRef | Ref(id: nat)

  /** RETAIN: retain the object when taking ownership of it.
      ASSUME: the object was already retained on the wrapper's behalf. */
  datatype RetainPolicy = Retain | Assume

  /** The retain count of every object CoreFoundation knows about. */
  type RetainCounts = map<CFTypeRef, nat>

  function Count(counts: RetainCounts, p: CFTypeRef): nat {
    if p in counts then counts[p] else 0
  }

  /** p is null or an object that has not been freed. Retaining or
      releasing a freed object is a use after free. */
  predicate Live(counts: RetainCounts, p: CFTypeRef) {
    p != NullRef ==> Count(counts, p) >= 1
  }

  /** CFRetain(p): one more reference to p, no other count moves. The
      object must still be alive. */
  function Retained(counts: RetainCounts, p: CFTypeRef): (r: RetainCounts)
    requires p != NullRef && Live(counts, p)
    ensures Count(r, p) == Count(counts, p) + 1
    ensures forall q :: q != p ==> Count(r, q) == Count(counts, q)
  {
    counts[p := Count(counts, p) + 1]
  }

  /** CFRelease(p): one reference fewer. Releasing null, or an object whose
      count is already zero, crashes, so the caller must hold a reference. */
  function Released(counts: RetainCounts, p: CFTypeRef): (r: RetainCounts)
    requires p != NullRef && Count(counts, p) >= 1
    ensures Count(r, p) == Count(counts, p) - 1
    ensures forall q :: q != p ==> Count(r, q) == Count(counts, q)
  {
    counts[p := Count(counts, p) - 1]
  }

  /** The pointer a wrapper holds, together with the retain counts. */
  datatype World = World(held: CFTypeRef, counts: RetainCounts)

  /** The wrapper's object is alive: the wrapper owns a reference to it. */
  predicate OwnsHeld(w: World) {
    w.held != NullRef ==> Count(w.counts, w.held) >= 1
  }

  /** Under ASSUME the caller hands over a reference of its own to p, on top
      of the one the wrapper already owns when it holds p itself. */
  predicate CallerOwns(w: World, p: CFTypeRef) {
    p != NullRef ==> Count(w.counts, p) >= (if p == w.held then 2 else 1)
  }

  /** The references to q that belong to someone other than the wrapper. */
  function ExternalRefs(w: World, q: CFTypeRef): int {
    Count(w.counts, q) - (if q != NullRef && q == w.held then 1 else 0)
  }

  function Empty(counts: RetainCounts): World {
    World(NullRef, counts)
  }

  /** `ScopedCFTypeRef(ptr, policy)`: hold ptr, retaining it only when it is
      non-null and the policy is RETAIN. */
  function AfterConstruct(counts: RetainCounts, p: CFTypeRef, policy: RetainPolicy): (w: World)
    requires policy == Retain ==> Live(counts, p)
    ensures w.held == p
    ensures forall q ::
              Count(w.counts, q) ==
                Count(counts, q) + (if q == p && p != NullRef && policy == Retain then 1 else 0)
    ensures policy == Retain || CallerOwns(Empty(counts), p) ==> OwnsHeld(w)
  {
    World(p, if p != NullRef && policy == Retain then Retained(counts, p) else counts)
  }

  /** `reset(p, policy)`: retain p (non-null, RETAIN only), then release
      the old object (if non-null), then hold p. */
  function AfterReset(w: World, p: CFTypeRef, policy: RetainPolicy): (r: World)
    requires OwnsHeld(w) && (policy == Retain ==> Live(w.counts, p))
    ensures r.held == p
    ensures forall q ::
              Count(r.counts, q) ==
                Count(w.counts, q)
                + (if q == p && p != NullRef && policy == Retain then 1 else 0)
                - (if q == w.held && w.held != NullRef then 1 else 0)
    ensures policy == Retain || CallerOwns(w, p) ==> OwnsHeld(r)
  {
    var afterRetain := if p != NullRef && policy == Retain then Retained(w.counts, p) else w.counts;
    World(p, if w.held != NullRef then Released(afterRetain, w.held) else afterRetain)
  }

  /** `operator=(const T& rhs)`: release the old object (if non-null), then
      adopt rhs without retaining it. */
  function AfterAssign(w: World, rhs: CFTypeRef): (r: World)
    requires OwnsHeld(w)
    ensures r.held == rhs
    ensures forall q ::
              Count(r.counts, q) ==
                Count(w.counts, q) - (if q == w.held && w.held != NullRef then 1 else 0)
    ensures CallerOwns(w, rhs) ==> OwnsHeld(r)
  {
    World(rhs, if w.held != NullRef then Released(w.counts, w.held) else w.counts)
  }

  /** `release()`: give up the slot without touching any count. */
  function AfterRelease(w: World): (r: World)
    ensures r.held == NullRef
    ensures forall q :: Count(r.counts, q) == Count(w.counts, q)
  {
    Empty(w.counts)
  }

  /** The destructor: release the held object (if non-null). What remains
      is exactly the references other owners hold. */
  function AfterDestroy(w: World): (counts: RetainCounts)
    requires OwnsHeld(w)
    ensures forall q :: Count(counts, q) == ExternalRefs(w, q)
  {
    if w.held != NullRef then Released(w.counts, w.held) else w.counts
  }

  /** `operator=(const T&)` is `reset(rhs, ASSUME)`: the default policy. */
  lemma AssignIsResetAssume(w: World, rhs: CFTypeRef)
    requires OwnsHeld(w)
    ensures AfterAssign(w, rhs) == AfterReset(w, rhs, Assume)
  {
  }

  /** Resetting to the object already held, with RETAIN, changes nothing:
      the retain comes before the release, so the object never dies. */
  lemma ResetToHeldWithRetainIsNoOp(w: World)
    requires OwnsHeld(w) && w.held != NullRef
    ensures AfterReset(w, w.held, Retain) == w
  {
  }

  /** RETAIN moves no reference between the wrapper and anyone else. */
  lemma ResetRetainKeepsExternalRefs(w: World, p: CFTypeRef)
    requires OwnsHeld(w) && Live(w.counts, p)
    ensures forall q :: ExternalRefs(AfterReset(w, p, Retain), q) == ExternalRefs(w, q)
  {
  }

  /** ASSUME takes over exactly one of the caller's references to p. */
  lemma ResetAssumeTakesOverOneRef(w: World, p: CFTypeRef)
    requires OwnsHeld(w)
    ensures forall q ::
              ExternalRefs(AfterReset(w, p, Assume), q) ==
                ExternalRefs(w, q) - (if q == p && p != NullRef then 1 else 0)
  {
  }

  /** `release()` hands the wrapper's reference over to the caller. */
  lemma ReleaseHandsOverRef(w: World)
    ensures forall q ::
              ExternalRefs(AfterRelease(w), q) ==
                ExternalRefs(w, q) + (if q == w.held && q != NullRef then 1 else 0)
  {
  }

  /** Each pointer of ps is null or an object someone other than the
      wrapper owns a reference to (the wrapper it is copied from). */
  predicate OwnedElsewhere(w: World, ps: seq<CFTypeRef>) {
    forall i | 0 <= i < |ps| :: ps[i] != NullRef ==> ExternalRefs(w, ps[i]) >= 1
  }

  /** A wrapper reset, with RETAIN, to each pointer of ps in turn (as
      copy-assignment does). */
  function ResetRetainingAll(w: World, ps: seq<CFTypeRef>): (r: World)
    requires OwnsHeld(w) && OwnedElsewhere(w, ps)
    ensures OwnsHeld(r)
    ensures r.held == if ps == [] then w.held else ps[|ps| - 1]
    decreases |ps|
  {
    if ps == [] then w
    else
      ResetRetainKeepsExternalRefs(w, ps[0]);
      ResetRetainingAll(AfterReset(w, ps[0], Retain), ps[1..])
  }

  /** However many RETAIN resets a wrapper goes through, everybody else's
      references stay exactly as they were. */
  lemma {:induction false} RetainingResetsKeepExternalRefs(w: World, ps: seq<CFTypeRef>)
    requires OwnsHeld(w) && OwnedElsewhere(w, ps)
    ensures forall q :: ExternalRefs(ResetRetainingAll(w, ps), q) == ExternalRefs(w, q)
    decreases |ps|
  {
    if ps != [] {
      var w1 := AfterReset(w, ps[0], Retain);
      ResetRetainKeepsExternalRefs(w, ps[0]);
      RetainingResetsKeepExternalRefs(w1, ps[1..]);
    }
  }

  /** A scoped wrapper that starts empty, is reset with RETAIN any number of
      times, each time to a live object, and is then destroyed leaves every
      retain count as it found it: it neither leaks nor over-releases. */
  lemma {:induction false} RetainingScopeIsBalanced(counts: RetainCounts, ps: seq<CFTypeRef>)
    requires OwnedElsewhere(Empty(counts), ps)
    ensures forall q :: Count(AfterDestroy(ResetRetainingAll(Empty(counts), ps)), q) == Count(counts, q)
  {
    RetainingResetsKeepExternalRefs(Empty(counts), ps);
  }

  /** The copy constructor the compiler generates, the class declaring
      none: the copy holds the original's pointer and no count moves, so
      two wrappers now stand on the reference only one of them owns. Once
      the original is destroyed, a copy of a wrapper that held the only
      reference holds an object whose count is zero, and its own
      destructor would release it a second time. */
  lemma ImplicitCopyOverReleases(w: World)
    requires OwnsHeld(w) && w.held != NullRef && ExternalRefs(w, w.held) == 0
    ensures var copy := World(w.held, AfterDestroy(w));
            Count(copy.counts, copy.held) == 0 && !OwnsHeld(copy)
  {
  }

  /** A copy constructor that retains what it copies: the copy owns a
      reference of its own. */
  function AfterCopyConstruct(original: World): (copy: World)
    requires OwnsHeld(original)
    ensures copy.held == original.held
    ensures forall q :: ExternalRefs(copy, q) == Count(original.counts, q)
    ensures OwnsHeld(copy) && OwnsHeld(World(original.held, copy.counts))
  {
    AfterConstruct(original.counts, original.held, Retain)
  }

  /** With the retaining copy constructor, copying a wrapper and then
      destroying the copy and then the original leaves every other owner's
      references as they were. (The two hold the same pointer, so the other
      order of destruction moves the same counts.) */
  lemma CopyThenDestroyBothIsBalanced(w: World)
    requires OwnsHeld(w)
    ensures var copy := AfterCopyConstruct(w);
            var copyFirst := AfterDestroy(World(w.held, AfterDestroy(copy)));
            forall q :: Count(copyFirst, q) == ExternalRefs(w, q)
  {
  }

  /** CoreFoundation's reference counting, as ghost state. */
  class CFRuntime {
    ghost var counts: RetainCounts

    ghost method CFRetain(p: CFTypeRef)
      requires p != NullRef && Live(counts, p)
      modifies this
      ensures counts == Retained(old(counts), p)
    {
      counts := Retained(counts, p);
    }

    ghost method CFRelease(p: CFTypeRef)
      requires p != NullRef && Count(counts, p) >= 1
      modifies this
      ensures counts == Released(old(counts), p)
    {
      counts := Released(counts, p);
    }
  }

  class ScopedCFTypeRef {
    var ptr: CFTypeRef

    ghost function Model(rt: CFRuntime): World
      reads this, rt
    {
      World(ptr, rt.counts)
    }

    ghost predicate Valid(rt: CFRuntime)
      reads this, rt
    {
      OwnsHeld(Model(rt))
    }

    /** `ScopedCFTypeRef()`: holds null. */
    constructor ()
      ensures ptr == NullRef
    {
      ptr := NullRef;
    }

    /** `explicit ScopedCFTypeRef(T ptr)`: holds ptr, retains nothing; the
        caller hands over a reference it owns (ASSUME). */
    constructor Wrap(p: CFTypeRef, ghost rt: CFRuntime)
      ensures ptr == p
      ensures CallerOwns(Empty(rt.counts), p) ==> Valid(rt)
    {
      ptr := p;
    }

    /** `ScopedCFTypeRef(T ptr, RetainPolicy policy)`. */
    constructor WithPolicy(p: CFTypeRef, policy: RetainPolicy, ghost rt: CFRuntime)
      requires policy == Retain ==> Live(rt.counts, p)
      requires policy == Assume ==> CallerOwns(Empty(rt.counts), p)
      modifies rt
      ensures Model(rt) == AfterConstruct(old(rt.counts), p, policy)
      ensures Valid(rt)
    {
      ptr := p;
      new;
      if ptr != NullRef && policy == Retain {
        rt.CFRetain(ptr);
      }
    }

    /** `ScopedCFTypeRef(const ScopedCFTypeRef<T>&)`, retaining the copied
        object; the class as written has no such constructor (see
        `ImplicitCopyOverReleases`). */
    constructor Copy(other: ScopedCFTypeRef, ghost rt: CFRuntime)
      requires other.Valid(rt)
      modifies rt
      ensures Model(rt) == AfterCopyConstruct(old(other.Model(rt)))
      ensures ptr == other.ptr
      ensures Valid(rt) && other.Valid(rt)
    {
      ptr := other.ptr;
      new;
      if ptr != NullRef {
        rt.CFRetain(ptr);
      }
    }

    /** `~ScopedCFTypeRef()`. */
    method Destroy(ghost rt: CFRuntime)
      requires Valid(rt)
      modifies rt
      ensures rt.counts == AfterDestroy(old(Model(rt)))
    {
      if ptr != NullRef {
        rt.CFRelease(ptr);
      }
    }

    /** `get()` and `operator->()`. */
    function Get(): (p: CFTypeRef)
      reads this
      ensures p == ptr
    {
      ptr
    }

    /** `explicit operator bool()`: true when something is held. */
    function IsSet(): (b: bool)
      reads this
      ensures b <==> ptr != NullRef
    {
      ptr.Ref?
    }

    /** `operator!()`: the negation of `operator bool`. */
    function IsUnset(): (b: bool)
      reads this
      ensures b <==> !IsSet()
    {
      ptr == NullRef
    }

    /** `operator=(const T& rhs)`. */
    method Assign(rhs: CFTypeRef, ghost rt: CFRuntime)
      requires Valid(rt) && CallerOwns(Model(rt), rhs)
      modifies this, rt
      ensures Model(rt) == AfterAssign(old(Model(rt)), rhs)
      ensures Valid(rt)
    {
      if ptr != NullRef {
        rt.CFRelease(ptr);
      }
      ptr := rhs;
    }

    /** `operator=(const ScopedCFTypeRef<T>& rhs)`: `reset(rhs.get(), RETAIN)`.
        Afterwards both wrappers hold the same pointer. */
    method CopyAssign(other: ScopedCFTypeRef, ghost rt: CFRuntime)
      requires Valid(rt) && other.Valid(rt)
      modifies this, rt
      ensures Model(rt) == AfterReset(old(Model(rt)), old(other.ptr), Retain)
      ensures ptr == other.ptr == old(other.ptr)
      ensures Valid(rt) && other.Valid(rt)
    {
      Reset(other.Get(), rt, Retain);
    }

    /** `InitializeInto()`: hands out the slot to a create-style initializer,
        which stores a freshly created (+1) object there; `written` is what
        it stores. The slot must be empty. */
    method InitializeInto(written: CFTypeRef, ghost rt: CFRuntime)
      requires ptr == NullRef
      requires written != NullRef ==> Count(rt.counts, written) >= 1
      modifies this
      ensures Model(rt) == World(written, old(rt.counts))
      ensures Valid(rt)
    {
      ptr := written;
    }

    /** `reset(T ptr, RetainPolicy policy = ASSUME)`. */
    method Reset(p: CFTypeRef, ghost rt: CFRuntime, policy: RetainPolicy := Assume)
      requires Valid(rt)
      requires policy == Retain ==> Live(rt.counts, p)
      requires policy == Assume ==> CallerOwns(Model(rt), p)
      modifies this, rt
      ensures Model(rt) == AfterReset(old(Model(rt)), p, policy)
      ensures Valid(rt)
    {
      if p != NullRef && policy == Retain {
        rt.CFRetain(p);
      }
      if ptr != NullRef {
        rt.CFRelease(ptr);
      }
      ptr := p;
    }

    /** `release()`: returns the held pointer and forgets it; no count moves. */
    method Release() returns (p: CFTypeRef)
      modifies this
      ensures p == old(ptr) && ptr == NullRef
    {
      p := ptr;
      ptr := NullRef;
    }
  }

  /** `AdoptCF(cftype)`: a wrapper built with the RETAIN policy. */
  method AdoptCF(p: CFTypeRef, ghost rt: CFRuntime) returns (w: ScopedCFTypeRef)
    requires Live(rt.counts, p)
    modifies rt
    ensures fresh(w) && w.Model(rt) == AfterConstruct(old(rt.counts), p, Retain)
    ensures w.Valid(rt)
  {
    w := new ScopedCFTypeRef.WithPolicy(p, Retain, rt);
  }

  /** `ScopedCF(cftype)`: a wrapper that holds cftype without retaining it. */
  method ScopedCF(p: CFTypeRef, ghost rt: CFRuntime) returns (w: ScopedCFTypeRef)
    ensures fresh(w) && w.ptr == p
    ensures CallerOwns(Empty(rt.counts), p) ==> w.Valid(rt)
  {
    w := new ScopedCFTypeRef.Wrap(p, rt);
  }
}
