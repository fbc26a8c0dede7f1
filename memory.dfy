/**
 * `MemoryInfo`: the owner of one foreign memory-info handle. Construction
 * calls the foreign constructor through an out-pointer and keeps the handle
 * only on success; dropping releases the handle once and nulls the pointer.
 */
module Memory {
  import opened Prelude
  import opened Sys
  import opened Error

  class MemoryInfo {
    var ptr: MemoryInfoPtr
    var api: OrtApi

    /**
     * The wrapper holds a handle the library handed out and has not taken
     * back. Nothing stops two wrappers from holding one handle, but the first
     * drop takes it out of the live set, so the second fails this predicate:
     * a handle is released at most once.
     */
    ghost predicate Valid()
      reads this, api.runtime
    {
      ptr.Ptr? && api.runtime.Valid() && ptr.addr in api.runtime.live
    }

    /** The struct literal `Self { ptr, api: api.clone() }`. */
    constructor FromParts(ptr: MemoryInfoPtr, api: OrtApi)
      ensures this.ptr == ptr && this.api == api
    {
      this.ptr := ptr;
      this.api := api;
    }

    /**
     * `MemoryInfo::new(api, allocator, memory_type)`. The out-pointer starts
     * null and the arguments go to the foreign constructor unchanged. A failed
     * status becomes `CreateCpuMemoryInfo` of the translated API error, with
     * no wrapper and no release; a null status yields a wrapper owning the
     * fresh non-null handle and a copy of the table.
     */
    static method New(api: OrtApi, allocator: OrtAllocatorType, memoryType: OrtMemType, charPToString: Decoder)
      returns (r: Result<MemoryInfo, OrtError>)
      requires api.hasCreateCpuMemoryInfo && api.runtime.Valid()
      requires api.runtime.createFailure.Some? ==>
        Translatable(api, StatusFail(api.runtime.createFailure.value), charPToString)
      modifies api.runtime
      ensures api.runtime.Valid()
      ensures api.runtime.createLog == old(api.runtime.createLog) + [(allocator, memoryType, NullPtr)]
      ensures api.runtime.releaseLog == old(api.runtime.releaseLog)
      ensures api.runtime.createFailure == old(api.runtime.createFailure)
      ensures old(api.runtime.createFailure).Some? ==>
        && r == Err(CreateCpuMemoryInfo(StatusToResult(api, StatusFail(old(api.runtime.createFailure).value), charPToString).error))
        && api.runtime.issued == old(api.runtime.issued) && api.runtime.live == old(api.runtime.live)
      ensures old(api.runtime.createFailure).None? ==>
        && r.Ok? && fresh(r.value) && r.value.api == api && r.value.Valid()
        && r.value.ptr.addr !in old(api.runtime.issued)
        && api.runtime.issued == old(api.runtime.issued) + {r.value.ptr.addr}
        && api.runtime.live == old(api.runtime.live) + {r.value.ptr.addr}
    {
      var memoryInfoPtr := new PtrSlot(NullPtr);
      var status := api.runtime.CreateCpuMemoryInfo(allocator, memoryType, memoryInfoPtr);
      var translated := StatusToResult(api, status, charPToString);
      if translated.Err? {
        return Err(CreateCpuMemoryInfo(translated.error));
      }
      // `assert_ne!(memory_info_ptr, null_mut())`: the foreign contract rules out a null handle here.
      assert memoryInfoPtr.target != NullPtr;
      var info := new MemoryInfo.FromParts(memoryInfoPtr.target, api);
      return Ok(info);
    }

    /**
     * `Drop for MemoryInfo`: the pointer must be non-null; the handle is
     * released once, through the table, and the pointer is then null, so a
     * second drop cannot release it again.
     */
    method Drop()
      requires Valid() && api.hasReleaseMemoryInfo
      modifies this, api.runtime
      ensures ptr == NullPtr && api == old(api)
      ensures api.runtime.Valid()
      ensures api.runtime.releaseLog == old(api.runtime.releaseLog) + [old(ptr).addr]
      ensures multiset(api.runtime.releaseLog)[old(ptr).addr] == 1
      ensures api.runtime.live == old(api.runtime.live) - {old(ptr).addr}
      ensures api.runtime.issued == old(api.runtime.issued)
      ensures api.runtime.createLog == old(api.runtime.createLog)
      ensures api.runtime.createFailure == old(api.runtime.createFailure)
    {
      // `assert_ne!(self.ptr, null_mut())` is the `ptr.Ptr?` part of Valid().
      api.runtime.ReleaseMemoryInfo(ptr);
      ptr := NullPtr;
    }
  }

  /**
   * The crate's `memory_info_constructor_destructor` test: construct, unwrap
   * (the library is set up to succeed), drop. Exactly one release is issued,
   * for the handle the construction produced, and that handle is released
   * exactly once overall.
   */
  method ConstructThenDrop(api: OrtApi, allocator: OrtAllocatorType, memoryType: OrtMemType, charPToString: Decoder)
    returns (handle: nat)
    requires api.hasCreateCpuMemoryInfo && api.hasReleaseMemoryInfo
    requires api.runtime.Valid() && api.runtime.createFailure.None?
    modifies api.runtime
    ensures api.runtime.Valid()
    ensures handle !in old(api.runtime.issued)
    ensures api.runtime.releaseLog == old(api.runtime.releaseLog) + [handle]
    ensures multiset(api.runtime.releaseLog)[handle] == 1
    ensures api.runtime.live == old(api.runtime.live)
    ensures api.runtime.issued == old(api.runtime.issued) + {handle}
    ensures api.runtime.createLog == old(api.runtime.createLog) + [(allocator, memoryType, NullPtr)]
    ensures api.runtime.createFailure == old(api.runtime.createFailure)
  {
    var r := MemoryInfo.New(api, allocator, memoryType, charPToString);
    var info := r.value;
    handle := info.ptr.addr;
    info.Drop();
  }

  /**
   * After the rounds that obtained `handles`, compared with the library state
   * `log0`/`issued0`/`live0`/`create0` before them: each round logged one
   * create call with a null out-pointer and released only its own new handle,
   * exactly once.
   */
  ghost predicate RoundsDone(rt: OrtRuntime, log0: seq<nat>, issued0: set<nat>, live0: set<nat>,
                             create0: seq<(OrtAllocatorType, OrtMemType, MemoryInfoPtr)>,
                             allocator: OrtAllocatorType, memoryType: OrtMemType, handles: seq<nat>)
    reads rt
  {
    && rt.Valid()
    && rt.releaseLog == log0 + handles
    && (forall k :: 0 <= k < |handles| ==>
          handles[k] !in issued0 && handles[k] in rt.issued && multiset(rt.releaseLog)[handles[k]] == 1)
    && rt.issued == issued0 + Elements(handles)
    && rt.live == live0
    && rt.createLog == create0 + NullCreates(allocator, memoryType, |handles|)
  }

  /** One more round keeps `RoundsDone`, with the round's handle appended. */
  method NextRound(api: OrtApi, allocator: OrtAllocatorType, memoryType: OrtMemType, charPToString: Decoder,
                   ghost log0: seq<nat>, ghost issued0: set<nat>, ghost live0: set<nat>,
                   ghost create0: seq<(OrtAllocatorType, OrtMemType, MemoryInfoPtr)>, ghost handles: seq<nat>)
    returns (h: nat)
    requires api.hasCreateCpuMemoryInfo && api.hasReleaseMemoryInfo && api.runtime.createFailure.None?
    requires RoundsDone(api.runtime, log0, issued0, live0, create0, allocator, memoryType, handles)
    modifies api.runtime
    ensures api.runtime.createFailure == old(api.runtime.createFailure)
    ensures RoundsDone(api.runtime, log0, issued0, live0, create0, allocator, memoryType, handles + [h])
  {
    ghost var log1, issued1 := api.runtime.releaseLog, api.runtime.issued;
    h := ConstructThenDrop(api, allocator, memoryType, charPToString);
    forall k | 0 <= k < |handles|
      ensures multiset(api.runtime.releaseLog)[handles[k]] == 1
    {
      assert handles[k] in issued1;
      AppendKeepsCount(log1, h, handles[k]);
    }
    ElementsGrow(handles, h);
    NullCreatesGrow(allocator, memoryType, |handles|);
    assert log0 + (handles + [h]) == log1 + [h];
  }

  /**
   * Construction and destruction are repeatable: `n` rounds of the test issue
   * `n` create calls with a null out-pointer and `n` releases, each for a
   * distinct handle the round itself obtained, each released exactly once;
   * the handles alive before are untouched.
   */
  method RepeatConstructThenDrop(api: OrtApi, allocator: OrtAllocatorType, memoryType: OrtMemType,
                                 charPToString: Decoder, n: nat)
    returns (handles: seq<nat>)
    requires api.hasCreateCpuMemoryInfo && api.hasReleaseMemoryInfo
    requires api.runtime.Valid() && api.runtime.createFailure.None?
    modifies api.runtime
    ensures api.runtime.Valid()
    ensures api.runtime.createFailure == old(api.runtime.createFailure)
    ensures |handles| == n
    ensures api.runtime.releaseLog == old(api.runtime.releaseLog) + handles
    ensures forall k :: 0 <= k < n ==>
      handles[k] !in old(api.runtime.issued) && multiset(api.runtime.releaseLog)[handles[k]] == 1
    ensures api.runtime.issued == old(api.runtime.issued) + Elements(handles)
    ensures api.runtime.live == old(api.runtime.live)
    ensures api.runtime.createLog == old(api.runtime.createLog) + NullCreates(allocator, memoryType, n)
  {
    ghost var log0, issued0 := api.runtime.releaseLog, api.runtime.issued;
    ghost var live0, create0 := api.runtime.live, api.runtime.createLog;
    handles := [];
    assert log0 + handles == log0;
    assert Elements(handles) == {};
    assert create0 + NullCreates(allocator, memoryType, 0) == create0;
    var i := 0;
    while i < n
      invariant 0 <= i <= n && |handles| == i
      invariant api.runtime.createFailure == old(api.runtime.createFailure)
      invariant RoundsDone(api.runtime, log0, issued0, live0, create0, allocator, memoryType, handles)
    {
      var h := NextRound(api, allocator, memoryType, charPToString, log0, issued0, live0, create0, handles);
      handles := handles + [h];
      i := i + 1;
    }
  }

  lemma AppendKeepsCount(log: seq<nat>, h: nat, x: nat)
    requires x != h
    ensures multiset(log + [h])[x] == multiset(log)[x]
  {
  }

  function Elements(s: seq<nat>): set<nat>
  {
    set x | x in s
  }

  lemma ElementsGrow(s: seq<nat>, h: nat)
    ensures Elements(s + [h]) == Elements(s) + {h}
  {
  }

  /** The create calls of `n` rounds, each with a null out-pointer. */
  function NullCreates(allocator: OrtAllocatorType, memoryType: OrtMemType, n: nat)
    : seq<(OrtAllocatorType, OrtMemType, MemoryInfoPtr)>
  {
    seq(n, _ => (allocator, memoryType, NullPtr))
  }

  lemma NullCreatesGrow(allocator: OrtAllocatorType, memoryType: OrtMemType, n: nat)
    ensures NullCreates(allocator, memoryType, n + 1) == NullCreates(allocator, memoryType, n) + [(allocator, memoryType, NullPtr)]
  {
  }
}
