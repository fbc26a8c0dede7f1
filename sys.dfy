/**
 * The foreign inference library as the safety layer sees it: the status
 * convention of its C API, the dispatch table of function pointers, and the
 * library state the memory-info entry points act on.
 */
module Sys {
  import opened Prelude

  /** The bytes of a NUL-terminated C string, without the terminator. */
  type CString = seq<byte>

  /**
   * `*const OrtStatus`: null means the call succeeded; a non-null status owns
   * the failure message that `GetErrorMessage` hands out.
   */
  datatype OrtStatus = StatusNull | StatusFail(message: CString)

  /**
   * `*mut OrtMemoryInfo`: null, or the identity of one memory-info
   * allocation (not its address, which the library may reuse after a release).
   */
  datatype MemoryInfoPtr = NullPtr | Ptr(addr: nat)

  /** The C enumerations `OrtAllocatorType` and `OrtMemType`, as the integers they are. */
  newtype OrtAllocatorType = int
  newtype OrtMemType = int

  /**
   * `OrtApi`: the dispatch table. Each entry point the core uses is an
   * optional function pointer, present or not; all of them act on the one
   * library state `runtime`. Copying the table copies the reference.
   */
  datatype OrtApi = OrtApi(
    runtime: OrtRuntime,
    hasGetErrorMessage: bool,
    hasCreateCpuMemoryInfo: bool,
    hasReleaseMemoryInfo: bool)

  /** `GetErrorMessage`: the message a failed status carries. */
  function GetErrorMessage(status: OrtStatus): (raw: CString)
    requires status.StatusFail?
    ensures status == StatusFail(raw)
  {
    status.message
  }

  /** The location a caller passes as `&mut ptr` to an out-pointer entry point. */
  class PtrSlot {
    var target: MemoryInfoPtr

    constructor (initial: MemoryInfoPtr)
      ensures target == initial
    {
      target := initial;
    }
  }

  /**
   * The state of the foreign library behind the memory-info entry points.
   * Whether `CreateCpuMemoryInfo` fails is set by `createFailure` (the
   * message it reports, or None for success); each allocation gets a new
   * identity, never one handed out before.
   * The ghost logs record every call, in order.
   */
  class OrtRuntime {
    var createFailure: Option<CString>
    var nextAddr: nat
    ghost var issued: set<nat>
    ghost var live: set<nat>
    ghost var createLog: seq<(OrtAllocatorType, OrtMemType, MemoryInfoPtr)>
    ghost var releaseLog: seq<nat>

    /**
     * Every handle handed out is below `nextAddr`; a live handle has never
     * been released, and every other handle handed out has been released
     * exactly once; nothing else is ever released.
     */
    ghost predicate Valid()
      reads this
    {
      && live <= issued
      && (forall a :: a in issued ==> a < nextAddr)
      && (forall a :: a in live ==> multiset(releaseLog)[a] == 0)
      && (forall a :: a in issued && a !in live ==> multiset(releaseLog)[a] == 1)
      && (forall a :: a in releaseLog ==> a in issued)
    }

    constructor (createFailure: Option<CString>)
      ensures Valid()
      ensures this.createFailure == createFailure
      ensures issued == {} && live == {} && createLog == [] && releaseLog == []
    {
      this.createFailure := createFailure;
      nextAddr := 1;
      issued, live := {}, {};
      createLog, releaseLog := [], [];
    }

    /**
     * `CreateCpuMemoryInfo(allocator, memory_type, out)`. Each call is logged
     * with both enumeration values and the handle `out` held when the call
     * received it. On success the status is null and `out` holds a fresh non-null handle; on failure the
     * status carries the message and `out` is left as it was.
     */
    method CreateCpuMemoryInfo(allocator: OrtAllocatorType, memoryType: OrtMemType, out: PtrSlot)
      returns (status: OrtStatus)
      requires Valid()
      modifies this, out
      ensures Valid()
      ensures createFailure == old(createFailure) && releaseLog == old(releaseLog)
      ensures createLog == old(createLog) + [(allocator, memoryType, old(out.target))]
      ensures old(createFailure).None? ==>
        && status == StatusNull
        && out.target.Ptr? && out.target.addr !in old(issued)
        && issued == old(issued) + {out.target.addr}
        && live == old(live) + {out.target.addr}
      ensures old(createFailure).Some? ==>
        && status == StatusFail(old(createFailure).value)
        && out.target == old(out.target)
        && issued == old(issued) && live == old(live)
    {
      createLog := createLog + [(allocator, memoryType, out.target)];
      match createFailure
      case Some(message) =>
        status := StatusFail(message);
      case None =>
        out.target := Ptr(nextAddr);
        issued := issued + {nextAddr};
        live := live + {nextAddr};
        nextAddr := nextAddr + 1;
        status := StatusNull;
    }

    /** `ReleaseMemoryInfo(ptr)`: gives back a live handle; it is never live again. */
    method ReleaseMemoryInfo(ptr: MemoryInfoPtr)
      requires Valid() && ptr.Ptr? && ptr.addr in live
      modifies this
      ensures Valid()
      ensures releaseLog == old(releaseLog) + [ptr.addr]
      ensures live == old(live) - {ptr.addr}
      ensures issued == old(issued) && createLog == old(createLog)
      ensures createFailure == old(createFailure) && nextAddr == old(nextAddr)
    {
      releaseLog := releaseLog + [ptr.addr];
      live := live - {ptr.addr};
    }
  }
}
