/** A handle on one dma-buf heap. It owns a descriptor obtained by duplicating
    the one it was given, reads the page size once when it is created, and
    allocates through the heap ioctl on the descriptor it owns. */
module DmabufHeap {

  import opened KernelInterface
  import opened AllocatorInterface
  import opened DmabufHeapIoctl
  import AllocationSize

  const O_RDWR: bv32 := 0x02
  const O_CLOEXEC: bv32 := 0x80000

  /** Descriptor flags of every dma-buf the heap hands out: read-write, closed on exec. */
  const HEAP_FD_FLAGS: int := (O_RDWR | O_CLOEXEC) as int
  const HEAP_FLAGS: int := 0

  /** The allocation's answer once the heap ioctl has answered. */
  function AllocateResultFromIoctl(r: HeapIoctlAllocateResult): (a: AllocateResult)
    ensures a.Allocated? <==> r.HeapIoctlAllocated?
    ensures r.HeapIoctlAllocated? ==> a.dmabufFd == r.dmabufFd
    ensures r.HeapIoctlFailed? ==> a.error == HeapAllocationFailed(r.errno)
  {
    match r
    case HeapIoctlAllocated(fd) => Allocated(fd)
    case HeapIoctlFailed(errno) => AllocateFailed(HeapAllocationFailed(errno))
  }

  /** What the kernel's answer to a dup makes of the handle's caller: a failing
      dup throws. */
  function DupOutcome(reply: FdReply): (r: Outcome<Fd>)
    ensures r.Returned? <==> reply.FdOk?
    ensures reply.FdOk? ==> r.value == reply.fd
    ensures reply.FdErr? ==> r.exception == DupFailed(reply.errno)
  {
    match reply
    case FdOk(fd) => Returned(fd)
    case FdErr(errno) => Threw(DupFailed(errno))
  }

  class DmabufHeap {
    const kernel: Kernel
    /** The descriptor this handle owns. */
    const dmabufHeapFd: Fd
    /** The page size read when the handle was created. */
    const pageSize: PageSize

    constructor (kernel: Kernel, dmabufHeapFd: Fd, pageSize: PageSize)
      ensures this.kernel == kernel && this.dmabufHeapFd == dmabufHeapFd && this.pageSize == pageSize
    {
      this.kernel := kernel;
      this.dmabufHeapFd := dmabufHeapFd;
      this.pageSize := pageSize;
    }

    /** The size to request for at least `minimumSize` bytes: the least multiple
        of the handle's page size not below it. */
    function DetermineOptimalAllocationSize(minimumSize: int): (size: int)
      ensures size % pageSize == 0 && minimumSize <= size < minimumSize + pageSize
    {
      AllocationSize.DetermineOptimalAllocationSize(minimumSize, pageSize)
    }

    /** One heap ioctl on the owned descriptor for `size` bytes, with the
        dma-buf opened read-write and close-on-exec and no heap flags. */
    method Allocate(size: int) returns (r: AllocateResult)
      requires kernel.Valid()
      modifies kernel
      ensures kernel.Valid() && kernel.openFds == old(kernel.openFds)
      ensures |kernel.log| == |old(kernel.log)| + 1 && old(kernel.log) <= kernel.log
      ensures var call := kernel.log[|old(kernel.log)|];
              && IsAllocationIoctl(call, kernel.endianness, dmabufHeapFd, size, HEAP_FD_FLAGS, HEAP_FLAGS)
              && r == AllocateResultFromIoctl(AllocateResultOf(kernel.endianness, call))
    {
      var ioctlResult := DmabufHeapIoctlAllocate(kernel, dmabufHeapFd, size, HEAP_FD_FLAGS, HEAP_FLAGS);
      if ioctlResult.HeapIoctlFailed? {
        return AllocateFailed(HeapAllocationFailed(ioctlResult.errno));
      }
      return Allocated(ioctlResult.dmabufFd);
    }

    /** A new duplicate of the owned descriptor, which stays as it is. */
    method DupHeapFd() returns (r: Outcome<Fd>)
      requires kernel.Valid()
      modifies kernel
      ensures kernel.Valid()
      ensures |kernel.log| == |old(kernel.log)| + 1 && old(kernel.log) <= kernel.log
      ensures var call := kernel.log[|old(kernel.log)|];
              call.DupCall? && call.fd == dmabufHeapFd && r == DupOutcome(call.fdReply)
      ensures r.Returned? ==> r.value !in old(kernel.openFds) && kernel.openFds == old(kernel.openFds) + {r.value}
      ensures r.Threw? ==> kernel.openFds == old(kernel.openFds)
    {
      var reply := kernel.Dup(dmabufHeapFd);
      r := DupOutcome(reply);
    }

    /** Closes the owned descriptor, once per call. */
    method Close()
      requires kernel.Valid()
      modifies kernel
      ensures kernel.Valid()
      ensures kernel.log == old(kernel.log) + [CloseCall(dmabufHeapFd)]
      ensures kernel.openFds == old(kernel.openFds) - {dmabufHeapFd}
    {
      kernel.Close(dmabufHeapFd);
    }
  }

  /** The calls creating a handle from `providedFd` makes, and what it yields:
      one dup of `providedFd`, then, if that succeeded, one page size query; the
      handle owns the duplicate and keeps the page size. */
  ghost predicate HeapConstructionRun(providedFd: Fd, trace: seq<Call>, r: Outcome<DmabufHeap>)
  {
    && |trace| >= 1
    && trace[0].DupCall?
    && trace[0].fd == providedFd
    && match trace[0].fdReply
       case FdErr(errno) => trace == [trace[0]] && r == Threw(DupFailed(errno))
       case FdOk(fd) =>
         && |trace| == 2
         && trace[1].PageSizeCall?
         && r.Returned?
         && r.value.dmabufHeapFd == fd
         && r.value.pageSize == trace[1].pageSize
  }

  /** Creates a handle that owns a duplicate of `providedFd`; `providedFd`
      itself is left open. */
  method OpenDmabufHeapAllocatorByDuppingFd(kernel: Kernel, providedFd: Fd) returns (r: Outcome<DmabufHeap>)
    requires kernel.Valid()
    modifies kernel
    ensures kernel.Valid() && old(kernel.log) <= kernel.log
    ensures HeapConstructionRun(providedFd, kernel.log[|old(kernel.log)|..], r)
    ensures CloseCount(kernel.log[|old(kernel.log)|..], providedFd) == 0
    ensures r.Returned? ==> fresh(r.value) && r.value.kernel == kernel
    ensures r.Returned? ==> r.value.dmabufHeapFd !in old(kernel.openFds)
                            && kernel.openFds == old(kernel.openFds) + {r.value.dmabufHeapFd}
    ensures r.Threw? ==> kernel.openFds == old(kernel.openFds)
  {
    ghost var before := kernel.log;
    var reply := kernel.Dup(providedFd);
    if reply.FdErr? {
      r := Threw(DupFailed(reply.errno));
      assert kernel.log[|before|..] == [DupCall(providedFd, reply)];
      return;
    }
    var pageSize := kernel.DeterminePageSize();
    var heap := new DmabufHeap(kernel, reply.fd, pageSize);
    r := Returned(heap);
    assert kernel.log[|before|..] == [DupCall(providedFd, reply), PageSizeCall(pageSize)];
  }
}
