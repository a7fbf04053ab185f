/** The udmabuf allocator: every allocation creates an anonymous memory file,
    sizes it and seals it against shrinking, binds it to a new dma-buf through
    the udmabuf device, and closes the memory file again, whatever happened. */
module UdmabufAllocator {

  import opened EndianBuffer
  import opened KernelInterface
  import opened AllocatorInterface
  import AllocationSize

  const UDMABUF_FLAGS_CLOEXEC: int := ((1 as bv32) << 0) as int
  const UDMABUF_CREATE: int := 0x40187542

  const F_ADD_SEALS: int := 1033
  const F_SEAL_SHRINK: int := 0x0002
  const MFD_ALLOW_SEALING: int := 0x0002

  /** The name every allocation's memory file is created with. */
  const MEMFD_NAME: string := "dmabuf_alloc"

  /** Layout of the udmabuf create request: memfd u32, flags u32, offset u64,
      size u64. */
  const UDMABUF_CREATE_SIZE: nat := 24
  const MEMFD_OFFSET: nat := 0
  const FLAGS_OFFSET: nat := 4
  const OFFSET_OFFSET: nat := 8
  const SIZE_OFFSET: nat := 16

  /** Whether `value` is accepted by the runtime's range-checked unsigned
      write of `width` bytes; anything else makes the write throw. */
  predicate FitsUnsigned(value: int, width: nat)
  {
    0 <= value < Pow256(width)
  }

  /** The create request binding all of `memfd`, from offset 0 and `size`
      bytes long, closed on exec; always little-endian. */
  function UdmabufCreateStruct(memfd: int, size: int): (data: seq<u8>)
    requires FitsUnsigned(memfd, U32) && FitsUnsigned(size, U64)
    ensures |data| == UDMABUF_CREATE_SIZE
  {
    Encode(LE, memfd, U32) + Encode(LE, UDMABUF_FLAGS_CLOEXEC, U32) + Encode(LE, 0, U64) + Encode(LE, size, U64)
  }

  /** Reading each field of the request back gives what was put in. */
  lemma UdmabufCreateStructFields(memfd: int, size: int)
    requires FitsUnsigned(memfd, U32) && FitsUnsigned(size, U64)
    ensures var data := UdmabufCreateStruct(memfd, size);
            && Read(LE, data, MEMFD_OFFSET, U32) == memfd
            && Read(LE, data, FLAGS_OFFSET, U32) == UDMABUF_FLAGS_CLOEXEC
            && Read(LE, data, OFFSET_OFFSET, U64) == 0
            && Read(LE, data, SIZE_OFFSET, U64) == size
  {
    var data := UdmabufCreateStruct(memfd, size);
    assert data[0..4] == Encode(LE, memfd, U32);
    assert data[4..8] == Encode(LE, UDMABUF_FLAGS_CLOEXEC, U32);
    assert data[8..16] == Encode(LE, 0, U64);
    assert data[16..24] == Encode(LE, size, U64);
    EncodeDecode(LE, memfd, U32);
    EncodeDecode(LE, UDMABUF_FLAGS_CLOEXEC, U32);
    EncodeDecode(LE, 0, U64);
    EncodeDecode(LE, size, U64);
  }

  /** The request does not follow the kernel's byte order: read big-endian,
      the memfd field of memfd 1 is 2^24. */
  lemma UdmabufCreateStructIsLittleEndianOnly()
    ensures Read(BE, UdmabufCreateStruct(1, 4096), MEMFD_OFFSET, U32) == 0x100_0000
  {
    var data := UdmabufCreateStruct(1, 4096);
    assert data[0..4] == Encode(LE, 1, U32);
    MemfdOneBytes();
    DecodeEncode(BE, [1, 0, 0, 0]);
    EncodeDecode(BE, 0x100_0000, U32);
  }

  /** Memfd 1 little-endian and 2^24 big-endian have the same four bytes. */
  lemma MemfdOneBytes()
    ensures Encode(LE, 1, U32) == [1, 0, 0, 0]
    ensures Encode(BE, 0x100_0000, U32) == [1, 0, 0, 0]
  {
    assert LeBytes(0, 1) == [0];
    assert LeBytes(0, 2) == [0, 0];
    assert LeBytes(0, 3) == [0, 0, 0];
    assert BeBytes(1, 1) == [1];
    assert BeBytes(0x100, 2) == [1, 0];
    assert BeBytes(0x1_0000, 3) == [1, 0, 0];
  }

  /** Fills a fresh zeroed 24-byte buffer field by field, little-endian. */
  method FormatUdmabufCreateStruct(memfd: int, size: int) returns (data: array<u8>)
    requires FitsUnsigned(memfd, U32) && FitsUnsigned(size, U64)
    ensures fresh(data) && data[..] == UdmabufCreateStruct(memfd, size)
  {
    data := new u8[UDMABUF_CREATE_SIZE](_ => 0);
    var view := new EndianBufferView(data, LE);
    view.WriteU32(MEMFD_OFFSET, memfd);
    ghost var memfdField := data[0..4];
    view.WriteU32(FLAGS_OFFSET, UDMABUF_FLAGS_CLOEXEC);
    assert data[0..4] == memfdField;
    ghost var flagsField := data[4..8];
    view.WriteU64(OFFSET_OFFSET, 0);
    assert data[0..4] == memfdField && data[4..8] == flagsField;
    ghost var offsetField := data[8..16];
    view.WriteU64(SIZE_OFFSET, size);
    assert data[0..4] == memfdField && data[4..8] == flagsField && data[8..16] == offsetField;
    assert Pow256(U32) == 0x1_0000_0000;
    assert UDMABUF_FLAGS_CLOEXEC % Pow256(U32) == UDMABUF_FLAGS_CLOEXEC;
    assert 0 % Pow256(U64) == 0;
    assert memfd % Pow256(U32) == memfd;
    assert size % Pow256(U64) == size;
    assert data[..] == data[0..4] + data[4..8] + data[8..16] + data[16..24];
  }

  datatype UdmabufCreateResult = UdmabufCreated(dmabufFd: Fd) | UdmabufCreateFailed(errno: Errno)

  /** The create request's answer: the errno unchanged, or the ioctl's return
      value as the new dma-buf's descriptor. */
  function UdmabufCreateResultOf(reply: IoctlReply): (r: UdmabufCreateResult)
    ensures r.UdmabufCreateFailed? <==> reply.IoctlErr?
    ensures reply.IoctlErr? ==> r.errno == reply.errno
    ensures reply.IoctlOk? ==> r.dmabufFd == reply.ret
  {
    match reply
    case IoctlErr(errno) => UdmabufCreateFailed(errno)
    case IoctlOk(ret) => UdmabufCreated(ret)
  }

  /** The calls of one create request, and what it yields: a memfd or size out
      of the fields' range throws before any call; otherwise one ioctl on the
      udmabuf device carrying the request. */
  ghost predicate UdmabufCreateRun(udmabufFd: Fd, memfd: Fd, size: int, trace: seq<Call>, r: Outcome<UdmabufCreateResult>)
  {
    if !(FitsUnsigned(memfd, U32) && FitsUnsigned(size, U64)) then
      trace == [] && r == Threw(ValueOutOfRange)
    else
      && |trace| == 1
      && trace[0].IoctlCall?
      && trace[0].fd == udmabufFd
      && trace[0].request == UDMABUF_CREATE
      && trace[0].argIn == UdmabufCreateStruct(memfd, size)
      && r == Returned(UdmabufCreateResultOf(trace[0].ioctlReply))
  }

  method UdmabufCreate(kernel: Kernel, udmabufFd: Fd, memfd: Fd, size: int) returns (r: Outcome<UdmabufCreateResult>)
    requires kernel.Valid()
    modifies kernel
    ensures kernel.Valid() && kernel.openFds == old(kernel.openFds) && old(kernel.log) <= kernel.log
    ensures UdmabufCreateRun(udmabufFd, memfd, size, kernel.log[|old(kernel.log)|..], r)
  {
    if !FitsUnsigned(memfd, U32) || !FitsUnsigned(size, U64) {
      assert kernel.log[|old(kernel.log)|..] == [];
      return Threw(ValueOutOfRange);
    }
    var udmabufCreateStruct := FormatUdmabufCreateStruct(memfd, size);
    var reply := kernel.Ioctl(udmabufFd, UDMABUF_CREATE, udmabufCreateStruct);
    if reply.IoctlErr? {
      r := Returned(UdmabufCreateFailed(reply.errno));
    } else {
      r := Returned(UdmabufCreated(reply.ret));
    }
    assert kernel.log[|old(kernel.log)|..] == [kernel.log[|old(kernel.log)|]];
  }

  /** The calls of sizing and sealing `memfd`, and what it yields: one
      ftruncate, whose failure throws; then one fcntl adding the shrink seal,
      whose failure throws with its errno. */
  ghost predicate TruncateAndSealRun(memfd: Fd, size: int, trace: seq<Call>, r: Outcome<()>)
  {
    && |trace| >= 1
    && trace[0].FtruncateCall? && trace[0].fd == memfd && trace[0].length == size
    && match trace[0].truncateReply
       case TruncateError(error) => trace == [trace[0]] && r == Threw(TruncateFailed(error))
       case Truncated =>
         && |trace| == 2
         && trace[1].FcntlCall? && trace[1].fd == memfd && trace[1].cmd == F_ADD_SEALS && trace[1].arg == F_SEAL_SHRINK
         && match trace[1].fcntlReply
            case FcntlErr(errno) => r == Threw(SealFailed(errno))
            case FcntlOk => r == Returned(())
  }

  method TruncateAndSealMemfd(kernel: Kernel, memfd: Fd, size: int) returns (r: Outcome<()>)
    requires kernel.Valid()
    modifies kernel
    ensures kernel.Valid() && kernel.openFds == old(kernel.openFds) && old(kernel.log) <= kernel.log
    ensures TruncateAndSealRun(memfd, size, kernel.log[|old(kernel.log)|..], r)
  {
    ghost var before := kernel.log;
    var truncated := kernel.Ftruncate(memfd, size);
    if truncated.TruncateError? {
      assert kernel.log[|before|..] == [FtruncateCall(memfd, size, truncated)];
      return Threw(TruncateFailed(truncated.error));
    }
    var sealed := kernel.Fcntl(memfd, F_ADD_SEALS, F_SEAL_SHRINK);
    assert kernel.log[|before|..] == [FtruncateCall(memfd, size, truncated), FcntlCall(memfd, F_ADD_SEALS, F_SEAL_SHRINK, sealed)];
    if sealed.FcntlErr? {
      return Threw(SealFailed(sealed.errno));
    }
    return Returned(());
  }

  /** The allocation's answer once the create request has answered. */
  function AllocateResultOfCreate(created: UdmabufCreateResult): (a: AllocateResult)
    ensures a.Allocated? <==> created.UdmabufCreated?
    ensures created.UdmabufCreated? ==> a.dmabufFd == created.dmabufFd
    ensures created.UdmabufCreateFailed? ==> a.error == BufferBindFailed(created.errno)
  {
    match created
    case UdmabufCreated(fd) => Allocated(fd)
    case UdmabufCreateFailed(errno) => AllocateFailed(BufferBindFailed(errno))
  }

  /** The calls of one allocation of `size` bytes, and what it yields:
      a size that is not positive or not a whole number of pages throws before
      any call; a failing memfd_create is reported with its errno and nothing
      else happens; otherwise the memory file is sized and sealed, then bound,
      stopping at the first step that throws, and closed as the last call. */
  ghost predicate AllocateRun(udmabufFd: Fd, pageSize: PageSize, size: int, trace: seq<Call>, r: Outcome<AllocateResult>)
  {
    if size <= 0 then trace == [] && r == Threw(SizeNotPositive)
    else if size % pageSize != 0 then trace == [] && r == Threw(SizeNotPageMultiple(pageSize))
    else
      && |trace| >= 1
      && trace[0].MemfdCreateCall? && trace[0].name == MEMFD_NAME && trace[0].flags == MFD_ALLOW_SEALING
      && match trace[0].fdReply
         case FdErr(errno) => trace == [trace[0]] && r == Returned(AllocateFailed(MemfdCreateFailed(errno)))
         case FdOk(memfd) =>
           && |trace| >= 2
           && trace[|trace| - 1] == CloseCall(memfd)
           && BindRun(udmabufFd, memfd, size, trace[1..|trace| - 1], r)
  }

  /** The calls between creating and closing the memory file: the steps of
      sizing and sealing, then those of the create request. */
  ghost predicate BindRun(udmabufFd: Fd, memfd: Fd, size: int, body: seq<Call>, r: Outcome<AllocateResult>)
  {
    && |body| >= 1
    && body[0].FtruncateCall? && body[0].fd == memfd && body[0].length == size
    && match body[0].truncateReply
       case TruncateError(error) => |body| == 1 && r == Threw(TruncateFailed(error))
       case Truncated =>
         && |body| >= 2
         && body[1].FcntlCall? && body[1].fd == memfd && body[1].cmd == F_ADD_SEALS && body[1].arg == F_SEAL_SHRINK
         && match body[1].fcntlReply
            case FcntlErr(errno) => |body| == 2 && r == Threw(SealFailed(errno))
            case FcntlOk =>
              if !(FitsUnsigned(memfd, U32) && FitsUnsigned(size, U64)) then
                |body| == 2 && r == Threw(ValueOutOfRange)
              else
                && |body| == 3
                && body[2].IoctlCall?
                && body[2].fd == udmabufFd
                && body[2].request == UDMABUF_CREATE
                && body[2].argIn == UdmabufCreateStruct(memfd, size)
                && r == Returned(AllocateResultOfCreate(UdmabufCreateResultOf(body[2].ioctlReply)))
  }

  /** What binding yields once the create request has answered. */
  function AllocationOutcomeOfCreate(bound: Outcome<UdmabufCreateResult>): (r: Outcome<AllocateResult>)
    ensures r.Threw? <==> bound.Threw?
    ensures bound.Threw? ==> r.exception == bound.exception
    ensures bound.Returned? ==> r.value == AllocateResultOfCreate(bound.value)
  {
    match bound
    case Threw(exception) => Threw(exception)
    case Returned(result) => Returned(AllocateResultOfCreate(result))
  }

  /** Sizing and sealing, then the create request if sealing returned, make
      the calls between creating and closing the memory file. */
  lemma BindRunOfSteps(udmabufFd: Fd, memfd: Fd, size: int, sealCalls: seq<Call>, sealed: Outcome<()>,
                       createCalls: seq<Call>, bound: Outcome<UdmabufCreateResult>, r: Outcome<AllocateResult>)
    requires TruncateAndSealRun(memfd, size, sealCalls, sealed)
    requires sealed.Threw? ==> createCalls == [] && r == Threw(sealed.exception)
    requires sealed.Returned? ==> UdmabufCreateRun(udmabufFd, memfd, size, createCalls, bound)
                                  && r == AllocationOutcomeOfCreate(bound)
    ensures BindRun(udmabufFd, memfd, size, sealCalls + createCalls, r)
  {
    var body := sealCalls + createCalls;
    assert body[0] == sealCalls[0];
    if |sealCalls| == 2 {
      assert body[1] == sealCalls[1];
      if sealed.Returned? && |createCalls| == 1 {
        assert body[2] == createCalls[0];
      }
    }
  }

  /** A memory file created, the calls binding it, and its close make an
      allocation of a valid size. */
  lemma AllocateRunOfSteps(udmabufFd: Fd, pageSize: PageSize, size: int, createCall: Call, memfd: Fd,
                           body: seq<Call>, r: Outcome<AllocateResult>)
    requires size > 0 && size % pageSize == 0
    requires createCall == MemfdCreateCall(MEMFD_NAME, MFD_ALLOW_SEALING, FdOk(memfd))
    requires BindRun(udmabufFd, memfd, size, body, r)
    ensures AllocateRun(udmabufFd, pageSize, size, [createCall] + body + [CloseCall(memfd)], r)
  {
    var trace := [createCall] + body + [CloseCall(memfd)];
    assert trace[0] == createCall;
    assert trace[1..|trace| - 1] == body;
  }

  /** Validation comes first: an allocation calls the kernel at all exactly
      when the size is positive and a whole number of pages, and otherwise
      throws. */
  lemma ValidationBeforeAnyCall(udmabufFd: Fd, pageSize: PageSize, size: int, trace: seq<Call>, r: Outcome<AllocateResult>)
    requires AllocateRun(udmabufFd, pageSize, size, trace, r)
    ensures trace == [] <==> (size <= 0 || size % pageSize != 0)
    ensures trace == [] ==> r.Threw?
  {
  }

  /** The calls between creating and closing the memory file close nothing. */
  lemma BindRunClosesNothing(udmabufFd: Fd, memfd: Fd, size: int, body: seq<Call>, r: Outcome<AllocateResult>, fd: Fd)
    requires BindRun(udmabufFd, memfd, size, body, r)
    ensures CloseCount(body, fd) == 0
  {
    assert CloseCall(fd) !in body by {
      forall i | 0 <= i < |body| ensures body[i] != CloseCall(fd) {
        assert i <= 2;
      }
    }
  }

  /** Once created, the memory file is closed exactly once, by the last call,
      whether the allocation returns or throws; a failed memfd_create makes no
      other call. */
  lemma MemfdClosedExactlyOnce(udmabufFd: Fd, pageSize: PageSize, size: int, trace: seq<Call>, r: Outcome<AllocateResult>)
    requires AllocateRun(udmabufFd, pageSize, size, trace, r)
    requires trace != []
    ensures trace[0].fdReply.FdErr? ==> |trace| == 1
    ensures trace[0].fdReply.FdOk? ==>
              && trace[|trace| - 1] == CloseCall(trace[0].fdReply.fd)
              && CloseCount(trace, trace[0].fdReply.fd) == 1
  {
    if trace[0].fdReply.FdOk? {
      var memfd := trace[0].fdReply.fd;
      var body := trace[1..|trace| - 1];
      SplitFirstAndLast(trace);
      BindRunClosesNothing(udmabufFd, memfd, size, body, r, memfd);
      CloseCountOfBracket(trace[0], body, memfd);
    }
  }

  /** A successful allocation makes five calls in order: memfd_create,
      ftruncate to the size, the shrink seal, the create request binding the
      whole memory file, and the close; the dma-buf is what the request
      returned. */
  lemma SuccessfulAllocationCalls(udmabufFd: Fd, pageSize: PageSize, size: int, trace: seq<Call>, dmabufFd: Fd)
    requires AllocateRun(udmabufFd, pageSize, size, trace, Returned(Allocated(dmabufFd)))
    ensures |trace| == 5 && trace[0].fdReply.FdOk?
    ensures var memfd := trace[0].fdReply.fd;
            && trace[0] == MemfdCreateCall(MEMFD_NAME, MFD_ALLOW_SEALING, FdOk(memfd))
            && trace[1] == FtruncateCall(memfd, size, Truncated)
            && trace[2] == FcntlCall(memfd, F_ADD_SEALS, F_SEAL_SHRINK, FcntlOk)
            && trace[3].IoctlCall? && trace[3].fd == udmabufFd && trace[3].request == UDMABUF_CREATE
            && trace[3].ioctlReply == IoctlOk(dmabufFd)
            && Read(LE, trace[3].argIn, MEMFD_OFFSET, U32) == memfd
            && Read(LE, trace[3].argIn, SIZE_OFFSET, U64) == size
            && trace[4] == CloseCall(memfd)
  {
    var memfd := trace[0].fdReply.fd;
    var body := trace[1..|trace| - 1];
    assert body[0] == trace[1] && body[1] == trace[2];
    assert |body| == 3;
    assert body[2] == trace[3];
    UdmabufCreateStructFields(memfd, size);
  }

  /** A reported failure carries the errno of the call that failed: either
      memfd_create, and nothing else was called, or the create request. */
  lemma FailureCarriesKernelErrno(udmabufFd: Fd, pageSize: PageSize, size: int, trace: seq<Call>, error: AllocationError)
    requires AllocateRun(udmabufFd, pageSize, size, trace, Returned(AllocateFailed(error)))
    ensures !error.HeapAllocationFailed?
    ensures error.MemfdCreateFailed? ==> trace == [MemfdCreateCall(MEMFD_NAME, MFD_ALLOW_SEALING, FdErr(error.errno))]
    ensures error.BufferBindFailed? ==> |trace| == 5 && trace[3].IoctlCall? && trace[3].ioctlReply == IoctlErr(error.errno)
  {
    if trace[0].fdReply.FdOk? {
      var body := trace[1..|trace| - 1];
      assert body[0] == trace[1] && body[1] == trace[2];
      assert |body| == 3;
      assert body[2] == trace[3];
    }
  }

  class UdmabufAllocator {
    const kernel: Kernel
    /** The udmabuf device, which the allocator uses and does not own. */
    const udmabufFd: Fd
    /** The page size read when the allocator was created. */
    const pageSize: PageSize

    constructor (kernel: Kernel, udmabufFd: Fd, pageSize: PageSize)
      ensures this.kernel == kernel && this.udmabufFd == udmabufFd && this.pageSize == pageSize
    {
      this.kernel := kernel;
      this.udmabufFd := udmabufFd;
      this.pageSize := pageSize;
    }

    /** The size to request for at least `minimumSize` bytes: the least multiple
        of the allocator's page size not below it. */
    function DetermineOptimalAllocationSize(minimumSize: int): (size: int)
      ensures size % pageSize == 0 && minimumSize <= size < minimumSize + pageSize
    {
      AllocationSize.DetermineOptimalAllocationSize(minimumSize, pageSize)
    }

    /** One allocation of `size` bytes; the memory file it creates is closed
        before it returns or throws, so it leaves no descriptor open. */
    method Allocate(size: int) returns (r: Outcome<AllocateResult>)
      requires kernel.Valid()
      modifies kernel
      ensures kernel.Valid() && kernel.openFds == old(kernel.openFds) && old(kernel.log) <= kernel.log
      ensures AllocateRun(udmabufFd, pageSize, size, kernel.log[|old(kernel.log)|..], r)
    {
      ghost var before := kernel.log;
      if size <= 0 {
        assert kernel.log[|before|..] == [];
        return Threw(SizeNotPositive);
      }
      if size % pageSize != 0 {
        assert kernel.log[|before|..] == [];
        return Threw(SizeNotPageMultiple(pageSize));
      }
      var created := kernel.MemfdCreate(MEMFD_NAME, MFD_ALLOW_SEALING);
      if created.FdErr? {
        assert kernel.log[|before|..] == [MemfdCreateCall(MEMFD_NAME, MFD_ALLOW_SEALING, created)];
        return Returned(AllocateFailed(MemfdCreateFailed(created.errno)));
      }
      var memfd := created.fd;
      ghost var afterCreate := kernel.log;
      r := SealAndBind(memfd, size);
      ghost var body := kernel.log[|afterCreate|..];
      kernel.Close(memfd);
      AllocateRunOfSteps(udmabufFd, pageSize, size, MemfdCreateCall(MEMFD_NAME, MFD_ALLOW_SEALING, created), memfd, body, r);
      assert kernel.log == before + [MemfdCreateCall(MEMFD_NAME, MFD_ALLOW_SEALING, created)] + body + [CloseCall(memfd)];
      assert kernel.log[|before|..] == [MemfdCreateCall(MEMFD_NAME, MFD_ALLOW_SEALING, created)] + body + [CloseCall(memfd)];
    }

    /** The steps between creating and closing the memory file: size and seal
        it, then, unless that threw, bind it to a new dma-buf. */
    method SealAndBind(memfd: Fd, size: int) returns (r: Outcome<AllocateResult>)
      requires kernel.Valid()
      modifies kernel
      ensures kernel.Valid() && kernel.openFds == old(kernel.openFds) && old(kernel.log) <= kernel.log
      ensures BindRun(udmabufFd, memfd, size, kernel.log[|old(kernel.log)|..], r)
    {
      ghost var before := kernel.log;
      var sealed := TruncateAndSealMemfd(kernel, memfd, size);
      ghost var sealCalls := kernel.log[|before|..];
      ghost var afterSeal := kernel.log;
      var bound: Outcome<UdmabufCreateResult> := Threw(ValueOutOfRange);
      if sealed.Threw? {
        r := Threw(sealed.exception);
      } else {
        bound := UdmabufCreate(kernel, udmabufFd, memfd, size);
        r := AllocationOutcomeOfCreate(bound);
      }
      ghost var createCalls := kernel.log[|afterSeal|..];
      assert kernel.log[|before|..] == sealCalls + createCalls;
      BindRunOfSteps(udmabufFd, memfd, size, sealCalls, sealed, createCalls, bound, r);
    }
  }

  /** Creates an allocator on the udmabuf device `udmabufFd`; the page size is
      read once, here. */
  method CreateUdmabufAllocator(kernel: Kernel, udmabufFd: Fd) returns (allocator: UdmabufAllocator)
    requires kernel.Valid()
    modifies kernel
    ensures kernel.Valid() && kernel.openFds == old(kernel.openFds)
    ensures kernel.log == old(kernel.log) + [PageSizeCall(allocator.pageSize)]
    ensures fresh(allocator) && allocator.kernel == kernel && allocator.udmabufFd == udmabufFd
  {
    var pageSize := kernel.DeterminePageSize();
    allocator := new UdmabufAllocator(kernel, udmabufFd, pageSize);
  }
}
