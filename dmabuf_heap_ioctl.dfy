/** The DMA_HEAP_IOCTL_ALLOC request of the Linux dma-heap interface: the
    24-byte `struct dma_heap_allocation_data`, the one ioctl that carries it,
    and the descriptor the kernel writes back into it. */
module DmabufHeapIoctl {

  import opened EndianBuffer
  import opened KernelInterface

  const DMA_HEAP_IOCTL_ALLOC: int := 0xC0184800
  const ALLOCATION_DATA_SIZE: nat := 24

  /** Byte offsets of the fields of `struct dma_heap_allocation_data`. */
  const LEN_OFFSET: nat := 0
  const FD_OFFSET: nat := 8
  const FD_FLAGS_OFFSET: nat := 12
  const HEAP_FLAGS_OFFSET: nat := 16

  datatype HeapIoctlAllocateResult = HeapIoctlAllocated(dmabufFd: Fd) | HeapIoctlFailed(errno: Errno)

  /** The request as the structure lays it out: `len` as u64, `fd` as u32 set
      to 0, `fd_flags` as u32 and `heap_flags` as u64, each in `order` and each
      truncated to its field's width. */
  function AllocationData(order: Endianness, len: int, fdFlags: int, heapFlags: int): (data: seq<u8>)
    ensures |data| == ALLOCATION_DATA_SIZE
  {
    Encode(order, len % Pow256(U64), U64)
    + Encode(order, 0, U32)
    + Encode(order, fdFlags % Pow256(U32), U32)
    + Encode(order, heapFlags % Pow256(U64), U64)
  }

  /** Reading every field back in the same byte order gives `len`, 0,
      `fdFlags` and `heapFlags`, each modulo its field's range. */
  lemma AllocationDataFields(order: Endianness, len: int, fdFlags: int, heapFlags: int)
    ensures var data := AllocationData(order, len, fdFlags, heapFlags);
            && Read(order, data, LEN_OFFSET, U64) == len % Pow256(U64)
            && Read(order, data, FD_OFFSET, U32) == 0
            && Read(order, data, FD_FLAGS_OFFSET, U32) == fdFlags % Pow256(U32)
            && Read(order, data, HEAP_FLAGS_OFFSET, U64) == heapFlags % Pow256(U64)
  {
    var data := AllocationData(order, len, fdFlags, heapFlags);
    assert data[0..8] == Encode(order, len % Pow256(U64), U64);
    assert data[8..12] == Encode(order, 0, U32);
    assert data[12..16] == Encode(order, fdFlags % Pow256(U32), U32);
    assert data[16..24] == Encode(order, heapFlags % Pow256(U64), U64);
    EncodeDecode(order, len % Pow256(U64), U64);
    EncodeDecode(order, 0, U32);
    EncodeDecode(order, fdFlags % Pow256(U32), U32);
    EncodeDecode(order, heapFlags % Pow256(U64), U64);
  }

  /** The request is its four encoded fields, one after the other. */
  lemma AllocationDataOfFields(order: Endianness, len: int, fdFlags: int, heapFlags: int,
                               lenBytes: seq<u8>, fdBytes: seq<u8>, fdFlagsBytes: seq<u8>, heapFlagsBytes: seq<u8>)
    requires Encode(order, len % Pow256(U64), U64) == lenBytes
    requires Encode(order, 0, U32) == fdBytes
    requires Encode(order, fdFlags % Pow256(U32), U32) == fdFlagsBytes
    requires Encode(order, heapFlags % Pow256(U64), U64) == heapFlagsBytes
    ensures AllocationData(order, len, fdFlags, heapFlags) == lenBytes + fdBytes + fdFlagsBytes + heapFlagsBytes
  {
  }

  /** The little-endian request the tests expect for len 64, fd_flags 0x1234
      and heap_flags 0x56789abcdef0, field by field. */
  lemma LittleEndianAllocationDataExample()
    ensures AllocationData(LE, 64, 0x1234, 0x56789abcdef0)
         == [64, 0, 0, 0, 0, 0, 0, 0] + [0, 0, 0, 0] + [52, 18, 0, 0] + [240, 222, 188, 154, 120, 86, 0, 0]
  {
    ExampleFieldsModuloRange();
    LittleEndianU64Example();
    ZeroU32Example();
    LittleEndianFdFlagsExample();
    LittleEndianHeapFlagsExample();
    AllocationDataOfFields(LE, 64, 0x1234, 0x56789abcdef0,
      [64, 0, 0, 0, 0, 0, 0, 0], [0, 0, 0, 0], [52, 18, 0, 0], [240, 222, 188, 154, 120, 86, 0, 0]);
  }

  /** The big-endian request the tests expect for the same fields. */
  lemma BigEndianAllocationDataExample()
    ensures AllocationData(BE, 64, 0x1234, 0x56789abcdef0)
         == [0, 0, 0, 0, 0, 0, 0, 64] + [0, 0, 0, 0] + [0, 0, 18, 52] + [0, 0, 86, 120, 154, 188, 222, 240]
  {
    ExampleFieldsModuloRange();
    BigEndianLenExample();
    ZeroU32Example();
    BigEndianU32Example();
    BigEndianHeapFlagsExample();
    AllocationDataOfFields(BE, 64, 0x1234, 0x56789abcdef0,
      [0, 0, 0, 0, 0, 0, 0, 64], [0, 0, 0, 0], [0, 0, 18, 52], [0, 0, 86, 120, 154, 188, 222, 240]);
  }

  /** The example's field values all fit their fields. */
  lemma ExampleFieldsModuloRange()
    ensures 64 % Pow256(U64) == 64
    ensures 0 % Pow256(U32) == 0
    ensures 0x1234 % Pow256(U32) == 0x1234
    ensures 0x56789abcdef0 % Pow256(U64) == 0x56789abcdef0
  {
    assert Pow256(U32) == 0x1_0000_0000 && Pow256(U64) == 0x1_0000_0000_0000_0000;
  }

  lemma ZeroU32Example()
    ensures Encode(LE, 0, U32) == [0, 0, 0, 0]
    ensures Encode(BE, 0, U32) == [0, 0, 0, 0]
  {
    assert LeBytes(0, 1) == [0];
    assert LeBytes(0, 2) == [0, 0];
    assert LeBytes(0, 3) == [0, 0, 0];
    assert BeBytes(0, 1) == [0];
    assert BeBytes(0, 2) == [0, 0];
    assert BeBytes(0, 3) == [0, 0, 0];
  }

  lemma LittleEndianFdFlagsExample()
    ensures Encode(LE, 0x1234, U32) == [52, 18, 0, 0]
  {
    assert LeBytes(0, 1) == [0];
    assert LeBytes(0, 2) == [0, 0];
    assert LeBytes(0x12, 3) == [18, 0, 0];
  }

  lemma LittleEndianHeapFlagsExample()
    ensures Encode(LE, 0x56789abcdef0, U64) == [240, 222, 188, 154, 120, 86, 0, 0]
  {
    HeapFlagsHighBytes();
    assert 0x56789abcdef0 % 256 == 240 && 0x56789abcdef0 / 256 == 0x56789abcde;
    assert 0x56789abcde % 256 == 222 && 0x56789abcde / 256 == 0x56789abc;
    assert LeBytes(0x56789abcde, 7) == [222] + LeBytes(0x56789abc, 6);
  }

  /** The six high bytes of the example heap flags, least significant first. */
  lemma HeapFlagsHighBytes()
    ensures LeBytes(0x56789abc, 6) == [188, 154, 120, 86, 0, 0]
  {
    assert LeBytes(0, 1) == [0];
    assert LeBytes(0, 2) == [0, 0];
    assert 0x56 % 256 == 86 && 0x56 / 256 == 0;
    assert LeBytes(0x56, 3) == [86, 0, 0];
    assert 0x5678 % 256 == 120 && 0x5678 / 256 == 0x56;
    assert LeBytes(0x5678, 4) == [120, 86, 0, 0];
    assert 0x56789a % 256 == 154 && 0x56789a / 256 == 0x5678;
    assert LeBytes(0x56789a, 5) == [154, 120, 86, 0, 0];
    assert 0x56789abc % 256 == 188 && 0x56789abc / 256 == 0x56789a;
  }

  lemma BigEndianLenExample()
    ensures Encode(BE, 64, U64) == [0, 0, 0, 0, 0, 0, 0, 64]
  {
    assert BeBytes(0, 1) == [0];
    assert BeBytes(0, 2) == [0, 0];
    assert BeBytes(0, 3) == [0, 0, 0];
    assert BeBytes(0, 4) == [0, 0, 0, 0];
    assert BeBytes(0, 5) == [0, 0, 0, 0, 0];
    assert BeBytes(0, 6) == [0, 0, 0, 0, 0, 0];
    assert BeBytes(0, 7) == [0, 0, 0, 0, 0, 0, 0];
  }

  lemma BigEndianHeapFlagsExample()
    ensures Encode(BE, 0x56789abcdef0, U64) == [0, 0, 86, 120, 154, 188, 222, 240]
  {
    assert BeBytes(0, 1) == [0];
    assert BeBytes(0, 2) == [0, 0];
    assert BeBytes(0x56, 3) == [0, 0, 86];
    assert BeBytes(0x5678, 4) == [0, 0, 86, 120];
    assert BeBytes(0x56789a, 5) == [0, 0, 86, 120, 154];
    assert BeBytes(0x56789abc, 6) == [0, 0, 86, 120, 154, 188];
    assert BeBytes(0x56789abcde, 7) == [0, 0, 86, 120, 154, 188, 222];
  }

  /** Fills a fresh 24-byte buffer field by field through an endian view. */
  method FormatAllocationData(order: Endianness, len: int, fdFlags: int, heapFlags: int)
    returns (data: array<u8>)
    ensures fresh(data) && data[..] == AllocationData(order, len, fdFlags, heapFlags)
  {
    data := new u8[ALLOCATION_DATA_SIZE](_ => 0);
    var view := new EndianBufferView(data, order);
    view.WriteU64(LEN_OFFSET, len);
    ghost var lenField := data[0..8];
    view.WriteU32(FD_OFFSET, 0);
    assert data[0..8] == lenField;
    ghost var fdField := data[8..12];
    view.WriteU32(FD_FLAGS_OFFSET, fdFlags);
    assert data[0..8] == lenField && data[8..12] == fdField;
    ghost var fdFlagsField := data[12..16];
    view.WriteU64(HEAP_FLAGS_OFFSET, heapFlags);
    assert data[0..8] == lenField && data[8..12] == fdField && data[12..16] == fdFlagsField;
    assert Pow256(U32) == 0x1_0000_0000;
    assert 0 % Pow256(U32) == 0;
    assert data[..] == data[0..8] + data[8..12] + data[12..16] + data[16..24];
  }

  /** Whether `call` is the allocation ioctl on `fd` carrying the request for
      `len`, `fdFlags` and `heapFlags` in `order`. */
  ghost predicate IsAllocationIoctl(call: Call, order: Endianness, fd: Fd, len: int, fdFlags: int, heapFlags: int)
  {
    && call.IoctlCall?
    && call.fd == fd
    && call.request == DMA_HEAP_IOCTL_ALLOC
    && call.argIn == AllocationData(order, len, fdFlags, heapFlags)
    && |call.argOut| == ALLOCATION_DATA_SIZE
  }

  /** What the allocation returns once the kernel has answered `call`: the
      errno unchanged, or the u32 the kernel left at offset 8. */
  function AllocateResultOf(order: Endianness, call: Call): (r: HeapIoctlAllocateResult)
    requires call.IoctlCall? && |call.argOut| == ALLOCATION_DATA_SIZE
    ensures r.HeapIoctlFailed? <==> call.ioctlReply.IoctlErr?
    ensures r.HeapIoctlFailed? ==> r.errno == call.ioctlReply.errno
    ensures r.HeapIoctlAllocated? ==>
              r.dmabufFd < Pow256(U32) && Encode(order, r.dmabufFd, U32) == call.argOut[FD_OFFSET..FD_OFFSET + U32]
  {
    match call.ioctlReply
    case IoctlErr(errno) => HeapIoctlFailed(errno)
    case IoctlOk(_) => HeapIoctlAllocated(Read(order, call.argOut, FD_OFFSET, U32))
  }

  /** Issues one allocation ioctl on `dmabufHeapFd`, in the kernel's byte order,
      and decodes the kernel's answer; a failure is never retried. */
  method DmabufHeapIoctlAllocate(kernel: Kernel, dmabufHeapFd: Fd, size: int, fdFlags: int, heapFlags: int)
    returns (r: HeapIoctlAllocateResult)
    requires kernel.Valid()
    modifies kernel
    ensures kernel.Valid() && kernel.openFds == old(kernel.openFds)
    ensures |kernel.log| == |old(kernel.log)| + 1 && old(kernel.log) <= kernel.log
    ensures var call := kernel.log[|old(kernel.log)|];
            && IsAllocationIoctl(call, kernel.endianness, dmabufHeapFd, size, fdFlags, heapFlags)
            && r == AllocateResultOf(kernel.endianness, call)
  {
    var allocationData := FormatAllocationData(kernel.endianness, size, fdFlags, heapFlags);
    var reply := kernel.Ioctl(dmabufHeapFd, DMA_HEAP_IOCTL_ALLOC, allocationData);
    if reply.IoctlErr? {
      return HeapIoctlFailed(reply.errno);
    }
    var view := new EndianBufferView(allocationData, kernel.endianness);
    var dmabufFd := view.ReadU32(FD_OFFSET);
    return HeapIoctlAllocated(dmabufFd);
  }
}
