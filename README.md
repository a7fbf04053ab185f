# linux-dmabuf-allocator, modelled in Dafny

This project models the allocation core of the `linux-dmabuf-allocator` Node.js
library. The library hands out Linux dma-buf file descriptors in two ways:

- **dma-buf heaps.** A heap manager lists the heaps in `/dev/dma_heap` and
  describes each heap by its well-known properties. It selects heaps by a
  specification (required, preferred, optional or forbidden per property). It
  opens a heap by name into a `DmabufHeap` handle. The handle owns a duplicate of
  the heap's descriptor and allocates through `DMA_HEAP_IOCTL_ALLOC`. Its
  request, `struct dma_heap_allocation_data`, is written in the kernel's byte
  order.
- **udmabuf.** For each allocation, the udmabuf allocator does these steps:
  1. creates a sealable memory file (`memfd_create`);
  2. sizes it (`ftruncate`);
  3. seals it against shrinking (`fcntl(F_ADD_SEALS, F_SEAL_SHRINK)`);
  4. binds it to a new dma-buf through the udmabuf device (`UDMABUF_CREATE`);
  5. closes the memory file, whatever happened before.

Two pure helpers sit under both paths:
- an endian-aware view that reads and writes u16, u32 and u64 fields of a byte
  buffer;
- the rounding of a requested size up to whole pages.

Files and modules:

| file | module | models |
|---|---|---|
| `div_mod.dfy` | `DivMod` | uniqueness of integer quotient and remainder (arithmetic support) |
| `endian_buffer.dfy` | `EndianBuffer` | `lib/endian-buffer.ts`: byte encodings, and `EndianBufferView` as a class over a caller's `array<u8>` |
| `allocation_size.dfy` | `AllocationSize` | `lib/allocation-size.ts` |
| `kernel_interface.dfy` | `KernelInterface` | the kernel interface the core calls (`lib/kernel-interface.ts`), as a `Kernel` class |
| `allocator_interface.dfy` | `AllocatorInterface` | allocation results, and the exceptions the core throws |
| `dmabuf_heap_ioctl.dfy` | `DmabufHeapIoctl` | `lib/dmabuf-heap/dmabuf-heap-ioctl.ts` |
| `dmabuf_heap.dfy` | `DmabufHeap` | `lib/dmabuf-heap/dmabuf-heap.ts` |
| `dmabuf_heap_manager.dfy` | `DmabufHeapManager` | `lib/dmabuf-heap/dmabuf-heap-manager.ts` |
| `udmabuf_allocator.dfy` | `UdmabufAllocator` | `lib/udmabuf/udmabuf-allocator.ts` |

How the model is built:

- **The kernel.** The kernel is a `Kernel` object whose every call may answer
  with any reply its type allows. This is written with Dafny's nondeterministic
  choice (`:|`), so every proof holds for every possible kernel behaviour.
- **Ghost state.** As specification-only (ghost) state, the kernel keeps:
  - `log`: every call made, with its arguments and its reply;
  - `openFds`: the descriptors opened through open, dup or memfd_create and not
    closed since.
- **Operations.** Each operation with kernel calls is a method. Its contract
  pins the calls it appends to `log` with a ghost predicate that reads as the
  operation's protocol (`HeapConstructionRun`, `OpenByNameRun`,
  `TruncateAndSealRun`, `UdmabufCreateRun`, `AllocateRun` with `BindRun`). The
  contract also states how `openFds` changes. Lemmas about those predicates state
  the promises about descriptors, call order and errno reporting.
- **Exceptions.** A JavaScript `throw` is the `Threw` outcome. An error the
  source returns as `{ error, dmabufFd: undefined }` is a returned
  `AllocateFailed` value. A `finally` close is one close call after the body,
  taken on both the returning and the throwing path.

## Model

| member | source | states |
|---|---|---|
| EndianBuffer.Read | lib/endian-buffer.ts:10-20 | the value of a field is below 256^width, and its encoding in the view's byte order is exactly the field's bytes; these two facts fix it |
| EndianBuffer.Write | lib/endian-buffer.ts:22-32 | a write changes only the field's bytes; they become the encoding of the value reduced modulo 256^width, as a DataView setter wraps it |
| EndianBuffer.LeRoundTrip | lib/endian-buffer.ts:22-32 | decoding a little-endian encoding gives the value modulo 256^width |
| EndianBuffer.BeRoundTrip | lib/endian-buffer.ts:22-32 | decoding a big-endian encoding gives the value modulo 256^width |
| EndianBuffer.LeBytesOfValue | lib/endian-buffer.ts:10-20 | re-encoding the little-endian value of any bytes gives back those bytes |
| EndianBuffer.BeBytesOfValue | lib/endian-buffer.ts:10-20 | re-encoding the big-endian value of any bytes gives back those bytes |
| EndianBuffer.EncodeDecode | lib/endian-buffer.ts:10-32 | in either byte order, reading what was written gives the value back when it fits the field |
| EndianBuffer.DecodeEncode | lib/endian-buffer.ts:10-32 | in either byte order, every byte pattern is the encoding of the value read from it |
| EndianBuffer.BigEndianIsReversedLittleEndian | lib/endian-buffer.ts:8 | the big-endian bytes of a value are its little-endian bytes reversed |
| EndianBuffer.ReadAfterWrite | lib/endian-buffer.ts:10-32 | a read of the field just written returns the written value truncated to the field |
| EndianBuffer.ReadAfterDisjointWrite | lib/endian-buffer.ts:10-32 | a write leaves every field that does not overlap it as it was |
| EndianBuffer.LittleEndianU64Example | lib/endian-buffer.ts:30-32 | the little-endian u64 64 is the bytes 64,0,0,0,0,0,0,0 |
| EndianBuffer.BigEndianU32Example | lib/endian-buffer.ts:26-28 | the big-endian u32 0x1234 is the bytes 0,0,18,52 |
| EndianBuffer.EndianBufferView.constructor | lib/endian-buffer.ts:5-8 | the view is over the caller's buffer, and its byte order is fixed at creation |
| EndianBuffer.EndianBufferView.ReadU16 | lib/endian-buffer.ts:10-12 | the u16 at an offset is below 2^16, and its encoding is the two bytes there |
| EndianBuffer.EndianBufferView.ReadU32 | lib/endian-buffer.ts:14-16 | the u32 at an offset is below 2^32, and its encoding is the four bytes there |
| EndianBuffer.EndianBufferView.ReadU64 | lib/endian-buffer.ts:18-20 | the u64 at an offset is below 2^64, and its encoding is the eight bytes there |
| EndianBuffer.EndianBufferView.WriteU16 | lib/endian-buffer.ts:22-24 | the caller's buffer becomes `Write` of its old contents with a 2-byte field |
| EndianBuffer.EndianBufferView.WriteU32 | lib/endian-buffer.ts:26-28 | the caller's buffer becomes `Write` of its old contents with a 4-byte field |
| EndianBuffer.EndianBufferView.WriteU64 | lib/endian-buffer.ts:30-32 | the caller's buffer becomes `Write` of its old contents with an 8-byte field |
| EndianBuffer.HostEndianBufferViewFor | lib/endian-buffer.ts:44-50 | a new view over the caller's buffer in the host's byte order |
| AllocationSize.PagesNeeded | lib/allocation-size.ts:4 | the number of pages is ceil(minimumSize / pageSize): one page fewer would not hold the request |
| AllocationSize.DetermineOptimalAllocationSize | lib/allocation-size.ts:3-6 | the size is a multiple of the page size, at least the request, and less than a page above it |
| AllocationSize.UniqueMultipleInWindow | lib/allocation-size.ts:3-6 | any multiple of the page size in [request, request + page) is the rounded size |
| AllocationSize.SmallestMultiple | lib/allocation-size.ts:3-6 | no multiple of the page size that holds the request is smaller than the rounded size |
| AllocationSize.Idempotent | lib/allocation-size.ts:3-6 | rounding a rounded size changes nothing |
| AllocationSize.WholePages | lib/allocation-size.ts:3-6 | every request in ((n-1)*page, n*page] rounds to n pages |
| AllocationSize.PageSize4096Examples | test/common/allocation-size.ts:5-45 | with 4096-byte pages: 1, 2, 3, 42, 128, 4095 and 4096 round to 4096; 4097 rounds to 8192 |
| AllocationSize.UdmabufPageSize4096Examples | test/udmabuf/udmabuf-allocator.ts:191-211 | with 4096-byte pages: 1 and 4096 round to 4096; 4097 and 8192 round to 8192; 1920*1080*4 rounds to 2025 pages |
| KernelInterface.Kernel.Open | lib/kernel-interface.ts:11 | an open either fails with an errno or yields a descriptor that was not open, which becomes open; it is logged |
| KernelInterface.Kernel.Dup | lib/kernel-interface.ts:6 | a dup either fails or yields a descriptor that was not open, which becomes open; it is logged |
| KernelInterface.Kernel.Close | lib/kernel-interface.ts:7 | a close removes the descriptor from the open ones, and it is logged |
| KernelInterface.Kernel.Ioctl | lib/kernel-interface.ts:5 | an ioctl may rewrite the argument buffer in place; the request bytes, the bytes after the call and the reply are logged; no descriptor is opened or closed |
| KernelInterface.Kernel.Readdir | lib/kernel-interface.ts:10 | a listing yields entries or an errno, and it is logged |
| KernelInterface.Kernel.MemfdCreate | lib/udmabuf/udmabuf-allocator.ts:84 | a memfd_create either fails with an errno or yields a descriptor that was not open, which becomes open; it is logged |
| KernelInterface.Kernel.Ftruncate | lib/udmabuf/udmabuf-allocator.ts:52-55 | an ftruncate succeeds or fails with an error object; it is logged and opens or closes nothing |
| KernelInterface.Kernel.Fcntl | lib/udmabuf/udmabuf-allocator.ts:57-60 | an fcntl succeeds or fails with an errno; it is logged and opens or closes nothing |
| KernelInterface.Kernel.DeterminePageSize | lib/kernel-interface.ts:4 | a page size is a positive number, and the query is logged |
| DmabufHeapIoctl.AllocationData | lib/dmabuf-heap/dmabuf-heap-ioctl.ts:24-37 | the request `struct dma_heap_allocation_data` is 24 bytes: len as u64, fd 0 as u32, fd_flags as u32, heap_flags as u64, each in the given byte order |
| DmabufHeapIoctl.AllocationDataFields | lib/dmabuf-heap/dmabuf-heap-ioctl.ts:24-37 | the request's fields read back as len, 0, fd_flags and heap_flags, each modulo its field's range, in the same byte order |
| DmabufHeapIoctl.LittleEndianAllocationDataExample | test/dmabuf-heap/dmabuf-heap-ioctl.ts:76-110 | the little-endian request for len 64, fd_flags 0x1234 and heap_flags 0x56789abcdef0 is the 24 bytes the test expects |
| DmabufHeapIoctl.BigEndianAllocationDataExample | test/dmabuf-heap/dmabuf-heap-ioctl.ts:122-153 | the big-endian request for the same values is the 24 bytes the test expects |
| DmabufHeapIoctl.FormatAllocationData | lib/dmabuf-heap/dmabuf-heap-ioctl.ts:12-40 | filling a fresh 24-byte buffer through an endian view yields exactly the request layout |
| DmabufHeapIoctl.IsAllocationIoctl | lib/dmabuf-heap/dmabuf-heap-ioctl.ts:60-71 | the allocation call: DMA_HEAP_IOCTL_ALLOC on the heap's descriptor, carrying the request for the size and flags in the kernel's byte order, with a 24-byte argument back |
| DmabufHeapIoctl.AllocateResultOf | lib/dmabuf-heap/dmabuf-heap-ioctl.ts:74-87 | a failed ioctl reports its errno unchanged; otherwise the dma-buf is the u32 whose encoding is bytes 8 to 12 of the buffer after the call |
| DmabufHeapIoctl.DmabufHeapIoctlAllocate | lib/dmabuf-heap/dmabuf-heap-ioctl.ts:49-88 | exactly one ioctl, DMA_HEAP_IOCTL_ALLOC on the heap's descriptor, carrying the request in the kernel's byte order; the result is decoded from the reply and the bytes written back |
| DmabufHeap.AllocateResultFromIoctl | lib/dmabuf-heap/dmabuf-heap.ts:42-53 | a failed heap ioctl becomes a heap allocation failure with the same errno; a success hands back the descriptor |
| DmabufHeap.DupOutcome | lib/dmabuf-heap/dmabuf-heap.ts:56-58 | a failing dup throws with its errno; a successful one returns the new descriptor |
| DmabufHeap.DmabufHeap.constructor | lib/dmabuf-heap/dmabuf-heap.ts:64-70 | the handle keeps the kernel, its own descriptor and the page size |
| DmabufHeap.DmabufHeap.DetermineOptimalAllocationSize | lib/dmabuf-heap/dmabuf-heap.ts:25-31 | the least multiple of the handle's page size that is not below the request |
| DmabufHeap.DmabufHeap.Allocate | lib/dmabuf-heap/dmabuf-heap.ts:33-54 | one heap ioctl on the owned descriptor with fd_flags O_RDWR\|O_CLOEXEC and heap_flags 0; the result follows its reply; no descriptor is opened or closed |
| DmabufHeap.DmabufHeap.DupHeapFd | lib/dmabuf-heap/dmabuf-heap.ts:56-58 | one dup of the owned descriptor; a new descriptor, or a throw with the errno |
| DmabufHeap.DmabufHeap.Close | lib/dmabuf-heap/dmabuf-heap.ts:60-62 | one close of the owned descriptor |
| DmabufHeap.HeapConstructionRun | lib/dmabuf-heap/dmabuf-heap.ts:16-71 | creating a handle calls dup of the given descriptor; a failed dup is the only call and throws with its errno; otherwise one page-size query follows, and the handle owns the duplicate with that page size |
| DmabufHeap.OpenDmabufHeapAllocatorByDuppingFd | lib/dmabuf-heap/dmabuf-heap.ts:16-71 | one dup of the given descriptor, then one page-size query; the handle owns the new duplicate; the given descriptor is never closed; a failed dup throws and opens nothing |
| DmabufHeapManager.HeapInfoByName | lib/dmabuf-heap/dmabuf-heap-manager.ts:28-66 | "system" is not contiguous, cachable and not protected; "default_cma_region" is contiguous, cachable and not protected; every other name has all properties unknown, inherited member names included (see Findings); the name is kept |
| DmabufHeapManager.HeapInfoByNameAsWritten | lib/dmabuf-heap/dmabuf-heap-manager.ts:47-66 | as the source indexes the object literal: a name of an `Object.prototype` member finds that inherited member, and exactly those names do; every other name is described as by `HeapInfoByName` |
| DmabufHeapManager.HeapInfosFor | lib/dmabuf-heap/dmabuf-heap-manager.ts:84-86 | one description per entry, in the listing's order |
| DmabufHeapManager.PropertyPasses | lib/dmabuf-heap/dmabuf-heap-manager.ts:110-115 | `preferred` and `optional` pass every value; `required` passes exactly a known-true property; `forbidden` passes exactly a property not known to be true |
| DmabufHeapManager.MatchesSpecification | lib/dmabuf-heap/dmabuf-heap-manager.ts:105-136 | a heap matches exactly when each required property is known true and no forbidden property is known true |
| DmabufHeapManager.FilterBySpecification | lib/dmabuf-heap/dmabuf-heap-manager.ts:105-136 | the result is an order-preserving subsequence of the heaps, and every heap in it matches the specification |
| DmabufHeapManager.FilterKeepsEveryMatch | lib/dmabuf-heap/dmabuf-heap-manager.ts:105-136 | every matching heap is kept as often as it is listed, and no other heap is kept |
| DmabufHeapManager.UnconstrainedSpecificationKeepsAll | lib/dmabuf-heap/dmabuf-heap-manager.ts:105-136 | without required or forbidden properties, every heap is kept |
| DmabufHeapManager.FilterIdempotent | lib/dmabuf-heap/dmabuf-heap-manager.ts:105-136 | filtering twice by one specification is filtering once |
| DmabufHeapManager.UnknownHeapPassesUnlessRequired | lib/dmabuf-heap/dmabuf-heap-manager.ts:108-135 | a heap with unknown properties passes exactly when no property is required; forbidding does not exclude it |
| DmabufHeapManager.WellKnownHeapFilterExamples | test/dmabuf-heap/dmabuf-heap-manager.ts:279-339 | of "system" and "default_cma_region": contiguous required keeps the latter, contiguous forbidden the former, and cachable required both |
| DmabufHeapManager.MatchesAsWritten | lib/dmabuf-heap/dmabuf-heap-manager.ts:105-136 | the source's test of one heap: a required or forbidden contiguity reads `physicalMemory.contiguous`, which throws on an inherited member; other properties of an inherited member read as unknown |
| DmabufHeapManager.FilterBySpecificationAsWritten | lib/dmabuf-heap/dmabuf-heap-manager.ts:105-136 | the source's filter over the descriptions it computes; the first throwing test ends it with that throw |
| DmabufHeapManager.FilterAsWrittenThrowsOnlyOnInheritedNames | lib/dmabuf-heap/dmabuf-heap-manager.ts:105-136 | the source's filter throws exactly when contiguity is required or forbidden and some heap is an inherited member; otherwise it keeps the heaps the model's filter keeps |
| DmabufHeapManager.ConstructorHeapBreaksFilterAsWritten | lib/dmabuf-heap/dmabuf-heap-manager.ts:48 | a heap named "constructor" makes the source's filter throw when contiguous memory is required, while the model's filter returns no heap |
| DmabufHeapManager.CreateOpenErrorByErrno | lib/dmabuf-heap/dmabuf-heap-manager.ts:152-166 | ENOENT means the heap does not exist, EACCES means permission denied, and any other errno is kept; the errno is recoverable from the error, and the path is kept |
| DmabufHeapManager.DefaultSystemHeapPath | lib/dmabuf-heap/dmabuf-heap-manager.ts:4-6 | the default folder is "/dev/dma_heap", so heap "system" is at "/dev/dma_heap/system" |
| DmabufHeapManager.HeapPath | lib/dmabuf-heap/dmabuf-heap-manager.ts:170 | the path is the folder, a slash, then the name |
| DmabufHeapManager.ListingOutcome | lib/dmabuf-heap/dmabuf-heap-manager.ts:78-89 | an unreadable folder throws with the folder and the errno; otherwise there is one description per entry |
| DmabufHeapManager.OpenByNameRun | lib/dmabuf-heap/dmabuf-heap-manager.ts:168-197 | opening by name calls open of folder/name read-write and close-on-exec; a failed open is the only call and returns the mapped error; otherwise the handle's construction calls follow, then one close of the opened descriptor |
| DmabufHeapManager.OpenedDescriptorClosedOnce | lib/dmabuf-heap/dmabuf-heap-manager.ts:168-197 | once the open succeeds, the opened descriptor is closed exactly once, as the last call, whether the handle was created or the dup threw; a failing open makes no other call |
| DmabufHeapManager.DmabufHeapManager.FindAvailableDmabufHeapInfos | lib/dmabuf-heap/dmabuf-heap-manager.ts:78-89 | one listing of the folder; the result follows its reply |
| DmabufHeapManager.DmabufHeapManager.FindDmabufHeapInfosBySpecification | lib/dmabuf-heap/dmabuf-heap-manager.ts:97-139 | one listing of the folder; the described entries filtered by the specification, or the listing's throw; inherited member names are described as unknown (see Findings) |
| DmabufHeapManager.DmabufHeapManager.OpenDmabufHeapByName | lib/dmabuf-heap/dmabuf-heap-manager.ts:168-197 | opens folder/name read-write and close-on-exec; a failed open returns the mapped error; otherwise a handle is created from the descriptor and the descriptor is then closed; afterwards only the handle's own descriptor is newly open, and it is not the opened descriptor, which is closed |
| DmabufHeapManager.CreateDmabufHeapManager | lib/dmabuf-heap/dmabuf-heap-manager.ts:68-95 | the folder is listed once when the manager is created; if it cannot be listed, creation throws with the listing's error as cause |
| UdmabufAllocator.UdmabufCreateStruct | lib/udmabuf/udmabuf-allocator.ts:29-33 | the create request is 24 bytes, little-endian: memfd as u32, flags as u32, offset as u64, size as u64 |
| UdmabufAllocator.UdmabufCreateStructFields | lib/udmabuf/udmabuf-allocator.ts:26-33 | the create request reads back, little-endian, as memfd, flags 1 (close-on-exec), offset 0 and size |
| UdmabufAllocator.UdmabufCreateStructIsLittleEndianOnly | lib/udmabuf/udmabuf-allocator.ts:29-33 | the request is little-endian whatever the kernel's byte order: read big-endian, memfd 1 would be 2^24 |
| UdmabufAllocator.FormatUdmabufCreateStruct | lib/udmabuf/udmabuf-allocator.ts:29-33 | filling a fresh zeroed 24-byte buffer yields exactly the request layout |
| UdmabufAllocator.UdmabufCreateResultOf | lib/udmabuf/udmabuf-allocator.ts:36-48 | a failed ioctl reports its errno; a successful one's return value is the new dma-buf |
| UdmabufAllocator.UdmabufCreateRun | lib/udmabuf/udmabuf-allocator.ts:24-49 | a create request outside its field ranges throws with no call; otherwise it is one UDMABUF_CREATE ioctl on the device carrying the request, and its result follows the reply |
| UdmabufAllocator.UdmabufCreate | lib/udmabuf/udmabuf-allocator.ts:24-49 | a memfd or size outside its field's range throws before any call; otherwise exactly one UDMABUF_CREATE ioctl on the udmabuf device carrying the request |
| UdmabufAllocator.TruncateAndSealRun | lib/udmabuf/udmabuf-allocator.ts:51-61 | sizing and sealing calls ftruncate to the size; its failure throws with its error as cause and nothing else is called; otherwise one fcntl(F_ADD_SEALS, F_SEAL_SHRINK), whose failure throws with its errno |
| UdmabufAllocator.TruncateAndSealMemfd | lib/udmabuf/udmabuf-allocator.ts:51-61 | ftruncate to the size; if it fails, throw with nothing else called; otherwise one fcntl adding F_SEAL_SHRINK, whose failure throws with its errno |
| UdmabufAllocator.AllocateResultOfCreate | lib/udmabuf/udmabuf-allocator.ts:95-107 | a failed create request is a bind failure with the same errno; a success hands back the dma-buf |
| UdmabufAllocator.AllocateRun | lib/udmabuf/udmabuf-allocator.ts:74-111 | a size that is not positive or not a multiple of the page size throws with no call; otherwise memfd_create("dmabuf_alloc", MFD_ALLOW_SEALING), whose failure is returned with its errno; otherwise the try body, then one close of the memory file |
| UdmabufAllocator.BindRun | lib/udmabuf/udmabuf-allocator.ts:92-107 | the try body: sizing and sealing, then, only if that returned, the create request, whose result becomes the allocation's |
| UdmabufAllocator.BindRunOfSteps | lib/udmabuf/udmabuf-allocator.ts:92-107 | sizing and sealing, followed by the create request only if sealing returned, make up the try body |
| UdmabufAllocator.AllocateRunOfSteps | lib/udmabuf/udmabuf-allocator.ts:84-110 | a successful memfd_create, the try body, and the close of the memory file make up an allocation of a valid size |
| UdmabufAllocator.BindRunClosesNothing | lib/udmabuf/udmabuf-allocator.ts:92-107 | the try body closes no descriptor |
| UdmabufAllocator.ValidationBeforeAnyCall | lib/udmabuf/udmabuf-allocator.ts:76-82 | the kernel is called at all exactly when the size is positive and a multiple of the page size; otherwise the allocation throws |
| UdmabufAllocator.MemfdClosedExactlyOnce | lib/udmabuf/udmabuf-allocator.ts:84-110 | a created memory file is closed exactly once, by the last call, whether the allocation returns or throws; a failed memfd_create makes no other call |
| UdmabufAllocator.SuccessfulAllocationCalls | lib/udmabuf/udmabuf-allocator.ts:84-107 | a success makes, in order: memfd_create("dmabuf_alloc", MFD_ALLOW_SEALING); ftruncate to the size; fcntl(F_ADD_SEALS, F_SEAL_SHRINK); UDMABUF_CREATE carrying that memfd and size; close. The dma-buf is the ioctl's return value |
| UdmabufAllocator.FailureCarriesKernelErrno | lib/udmabuf/udmabuf-allocator.ts:84-102 | a reported failure carries the errno of memfd_create (and nothing else was called) or of the create request |
| UdmabufAllocator.UdmabufAllocator.DetermineOptimalAllocationSize | lib/udmabuf/udmabuf-allocator.ts:68-70 | the least multiple of the allocator's page size that is not below the request |
| UdmabufAllocator.UdmabufAllocator.Allocate | lib/udmabuf/udmabuf-allocator.ts:74-111 | the calls and result follow the allocation protocol `AllocateRun`; afterwards no descriptor is left open that was not open before |
| UdmabufAllocator.UdmabufAllocator.SealAndBind | lib/udmabuf/udmabuf-allocator.ts:92-107 | the try body: size and seal the memory file, then bind it unless that threw |
| UdmabufAllocator.CreateUdmabufAllocator | lib/udmabuf/udmabuf-allocator.ts:63-66 | the page size is queried once, when the allocator is created, and the allocator keeps it and the udmabuf device |

## Left out

- The native layer (`lib/kernel-interface-impl-linux.ts`, the ioctl and syscall
  bindings, Node's `fs` and `os`) is not part of this model. The `Kernel` class
  stands for any implementation of the interface, and every proof holds for
  every reply it may give.
  - The Linux implementation's page size of 4096 is therefore one possible
    reply, not a fact of the model.
  - The same holds for its host byte-order detection: the byte order is a
    constant of the `Kernel` object, and `HostEndianBufferViewFor` takes the host
    order as a parameter.
- The ioctl's return value. `lib/udmabuf/udmabuf-allocator.ts:43` takes the
  dma-buf descriptor from the ioctl's `ret`. The Linux implementation
  (`lib/kernel-interface-impl-linux.ts:18-21`) returns only the errno, and
  `lib/kernel-interface.ts` declares no udmabuf interface. The model gives the
  ioctl reply a return value, as the udmabuf code and its tests expect.
- Descriptors created by an ioctl (the dma-bufs) are handed to the caller and
  are not tracked in `openFds`.
- Closing never fails in the model. The source never handles a failing close.
- Numbers are integers. The source's floating-point arithmetic, non-integer
  sizes (where `BigInt` would throw) and precision above 2^53 are not modelled.
  `AllocationSize.DetermineOptimalAllocationSize` computes `Math.ceil` exactly
  on integers.
- Error messages are not modelled. Each error is a datatype value that keeps the
  data the message reports: the errno, the path and the page size.
- The heap's failure result names its empty descriptor `handle`, not `dmabufFd`
  (`lib/dmabuf-heap/dmabuf-heap.ts:46`). In the model a failure simply carries
  no descriptor.
- The dup inside `DmabufHeap` throws in the Linux implementation. It is the
  `FdErr` reply here, mapped to a `Threw` outcome.
- `KernelInterface.PageSize` is a positive integer. The source's
  `determinePageSize` returns any number; a page size of zero or below would
  make the rounding divide by it, which the model does not cover.
- The ftruncate error is an opaque object in the source. The model keeps it as
  a message string, which the thrown `TruncateFailed` carries as its cause.
- DmabufHeapManager.HeapInfoByName: the model looks a name up among the
  well-known heaps only. The source also finds members inherited from
  `Object.prototype` ("constructor", "__proto__", "toString", …). That
  behaviour is modelled apart as `HeapInfoByNameAsWritten` (see Findings).
- DmabufHeapManager.DmabufHeapManager.FindDmabufHeapInfosBySpecification:
  filters the corrected descriptions, so it never throws a TypeError. The
  source throws one when a heap is named after an inherited member and
  contiguity is required or forbidden. That behaviour is
  `FilterBySpecificationAsWritten` (see Findings).
- Properties whose value is unknown are excluded by `required` but pass
  `forbidden`, because the code compares with `=== true`. The model follows the
  code. The `preferred` level filters nothing, as in the code.
- Aliasing of the well-known property objects between results is not modelled.
  Results are values.

## Findings

| source | as written | input that shows it | evidently intended | confidence | as-written member | corrected member |
|---|---|---|---|---|---|---|
| lib/dmabuf-heap/dmabuf-heap-manager.ts:48 | `wellKnownHeapPropertiesByName[name]` indexes a plain object literal, so a heap named after an `Object.prototype` member gets that inherited member as its properties; the filter then reads `physicalMemory.contiguous` of `undefined` and throws a TypeError | a heap "constructor" in the heap folder, with contiguous memory "required" | an own-property lookup: a name that is not a well-known heap has all properties unknown, and the filter never throws | medium, not executed | DmabufHeapManager.ConstructorHeapBreaksFilterAsWritten | DmabufHeapManager.FilterKeepsEveryMatch |
