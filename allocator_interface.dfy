/** What both allocators hand back. A JavaScript `throw` is the `Threw` outcome;
    an error the source returns as `{ error, dmabufFd: undefined }` is a
    `Returned` value holding `AllocateFailed`. */
module AllocatorInterface {

  import opened KernelInterface

  /** Why an allocation reported failure, with the errno the kernel gave. */
  datatype AllocationError =
    | HeapAllocationFailed(errno: Errno)
    | MemfdCreateFailed(errno: Errno)
    | BufferBindFailed(errno: Errno)

  /** Exactly one of a new dma-buf descriptor and an error. */
  datatype AllocateResult = Allocated(dmabufFd: Fd) | AllocateFailed(error: AllocationError)

  /** The exceptions the core throws. */
  datatype Exception =
    | HeapFolderUnreadable(folder: string, errno: Errno)
    | HeapFolderRequired(cause: Exception)
    | DupFailed(errno: Errno)
    | SizeNotPositive
    | SizeNotPageMultiple(pageSize: PageSize)
    | TruncateFailed(truncateError: string)
    | SealFailed(errno: Errno)
    | ValueOutOfRange
    | ReadOfUndefined(property: string)

  datatype Outcome<+T> = Returned(value: T) | Threw(exception: Exception)
}
