/** The kernel interface the allocators are written against: page size, ioctl,
    dup, close, directory listing, open, memfd_create, ftruncate and fcntl. The
    kernel itself is not part of this model. `Kernel` stands for any
    implementation of the interface: each call may answer with any reply the
    interface's type allows, and the kernel keeps, as specification state, the
    set of descriptors opened through it and the log of every call made, with
    its arguments and its reply. */
module KernelInterface {

  import opened EndianBuffer

  type Fd = nat
  type Errno = int

  /** Page sizes the kernel reports are positive. */
  type PageSize = p: int | p > 0 witness 4096

  /** Reply of a call that yields a descriptor: open, dup, memfd_create. A
      failing dup throws in the interface's Linux implementation; here that is
      the `FdErr` reply. */
  datatype FdReply = FdOk(fd: Fd) | FdErr(errno: Errno)

  datatype ReaddirReply = Entries(names: seq<string>) | ReaddirErr(errno: Errno)

  /** Reply of an ioctl: the return value of the system call, or its errno. */
  datatype IoctlReply = IoctlOk(ret: nat) | IoctlErr(errno: Errno)

  /** ftruncate reports failure as an error object without an errno; the model
      keeps its message. */
  datatype FtruncateReply = Truncated | TruncateError(error: string)

  datatype FcntlReply = FcntlOk | FcntlErr(errno: Errno)

  /** One call into the kernel interface, as the log records it. */
  datatype Call =
    | PageSizeCall(pageSize: PageSize)
    | ReaddirCall(path: string, readdirReply: ReaddirReply)
    | OpenCall(path: string, flags: int, fdReply: FdReply)
    | DupCall(fd: Fd, fdReply: FdReply)
    | CloseCall(fd: Fd)
    | IoctlCall(fd: Fd, request: int, argIn: seq<u8>, argOut: seq<u8>, ioctlReply: IoctlReply)
    | MemfdCreateCall(name: string, flags: int, fdReply: FdReply)
    | FtruncateCall(fd: Fd, length: int, truncateReply: FtruncateReply)
    | FcntlCall(fd: Fd, cmd: int, arg: int, fcntlReply: FcntlReply)

  /** How many times `calls` closes `fd`. */
  function CloseCount(calls: seq<Call>, fd: Fd): (n: nat)
    ensures n <= |calls|
    ensures n == 0 <==> CloseCall(fd) !in calls
  {
    if calls == [] then 0
    else (if calls[0] == CloseCall(fd) then 1 else 0) + CloseCount(calls[1..], fd)
  }

  /** Closes of `fd` in two runs of calls add up. */
  lemma {:induction false} CloseCountAppend(a: seq<Call>, b: seq<Call>, fd: Fd)
    ensures CloseCount(a + b, fd) == CloseCount(a, fd) + CloseCount(b, fd)
  {
    if a == [] {
      assert a + b == b;
    } else {
      assert (a + b)[1..] == a[1..] + b;
      CloseCountAppend(a[1..], b, fd);
    }
  }

  /** A run that opens with a call other than closing `fd`, closes nothing in
      between, and ends by closing `fd`, closes it exactly once. */
  lemma CloseCountOfBracket(first: Call, body: seq<Call>, fd: Fd)
    requires first != CloseCall(fd) && CloseCount(body, fd) == 0
    ensures CloseCount([first] + body + [CloseCall(fd)], fd) == 1
  {
    CloseCountAppend([first] + body, [CloseCall(fd)], fd);
    CloseCountAppend([first], body, fd);
    assert CloseCount([CloseCall(fd)], fd) == 1;
    assert CloseCount([first], fd) == 0;
  }

  /** A run of at least two calls is its first call, the calls between, and
      its last call. */
  lemma SplitFirstAndLast(calls: seq<Call>)
    requires |calls| >= 2
    ensures calls == [calls[0]] + calls[1..|calls| - 1] + [calls[|calls| - 1]]
  {
  }

  class Kernel {
    /** The byte order of ioctl structures on this kernel, fixed at setup. */
    const endianness: Endianness
    ghost var openFds: set<Fd>
    ghost var log: seq<Call>
    var nextFd: Fd

    ghost predicate Valid()
      reads this
    {
      forall fd :: fd in openFds ==> fd < nextFd
    }

    constructor (endianness: Endianness)
      ensures Valid() && this.endianness == endianness
      ensures openFds == {} && log == []
    {
      this.endianness := endianness;
      openFds, log := {}, [];
      nextFd := 0;
    }

    /** Enters a descriptor no open descriptor has. */
    method NewFd() returns (fd: Fd)
      requires Valid()
      modifies this
      ensures Valid() && log == old(log)
      ensures fd !in old(openFds) && openFds == old(openFds) + {fd}
    {
      fd := nextFd;
      openFds := openFds + {fd};
      nextFd := nextFd + 1;
    }

    method DeterminePageSize() returns (pageSize: PageSize)
      requires Valid()
      modifies this
      ensures Valid() && openFds == old(openFds)
      ensures log == old(log) + [PageSizeCall(pageSize)]
    {
      pageSize :| true;
      log := log + [PageSizeCall(pageSize)];
    }

    method Readdir(path: string) returns (reply: ReaddirReply)
      requires Valid()
      modifies this
      ensures Valid() && openFds == old(openFds)
      ensures log == old(log) + [ReaddirCall(path, reply)]
    {
      reply :| true;
      log := log + [ReaddirCall(path, reply)];
    }

    /** Opens `path`; on success the descriptor is new. */
    method Open(path: string, flags: int) returns (reply: FdReply)
      requires Valid()
      modifies this
      ensures Valid() && log == old(log) + [OpenCall(path, flags, reply)]
      ensures reply.FdOk? ==> reply.fd !in old(openFds) && openFds == old(openFds) + {reply.fd}
      ensures reply.FdErr? ==> openFds == old(openFds)
    {
      reply := Acquire();
      log := log + [OpenCall(path, flags, reply)];
    }

    /** Duplicates `fd`; on success the duplicate is a new descriptor. */
    method Dup(fd: Fd) returns (reply: FdReply)
      requires Valid()
      modifies this
      ensures Valid() && log == old(log) + [DupCall(fd, reply)]
      ensures reply.FdOk? ==> reply.fd !in old(openFds) && openFds == old(openFds) + {reply.fd}
      ensures reply.FdErr? ==> openFds == old(openFds)
    {
      reply := Acquire();
      log := log + [DupCall(fd, reply)];
    }

    /** Closes `fd`; closing never fails. */
    method Close(fd: Fd)
      requires Valid()
      modifies this
      ensures Valid() && log == old(log) + [CloseCall(fd)]
      ensures openFds == old(openFds) - {fd}
    {
      openFds := openFds - {fd};
      log := log + [CloseCall(fd)];
    }

    /** Issues `request` on `fd` with `arg` passed by reference: the kernel may
        write any bytes into `arg`. Descriptors an ioctl creates are handed to
        the caller through its reply or `arg` and are not entered in `openFds`. */
    method Ioctl(fd: Fd, request: int, arg: array<u8>) returns (reply: IoctlReply)
      requires Valid()
      modifies this, arg
      ensures Valid() && openFds == old(openFds)
      ensures log == old(log) + [IoctlCall(fd, request, old(arg[..]), arg[..], reply)]
    {
      ghost var argIn := arg[..];
      assert |argIn| == arg.Length;
      var argOut: seq<u8> :| |argOut| == arg.Length;
      forall i | 0 <= i < arg.Length {
        arg[i] := argOut[i];
      }
      reply :| true;
      log := log + [IoctlCall(fd, request, argIn, arg[..], reply)];
    }

    /** Creates an anonymous memory file; on success its descriptor is new. */
    method MemfdCreate(name: string, flags: int) returns (reply: FdReply)
      requires Valid()
      modifies this
      ensures Valid() && log == old(log) + [MemfdCreateCall(name, flags, reply)]
      ensures reply.FdOk? ==> reply.fd !in old(openFds) && openFds == old(openFds) + {reply.fd}
      ensures reply.FdErr? ==> openFds == old(openFds)
    {
      reply := Acquire();
      log := log + [MemfdCreateCall(name, flags, reply)];
    }

    method Ftruncate(fd: Fd, length: int) returns (reply: FtruncateReply)
      requires Valid()
      modifies this
      ensures Valid() && openFds == old(openFds)
      ensures log == old(log) + [FtruncateCall(fd, length, reply)]
    {
      reply :| true;
      log := log + [FtruncateCall(fd, length, reply)];
    }

    method Fcntl(fd: Fd, cmd: int, arg: int) returns (reply: FcntlReply)
      requires Valid()
      modifies this
      ensures Valid() && openFds == old(openFds)
      ensures log == old(log) + [FcntlCall(fd, cmd, arg, reply)]
    {
      reply :| true;
      log := log + [FcntlCall(fd, cmd, arg, reply)];
    }

    /** Either fails with some errno or enters a new descriptor. */
    method Acquire() returns (reply: FdReply)
      requires Valid()
      modifies this
      ensures Valid() && log == old(log)
      ensures reply.FdOk? ==> reply.fd !in old(openFds) && openFds == old(openFds) + {reply.fd}
      ensures reply.FdErr? ==> openFds == old(openFds)
    {
      var fails: bool :| true;
      if fails {
        var errno: Errno :| true;
        reply := FdErr(errno);
      } else {
        var fd := NewFd();
        reply := FdOk(fd);
      }
    }
  }
}
