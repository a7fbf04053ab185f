/** The dma-buf heap manager: lists the heaps in a device folder, describes
    each by its well-known properties, selects heaps by a specification of
    wanted properties, and opens a heap by name into a `DmabufHeap` handle. */
module DmabufHeapManager {

  import opened KernelInterface
  import opened AllocatorInterface
  import opened DmabufHeap

  /** A property of a heap: known to hold, known not to hold, or unknown. */
  datatype TriState = True | False | Unknown

  datatype PhysicalMemory = PhysicalMemory(contiguous: TriState)

  datatype HeapProperties = HeapProperties(physicalMemory: PhysicalMemory, cachable: TriState, protected: TriState)

  datatype HeapInfo = HeapInfo(name: string, properties: HeapProperties)

  /** How much a caller cares about one property. */
  datatype PropertySpecification = Required | Preferred | Optional | Forbidden

  datatype PhysicalMemorySpecification = PhysicalMemorySpecification(contiguous: PropertySpecification)

  datatype HeapSpecification =
    HeapSpecification(physicalMemory: PhysicalMemorySpecification, cachable: PropertySpecification, protected: PropertySpecification)

  const UNKNOWN_PROPERTIES := HeapProperties(PhysicalMemory(Unknown), Unknown, Unknown)

  /** The heaps whose properties are known by name. */
  const WELL_KNOWN_HEAP_PROPERTIES_BY_NAME: map<string, HeapProperties> := map[
    "system" := HeapProperties(PhysicalMemory(False), True, False),
    "default_cma_region" := HeapProperties(PhysicalMemory(True), True, False)
  ]

  /** A heap's description: the well-known properties of its name, or all
      properties unknown. */
  function HeapInfoByName(name: string): (info: HeapInfo)
    ensures info.name == name
    ensures name == "system" ==> info.properties == HeapProperties(PhysicalMemory(False), True, False)
    ensures name == "default_cma_region" ==> info.properties == HeapProperties(PhysicalMemory(True), True, False)
    ensures name != "system" && name != "default_cma_region" ==> info.properties == UNKNOWN_PROPERTIES
  {
    if name in WELL_KNOWN_HEAP_PROPERTIES_BY_NAME then HeapInfo(name, WELL_KNOWN_HEAP_PROPERTIES_BY_NAME[name])
    else HeapInfo(name, UNKNOWN_PROPERTIES)
  }

  /** One description per directory entry, in the listing's order. */
  function HeapInfosFor(entries: seq<string>): (infos: seq<HeapInfo>)
    ensures |infos| == |entries|
    ensures forall i :: 0 <= i < |entries| ==> infos[i] == HeapInfoByName(entries[i])
  {
    if entries == [] then [] else [HeapInfoByName(entries[0])] + HeapInfosFor(entries[1..])
  }

  /** One property against its specification: a required property must be
      known to hold; a forbidden one only excludes a heap known to have it. */
  predicate PropertyPasses(level: PropertySpecification, value: TriState): (passes: bool)
    ensures level == Preferred || level == Optional ==> passes
    ensures level == Required ==> (passes <==> value == True)
    ensures level == Forbidden ==> (passes <==> value != True)
  {
    && !(level == Required && value != True)
    && !(level == Forbidden && value == True)
  }

  /** A heap matches when each of its three properties passes its level. */
  predicate MatchesSpecification(specification: HeapSpecification, properties: HeapProperties): (matches: bool)
    ensures matches <==>
            && (specification.physicalMemory.contiguous == Required ==> properties.physicalMemory.contiguous == True)
            && (specification.physicalMemory.contiguous == Forbidden ==> properties.physicalMemory.contiguous != True)
            && (specification.cachable == Required ==> properties.cachable == True)
            && (specification.cachable == Forbidden ==> properties.cachable != True)
            && (specification.protected == Required ==> properties.protected == True)
            && (specification.protected == Forbidden ==> properties.protected != True)
  {
    && PropertyPasses(specification.physicalMemory.contiguous, properties.physicalMemory.contiguous)
    && PropertyPasses(specification.cachable, properties.cachable)
    && PropertyPasses(specification.protected, properties.protected)
  }

  /** `a` is `b` with some elements left out, the rest in their order. */
  predicate IsSubsequence<T(==)>(a: seq<T>, b: seq<T>)
  {
    if a == [] then true
    else if b == [] then false
    else if a[0] == b[0] then IsSubsequence(a[1..], b[1..])
    else IsSubsequence(a, b[1..])
  }

  /** The heaps that match `specification`, in their order, and nothing else. */
  function FilterBySpecification(infos: seq<HeapInfo>, specification: HeapSpecification): (matching: seq<HeapInfo>)
    ensures IsSubsequence(matching, infos)
    ensures forall i :: 0 <= i < |matching| ==> MatchesSpecification(specification, matching[i].properties)
  {
    if infos == [] then []
    else
      var rest := FilterBySpecification(infos[1..], specification);
      if MatchesSpecification(specification, infos[0].properties) then [infos[0]] + rest else rest
  }

  /** The filter keeps every matching heap as often as it is listed. */
  lemma {:induction false} FilterKeepsEveryMatch(infos: seq<HeapInfo>, specification: HeapSpecification, info: HeapInfo)
    ensures multiset(FilterBySpecification(infos, specification))[info] ==
            if MatchesSpecification(specification, info.properties) then multiset(infos)[info] else 0
  {
    if infos != [] {
      assert infos == [infos[0]] + infos[1..];
      FilterKeepsEveryMatch(infos[1..], specification, info);
    }
  }

  /** The filter on two heaps, one by one. */
  lemma FilterOfTwo(a: HeapInfo, b: HeapInfo, specification: HeapSpecification)
    ensures FilterBySpecification([a, b], specification) ==
            (if MatchesSpecification(specification, a.properties) then [a] else [])
            + (if MatchesSpecification(specification, b.properties) then [b] else [])
  {
    assert [a, b][1..] == [b];
    assert [b][1..] == [];
  }

  /** A specification without required or forbidden properties keeps every heap. */
  lemma {:induction false} UnconstrainedSpecificationKeepsAll(infos: seq<HeapInfo>, specification: HeapSpecification)
    requires specification.physicalMemory.contiguous != Required && specification.physicalMemory.contiguous != Forbidden
    requires specification.cachable != Required && specification.cachable != Forbidden
    requires specification.protected != Required && specification.protected != Forbidden
    ensures FilterBySpecification(infos, specification) == infos
  {
    if infos != [] {
      assert MatchesSpecification(specification, infos[0].properties);
      UnconstrainedSpecificationKeepsAll(infos[1..], specification);
      assert infos == [infos[0]] + infos[1..];
    }
  }

  /** Filtering twice by one specification filters once. */
  lemma {:induction false} FilterIdempotent(infos: seq<HeapInfo>, specification: HeapSpecification)
    ensures FilterBySpecification(FilterBySpecification(infos, specification), specification)
            == FilterBySpecification(infos, specification)
  {
    if infos != [] {
      FilterIdempotent(infos[1..], specification);
    }
  }

  /** A heap whose properties are all unknown passes exactly when no property
      is required: forbidding a property does not exclude it. */
  lemma UnknownHeapPassesUnlessRequired(specification: HeapSpecification)
    ensures MatchesSpecification(specification, UNKNOWN_PROPERTIES) <==>
            && specification.physicalMemory.contiguous != Required
            && specification.cachable != Required
            && specification.protected != Required
  {
  }

  /** On the heaps "system" and "default_cma_region": requiring contiguous
      memory selects the latter, forbidding it the former, and requiring
      cachable memory both. */
  lemma WellKnownHeapFilterExamples()
    ensures var infos := HeapInfosFor(["system", "default_cma_region"]);
            && FilterBySpecification(infos, HeapSpecification(PhysicalMemorySpecification(Required), Optional, Optional))
               == [HeapInfo("default_cma_region", HeapProperties(PhysicalMemory(True), True, False))]
            && FilterBySpecification(infos, HeapSpecification(PhysicalMemorySpecification(Forbidden), Optional, Optional))
               == [HeapInfo("system", HeapProperties(PhysicalMemory(False), True, False))]
            && FilterBySpecification(infos, HeapSpecification(PhysicalMemorySpecification(Optional), Required, Optional))
               == infos
  {
    var infos := HeapInfosFor(["system", "default_cma_region"]);
    var system := HeapInfo("system", HeapProperties(PhysicalMemory(False), True, False));
    var cma := HeapInfo("default_cma_region", HeapProperties(PhysicalMemory(True), True, False));
    assert infos == [system, cma];
    FilterOfTwo(system, cma, HeapSpecification(PhysicalMemorySpecification(Required), Optional, Optional));
    FilterOfTwo(system, cma, HeapSpecification(PhysicalMemorySpecification(Forbidden), Optional, Optional));
    FilterOfTwo(system, cma, HeapSpecification(PhysicalMemorySpecification(Optional), Required, Optional));
  }

  /** The members every JavaScript object inherits from `Object.prototype`.
      Indexing an object literal with one of these names finds the inherited
      member, not `undefined`. */
  const OBJECT_PROTOTYPE_MEMBERS: set<string> := {
    "constructor", "__proto__", "__defineGetter__", "__defineSetter__",
    "__lookupGetter__", "__lookupSetter__", "hasOwnProperty", "isPrototypeOf",
    "propertyIsEnumerable", "toLocaleString", "toString", "valueOf"
  }

  /** What indexing the object literal of well-known heaps yields: a properties
      record, or an inherited member, which has none of `physicalMemory`,
      `cachable` and `protected`. */
  datatype LookedUpProperties = PropertyRecord(properties: HeapProperties) | InheritedMember

  datatype HeapInfoAsWritten = HeapInfoAsWritten(name: string, lookedUp: LookedUpProperties)

  /** The description the model uses for one the source computes: an inherited
      member counts as all properties unknown. */
  function CorrectedInfo(info: HeapInfoAsWritten): HeapInfo
  {
    match info.lookedUp
    case PropertyRecord(properties) => HeapInfo(info.name, properties)
    case InheritedMember => HeapInfo(info.name, UNKNOWN_PROPERTIES)
  }

  function CorrectedInfos(infos: seq<HeapInfoAsWritten>): (corrected: seq<HeapInfo>)
    ensures |corrected| == |infos|
    ensures forall i :: 0 <= i < |infos| ==> corrected[i] == CorrectedInfo(infos[i])
  {
    if infos == [] then [] else [CorrectedInfo(infos[0])] + CorrectedInfos(infos[1..])
  }

  /** A heap's description as the source computes it, indexing the object
      literal of well-known heaps with the name itself: a name of an inherited
      member finds that member. Every other name is described as by
      `HeapInfoByName`. */
  function HeapInfoByNameAsWritten(name: string): (info: HeapInfoAsWritten)
    ensures info.name == name
    ensures info.lookedUp.InheritedMember? <==> name in OBJECT_PROTOTYPE_MEMBERS
    ensures CorrectedInfo(info) == HeapInfoByName(name)
  {
    if name in WELL_KNOWN_HEAP_PROPERTIES_BY_NAME then HeapInfoAsWritten(name, PropertyRecord(WELL_KNOWN_HEAP_PROPERTIES_BY_NAME[name]))
    else if name in OBJECT_PROTOTYPE_MEMBERS then HeapInfoAsWritten(name, InheritedMember)
    else HeapInfoAsWritten(name, PropertyRecord(UNKNOWN_PROPERTIES))
  }

  predicate ConstrainsContiguity(specification: HeapSpecification)
  {
    specification.physicalMemory.contiguous == Required || specification.physicalMemory.contiguous == Forbidden
  }

  /** The source's test of one heap. Contiguity is tested first, and only a
      required or forbidden level reads `physicalMemory.contiguous`, which
      throws a TypeError on an inherited member. The member's other properties
      read as `undefined`, that is, as unknown. */
  function MatchesAsWritten(specification: HeapSpecification, lookedUp: LookedUpProperties): Outcome<bool>
  {
    match lookedUp
    case PropertyRecord(properties) => Returned(MatchesSpecification(specification, properties))
    case InheritedMember =>
      if ConstrainsContiguity(specification) then Threw(ReadOfUndefined("contiguous"))
      else Returned(MatchesSpecification(specification, UNKNOWN_PROPERTIES))
  }

  /** The source's filter over descriptions it computed; the first throwing
      test ends it. */
  function FilterBySpecificationAsWritten(infos: seq<HeapInfoAsWritten>, specification: HeapSpecification): Outcome<seq<HeapInfoAsWritten>>
  {
    if infos == [] then Returned([])
    else
      match MatchesAsWritten(specification, infos[0].lookedUp)
      case Threw(exception) => Threw(exception)
      case Returned(keep) =>
        match FilterBySpecificationAsWritten(infos[1..], specification)
        case Threw(exception) => Threw(exception)
        case Returned(rest) => Returned(if keep then [infos[0]] + rest else rest)
  }

  /** The source's filter throws exactly when contiguity is required or
      forbidden and some heap's name is an inherited member's. Otherwise it
      selects the heaps that the filter of the model selects. */
  lemma {:induction false} FilterAsWrittenThrowsOnlyOnInheritedNames(infos: seq<HeapInfoAsWritten>, specification: HeapSpecification)
    ensures FilterBySpecificationAsWritten(infos, specification).Threw? <==>
            ConstrainsContiguity(specification) && exists i :: 0 <= i < |infos| && infos[i].lookedUp.InheritedMember?
    ensures FilterBySpecificationAsWritten(infos, specification).Returned? ==>
            CorrectedInfos(FilterBySpecificationAsWritten(infos, specification).value)
            == FilterBySpecification(CorrectedInfos(infos), specification)
  {
    if infos != [] {
      FilterAsWrittenThrowsOnlyOnInheritedNames(infos[1..], specification);
      assert CorrectedInfos(infos)[1..] == CorrectedInfos(infos[1..]);
      if ConstrainsContiguity(specification) && infos[0].lookedUp.InheritedMember? {
        assert FilterBySpecificationAsWritten(infos, specification).Threw?;
      } else if exists i :: 0 <= i < |infos[1..]| && infos[1..][i].lookedUp.InheritedMember? {
        var i :| 0 <= i < |infos[1..]| && infos[1..][i].lookedUp.InheritedMember?;
        assert infos[i + 1].lookedUp.InheritedMember?;
      }
    }
  }

  /** A heap named "constructor" makes the source's filter throw when it asks
      for contiguous memory, while the model's filter returns no heap. */
  lemma ConstructorHeapBreaksFilterAsWritten()
    ensures var specification := HeapSpecification(PhysicalMemorySpecification(Required), Optional, Optional);
            && FilterBySpecificationAsWritten([HeapInfoByNameAsWritten("constructor")], specification)
               == Threw(ReadOfUndefined("contiguous"))
            && FilterBySpecification([HeapInfoByName("constructor")], specification) == []
  {
    var specification := HeapSpecification(PhysicalMemorySpecification(Required), Optional, Optional);
    assert [HeapInfoByNameAsWritten("constructor")][1..] == [];
    assert [HeapInfoByName("constructor")][1..] == [];
  }

  const O_RDWR: bv32 := 0x02
  const O_CLOEXEC: bv32 := 0x80000

  /** Flags a heap is opened with: read-write, closed on exec. */
  const HEAP_OPEN_FLAGS: int := (O_RDWR | O_CLOEXEC) as int

  const ENOENT: Errno := 2
  const EACCES: Errno := 13

  /** Why opening a heap by name failed. */
  datatype OpenError =
    | HeapDoesNotExist(path: string)
    | HeapPermissionDenied(path: string)
    | HeapOpenFailed(path: string, errno: Errno)

  datatype OpenByNameResult = OpenedHeap(dmabufHeap: DmabufHeap) | OpenByNameFailed(error: OpenError)

  /** The errno an open error stands for. */
  function ErrnoOfOpenError(error: OpenError): Errno
  {
    match error
    case HeapDoesNotExist(_) => ENOENT
    case HeapPermissionDenied(_) => EACCES
    case HeapOpenFailed(_, errno) => errno
  }

  /** The error for an open of `path` that failed with `errno`: a missing heap
      and a refused permission have their own; the rest keep the errno. */
  function CreateOpenErrorByErrno(errno: Errno, path: string): (error: OpenError)
    ensures error.path == path
    ensures ErrnoOfOpenError(error) == errno
    ensures error.HeapDoesNotExist? <==> errno == ENOENT
    ensures error.HeapPermissionDenied? <==> errno == EACCES
  {
    if errno == ENOENT then HeapDoesNotExist(path)
    else if errno == EACCES then HeapPermissionDenied(path)
    else HeapOpenFailed(path, errno)
  }

  /** The folder Linux exposes its dma-buf heaps in. */
  function FindDefaultDmabufHeapDevFolder(): string
  {
    "/dev/dma_heap"
  }

  /** The heap "system" of the default folder is at "/dev/dma_heap/system". */
  lemma DefaultSystemHeapPath()
    ensures HeapPath(FindDefaultDmabufHeapDevFolder(), "system") == "/dev/dma_heap/system"
  {
  }

  /** The device path of heap `name` in `folder`. */
  function HeapPath(folder: string, name: string): (path: string)
    ensures |path| == |folder| + 1 + |name|
    ensures path[..|folder|] == folder && path[|folder|] == '/' && path[|folder| + 1..] == name
  {
    folder + "/" + name
  }

  /** What listing `folder` makes of the directory's reply: an unreadable
      folder throws, otherwise one description per entry. */
  function ListingOutcome(folder: string, reply: ReaddirReply): (r: Outcome<seq<HeapInfo>>)
    ensures r.Threw? <==> reply.ReaddirErr?
    ensures reply.ReaddirErr? ==> r.exception == HeapFolderUnreadable(folder, reply.errno)
    ensures reply.Entries? ==> r.value == HeapInfosFor(reply.names)
  {
    match reply
    case ReaddirErr(errno) => Threw(HeapFolderUnreadable(folder, errno))
    case Entries(names) => Returned(HeapInfosFor(names))
  }

  /** The handle's outcome inside an open by name that got past the open. */
  function HeapOutcomeOf(r: Outcome<OpenByNameResult>): Outcome<DmabufHeap>
    requires !(r.Returned? && r.value.OpenByNameFailed?)
  {
    match r
    case Threw(exception) => Threw(exception)
    case Returned(result) => Returned(result.dmabufHeap)
  }

  /** The calls opening heap `path` makes, and what it yields: one open; if it
      fails, nothing else and the mapped error; otherwise the calls creating a
      handle from the opened descriptor, then one close of that descriptor,
      whether or not the handle could be created. */
  ghost predicate OpenByNameRun(path: string, trace: seq<Call>, r: Outcome<OpenByNameResult>)
  {
    && |trace| >= 1
    && trace[0].OpenCall?
    && trace[0].path == path
    && trace[0].flags == HEAP_OPEN_FLAGS
    && match trace[0].fdReply
       case FdErr(errno) => trace == [trace[0]] && r == Returned(OpenByNameFailed(CreateOpenErrorByErrno(errno, path)))
       case FdOk(fd) =>
         && |trace| >= 2
         && trace[|trace| - 1] == CloseCall(fd)
         && !(r.Returned? && r.value.OpenByNameFailed?)
         && HeapConstructionRun(fd, trace[1..|trace| - 1], HeapOutcomeOf(r))
  }

  /** The descriptor an open by name opens is closed exactly once, as its last
      call; a failing open makes no other call. */
  lemma OpenedDescriptorClosedOnce(path: string, trace: seq<Call>, r: Outcome<OpenByNameResult>)
    requires OpenByNameRun(path, trace, r)
    ensures trace[0].fdReply.FdOk? ==> trace[|trace| - 1] == CloseCall(trace[0].fdReply.fd)
                                       && CloseCount(trace, trace[0].fdReply.fd) == 1
    ensures trace[0].fdReply.FdErr? ==> |trace| == 1
  {
    if trace[0].fdReply.FdOk? {
      var fd := trace[0].fdReply.fd;
      var inner := trace[1..|trace| - 1];
      SplitFirstAndLast(trace);
      CloseCountOfBracket(trace[0], inner, fd);
    }
  }

  class DmabufHeapManager {
    const kernel: Kernel
    const dmabufHeapDevFolder: string

    constructor (dmabufHeapDevFolder: string, kernel: Kernel)
      ensures this.kernel == kernel && this.dmabufHeapDevFolder == dmabufHeapDevFolder
    {
      this.kernel := kernel;
      this.dmabufHeapDevFolder := dmabufHeapDevFolder;
    }

    /** Lists the heap folder once and describes every entry. */
    method FindAvailableDmabufHeapInfos() returns (r: Outcome<seq<HeapInfo>>)
      requires kernel.Valid()
      modifies kernel
      ensures kernel.Valid() && kernel.openFds == old(kernel.openFds)
      ensures |kernel.log| == |old(kernel.log)| + 1 && old(kernel.log) <= kernel.log
      ensures var call := kernel.log[|old(kernel.log)|];
              call.ReaddirCall? && call.path == dmabufHeapDevFolder
              && r == ListingOutcome(dmabufHeapDevFolder, call.readdirReply)
    {
      var reply := kernel.Readdir(dmabufHeapDevFolder);
      if reply.ReaddirErr? {
        return Threw(HeapFolderUnreadable(dmabufHeapDevFolder, reply.errno));
      }
      return Returned(HeapInfosFor(reply.names));
    }

    /** Lists the heap folder once and keeps the heaps matching `specification`. */
    method FindDmabufHeapInfosBySpecification(specification: HeapSpecification) returns (r: Outcome<seq<HeapInfo>>)
      requires kernel.Valid()
      modifies kernel
      ensures kernel.Valid() && kernel.openFds == old(kernel.openFds)
      ensures |kernel.log| == |old(kernel.log)| + 1 && old(kernel.log) <= kernel.log
      ensures var call := kernel.log[|old(kernel.log)|];
              && call.ReaddirCall? && call.path == dmabufHeapDevFolder
              && (call.readdirReply.ReaddirErr? ==> r == Threw(HeapFolderUnreadable(dmabufHeapDevFolder, call.readdirReply.errno)))
              && (call.readdirReply.Entries? ==>
                    r == Returned(FilterBySpecification(HeapInfosFor(call.readdirReply.names), specification)))
    {
      var available := FindAvailableDmabufHeapInfos();
      if available.Threw? {
        return available;
      }
      return Returned(FilterBySpecification(available.value, specification));
    }

    /** Opens heap `name` of the folder, hands its descriptor to a new handle,
        which keeps a duplicate, and closes the opened descriptor in every case. */
    method OpenDmabufHeapByName(name: string) returns (r: Outcome<OpenByNameResult>)
      requires kernel.Valid()
      modifies kernel
      ensures kernel.Valid() && old(kernel.log) <= kernel.log
      ensures OpenByNameRun(HeapPath(dmabufHeapDevFolder, name), kernel.log[|old(kernel.log)|..], r)
      ensures r.Returned? && r.value.OpenedHeap? ==>
                && fresh(r.value.dmabufHeap) && r.value.dmabufHeap.kernel == kernel
                && r.value.dmabufHeap.dmabufHeapFd !in old(kernel.openFds)
                && kernel.openFds == old(kernel.openFds) + {r.value.dmabufHeap.dmabufHeapFd}
                && r.value.dmabufHeap.dmabufHeapFd != kernel.log[|old(kernel.log)|].fdReply.fd
      ensures !(r.Returned? && r.value.OpenedHeap?) ==> kernel.openFds == old(kernel.openFds)
    {
      ghost var before := kernel.log;
      var path := HeapPath(dmabufHeapDevFolder, name);
      var openReply := kernel.Open(path, HEAP_OPEN_FLAGS);
      if openReply.FdErr? {
        r := Returned(OpenByNameFailed(CreateOpenErrorByErrno(openReply.errno, path)));
        assert kernel.log[|before|..] == [OpenCall(path, HEAP_OPEN_FLAGS, openReply)];
        return;
      }
      ghost var afterOpen := kernel.log;
      ghost var openFdsAfterOpen := kernel.openFds;
      var heap := OpenDmabufHeapAllocatorByDuppingFd(kernel, openReply.fd);
      ghost var inner := kernel.log[|afterOpen|..];
      kernel.Close(openReply.fd);
      if heap.Threw? {
        r := Threw(heap.exception);
      } else {
        r := Returned(OpenedHeap(heap.value));
      }
      assert HeapOutcomeOf(r) == heap;
      assert kernel.log[|before|..] == [OpenCall(path, HEAP_OPEN_FLAGS, openReply)] + inner + [CloseCall(openReply.fd)];
      assert kernel.log[|before|..][1..|kernel.log[|before|..]| - 1] == inner;
    }
  }

  /** Creates a manager for `dmabufHeapDevFolder`, which must be listable: it
      is listed once, and a failure throws with the listing's error as cause. */
  method CreateDmabufHeapManager(dmabufHeapDevFolder: string, kernel: Kernel) returns (r: Outcome<DmabufHeapManager>)
    requires kernel.Valid()
    modifies kernel
    ensures kernel.Valid() && kernel.openFds == old(kernel.openFds)
    ensures |kernel.log| == |old(kernel.log)| + 1 && old(kernel.log) <= kernel.log
    ensures var call := kernel.log[|old(kernel.log)|];
            && call.ReaddirCall? && call.path == dmabufHeapDevFolder
            && (r.Threw? <==> call.readdirReply.ReaddirErr?)
            && (call.readdirReply.ReaddirErr? ==>
                  r.exception == HeapFolderRequired(HeapFolderUnreadable(dmabufHeapDevFolder, call.readdirReply.errno)))
    ensures r.Returned? ==> fresh(r.value) && r.value.kernel == kernel && r.value.dmabufHeapDevFolder == dmabufHeapDevFolder
  {
    var manager := new DmabufHeapManager(dmabufHeapDevFolder, kernel);
    var probe := manager.FindAvailableDmabufHeapInfos();
    if probe.Threw? {
      return Threw(HeapFolderRequired(probe.exception));
    }
    return Returned(manager);
  }
}
