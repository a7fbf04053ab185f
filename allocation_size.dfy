/** Rounding a requested size up to whole pages. The source divides in floating
    point and rounds up with `Math.ceil`; here the same quantity is computed on
    integers. */
module AllocationSize {

  import opened DivMod

  /** The number of pages that hold `minimumSize` bytes: ceil(minimumSize / pageSize). */
  function PagesNeeded(minimumSize: int, pageSize: int): (pages: int)
    requires pageSize > 0
    ensures (pages - 1) * pageSize < minimumSize <= pages * pageSize
  {
    var a := minimumSize + pageSize - 1;
    assert a == pageSize * (a / pageSize) + a % pageSize;
    a / pageSize
  }

  /** The size actually allocated for a request of at least `minimumSize` bytes:
      the least multiple of the page size that is not below the request. */
  function DetermineOptimalAllocationSize(minimumSize: int, pageSize: int): (size: int)
    requires pageSize > 0
    ensures size % pageSize == 0
    ensures minimumSize <= size < minimumSize + pageSize
  {
    var pages := PagesNeeded(minimumSize, pageSize);
    ModUnique(pages * pageSize, pageSize, pages, 0);
    pages * pageSize
  }

  /** The rounded size is the only multiple of the page size in the window
      [minimumSize, minimumSize + pageSize). */
  lemma {:induction false} UniqueMultipleInWindow(minimumSize: int, pageSize: int, size: int)
    requires pageSize > 0 && size % pageSize == 0
    requires minimumSize <= size < minimumSize + pageSize
    ensures size == DetermineOptimalAllocationSize(minimumSize, pageSize)
  {
    var rounded := DetermineOptimalAllocationSize(minimumSize, pageSize);
    var a, b := size / pageSize, rounded / pageSize;
    assert size == a * pageSize;
    assert rounded == b * pageSize;
    MultiplesApart(pageSize, a, b);
  }

  /** No smaller multiple of the page size holds the request. */
  lemma SmallestMultiple(minimumSize: int, pageSize: int, other: int)
    requires pageSize > 0 && other % pageSize == 0 && other >= minimumSize
    ensures DetermineOptimalAllocationSize(minimumSize, pageSize) <= other
  {
    var rounded := DetermineOptimalAllocationSize(minimumSize, pageSize);
    if other < rounded {
      UniqueMultipleInWindow(minimumSize, pageSize, other);
    }
  }

  /** Rounding an already rounded size changes nothing. */
  lemma Idempotent(minimumSize: int, pageSize: int)
    requires pageSize > 0
    ensures var size := DetermineOptimalAllocationSize(minimumSize, pageSize);
            DetermineOptimalAllocationSize(size, pageSize) == size
  {
    var size := DetermineOptimalAllocationSize(minimumSize, pageSize);
    UniqueMultipleInWindow(size, pageSize, size);
  }

  /** Every request in ((pages - 1) * pageSize, pages * pageSize] needs `pages`
      whole pages: sizes 1 to pageSize give one page, the next pageSize sizes two. */
  lemma WholePages(minimumSize: int, pageSize: int, pages: int)
    requires pageSize > 0
    requires (pages - 1) * pageSize < minimumSize <= pages * pageSize
    ensures DetermineOptimalAllocationSize(minimumSize, pageSize) == pages * pageSize
  {
    assert pages * pageSize - pageSize == (pages - 1) * pageSize;
    ModUnique(pages * pageSize, pageSize, pages, 0);
    UniqueMultipleInWindow(minimumSize, pageSize, pages * pageSize);
  }

  /** The rounding expected with 4 KiB pages, from a single byte to one byte
      past the first page. */
  lemma PageSize4096Examples()
    ensures DetermineOptimalAllocationSize(1, 4096) == 4096
    ensures DetermineOptimalAllocationSize(2, 4096) == 4096
    ensures DetermineOptimalAllocationSize(3, 4096) == 4096
    ensures DetermineOptimalAllocationSize(42, 4096) == 4096
    ensures DetermineOptimalAllocationSize(128, 4096) == 4096
    ensures DetermineOptimalAllocationSize(4095, 4096) == 4096
    ensures DetermineOptimalAllocationSize(4096, 4096) == 4096
    ensures DetermineOptimalAllocationSize(4097, 4096) == 8192
  {
  }

  /** The rounding the udmabuf allocator is expected to report with 4 KiB
      pages, including a 1920x1080 RGBA frame, which is exactly 2025 pages. */
  lemma UdmabufPageSize4096Examples()
    ensures DetermineOptimalAllocationSize(1, 4096) == 4096
    ensures DetermineOptimalAllocationSize(4096, 4096) == 4096
    ensures DetermineOptimalAllocationSize(4097, 4096) == 8192
    ensures DetermineOptimalAllocationSize(8192, 4096) == 8192
    ensures DetermineOptimalAllocationSize(1920 * 1080 * 4, 4096) == 2025 * 4096
  {
  }
}
