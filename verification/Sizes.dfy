/** Terminal sizes and the policies that choose one size for many clients. */
module Sizes {

  /** A Go uint16. */
  type Dim = d: int | 0 <= d < 0x1_0000

  const MAX_DIM: Dim := 0xFFFF

  datatype TermSize = TermSize(cols: Dim, rows: Dim, xpixel: Dim, ypixel: Dim)

  datatype Policy = Smallest | Largest | First | Last

  function Min(a: Dim, b: Dim): Dim { if a < b then a else b }

  function Max(a: Dim, b: Dim): Dim { if a < b then b else a }

  function Meet(a: TermSize, b: TermSize): TermSize
  {
    TermSize(Min(a.cols, b.cols), Min(a.rows, b.rows), Min(a.xpixel, b.xpixel), Min(a.ypixel, b.ypixel))
  }

  function Join(a: TermSize, b: TermSize): TermSize
  {
    TermSize(Max(a.cols, b.cols), Max(a.rows, b.rows), Max(a.xpixel, b.xpixel), Max(a.ypixel, b.ypixel))
  }

  function MeetAll(sizes: seq<TermSize>): TermSize
  {
    if sizes == [] then TermSize(MAX_DIM, MAX_DIM, MAX_DIM, MAX_DIM)
    else Meet(MeetAll(sizes[..|sizes| - 1]), sizes[|sizes| - 1])
  }

  function JoinAll(sizes: seq<TermSize>): TermSize
  {
    if sizes == [] then TermSize(0, 0, 0, 0)
    else Join(JoinAll(sizes[..|sizes| - 1]), sizes[|sizes| - 1])
  }

  /** The size a policy chooses for the writable clients, listed in attach order. */
  function Chosen(policy: Policy, sizes: seq<TermSize>): TermSize
    requires sizes != []
  {
    match policy
    case Smallest => MeetAll(sizes)
    case Largest => JoinAll(sizes)
    case First => sizes[0]
    case Last => sizes[|sizes| - 1]
  }

  /** `size` is, dimension by dimension, the least of `sizes` (each attained). */
  ghost predicate IsLeast(size: TermSize, sizes: seq<TermSize>)
  {
    && (forall t <- sizes ::
          size.cols <= t.cols && size.rows <= t.rows && size.xpixel <= t.xpixel && size.ypixel <= t.ypixel)
    && (exists t <- sizes :: t.cols == size.cols)
    && (exists t <- sizes :: t.rows == size.rows)
    && (exists t <- sizes :: t.xpixel == size.xpixel)
    && (exists t <- sizes :: t.ypixel == size.ypixel)
  }

  ghost predicate IsGreatest(size: TermSize, sizes: seq<TermSize>)
  {
    && (forall t <- sizes ::
          size.cols >= t.cols && size.rows >= t.rows && size.xpixel >= t.xpixel && size.ypixel >= t.ypixel)
    && (exists t <- sizes :: t.cols == size.cols)
    && (exists t <- sizes :: t.rows == size.rows)
    && (exists t <- sizes :: t.xpixel == size.xpixel)
    && (exists t <- sizes :: t.ypixel == size.ypixel)
  }

  lemma {:induction false} MeetAllIsLeast(sizes: seq<TermSize>)
    requires sizes != []
    ensures IsLeast(MeetAll(sizes), sizes)
  {
    var init, last := sizes[..|sizes| - 1], sizes[|sizes| - 1];
    assert sizes == init + [last];
    assert last in sizes;
    if init != [] {
      MeetAllIsLeast(init);
      assert forall t <- init :: t in sizes;
    }
  }

  lemma {:induction false} JoinAllIsGreatest(sizes: seq<TermSize>)
    requires sizes != []
    ensures IsGreatest(JoinAll(sizes), sizes)
  {
    var init, last := sizes[..|sizes| - 1], sizes[|sizes| - 1];
    assert sizes == init + [last];
    assert last in sizes;
    if init != [] {
      JoinAllIsGreatest(init);
      assert forall t <- init :: t in sizes;
    }
  }

  /** The policy loop, over a size accumulated in place. */
  method ApplyResizePolicy(policy: Policy, sizes: seq<TermSize>) returns (size: TermSize)
    requires sizes != []
    ensures size == Chosen(policy, sizes)
    ensures policy == Smallest ==> IsLeast(size, sizes)
    ensures policy == Largest ==> IsGreatest(size, sizes)
    ensures policy == First ==> size == sizes[0]
    ensures policy == Last ==> size == sizes[|sizes| - 1]
  {
    size := TermSize(0, 0, 0, 0);
    match policy {
      case Largest =>
        for i := 0 to |sizes|
          invariant size == JoinAll(sizes[..i])
        {
          assert sizes[..i + 1][..i] == sizes[..i];
          size := Join(size, sizes[i]);
        }
        assert sizes[..|sizes|] == sizes;
        JoinAllIsGreatest(sizes);
      case Last =>
        size := sizes[|sizes| - 1];
      case First =>
        size := sizes[0];
      case Smallest =>
        size := TermSize(MAX_DIM, MAX_DIM, MAX_DIM, MAX_DIM);
        for i := 0 to |sizes|
          invariant size == MeetAll(sizes[..i])
        {
          assert sizes[..i + 1][..i] == sizes[..i];
          size := Meet(size, sizes[i]);
        }
        assert sizes[..|sizes|] == sizes;
        MeetAllIsLeast(sizes);
    }
  }

  /** The smallest and the largest policy do not depend on the order of the clients. */
  lemma PolicyIgnoresOrder(policy: Policy, a: seq<TermSize>, b: seq<TermSize>)
    requires a != [] && multiset(a) == multiset(b)
    requires policy == Smallest || policy == Largest
    ensures b != [] && Chosen(policy, a) == Chosen(policy, b)
  {
    assert a[0] in multiset(b);
    forall t ensures t in a <==> t in b {
      assert t in a <==> t in multiset(a);
      assert t in b <==> t in multiset(b);
    }
    MeetAllIsLeast(a);
    MeetAllIsLeast(b);
    JoinAllIsGreatest(a);
    JoinAllIsGreatest(b);
  }

  // --- The size cell ---------------------------------------------------------

  /** Both dimensions in one 32-bit word, so that a reader never sees half a change. */
  function Packed(cols: Dim, rows: Dim): (v: int)
    ensures 0 <= v < 0x1_0000_0000
  {
    0x1_0000 * cols + rows
  }

  class SizeCell {
    var sizeVal: int

    ghost predicate Holds(cols: Dim, rows: Dim)
      reads this
    {
      sizeVal == Packed(cols, rows)
    }

    constructor (cols: Dim, rows: Dim)
      ensures Holds(cols, rows)
    {
      sizeVal := 0x1_0000 * cols + rows;
    }

    method SetSize(cols: Dim, rows: Dim)
      modifies this
      ensures Holds(cols, rows)
    {
      sizeVal := 0x1_0000 * cols + rows;
    }

    /** Reads back what was stored last; every stored word is read back as one pair only. */
    method Size() returns (cols: Dim, rows: Dim)
      requires 0 <= sizeVal < 0x1_0000_0000
      ensures Holds(cols, rows) && forall c: Dim, r: Dim :: Holds(c, r) ==> c == cols && r == rows
    {
      cols, rows := sizeVal / 0x1_0000, sizeVal % 0x1_0000;
    }
  }
}
