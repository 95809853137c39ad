/** The composite demo: a file-system tree whose size is the sum of the sizes
    of its files. A directory that is itself nested as a child is captured
    here as a value, Folder. */
module Composite {

  datatype FileSystemNode = File(size: int) | Folder(children: seq<FileSystemNode>)

  /** FileSystemNode.GetSize: a file's stored size; a directory's children
      summed from first to last. */
  function Size(n: FileSystemNode): int
    decreases n, 1
  {
    match n
    case File(s) => s
    case Folder(cs) => SumSizes(cs)
  }

  function SumSizes(cs: seq<FileSystemNode>): int
    decreases cs, 0
  {
    if cs == [] then 0 else SumSizes(cs[..|cs| - 1]) + Size(cs[|cs| - 1])
  }

  /** Adding a child at the end adds the child's size. */
  lemma SumSizesAppend(cs: seq<FileSystemNode>, c: FileSystemNode)
    ensures SumSizes(cs + [c]) == SumSizes(cs) + Size(c)
  {
    assert (cs + [c])[..|cs|] == cs;
  }

  /** File.GetSize: a file's size is the size it was made with. */
  lemma FileSize(s: int)
    ensures Size(File(s)) == s
  {
  }

  /** An empty directory has size 0. */
  lemma EmptyFolder()
    ensures Size(Folder([])) == 0
  {
  }

  /** The sizes of the files in a tree, left to right. */
  function Leaves(n: FileSystemNode): seq<int>
    decreases n, 1
  {
    match n
    case File(s) => [s]
    case Folder(cs) => LeavesOf(cs)
  }

  function LeavesOf(cs: seq<FileSystemNode>): seq<int>
    decreases cs, 0
  {
    if cs == [] then [] else LeavesOf(cs[..|cs| - 1]) + Leaves(cs[|cs| - 1])
  }

  function Total(xs: seq<int>): int {
    if xs == [] then 0 else Total(xs[..|xs| - 1]) + xs[|xs| - 1]
  }

  lemma {:induction false} TotalAppend(xs: seq<int>, ys: seq<int>)
    ensures Total(xs + ys) == Total(xs) + Total(ys)
    decreases |ys|
  {
    if ys == [] {
      assert xs + ys == xs;
    } else {
      var init := ys[..|ys| - 1];
      assert (xs + ys)[..|xs + ys| - 1] == xs + init;
      TotalAppend(xs, init);
    }
  }

  /** A directory's size is the total of the sizes of all files anywhere
      below it. */
  lemma {:induction false} SizeIsLeafTotal(n: FileSystemNode)
    ensures Size(n) == Total(Leaves(n))
    decreases n, 1
  {
    match n
    case File(s) =>
      assert Total([s]) == Total([]) + s;
    case Folder(cs) =>
      SumSizesIsLeafTotal(cs);
  }

  lemma {:induction false} SumSizesIsLeafTotal(cs: seq<FileSystemNode>)
    ensures SumSizes(cs) == Total(LeavesOf(cs))
    decreases cs, 0
  {
    if cs != [] {
      SumSizesIsLeafTotal(cs[..|cs| - 1]);
      SizeIsLeafTotal(cs[|cs| - 1]);
      TotalAppend(LeavesOf(cs[..|cs| - 1]), Leaves(cs[|cs| - 1]));
    }
  }

  /** A directory object whose children list grows in place. */
  class Directory {
    var children: seq<FileSystemNode>

    constructor ()
      ensures children == []
    {
      children := [];
    }

    /** The value this directory has when it is nested in another. */
    function AsNode(): FileSystemNode
      reads this
    {
      Folder(children)
    }

    /** Sums the children's sizes with an accumulating loop. */
    method GetSize() returns (size: int)
      ensures size == SumSizes(children)
    {
      size := 0;
      var i := 0;
      while i < |children|
        invariant 0 <= i <= |children|
        invariant size == SumSizes(children[..i])
      {
        SumSizesAppend(children[..i], children[i]);
        assert children[..i + 1] == children[..i] + [children[i]];
        size := size + Size(children[i]);
        i := i + 1;
      }
      assert children[..i] == children;
    }

    /** Appends the child; the directory grows by the child's size. */
    method AddChild(child: FileSystemNode)
      modifies this
      ensures children == old(children) + [child]
      ensures SumSizes(children) == SumSizes(old(children)) + Size(child)
    {
      children := children + [child];
      SumSizesAppend(old(children), child);
    }
  }

  /** The demo: files of 200 and 300 bytes make a directory of 500. */
  method Demo() returns (size: int)
    ensures size == 500
  {
    var dir := new Directory();
    dir.AddChild(File(200));
    dir.AddChild(File(300));
    size := dir.GetSize();
  }
}
