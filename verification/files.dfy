/** An abstract file system: each path names the sequence of lines appended
    to it so far. Text formatting of numbers is not modelled; a data line
    keeps its two values exactly. */
module Files {
  import opened Wrappers

  /** One line of an output file: the column header, or one reading. */
  datatype Line = Header | Data(elapsed: real, value: real)

  type Path = string

  type FileSystem = map<Path, seq<Line>>

  /** The lines of `p`; a path that does not exist reads as empty. */
  function Contents(fs: FileSystem, p: Path): seq<Line> {
    if p in fs then fs[p] else []
  }

  /** `p` exists in both or in neither, with the same lines. */
  predicate SameFile(before: FileSystem, after: FileSystem, p: Path) {
    (p in before <==> p in after) && Contents(before, p) == Contents(after, p)
  }

  /** Every path other than `p` is left as it was. */
  ghost predicate OnlyChanged(before: FileSystem, after: FileSystem, p: Path) {
    forall q :: q != p ==> SameFile(before, after, q)
  }

  /** Opening `p` in append mode and writing one line: the file is created if
      missing, gains exactly `line` at its end, and nothing else changes. */
  function Append(fs: FileSystem, p: Path, line: Line): (r: FileSystem)
    ensures p in r && r.Keys == fs.Keys + {p}
    ensures Contents(r, p) == Contents(fs, p) + [line]
    ensures OnlyChanged(fs, r, p)
  {
    fs[p := Contents(fs, p) + [line]]
  }

  /** Append `line` to the output file `target` when there is one; with no
      output file nothing changes. */
  function AppendTo(fs: FileSystem, target: Option<Path>, line: Line): (r: FileSystem)
    ensures target.None? ==> r == fs
    ensures target.Some? ==> target.value in r && r.Keys == fs.Keys + {target.value}
    ensures target.Some? ==> Contents(r, target.value) == Contents(fs, target.value) + [line]
    ensures target.Some? ==> OnlyChanged(fs, r, target.value)
  {
    match target
    case None => fs
    case Some(p) => Append(fs, p, line)
  }

  /** Changes confined to `p` compose. */
  lemma OnlyChangedTrans(a: FileSystem, b: FileSystem, c: FileSystem, p: Path)
    requires OnlyChanged(a, b, p) && OnlyChanged(b, c, p)
    ensures OnlyChanged(a, c, p)
  {
    forall q | q != p
      ensures SameFile(a, c, q)
    {
      assert SameFile(a, b, q) && SameFile(b, c, q);
    }
  }
}
