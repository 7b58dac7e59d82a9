/** File operations and `_copyFile`'s choice of template and destination. */
module FileOps {

  /** An entry of a writer's list: a bare path (the template and the written
      file share it) or a `{from, to}` rename. */
  datatype FileOp = Plain(path: string) | Rename(from: string, to: string)

  /** The template read and the file written for one operation. */
  datatype Copy = Copy(source: string, destination: string)

  /** `_copyFile`: a plain path is both source and destination; a `{from, to}`
      record reads `from` and writes `to`. */
  function CopyFile(f: FileOp): (c: Copy)
    ensures f.Plain? ==> c.source == f.path && c.destination == f.path
    ensures f.Rename? ==> c.source == f.from && c.destination == f.to
  {
    match f
    case Plain(path) => Copy(path, path)
    case Rename(from, to) => Copy(from, to)
  }

  /** A list with `f` applied to each element, in order. */
  function Map<A, B>(xs: seq<A>, f: A -> B): (ys: seq<B>)
    ensures |ys| == |xs| && forall i :: 0 <= i < |xs| ==> ys[i] == f(xs[i])
  {
    seq(|xs|, i requires 0 <= i < |xs| => f(xs[i]))
  }

  function Destination(f: FileOp): string
  {
    CopyFile(f).destination
  }

  /** The group `s` when `c` holds, nothing otherwise: one `if` block of a
      writer. */
  function When<T>(c: bool, s: seq<T>): seq<T>
  {
    if c then s else []
  }

  /** How many operations of a list write the given path. */
  function Writers(ops: seq<FileOp>, path: string): (n: nat)
    ensures n <= |ops|
  {
    if ops == [] then 0
    else (if Destination(ops[0]) == path then 1 else 0) + Writers(ops[1..], path)
  }

  lemma {:induction false} WritersAppend(a: seq<FileOp>, b: seq<FileOp>, path: string)
    ensures Writers(a + b, path) == Writers(a, path) + Writers(b, path)
  {
    if a != [] {
      assert (a + b)[1..] == a[1..] + b;
      WritersAppend(a[1..], b, path);
    } else {
      assert a + b == b;
    }
  }
}
