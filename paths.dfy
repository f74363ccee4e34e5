/** The subset of `std::path` that the JSONL-to-JSON conversion relies on: building a path from a string,
    `file_name`, `file_stem`, `parent` and `push`. A path is a root marker and its components; empty
    components and `.` components do not survive parsing, `..` does. */
module Paths {
  import opened Basics
  import Seqs

  datatype Path = Path(absolute: bool, components: seq<string>)

  /** Index of the first `/` in `s`, or `|s|` when there is none. */
  function SlashIndex(s: string): (i: nat)
    ensures i <= |s| && (i < |s| ==> s[i] == '/')
    ensures forall k :: 0 <= k < i ==> s[k] != '/'
  {
    if s == [] || s[0] == '/' then 0 else 1 + SlashIndex(s[1..])
  }

  /** The pieces of `s` between slashes. */
  function SplitSlashes(s: string): seq<string>
    decreases |s|
  {
    var i := SlashIndex(s);
    if i == |s| then [s] else [s[..i]] + SplitSlashes(s[i + 1..])
  }

  function NormalComponent(segment: string): Option<string>
  {
    if segment == "" || segment == "." then None else Some(segment)
  }

  /** `PathBuf::from(s)`. */
  function FromString(s: string): Path
  {
    Path(|s| > 0 && s[0] == '/', Seqs.FilterMap(SplitSlashes(s), NormalComponent))
  }

  /** `Path::file_name`: the last component, unless the path is empty or ends in `..`. */
  function FileName(p: Path): Option<string>
  {
    if p.components != [] && p.components[|p.components| - 1] != ".." then
      Some(p.components[|p.components| - 1])
    else None
  }

  /** Index of the last `.` in `s`. */
  function LastDot(s: string): (r: Option<nat>)
    ensures r.Some? ==> r.value < |s| && s[r.value] == '.'
    ensures r.Some? ==> forall k :: r.value < k < |s| ==> s[k] != '.'
    ensures r.None? ==> forall k :: 0 <= k < |s| ==> s[k] != '.'
  {
    if s == [] then None
    else if s[|s| - 1] == '.' then Some(|s| - 1)
    else LastDot(s[..|s| - 1])
  }

  /** The last dot is found wherever it is. */
  lemma {:induction false} LastDotIs(s: string, i: nat)
    requires i < |s| && s[i] == '.'
    requires forall k :: i < k < |s| ==> s[k] != '.'
    ensures LastDot(s) == Some(i)
    decreases |s|
  {
    if i < |s| - 1 {
      var init := s[..|s| - 1];
      assert init[i] == '.';
      LastDotIs(init, i);
    }
  }

  /** `Path::file_stem`: the file name without its last extension; a name whose only dot is the leading
      one (`.jsonl`) is its own stem. */
  function FileStem(p: Path): (r: Option<string>)
    ensures r.Some? <==> FileName(p).Some?
  {
    match FileName(p)
    case None => None
    case Some(name) =>
      var dot := LastDot(name);
      if dot.None? || dot.value == 0 then Some(name) else Some(name[..dot.value])
  }

  /** `Path::parent`: the path without its last component; the root and the empty path have none. */
  function Parent(p: Path): Option<Path>
  {
    if p.components == [] then None
    else Some(Path(p.absolute, p.components[..|p.components| - 1]))
  }

  /** `PathBuf::push` of a plain file name. */
  function Push(p: Path, name: string): Path
  {
    Path(p.absolute, p.components + [name])
  }

  /** A string without slashes, other than `` and `.`, is a relative path of one component. */
  lemma {:induction false} FromPlainName(s: string)
    requires forall k :: 0 <= k < |s| ==> s[k] != '/'
    requires s != "" && s != "."
    ensures FromString(s) == Path(false, [s])
  {
    assert SlashIndex(s) == |s|;
    assert SplitSlashes(s) == [s];
    assert [s][..0] == [];
  }
}
