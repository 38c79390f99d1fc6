/** java.io.File path handling on '/'-separated path strings. */
module Paths {
  import opened Common
  import opened Strings

  /** A trailing separator is dropped, as `File` normalises it away (the root "/" stays). */
  function StripTrailingSlashes(p: string): (r: string)
    ensures r <= p
    ensures |r| <= 1 || r[|r| - 1] != '/'
    decreases |p|
  {
    if |p| > 1 && p[|p| - 1] == '/' then StripTrailingSlashes(p[..|p| - 1]) else p
  }

  /** `new File(parent, child).getPath()`. */
  function Child(parent: string, child: string): (r: string)
    ensures EndsWith(r, child)
  {
    if EndsWith(parent, "/") then parent + child else parent + "/" + child
  }

  /** A joined path is the parent, one separator and the child: the parent's
    * own trailing '/' serves as the separator, otherwise one is inserted. */
  lemma ChildJoins(parent: string, child: string)
    ensures var r := Child(parent, child);
      && StartsWith(r, parent) && EndsWith(r, child)
      && |child| < |r| && r[|r| - |child| - 1] == '/'
      && |r| == |parent| + |child| + (if EndsWith(parent, "/") then 0 else 1)
  {
  }

  /** `Project.file(path)`: an absolute path is kept, a relative one resolved against `dir`. */
  function Resolve(dir: string, path: string): string {
    if StartsWith(path, "/") then path else Child(dir, path)
  }

  /** `File.getName()`: the last name in the path. */
  function FileName(p: string): (r: string)
    ensures '/' !in r
  {
    var q := StripTrailingSlashes(p);
    if '/' in q then SubstringAfterLastChar(q, '/') else q
  }

  /** `File.getParent()`: the path without its last name, or null when it has a single name. */
  function Parent(p: string): (r: Option<string>)
  {
    var q := StripTrailingSlashes(p);
    var i := LastIndexOfChar(q, '/');
    if i < 0 then None
    else if i == 0 then (if |q| == 1 then None else Some("/"))
    else Some(q[..i])
  }

  /** A path below some directory is that directory joined with its name. */
  lemma {:induction false} ParentChildFileName(p: string)
    requires Parent(p).Some? && !EndsWith(Parent(p).value, "/")
    ensures StripTrailingSlashes(p) == Child(Parent(p).value, FileName(p))
  {
    var q := StripTrailingSlashes(p);
    var i := LastIndexOfChar(q, '/');
    assert q[i] == '/';
    assert '/' in q;
    assert q == q[..i] + "/" + q[i + 1..];
  }

  /** Joining a name without separators gives a path whose parent and name are the two parts. */
  lemma {:induction false} ChildParts(parent: string, child: string)
    requires |parent| > 1 && parent[|parent| - 1] != '/'
    requires child != "" && '/' !in child
    ensures Parent(Child(parent, child)) == Some(parent)
    ensures FileName(Child(parent, child)) == child
  {
    var j := parent + "/" + child;
    assert !EndsWith(parent, "/");
    assert Child(parent, child) == j;
    assert StripTrailingSlashes(j) == j;
    var i := LastIndexOfChar(j, '/');
    assert j[|parent|] == '/';
    assert i == |parent| by {
      forall k | |parent| < k < |j| ensures j[k] != '/' {
        assert j[k] == child[k - |parent| - 1];
      }
    }
    assert j[..i] == parent;
    assert '/' in j;
  }
}
