/**
 * The wrapper around a file attached to a chat message in the playground:
 * it derives the file's display name, type and path from what the message
 * carries, and shows or hides the file when its title is clicked.
 */
module FileCard {

  /**
   * `r` is the text of `s` after its last `sep`: a suffix of `s` holding no
   * `sep`, preceded by `sep` unless it is the whole of `s`.
   */
  predicate IsLastSegment(r: string, s: string, sep: char) {
    && sep !in r
    && |r| <= |s| && r == s[|s| - |r|..]
    && (|r| < |s| ==> s[|s| - |r| - 1] == sep)
  }

  /**
   * `s.split(sep).pop() || ""`: the text after the last `sep`; the whole of
   * `s` when it holds no `sep`, and "" when it ends with one.
   */
  function LastSegment(s: string, sep: char): (r: string)
    ensures IsLastSegment(r, s, sep)
    ensures sep !in s ==> r == s
  {
    if s == [] then []
    else if s[|s| - 1] == sep then []
    else
      var n := |s| - 1;
      var prefix := LastSegment(s[..n], sep);
      assert s == s[..n] + [s[n]];
      prefix + [s[n]]
  }

  /** A non-empty suffix of `s` ends with the last character of `s`; without it, it is a suffix of the rest of `s`. */
  lemma SuffixDropLast(r: string, s: string)
    requires 0 < |r| <= |s| && r == s[|s| - |r|..]
    ensures r[|r| - 1] == s[|s| - 1]
    ensures r[..|r| - 1] == s[..|s| - 1][|s| - |r|..]
    ensures r == r[..|r| - 1] + [s[|s| - 1]]
  {
  }

  /** There is only one last segment, so `LastSegment` is the only function with the properties above. */
  lemma {:induction false} LastSegmentUnique(s: string, sep: char, r: string)
    requires IsLastSegment(r, s, sep)
    ensures r == LastSegment(s, sep)
  {
    if r == [] {
      assert s == [] || s[|s| - 1] == sep;
    } else {
      SuffixDropLast(r, s);
      var r' := r[..|r| - 1];
      assert sep !in r' by {
        assert forall c :: c in r' ==> c in r;
      }
      LastSegmentUnique(s[..|s| - 1], sep, r');
    }
  }

  /** The `path` prop: a bare path string, or an object that names the file itself. */
  datatype FilePath =
    | PathString(path: string)
    | PathObject(path: string, fileType: string, name: string)

  /** What the wrapper hands to the file card. */
  datatype FileInfo = FileInfo(name: string, fileType: string, path: string)

  /**
   * For a path string, the name is the last "/"-segment, the type the last
   * "."-segment and the path the string itself; an object's fields are taken
   * as they are.
   */
  function Describe(p: FilePath): (info: FileInfo)
    ensures p.PathString? ==>
              && info.path == p.path
              && IsLastSegment(info.name, p.path, '/')
              && IsLastSegment(info.fileType, p.path, '.')
    ensures p.PathObject? ==> info == FileInfo(p.name, p.fileType, p.path)
  {
    if p.PathString? then
      var name := LastSegment(p.path, '/');
      var fileType := LastSegment(p.path, '.');
      FileInfo(name, fileType, p.path)
    else
      FileInfo(p.name, p.fileType, p.path)
  }

  /** The type is cut at the last "." of the whole path, so a dotted directory and a plain file name give a path-like type. */
  lemma TypeOfDottedDirectory()
    ensures Describe(PathString("a.b/c")) == FileInfo("c", "b/c", "a.b/c")
  {
    LastSegmentUnique("a.b/c", '/', "c");
    LastSegmentUnique("a.b/c", '.', "b/c");
  }

  /** The component's one piece of state: whether the file is shown. */
  class FileCardWrapper {
    var show: bool

    constructor ()
      ensures show
    {
      show := true;
    }

    /** A click on the title flips whether the file is shown. */
    method Click()
      modifies this
      ensures show == !old(show)
    {
      show := !show;
    }

    /** The chevron next to the title: pointing down while the file is shown, right while it is hidden. */
    function Chevron(): (icon: string)
      reads this
      ensures icon == "ChevronDown" <==> show
      ensures icon == "ChevronRight" <==> !show
    {
      if show then "ChevronDown" else "ChevronRight"
    }
  }

  /** After `clicks` clicks the file is shown exactly when the number of clicks is even. */
  method ShownAfterClicks(clicks: nat) returns (shown: bool)
    ensures shown <==> clicks % 2 == 0
  {
    var w := new FileCardWrapper();
    var i := 0;
    while i < clicks
      invariant 0 <= i <= clicks
      invariant w.show <==> i % 2 == 0
    {
      w.Click();
      i := i + 1;
    }
    shown := w.show;
  }
}
