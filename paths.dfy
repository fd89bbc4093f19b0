/**
 * Go's `path.Join` without its final cleaning step, and the slash-separated
 * components of a path, which is what cleaning preserves (apart from `.` and
 * `..` elements). The lemmas show that joining keeps every element's
 * components, in order, so that the scratch directory of a pull determines its
 * plain segments.
 */
module Paths {
  import opened Strings

  /**
   * `path.Join(elems...)` before cleaning: empty leading elements are skipped,
   * the rest are joined with "/"; no non-empty element at all gives "".
   */
  function Join(elems: seq<string>): string
    decreases |elems|
  {
    if |elems| == 0 then ""
    else if elems[0] == "" then Join(elems[1..])
    else JoinWith(elems, "/")
  }

  /** The collected piece as a component list: nothing when it is empty. */
  function Flush(piece: string): seq<string>
  {
    if piece == "" then [] else [piece]
  }

  /**
   * The components of `p`, scanned left to right with the characters of the
   * current component collected in `piece`: a slash ends a component.
   */
  function Split(p: string, piece: string): seq<string>
    decreases |p|
  {
    if p == "" then Flush(piece)
    else if p[0] == '/' then Flush(piece) + Split(p[1..], "")
    else Split(p[1..], piece + [p[0]])
  }

  /** The non-empty pieces of `p` between slashes, in order. */
  function Components(p: string): seq<string>
  {
    Split(p, "")
  }

  /** The components of every element of `elems`, concatenated in order. */
  function ComponentsOfAll(elems: seq<string>): seq<string>
    decreases |elems|
  {
    if |elems| == 0 then [] else Components(elems[0]) + ComponentsOfAll(elems[1..])
  }

  /** A segment that is its own single component. */
  predicate Plain(s: string)
  {
    s != "" && forall k :: 0 <= k < |s| ==> s[k] != '/'
  }

  /** Scanning `a + "/" + b` scans `a`, ends its last component, and scans `b` afresh. */
  lemma {:induction false} SplitOfSlash(a: string, b: string, piece: string)
    ensures Split(a + "/" + b, piece) == Split(a, piece) + Split(b, "")
    decreases |a|
  {
    var p := a + "/" + b;
    if a == "" {
      assert p[0] == '/' && p[1..] == b;
    } else {
      assert p[0] == a[0];
      assert p[1..] == a[1..] + "/" + b;
      if a[0] == '/' {
        SplitOfSlash(a[1..], b, "");
      } else {
        SplitOfSlash(a[1..], b, piece + [a[0]]);
      }
    }
  }

  /** Separating two paths by a slash concatenates their components. */
  lemma ComponentsOfSlash(a: string, b: string)
    ensures Components(a + "/" + b) == Components(a) + Components(b)
  {
    SplitOfSlash(a, b, "");
  }

  /** Scanning a text without slashes extends the current piece by all of it. */
  lemma {:induction false} SplitOfSlashFree(s: string, piece: string)
    requires forall k :: 0 <= k < |s| ==> s[k] != '/'
    ensures Split(s, piece) == Flush(piece + s)
    decreases |s|
  {
    if s == "" {
      assert piece + s == piece;
    } else {
      assert s[0] != '/';
      SplitOfSlashFree(s[1..], piece + [s[0]]);
      assert piece + [s[0]] + s[1..] == piece + s;
    }
  }

  /** `strings.Join(elems, "/")` has exactly the components of its elements. */
  lemma {:induction false} ComponentsOfJoinWith(elems: seq<string>)
    ensures Components(JoinWith(elems, "/")) == ComponentsOfAll(elems)
    decreases |elems|
  {
    if |elems| == 0 {
    } else if |elems| == 1 {
      assert ComponentsOfAll(elems[1..]) == [];
    } else {
      ComponentsOfSlash(elems[0], JoinWith(elems[1..], "/"));
      ComponentsOfJoinWith(elems[1..]);
    }
  }

  /** Joining keeps every element's components, in order, and adds none. */
  lemma {:induction false} ComponentsOfJoin(elems: seq<string>)
    ensures Components(Join(elems)) == ComponentsOfAll(elems)
    decreases |elems|
  {
    if |elems| == 0 {
    } else if elems[0] == "" {
      ComponentsOfJoin(elems[1..]);
    } else {
      ComponentsOfJoinWith(elems);
    }
  }

  /** A path built from plain segments splits back into exactly those segments. */
  lemma {:induction false} JoinOfPlainSegments(elems: seq<string>)
    requires forall k :: 0 <= k < |elems| ==> Plain(elems[k])
    ensures Components(Join(elems)) == elems
    decreases |elems|
  {
    ComponentsOfJoin(elems);
    PlainComponents(elems);
  }

  /** A plain segment is its own single component. */
  lemma PlainComponent(s: string)
    requires Plain(s)
    ensures Components(s) == [s]
  {
    SplitOfSlashFree(s, "");
    assert "" + s == s;
  }

  /** Plain segments are their own components. */
  lemma {:induction false} PlainComponents(elems: seq<string>)
    requires forall k :: 0 <= k < |elems| ==> Plain(elems[k])
    ensures ComponentsOfAll(elems) == elems
    decreases |elems|
  {
    if |elems| > 0 {
      PlainComponent(elems[0]);
      PlainComponents(elems[1..]);
    }
  }
}
