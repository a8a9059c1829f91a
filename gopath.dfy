/**
 * The lexical path operations of Go's `path` package that the manifest lookup uses:
 * `Join` of two elements and the `Clean` it applies to the result.
 */
module GoPath {

  /** The slash-separated elements of `s`; `Split("")` is `[""]`. */
  function Split(s: string): (parts: seq<string>)
    ensures |parts| > 0
    ensures forall i :: 0 <= i < |parts| ==> '/' !in parts[i]
    decreases |s|
  {
    if |s| == 0 then [""]
    else if s[0] == '/' then [""] + Split(s[1..])
    else
      var rest := Split(s[1..]);
      [[s[0]] + rest[0]] + rest[1..]
  }

  /** The elements of `parts` with one slash between neighbours. */
  function JoinSegments(parts: seq<string>): string
    decreases |parts|
  {
    if |parts| == 0 then ""
    else if |parts| == 1 then parts[0]
    else parts[0] + "/" + JoinSegments(parts[1..])
  }

  /** An element that `Clean` keeps as it is: non-empty, no slash, neither `.` nor `..`. */
  predicate IsName(s: string) {
    s != "" && s != "." && s != ".." && '/' !in s
  }

  predicate AllNames(parts: seq<string>) {
    forall i :: 0 <= i < |parts| ==> IsName(parts[i])
  }

  /**
   * Go's lexical rules on the elements, left to right, onto the stack `acc`:
   * empty and `.` elements vanish, `..` removes the preceding non-`..` element,
   * a `..` at the root of a rooted path vanishes, one at the head of a relative
   * path is kept.
   */
  function Resolve(parts: seq<string>, rooted: bool, acc: seq<string>): seq<string>
    decreases |parts|
  {
    if |parts| == 0 then acc
    else
      var p := parts[0];
      if p == "" || p == "." then Resolve(parts[1..], rooted, acc)
      else if p == ".." then
        if |acc| > 0 && acc[|acc| - 1] != ".." then Resolve(parts[1..], rooted, acc[..|acc| - 1])
        else if rooted then Resolve(parts[1..], rooted, acc)
        else Resolve(parts[1..], rooted, acc + [".."])
      else Resolve(parts[1..], rooted, acc + [p])
  }

  /** Go's `path.Clean`: the shortest lexically equivalent path, `.` when nothing remains. */
  function Clean(p: string): (c: string)
    ensures c != ""
  {
    var rooted := |p| > 0 && p[0] == '/';
    var body := JoinSegments(Resolve(Split(p), rooted, []));
    if rooted then "/" + body else if body == "" then "." else body
  }

  /** Go's `path.Join(dir, elem)`: empty elements are dropped, the rest joined by a slash and cleaned. */
  function Join(dir: string, elem: string): string {
    if dir == "" && elem == "" then ""
    else if dir == "" then Clean(elem)
    else if elem == "" then Clean(dir)
    else Clean(dir + "/" + elem)
  }

  /** A clean path given by whether it is rooted and by its elements. */
  function Render(rooted: bool, names: seq<string>): string {
    (if rooted then "/" else "") + JoinSegments(names)
  }

  lemma {:induction false} SplitJoinSegments(parts: seq<string>)
    requires |parts| > 0
    requires forall i :: 0 <= i < |parts| ==> '/' !in parts[i]
    ensures Split(JoinSegments(parts)) == parts
    decreases |parts|, |parts[0]|
  {
    if |parts| == 1 {
      SplitNoSlash(parts[0]);
    } else if parts[0] == "" {
      assert JoinSegments(parts) == "/" + JoinSegments(parts[1..]);
      assert JoinSegments(parts)[1..] == JoinSegments(parts[1..]);
      SplitJoinSegments(parts[1..]);
    } else {
      var s := JoinSegments(parts);
      var tail := [parts[0][1..]] + parts[1..];
      assert tail[1..] == parts[1..];
      assert s[1..] == JoinSegments(tail);
      SplitJoinSegments(tail);
      JoinSegmentsStart(parts);
      assert s[0] == parts[0][0] && s[0] != '/';
      assert Split(s) == [[s[0]] + tail[0]] + tail[1..];
      assert [s[0]] + tail[0] == parts[0];
      assert parts == [parts[0]] + parts[1..];
    }
  }

  lemma {:induction false} SplitNoSlash(s: string)
    requires '/' !in s
    ensures Split(s) == [s]
    decreases |s|
  {
    if |s| > 0 {
      assert '/' !in s[1..] by {
        forall i | 0 <= i < |s[1..]| ensures s[1..][i] != '/' {
          assert s[1..][i] == s[i + 1];
        }
      }
      SplitNoSlash(s[1..]);
      assert s == [s[0]] + s[1..];
    }
  }

  /** Plain names pass through `Resolve` unchanged, in order. */
  lemma {:induction false} ResolveNames(parts: seq<string>, rooted: bool, acc: seq<string>)
    requires AllNames(parts)
    ensures Resolve(parts, rooted, acc) == acc + parts
    decreases |parts|
  {
    if |parts| > 0 {
      ResolveNames(parts[1..], rooted, acc + [parts[0]]);
      assert acc + [parts[0]] + parts[1..] == acc + parts;
    }
  }

  lemma {:induction false} JoinSegmentsSnoc(names: seq<string>, elem: string)
    requires |names| > 0
    ensures JoinSegments(names + [elem]) == JoinSegments(names) + "/" + elem
    decreases |names|
  {
    var all := names + [elem];
    assert all[0] == names[0] && all[1..] == names[1..] + [elem];
    if |names| == 1 {
      assert all[1..] == [elem];
    } else {
      JoinSegmentsSnoc(names[1..], elem);
      calc {
        JoinSegments(all);
        names[0] + "/" + JoinSegments(names[1..] + [elem]);
        names[0] + "/" + (JoinSegments(names[1..]) + "/" + elem);
        (names[0] + "/" + JoinSegments(names[1..])) + "/" + elem;
      }
    }
  }

  /** A joined sequence starts with its first element. */
  lemma JoinSegmentsStart(parts: seq<string>)
    requires |parts| > 0
    ensures |JoinSegments(parts)| >= |parts[0]|
    ensures JoinSegments(parts)[..|parts[0]|] == parts[0]
  {
  }

  /**
   * Joining a plain name onto a clean path appends it as a new last element;
   * onto a non-empty clean path that is exactly `dir + "/" + elem`.
   */
  lemma JoinAppendsName(rooted: bool, names: seq<string>, elem: string)
    requires AllNames(names) && IsName(elem)
    ensures Join(Render(rooted, names), elem) == Render(rooted, names + [elem])
    ensures |names| > 0 ==> Join(Render(rooted, names), elem) == Render(rooted, names) + "/" + elem
  {
    var all := names + [elem];
    assert AllNames(all) by {
      forall i | 0 <= i < |all| ensures IsName(all[i]) {
        if i < |names| { assert all[i] == names[i]; }
      }
    }
    var dir := Render(rooted, names);
    if |names| > 0 {
      JoinSegmentsSnoc(names, elem);
    }
    if !rooted && |names| == 0 {
      SplitNoSlash(elem);
      ResolveNames([elem], false, []);
      assert Join(dir, elem) == Clean(elem);
    } else if !rooted {
      var p := dir + "/" + elem;
      assert dir == JoinSegments(names);
      assert p == JoinSegments(all);
      JoinSegmentsStart(names);
      assert dir != "" && p[0] == names[0][0] && p[0] != '/';
      SplitJoinSegments(all);
      ResolveNames(all, false, []);
      assert [] + all == all;
      assert Resolve(Split(p), false, []) == all;
      assert Clean(p) == p;
      assert Render(false, all) == p;
    } else if |names| == 0 {
      var p := dir + "/" + elem;
      assert p == "/" + "/" + elem;
      assert p[1..] == "/" + elem;
      assert p[2..] == elem;
      SplitNoSlash(elem);
      assert Split(p) == ["", "", elem];
      ResolveNames([elem], true, []);
      assert Resolve(Split(p), true, []) == Resolve([elem], true, []);
    } else {
      var p := dir + "/" + elem;
      assert p == "/" + JoinSegments(all);
      assert p[1..] == JoinSegments(all);
      SplitJoinSegments(all);
      assert Split(p) == [""] + all;
      assert ([""] + all)[1..] == all;
      ResolveNames(all, true, []);
      assert [] + all == all;
      assert Resolve(Split(p), true, []) == all;
      assert Clean(p) == "/" + JoinSegments(all);
    }
  }
}
