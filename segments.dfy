/** The short document id of a batch response: `name.split('/').last()`. */
module PathSegments {

  /** Rust's `str::split(sep)` for a single-character separator: the
      separator-free pieces between consecutive occurrences of `sep`. There is
      always at least one piece (the empty string splits into `[""]`). */
  function SplitOn(s: string, sep: char): (pieces: seq<string>)
    ensures |pieces| >= 1
    ensures forall k :: 0 <= k < |pieces| ==> sep !in pieces[k]
    ensures Join(pieces, sep) == s
    decreases |s|
  {
    if |s| == 0 then [[]]
    else
      var rest := SplitOn(s[1..], sep);
      if s[0] == sep then
        assert ([[]] + rest)[1..] == rest;
        [[]] + rest
      else
        var pieces := [[s[0]] + rest[0]] + rest[1..];
        assert |pieces| > 1 ==> pieces[1..] == rest[1..];
        assert s == [s[0]] + s[1..];
        pieces
  }

  /** The inverse of `SplitOn`: the pieces glued together with `sep`. */
  function Join(pieces: seq<string>, sep: char): string
    requires |pieces| >= 1
    decreases |pieces|
  {
    if |pieces| == 1 then pieces[0] else pieces[0] + [sep] + Join(pieces[1..], sep)
  }

  /** The id a batch element is reported under: the last piece of the name
      split at '/'. `SplitOn` always yields a piece, so the source's fallback to
      the whole name is never taken. */
  function ShortId(name: string): string
  {
    var pieces := SplitOn(name, '/');
    pieces[|pieces| - 1]
  }

  /** The last piece is a suffix of the joined string; when there is more
      than one piece, a separator stands right before it. */
  lemma {:induction false} JoinEndsWithLast(pieces: seq<string>, sep: char)
    requires |pieces| >= 1
    ensures var j, last := Join(pieces, sep), pieces[|pieces| - 1];
      && |last| <= |j|
      && j[|j| - |last|..] == last
      && (|pieces| == 1 ==> j == last)
      && (|pieces| > 1 ==> |last| < |j| && j[|j| - |last| - 1] == sep)
    decreases |pieces|
  {
    if |pieces| > 1 {
      var tail := pieces[1..];
      JoinEndsWithLast(tail, sep);
      var j, jt := Join(pieces, sep), Join(tail, sep);
      assert j == pieces[0] + [sep] + jt;
      assert tail[|tail| - 1] == pieces[|pieces| - 1];
      var last := pieces[|pieces| - 1];
      assert j[|j| - |jt|..] == jt;
      if |tail| == 1 {
        assert j[|j| - |last| - 1] == sep;
      } else {
        assert j[|j| - |last| - 1] == jt[|jt| - |last| - 1];
      }
    }
  }

  /** `ShortId(name)` is the part of `name` after its last '/': a suffix of
      `name` without any '/', preceded by a '/' unless it is all of `name`.
      A name without '/' is its own id; a name ending in '/' has the empty
      id. */
  lemma ShortIdIsLastSegment(name: string)
    ensures var id := ShortId(name);
      && '/' !in id
      && |id| <= |name|
      && name[|name| - |id|..] == id
      && (|id| < |name| ==> name[|name| - |id| - 1] == '/')
      && ('/' !in name ==> id == name)
      && (|name| > 0 && name[|name| - 1] == '/' ==> id == [])
  {
    var pieces := SplitOn(name, '/');
    JoinEndsWithLast(pieces, '/');
  }

  /** The id of a path `parent/id`, for an `id` without '/', is `id`. */
  lemma ShortIdOfChild(parent: string, id: string)
    requires '/' !in id
    ensures ShortId(parent + "/" + id) == id
  {
    var name := parent + "/" + id;
    ShortIdIsLastSegment(name);
    assert name[|name| - |id| - 1] == '/';
    assert name[|name| - |id|..] == id;
  }
}
