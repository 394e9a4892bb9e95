/** Python's `sep.join(parts)` and `s.split(sep)` for a one-character
    separator, and the round trip from parts to text and back. Both builders produce their
    text with `join` (a space for the command line, a newline for the
    Dockerfile), so `Split` is how the model reads the pieces back out. */
module Strings {

  /** `sep.join(parts)`: the parts with one `sep` between neighbours. */
  function Join(parts: seq<string>, sep: char): (r: string)
    ensures |parts| == 0 ==> r == ""
    ensures |parts| > 0 ==> parts[0] <= r
  {
    if |parts| == 0 then ""
    else if |parts| == 1 then parts[0]
    else parts[0] + [sep] + Join(parts[1..], sep)
  }

  /** `s.split(sep)`: the maximal runs between separators, always at least one
      (so `"".split(" ") == [""]` and `" ".split(" ") == ["", ""]`). */
  function Split(s: string, sep: char): (r: seq<string>)
    ensures |r| > 0
  {
    if s == [] then [""]
    else if s[0] == sep then [""] + Split(s[1..], sep)
    else
      var rest := Split(s[1..], sep);
      [[s[0]] + rest[0]] + rest[1..]
  }

  /** No part contains the separator. */
  predicate FreeOf(parts: seq<string>, sep: char)
  {
    forall i :: 0 <= i < |parts| ==> sep !in parts[i]
  }

  /** Joining more than one part puts the separator right after the first. */
  lemma JoinCons(head: string, tail: seq<string>, sep: char)
    requires |tail| > 0
    ensures Join([head] + tail, sep) == head + [sep] + Join(tail, sep)
  {
    assert ([head] + tail)[1..] == tail;
  }

  /** Appending a part to a non-empty list adds the separator and the part at
      the end of the joined text. */
  lemma {:induction false} JoinSnoc(parts: seq<string>, last: string, sep: char)
    requires |parts| > 0
    ensures Join(parts + [last], sep) == Join(parts, sep) + [sep] + last
  {
    if |parts| == 1 {
      JoinCons(parts[0], [last], sep);
      assert parts + [last] == [parts[0]] + [last];
    } else {
      JoinSnoc(parts[1..], last, sep);
      assert parts + [last] == [parts[0]] + (parts[1..] + [last]);
      JoinCons(parts[0], parts[1..] + [last], sep);
      JoinCons(parts[0], parts[1..], sep);
      assert parts == [parts[0]] + parts[1..];
    }
  }

  /** A string without the separator splits into itself alone. */
  lemma {:induction false} SplitFree(s: string, sep: char)
    requires sep !in s
    ensures Split(s, sep) == [s]
  {
    if s != [] {
      SplitFree(s[1..], sep);
      assert s == [s[0]] + s[1..];
    }
  }

  /** A separator cuts the split in two: the parts before it, then the parts
      after it. */
  lemma {:induction false} SplitConcat(a: string, b: string, sep: char)
    ensures Split(a + [sep] + b, sep) == Split(a, sep) + Split(b, sep)
  {
    var s := a + [sep] + b;
    if a == [] {
      assert s[0] == sep && s[1..] == b;
    } else {
      assert s[0] == a[0] && s[1..] == a[1..] + [sep] + b;
      SplitConcat(a[1..], b, sep);
      var front := Split(a[1..], sep);
      assert Split(s[1..], sep) == front + Split(b, sep);
      if a[0] != sep {
        assert (front + Split(b, sep))[1..] == front[1..] + Split(b, sep);
      }
    }
  }

  /** Splitting the join gives back the parts, provided there is at least one
      part and none contains the separator: the join loses nothing. */
  lemma {:induction false} SplitJoin(parts: seq<string>, sep: char)
    requires |parts| > 0 && FreeOf(parts, sep)
    ensures Split(Join(parts, sep), sep) == parts
  {
    assert sep !in parts[0];
    SplitFree(parts[0], sep);
    if |parts| > 1 {
      assert FreeOf(parts[1..], sep) by {
        forall i | 0 <= i < |parts[1..]| ensures sep !in parts[1..][i] {
          assert parts[1..][i] == parts[i + 1];
        }
      }
      SplitJoin(parts[1..], sep);
      SplitConcat(parts[0], Join(parts[1..], sep), sep);
      assert parts == [parts[0]] + parts[1..];
    }
  }
}
