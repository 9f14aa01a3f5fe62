/**
 * Reading a label's text line by line: a label shows its text broken at every '\n',
 * which is what Python's str.split("\n") returns.
 */
module Lines {

  /** The pieces of s between occurrences of sep; there is always at least one. */
  function Split(s: string, sep: char): (parts: seq<string>)
    ensures |parts| >= 1
    decreases |s|
  {
    if s == [] then [""]
    else
      var rest := Split(s[1..], sep);
      if s[0] == sep then [""] + rest
      else [[s[0]] + rest[0]] + rest[1..]
  }

  /** s holds no sep. */
  predicate SingleLine(s: string, sep: char) {
    forall k :: 0 <= k < |s| ==> s[k] != sep
  }

  lemma SingleLineNotIn(s: string, sep: char)
    ensures SingleLine(s, sep) <==> sep !in s
  {
  }

  lemma SingleLineJoin(a: string, b: string, c: string, sep: char)
    requires SingleLine(a, sep) && SingleLine(b, sep) && SingleLine(c, sep)
    ensures SingleLine(a + b + c, sep)
  {
    var s := a + b + c;
    forall k | 0 <= k < |s| ensures s[k] != sep {
      if k < |a| {
        assert s[k] == a[k];
      } else if k < |a| + |b| {
        assert s[k] == b[k - |a|];
      } else {
        assert s[k] == c[k - |a| - |b|];
      }
    }
  }

  /** A text without the separator is a single line. */
  lemma {:induction false} SplitSingle(a: string, sep: char)
    requires SingleLine(a, sep)
    ensures Split(a, sep) == [a]
    decreases |a|
  {
    if a != [] {
      SplitSingle(a[1..], sep);
      assert [a[0]] + a[1..] == a;
    }
  }

  /** A separator ends the last line of what precedes it and starts the first line of what follows. */
  lemma {:induction false} SplitJoin(a: string, b: string, sep: char)
    ensures Split(a + [sep] + b, sep) == Split(a, sep) + Split(b, sep)
    decreases |a|
  {
    var s := a + [sep] + b;
    if a == [] {
      assert s[1..] == b;
    } else {
      assert s[1..] == a[1..] + [sep] + b;
      SplitJoin(a[1..], b, sep);
    }
  }
}
