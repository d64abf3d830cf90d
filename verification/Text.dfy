/** Strings as lists of lines. */
module Text {

  predicate Lacks(s: string, c: char) { forall i :: 0 <= i < |s| ==> s[i] != c }

  /** No line break inside. */
  predicate OneLine(s: string) { Lacks(s, '\n') && Lacks(s, '\r') }

  /** The pieces of s between the occurrences of c; always at least one. */
  function Split(s: string, c: char): (r: seq<string>)
    ensures |r| >= 1
  {
    if |s| == 0 then [""]
    else
      var rest := Split(s[1..], c);
      if s[0] == c then [""] + rest else [[s[0]] + rest[0]] + rest[1..]
  }

  /** The pieces with c between them. */
  function Join(parts: seq<string>, c: char): string {
    if |parts| == 0 then ""
    else if |parts| == 1 then parts[0]
    else parts[0] + [c] + Join(parts[1..], c)
  }

  /** Each line with its end. */
  function Render(lines: seq<string>): string {
    if |lines| == 0 then "" else lines[0] + "\n" + Render(lines[1..])
  }

  lemma {:induction false} SplitPieces(s: string, c: char)
    ensures forall i :: 0 <= i < |Split(s, c)| ==> Lacks(Split(s, c)[i], c)
    ensures forall i, d :: 0 <= i < |Split(s, c)| && Lacks(s, d) ==> Lacks(Split(s, c)[i], d)
  {
    if |s| > 0 {
      SplitPieces(s[1..], c);
      var rest := Split(s[1..], c);
      forall i, d | 0 <= i < |Split(s, c)| && Lacks(s, d) ensures Lacks(Split(s, c)[i], d) {
        assert Lacks(s[1..], d);
        assert forall j :: 0 <= j < |rest| ==> Lacks(rest[j], d);
      }
    }
  }

  /** Joining undoes splitting. */
  lemma {:induction false} JoinSplit(s: string, c: char)
    ensures Join(Split(s, c), c) == s
  {
    if |s| > 0 {
      JoinSplit(s[1..], c);
      var rest := Split(s[1..], c);
      assert s == [s[0]] + s[1..];
      if s[0] == c {
        assert ([""] + rest)[1..] == rest;
      } else {
        assert ([[s[0]] + rest[0]] + rest[1..])[1..] == rest[1..];
      }
    }
  }

  /** Splitting undoes joining pieces that do not contain the separator. */
  lemma {:induction false} SplitJoin(parts: seq<string>, c: char)
    requires |parts| >= 1 && forall i :: 0 <= i < |parts| ==> Lacks(parts[i], c)
    ensures Split(Join(parts, c), c) == parts
  {
    if |parts| == 1 {
      SplitWhole(parts[0], c);
    } else {
      SplitJoin(parts[1..], c);
      SplitFirst(parts[0], Join(parts[1..], c), c);
      assert parts == [parts[0]] + parts[1..];
    }
  }

  lemma {:induction false} SplitWhole(s: string, c: char)
    requires Lacks(s, c)
    ensures Split(s, c) == [s]
  {
    if |s| > 0 {
      SplitWhole(s[1..], c);
      assert s == [s[0]] + s[1..];
    }
  }

  lemma {:induction false} SplitFirst(a: string, b: string, c: char)
    requires Lacks(a, c)
    ensures Split(a + [c] + b, c) == [a] + Split(b, c)
  {
    if |a| == 0 {
      assert a + [c] + b == [c] + b;
      assert ([c] + b)[1..] == b;
    } else {
      SplitFirst(a[1..], b, c);
      assert (a + [c] + b)[1..] == a[1..] + [c] + b;
      assert a == [a[0]] + a[1..];
    }
  }

  lemma Associate(a: string, b: string, c: string)
    ensures a + b + c == a + (b + c)
  {
  }

  lemma {:induction false} RenderConcat(a: seq<string>, b: seq<string>)
    ensures Render(a + b) == Render(a) + Render(b)
  {
    if |a| == 0 {
      assert a + b == b;
    } else {
      RenderConcat(a[1..], b);
      assert (a + b)[1..] == a[1..] + b;
      Associate(a[0] + "\n", Render(a[1..]), Render(b));
    }
  }

  /** Lines rendered are lines joined, and one more end. */
  lemma {:induction false} RenderIsJoin(lines: seq<string>)
    requires |lines| >= 1
    ensures Render(lines) == Join(lines, '\n') + "\n"
  {
    if |lines| > 1 {
      RenderIsJoin(lines[1..]);
      Associate(lines[0] + "\n", Join(lines[1..], '\n'), "\n");
    } else {
      assert Render(lines[1..]) == "";
      assert lines[0] + "\n" + "" == lines[0] + "\n";
    }
  }
}
