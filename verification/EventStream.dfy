/** The receiving end: how a browser reads an event stream, after sections
    9.2.5 and 9.2.6 of the WHATWG HTML Living Standard. */
module EventStream {
  import opened Text

  datatype Message = Message(kind: string, data: string)

  /** The buffers kept between lines. */
  datatype Buffers = Buffers(data: string, kind: string, lastId: string)

  const IDLE := Buffers("", "", "")

  /** The complete lines of a stream; cur is the line read so far.  A line ends
      at CR LF, at LF or at CR; an unfinished last line is not a line. */
  function Lines(s: string, cur: string): seq<string>
    decreases |s|
  {
    if |s| == 0 then []
    else if s[0] == '\r' then [cur] + Lines(if |s| > 1 && s[1] == '\n' then s[2..] else s[1..], "")
    else if s[0] == '\n' then [cur] + Lines(s[1..], "")
    else Lines(s[1..], cur + [s[0]])
  }

  /** Position of the first c in s, |s| if there is none. */
  function Find(s: string, c: char): (r: nat)
    ensures r <= |s| && Lacks(s[..r], c) && (r < |s| ==> s[r] == c)
  {
    if |s| == 0 || s[0] == c then 0
    else
      var r := 1 + Find(s[1..], c);
      assert s[..r] == [s[0]] + s[1..][..r - 1];
      r
  }

  function Field(b: Buffers, name: string, value: string): Buffers {
    if name == "event" then b.(kind := value)
    else if name == "data" then b.(data := b.data + value + "\n")
    else if name == "id" && Lacks(value, '\0') then b.(lastId := value)
    else b
  }

  function Dispatch(b: Buffers): (Buffers, seq<Message>) {
    var cleared := Buffers("", "", b.lastId);
    if b.data == "" then (cleared, [])
    else
      var data := if b.data[|b.data| - 1] == '\n' then b.data[..|b.data| - 1] else b.data;
      (cleared, [Message(if b.kind == "" then "message" else b.kind, data)])
  }

  function Interpret(b: Buffers, line: string): (Buffers, seq<Message>) {
    if line == "" then Dispatch(b)
    else
      var colon := Find(line, ':');
      if colon == 0 then (b, [])
      else if colon == |line| then (Field(b, line, ""), [])
      else
        var after := line[colon + 1..];
        var value := if |after| > 0 && after[0] == ' ' then after[1..] else after;
        (Field(b, line[..colon], value), [])
  }

  function Run(b: Buffers, lines: seq<string>): (Buffers, seq<Message>)
    decreases |lines|
  {
    if |lines| == 0 then (b, [])
    else
      var (b1, m1) := Interpret(b, lines[0]);
      var (b2, m2) := Run(b1, lines[1..]);
      (b2, m1 + m2)
  }

  /** The messages of a stream. */
  function Parse(s: string): seq<Message> { Run(IDLE, Lines(s, "")).1 }

  // ------------------------------------------------------------------ properties

  lemma {:induction false} LineEnds(line: string, rest: string, cur: string)
    requires OneLine(line)
    ensures Lines(line + "\n" + rest, cur) == [cur + line] + Lines(rest, "")
    decreases |line|
  {
    if |line| == 0 {
      assert line + "\n" + rest == "\n" + rest && cur + line == cur;
    } else {
      assert (line + "\n" + rest)[1..] == line[1..] + "\n" + rest;
      assert cur + [line[0]] + line[1..] == cur + line;
      LineEnds(line[1..], rest, cur + [line[0]]);
    }
  }

  /** Reading what was rendered gives the lines back. */
  lemma {:induction false} LinesOfRendered(lines: seq<string>, rest: string)
    requires forall i :: 0 <= i < |lines| ==> OneLine(lines[i])
    ensures Lines(Render(lines) + rest, "") == lines + Lines(rest, "")
  {
    if |lines| == 0 {
      assert Render(lines) + rest == rest;
    } else {
      assert Render(lines) + rest == lines[0] + "\n" + (Render(lines[1..]) + rest);
      LineEnds(lines[0], Render(lines[1..]) + rest, "");
      LinesOfRendered(lines[1..], rest);
      assert "" + lines[0] == lines[0];
      assert lines == [lines[0]] + lines[1..];
    }
  }

  lemma {:induction false} RunConcat(b: Buffers, x: seq<string>, y: seq<string>)
    ensures var (b1, m1) := Run(b, x);
      var (b2, m2) := Run(b1, y);
      Run(b, x + y) == (b2, m1 + m2)
    decreases |x|
  {
    hide Interpret;
    if |x| == 0 {
      assert x + y == y;
      assert [] + Run(b, y).1 == Run(b, y).1;
    } else {
      assert (x + y)[1..] == x[1..] + y;
      var (b0, m0) := Interpret(b, x[0]);
      RunConcat(b0, x[1..], y);
      var (b1, m1) := Run(b0, x[1..]);
      assert m0 + m1 + Run(b1, y).1 == m0 + (m1 + Run(b1, y).1);
    }
  }

  lemma {:induction false} FindFirst(a: string, c: char, b: string)
    requires Lacks(a, c)
    ensures Find(a + [c] + b, c) == |a|
    decreases |a|
  {
    if |a| > 0 {
      assert (a + [c] + b)[1..] == a[1..] + [c] + b;
      FindFirst(a[1..], c, b);
    }
  }

  lemma RunOne(b: Buffers, line: string)
    ensures Run(b, [line]) == Interpret(b, line)
  {
    hide Interpret;
    var (b1, m1) := Interpret(b, line);
    assert [line][1..] == [] && m1 + [] == m1;
  }

  /** A line "name: value" sets the field name to value, spaces and all. */
  lemma FieldLine(b: Buffers, name: string, value: string)
    requires |name| > 0 && Lacks(name, ':')
    ensures Interpret(b, name + ": " + value) == (Field(b, name, value), [])
  {
    var line := name + ": " + value;
    assert line == name + [':'] + (" " + value);
    FindFirst(name, ':', " " + value);
    assert line[..|name|] == name && line[|name| + 1..] == " " + value;
    assert (" " + value)[1..] == value;
  }

  lemma CommentLine(b: Buffers, text: string)
    ensures Interpret(b, ":" + text) == (b, [])
  {
  }

  // ------------------------------------------------- no carriage return survives

  lemma {:induction false} LinesLackReturns(s: string, cur: string)
    requires Lacks(cur, '\r')
    ensures forall i :: 0 <= i < |Lines(s, cur)| ==> Lacks(Lines(s, cur)[i], '\r')
    decreases |s|
  {
    if |s| > 0 {
      if s[0] == '\r' {
        LinesLackReturns(if |s| > 1 && s[1] == '\n' then s[2..] else s[1..], "");
      } else if s[0] == '\n' {
        LinesLackReturns(s[1..], "");
      } else {
        LinesLackReturns(s[1..], cur + [s[0]]);
      }
    }
  }

  lemma {:induction false} RunLacksReturns(b: Buffers, lines: seq<string>)
    requires Lacks(b.data, '\r') && forall i :: 0 <= i < |lines| ==> Lacks(lines[i], '\r')
    ensures forall m :: m in Run(b, lines).1 ==> Lacks(m.data, '\r')
    decreases |lines|
  {
    if |lines| > 0 {
      RunLacksReturns(Interpret(b, lines[0]).0, lines[1..]);
    }
  }

  lemma ParseLacksReturns(s: string)
    ensures forall m :: m in Parse(s) ==> Lacks(m.data, '\r')
  {
    LinesLackReturns(s, "");
    RunLacksReturns(IDLE, Lines(s, ""));
  }
}
