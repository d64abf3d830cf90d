/** The sending end: the event-stream writers, and the proof that a browser
    reads back exactly what they wrote. */
module Sse {
  import opened Options
  import opened Text
  import opened EventStream

  /** One write to a stream.  Named data and signals are already encoded. */
  datatype Send =
    | Named(event: string, data: string)
    | Patch(mode: string, selector: string, elements: string)
    | Signals(signals: string)
    | Ping

  const PATCH_ELEMENTS := "datastar-patch-elements"
  const PATCH_SIGNALS := "datastar-patch-signals"

  function EventLine(kind: string): string { "event: " + kind }

  function DataLine(value: string): string { "data: " + value }

  function SelectorArg(selector: string): string { "selector " + selector }

  function ModeArg(mode: string): string { "mode " + mode }

  function ElementsArg(line: string): string { "elements " + line }

  function DataLines(args: seq<string>): seq<string> {
    seq(|args|, i requires 0 <= i < |args| => DataLine(args[i]))
  }

  function ElementsArgs(lines: seq<string>): seq<string> {
    seq(|lines|, i requires 0 <= i < |lines| => ElementsArg(lines[i]))
  }

  /** The arguments of an element patch, one per line. */
  function PatchArgs(mode: string, selector: string, elements: string): seq<string> {
    (if selector != "" then [SelectorArg(selector)] else [])
    + (if mode != "" then [ModeArg(mode)] else [])
    + (if elements != "" then ElementsArgs(Split(elements, '\n')) else [])
  }

  /** The lines a write puts on the stream. */
  function LinesOf(m: Send): seq<string> {
    match m
    case Named(event, data) => [EventLine(event)] + DataLines([data]) + [""]
    case Patch(mode, selector, elements) =>
      [EventLine(PATCH_ELEMENTS)] + DataLines(PatchArgs(mode, selector, elements)) + [""]
    case Signals(signals) => [EventLine(PATCH_SIGNALS)] + DataLines(["signals " + signals]) + [""]
    case Ping => [": ping", ""]
  }

  function TextOf(m: Send): string { Render(LinesOf(m)) }

  function TextOfAll(ms: seq<Send>): string {
    if |ms| == 0 then "" else TextOf(ms[0]) + TextOfAll(ms[1..])
  }

  // --------------------------------------------------------------------- writers

  /** A response: what has reached it, and which of its writes fail, and where. */
  class Writer {
    var out: string
    var calls: nat
    const fails: nat -> Option<nat>

    constructor (fails: nat -> Option<nat>)
      ensures out == "" && calls == 0 && this.fails == fails
    {
      this.fails, out, calls := fails, "", 0;
    }

    /** Write s, or fail after some part of it. */
    method Print(s: string) returns (ok: bool)
      modifies this
      ensures old(out) <= out <= old(out) + s
      ensures ok ==> out == old(out) + s
      ensures ok <==> fails(old(calls)).None?
    {
      var fail := fails(calls);
      calls := calls + 1;
      match fail {
        case None =>
          out := out + s;
          return true;
        case Some(n) =>
          out := out + s[..if n < |s| then n else |s|];
          return false;
      }
    }

    method WriteSSE(event: string, data: Option<string>) returns (ok: bool)
      modifies this
      ensures data.None? ==> !ok && out == old(out)
      ensures data.Some? ==> Wrote(old(out), out, TextOf(Named(event, data.value)), ok)
    {
      if data.None? {
        return false;
      }
      RenderThree(EventLine(event), DataLine(data.value));
      assert LinesOf(Named(event, data.value)) == [EventLine(event), DataLine(data.value), ""];
      hide EventLine, DataLine, LinesOf, Render;
      ok := Print(EventLine(event) + "\n" + DataLine(data.value) + "\n\n");
    }

    method WriteDatastarPatchSignals(signals: string) returns (ok: bool)
      modifies this
      ensures Wrote(old(out), out, TextOf(Signals(signals)), ok)
    {
      RenderThree(EventLine(PATCH_SIGNALS), DataLine("signals " + signals));
      assert LinesOf(Signals(signals)) == [EventLine(PATCH_SIGNALS), DataLine("signals " + signals), ""];
      hide EventLine, DataLine, LinesOf, Render;
      ok := Print(EventLine(PATCH_SIGNALS) + "\n" + DataLine("signals " + signals) + "\n\n");
    }

    /** Print one line of a text, the lines of done having been printed. */
    method PrintLine(ghost start: string, ghost done: seq<string>, line: string, ghost all: seq<string>)
      returns (ok: bool)
      requires out == start + Render(done) && done + [line] <= all
      modifies this
      ensures ok ==> out == start + Render(done + [line])
      ensures Wrote(start, out, Render(all), ok && done + [line] == all)
    {
      hide Render;
      RenderNext(done, line);
      Associate(start, Render(done), line + "\n");
      Goes(done, all);
      Goes(done + [line], all);
      ok := Print(line + "\n");
      Bounded(start, Render(done), Render(done + [line]), out, Render(all));
    }

    /** The lines of elements, one argument line each. */
    method PrintElements(ghost start: string, ghost head: seq<string>, parts: seq<string>, ghost all: seq<string>)
      returns (ok: bool)
      requires out == start + Render(head) && head + DataLines(ElementsArgs(parts)) <= all
      requires head + DataLines(ElementsArgs(parts)) != all
      modifies this
      ensures ok ==> out == start + Render(head + DataLines(ElementsArgs(parts)))
      ensures Wrote(start, out, Render(all), false)
    {
      hide DataLine, ElementsArg, Render;
      ghost var body := DataLines(ElementsArgs(parts));
      assert head + body[..0] == head;
      Goes(head, all);
      Bounded(start, Render(head), Render(head), out, Render(all));
      ok := true;
      for i := 0 to |parts|
        invariant out == start + Render(head + body[..i])
        invariant ok && Wrote(start, out, Render(all), false)
      {
        assert head + body[..i] + [body[i]] == head + body[..i + 1];
        assert head + body[..i + 1] <= head + body;
        ok := PrintLine(start, head + body[..i], DataLine(ElementsArg(parts[i])), all);
        if !ok { return; }
      }
      assert body[..|parts|] == body;
    }

    method WriteDatastarPatchElementsMode(mode: string, selector: string, elements: string) returns (ok: bool)
      modifies this
      ensures Wrote(old(out), out, TextOf(Patch(mode, selector, elements)), ok)
    {
      hide EventLine, DataLine, SelectorArg, ModeArg, ElementsArgs, Split, Render;
      ghost var all := LinesOf(Patch(mode, selector, elements));
      ghost var start := out;
      ghost var a := [EventLine(PATCH_ELEMENTS)];
      ghost var b := if selector != "" then [DataLine(SelectorArg(selector))] else [];
      ghost var c := if mode != "" then [DataLine(ModeArg(mode))] else [];
      ghost var d := if elements != "" then DataLines(ElementsArgs(Split(elements, '\n'))) else [];
      assert all == a + b + c + d + [""];
      hide LinesOf, DataLines;
      assert a <= all && a + b <= all && a + b + c <= all && a + b + c + d <= all;
      RenderNone();
      assert start + "" == start && [] + a == a;
      ok := PrintLine(start, [], EventLine(PATCH_ELEMENTS), all);
      if !ok { return; }
      if selector != "" {
        ok := PrintLine(start, a, DataLine(SelectorArg(selector)), all);
        if !ok { return; }
      } else {
        assert a + b == a;
      }
      if mode != "" {
        ok := PrintLine(start, a + b, DataLine(ModeArg(mode)), all);
        if !ok { return; }
      } else {
        assert a + b + c == a + b;
      }
      if elements != "" {
        ok := PrintElements(start, a + b + c, Split(elements, '\n'), all);
        if !ok { return; }
      } else {
        assert a + b + c + d == a + b + c;
      }
      ok := PrintLine(start, a + b + c + d, "", all);
    }
  }

  lemma RenderNone()
    ensures Render([]) == ""
  {
  }

  /** A write of text went through, or stopped somewhere inside it. */
  ghost predicate Wrote(before: string, after: string, text: string, ok: bool) {
    before <= after <= before + text && (ok ==> after == before + text)
  }

  /** Between two points of a text is inside the text. */
  lemma Bounded(start: string, lo: string, hi: string, out: string, all: string)
    requires lo <= hi <= all && start + lo <= out <= start + hi
    ensures start <= out <= start + all
  {
  }

  lemma RenderNext(lines: seq<string>, line: string)
    ensures Render(lines + [line]) == Render(lines) + line + "\n"
  {
    RenderConcat(lines, [line]);
    assert [line][1..] == [];
    assert Render([line]) == line + "\n" + "" == line + "\n";
    Associate(Render(lines), line, "\n");
  }

  lemma RenderThree(a: string, b: string)
    ensures Render([a, b, ""]) == a + "\n" + b + "\n\n"
  {
    RenderNext([a, b], "");
    RenderNext([a], b);
    RenderNext([], a);
    assert [] + [a] == [a] && [a] + [b] == [a, b] && [a, b] + [""] == [a, b, ""];
  }

  /** Lines already written are the beginning of the text to be written. */
  lemma Goes(done: seq<string>, all: seq<string>)
    requires done <= all
    ensures Render(done) <= Render(all)
  {
    assert all == done + all[|done|..];
    RenderConcat(done, all[|done|..]);
  }

  /** The element lines of a patch, as they stand in the text. */
  function ElementLines(parts: seq<string>): string {
    if |parts| == 0 then "" else "data: elements " + parts[0] + "\n" + ElementLines(parts[1..])
  }

  lemma {:induction false} ElementsRender(parts: seq<string>)
    ensures Render(DataLines(ElementsArgs(parts))) == ElementLines(parts)
  {
    if |parts| > 0 {
      ElementsRender(parts[1..]);
      var lines := DataLines(ElementsArgs(parts));
      assert lines[1..] == DataLines(ElementsArgs(parts[1..]));
      assert lines[0] == "data: " + ("elements " + parts[0]) == "data: elements " + parts[0];
    }
  }

  lemma KindsSpelt()
    ensures EventLine(PATCH_ELEMENTS) == "event: datastar-patch-elements"
    ensures EventLine(PATCH_SIGNALS) == "event: datastar-patch-signals"
  {
  }

  lemma LinesSpelt(value: string)
    ensures EventLine(value) == "event: " + value && DataLine(value) == "data: " + value
    ensures DataLine(SelectorArg(value)) == "data: selector " + value
    ensures DataLine(ModeArg(value)) == "data: mode " + value
    ensures DataLine("signals " + value) == "data: signals " + value
  {
  }

  lemma RenderOne(line: string)
    ensures Render([line]) == line + "\n" && Render([]) == ""
  {
    assert [line][1..] == [];
    assert line + "\n" + "" == line + "\n";
  }

  /** The text of a named event, of signals and of a ping, to the letter. */
  lemma WireText(event: string, data: string)
    ensures TextOf(Named(event, data)) == "event: " + event + "\n" + ("data: " + data) + "\n\n"
    ensures TextOf(Signals(data)) == "event: datastar-patch-signals" + "\n" + ("data: signals " + data) + "\n\n"
    ensures TextOf(Ping) == ": ping" + "\n" + "\n"
  {
    KindsSpelt();
    LinesSpelt(data);
    LinesSpelt(event);
    RenderThree(EventLine(event), DataLine(data));
    RenderThree(EventLine(PATCH_SIGNALS), DataLine("signals " + data));
    RenderNext([": ping"], "");
    RenderOne(": ping");
    assert [": ping"] + [""] == [": ping", ""];
    assert LinesOf(Named(event, data)) == [EventLine(event), DataLine(data), ""];
    assert LinesOf(Signals(data)) == [EventLine(PATCH_SIGNALS), DataLine("signals " + data), ""];
    hide LinesOf, Render, EventLine, DataLine;
  }

  /** The text of a patch: a line for each of its arguments that is there, one for
      each line of the elements, and an empty line. */
  lemma PatchWireText(mode: string, selector: string, elements: string)
    ensures var sel := if selector != "" then "data: selector " + selector + "\n" else "";
      var mod := if mode != "" then "data: mode " + mode + "\n" else "";
      var els := if elements != "" then ElementLines(Split(elements, '\n')) else "";
      TextOf(Patch(mode, selector, elements))
      == ("event: datastar-patch-elements" + "\n") + (sel + (mod + (els + "\n")))
  {
    var parts := Split(elements, '\n');
    KindsSpelt();
    LinesSpelt(selector);
    LinesSpelt(mode);
    ElementsRender(parts);
    hide *;
    PatchLines(mode, selector, elements);
    RenderOne(DataLine(SelectorArg(selector)));
    RenderOne(DataLine(ModeArg(mode)));
    FourParts(EventLine(PATCH_ELEMENTS),
              if selector != "" then [DataLine(SelectorArg(selector))] else [],
              if mode != "" then [DataLine(ModeArg(mode))] else [],
              if elements != "" then DataLines(ElementsArgs(parts)) else []);
    TextIsRendered(Patch(mode, selector, elements));
  }

  lemma PatchLines(mode: string, selector: string, elements: string)
    ensures var sel := if selector != "" then [DataLine(SelectorArg(selector))] else [];
      var mod := if mode != "" then [DataLine(ModeArg(mode))] else [];
      var els := if elements != "" then DataLines(ElementsArgs(Split(elements, '\n'))) else [];
      LinesOf(Patch(mode, selector, elements)) == [EventLine(PATCH_ELEMENTS)] + (sel + (mod + (els + [""])))
  {
    hide Split, ElementsArgs, SelectorArg, ModeArg, DataLine, EventLine, DataLines;
    var sel := if selector != "" then [SelectorArg(selector)] else [];
    var mod := if mode != "" then [ModeArg(mode)] else [];
    var els := if elements != "" then ElementsArgs(Split(elements, '\n')) else [];
    assert LinesOf(Patch(mode, selector, elements))
        == [EventLine(PATCH_ELEMENTS)] + DataLines(sel + mod + els) + [""];
    hide LinesOf, PatchArgs;
    OneDataLine(SelectorArg(selector));
    OneDataLine(ModeArg(mode));
    Appended(EventLine(PATCH_ELEMENTS), sel, mod, els);
  }

  lemma OneDataLine(arg: string)
    ensures DataLines([arg]) == [DataLine(arg)] && DataLines([]) == []
  {
  }

  lemma Appended(first: string, sel: seq<string>, mod: seq<string>, els: seq<string>)
    ensures [first] + DataLines(sel + mod + els) + [""]
         == [first] + (DataLines(sel) + (DataLines(mod) + (DataLines(els) + [""])))
  {
    hide DataLine;
  }

  lemma TextIsRendered(m: Send)
    ensures TextOf(m) == Render(LinesOf(m))
  {
  }

  lemma FourParts(first: string, sel: seq<string>, mod: seq<string>, els: seq<string>)
    ensures Render([first] + (sel + (mod + (els + [""]))))
         == (first + "\n") + (Render(sel) + (Render(mod) + (Render(els) + "\n")))
  {
    hide Render;
    RenderConcat([first], sel + (mod + (els + [""])));
    RenderConcat(sel, mod + (els + [""]));
    RenderConcat(mod, els + [""]);
    RenderConcat(els, [""]);
    RenderOne(first);
    RenderOne("");
    assert "" + "\n" == "\n";
  }

  // ------------------------------------------------------------------ round trip

  /** What can be carried: the standard has no way to escape a line break. */
  predicate Sendable(m: Send) {
    match m
    case Named(event, data) => OneLine(event) && OneLine(data)
    case Patch(mode, selector, elements) => OneLine(mode) && OneLine(selector) && Lacks(elements, '\r')
    case Signals(signals) => OneLine(signals)
    case Ping => true
  }

  /** What the browser dispatches for a write: nothing for a ping, nor for a
      patch without any argument. */
  function Dispatched(m: Send): seq<Message> {
    match m
    case Named(event, data) => [Message(if event == "" then "message" else event, data)]
    case Patch(mode, selector, elements) =>
      if mode == "" && selector == "" && elements == "" then []
      else [Message(PATCH_ELEMENTS, Join(PatchArgs(mode, selector, elements), '\n'))]
    case Signals(signals) => [Message(PATCH_SIGNALS, "signals " + signals)]
    case Ping => []
  }

  function DispatchedAll(ms: seq<Send>): seq<Message> {
    if |ms| == 0 then [] else Dispatched(ms[0]) + DispatchedAll(ms[1..])
  }

  lemma OneLineConcat(a: string, b: string)
    requires OneLine(a) && OneLine(b)
    ensures OneLine(a + b)
  {
  }

  lemma ArgsAreLines(mode: string, selector: string, elements: string)
    requires Sendable(Patch(mode, selector, elements))
    ensures forall i :: 0 <= i < |PatchArgs(mode, selector, elements)| ==>
      OneLine(PatchArgs(mode, selector, elements)[i])
  {
    SplitPieces(elements, '\n');
    OneLineConcat("selector ", selector);
    OneLineConcat("mode ", mode);
    var parts := Split(elements, '\n');
    forall i | 0 <= i < |parts| ensures OneLine(ElementsArg(parts[i])) {
      OneLineConcat("elements ", parts[i]);
    }
    hide ElementsArg, Split;
    assert OneLine(SelectorArg(selector)) && OneLine(ModeArg(mode));
    hide SelectorArg, ModeArg, OneLine;
  }

  lemma DataLinesAreLines(args: seq<string>)
    requires forall i :: 0 <= i < |args| ==> OneLine(args[i])
    ensures forall i :: 0 <= i < |DataLines(args)| ==> OneLine(DataLines(args)[i])
  {
    forall i | 0 <= i < |args| ensures OneLine(DataLine(args[i])) {
      OneLineConcat("data: ", args[i]);
    }
  }

  lemma LinesAreLines(m: Send)
    requires Sendable(m)
    ensures forall i :: 0 <= i < |LinesOf(m)| ==> OneLine(LinesOf(m)[i])
  {
    match m
    case Named(event, data) =>
      OneLineConcat("event: ", event);
      DataLinesAreLines([data]);
    case Patch(mode, selector, elements) =>
      assert OneLine(EventLine(PATCH_ELEMENTS));
      ArgsAreLines(mode, selector, elements);
      DataLinesAreLines(PatchArgs(mode, selector, elements));
      hide PatchArgs, DataLines, EventLine;
    case Signals(signals) =>
      assert OneLine(EventLine(PATCH_SIGNALS));
      OneLineConcat("signals ", signals);
      DataLinesAreLines(["signals " + signals]);
      hide DataLines, EventLine;
    case Ping =>
  }

  lemma RunStep(b: Buffers, lines: seq<string>, b1: Buffers)
    requires |lines| > 0 && Interpret(b, lines[0]) == (b1, [])
    ensures Run(b, lines) == Run(b1, lines[1..])
  {
    hide Interpret;
    assert [] + Run(b1, lines[1..]).1 == Run(b1, lines[1..]).1;
  }

  /** Data lines pile up in the data buffer. */
  lemma {:induction false} DataPilesUp(b: Buffers, args: seq<string>)
    ensures Run(b, DataLines(args)) == (b.(data := b.data + Render(args)), [])
    decreases |args|
  {
    if |args| == 0 {
      assert b.data + "" == b.data;
    } else {
      var lines := DataLines(args);
      FieldLine(b, "data", args[0]);
      assert lines[0] == "data" + ": " + args[0];
      assert lines[1..] == DataLines(args[1..]);
      var b1 := b.(data := b.data + args[0] + "\n");
      assert Interpret(b, lines[0]) == (b1, []);
      hide Interpret, DataLine;
      DataPilesUp(b1, args[1..]);
      Associate(b.data, args[0], "\n");
      Associate(b.data, args[0] + "\n", Render(args[1..]));
      assert b1.(data := b1.data + Render(args[1..])) == b.(data := b.data + Render(args));
      assert lines == DataLines(args);
      RunStep(b, lines, b1);
    }
  }

  lemma EndOfEvent(kind: string, args: seq<string>)
    ensures Interpret(Buffers(Render(args), kind, ""), "")
         == (IDLE, if |args| == 0 then [] else [Message(if kind == "" then "message" else kind, Join(args, '\n'))])
  {
    if |args| > 0 {
      RenderIsJoin(args);
      assert (Join(args, '\n') + "\n")[..|Join(args, '\n')|] == Join(args, '\n');
    }
  }

  lemma EventLineSetsKind(kind: string)
    ensures Interpret(IDLE, EventLine(kind)) == (Buffers("", kind, ""), [])
  {
    assert EventLine(kind) == "event" + ": " + kind;
    FieldLine(IDLE, "event", kind);
  }

  lemma Joins(b: Buffers, b1: Buffers, b2: Buffers, x: seq<string>, y: seq<string>, m: seq<Message>)
    requires Run(b, x) == (b1, []) && Run(b1, y) == (b2, m)
    ensures Run(b, x + y) == (b2, m)
  {
    hide *;
    RunConcat(b, x, y);
    assert [] + m == m;
  }

  /** An event line, data lines and an empty line make one message, or none. */
  lemma EventBlock(kind: string, args: seq<string>)
    ensures Run(IDLE, [EventLine(kind)] + DataLines(args) + [""])
         == (IDLE, if |args| == 0 then [] else [Message(if kind == "" then "message" else kind, Join(args, '\n'))])
  {
    hide *;
    var begun, full := Buffers("", kind, ""), Buffers(Render(args), kind, "");
    EventLineSetsKind(kind);
    RunOne(IDLE, EventLine(kind));
    DataPilesUp(begun, args);
    assert "" + Render(args) == Render(args);
    Joins(IDLE, begun, full, [EventLine(kind)], DataLines(args), []);
    EndOfEvent(kind, args);
    RunOne(full, "");
    Joins(IDLE, full, IDLE, [EventLine(kind)] + DataLines(args), [""], Run(full, [""]).1);
  }

  lemma SendParses(m: Send)
    ensures Run(IDLE, LinesOf(m)) == (IDLE, Dispatched(m))
  {
    match m
    case Named(event, data) =>
      EventBlock(event, [data]);
    case Patch(mode, selector, elements) =>
      EventBlock(PATCH_ELEMENTS, PatchArgs(mode, selector, elements));
    case Signals(signals) =>
      EventBlock(PATCH_SIGNALS, ["signals " + signals]);
    case Ping =>
      assert ": ping" == ":" + " ping";
      CommentLine(IDLE, " ping");
      RunOne(IDLE, ": ping");
      RunOne(IDLE, "");
      RunConcat(IDLE, [": ping"], [""]);
      assert [": ping"] + [""] == LinesOf(m);
  }

  lemma {:induction false} RunAll(ms: seq<Send>)
    requires forall i :: 0 <= i < |ms| ==> Sendable(ms[i])
    ensures Run(IDLE, Lines(TextOfAll(ms), "")) == (IDLE, DispatchedAll(ms))
    decreases |ms|
  {
    if |ms| > 0 {
      RunAll(ms[1..]);
      LinesAreLines(ms[0]);
      LinesOfRendered(LinesOf(ms[0]), TextOfAll(ms[1..]));
      SendParses(ms[0]);
      RunConcat(IDLE, LinesOf(ms[0]), Lines(TextOfAll(ms[1..]), ""));
    }
  }

  /** A stream of any writes is read back as exactly their messages, in order. */
  lemma RoundTrip(ms: seq<Send>)
    requires forall i :: 0 <= i < |ms| ==> Sendable(ms[i])
    ensures Parse(TextOfAll(ms)) == DispatchedAll(ms)
  {
    RunAll(ms);
  }

  // ------------------------------------------------- recovering a patch's triple

  datatype Args = Args(mode: string, selector: string, elements: seq<string>)

  /** One argument line of a patch: a word, a space, a value. */
  function Arg(a: Args, line: string): Args {
    if "selector " <= line then a.(selector := line[9..])
    else if "mode " <= line then a.(mode := line[5..])
    else if "elements " <= line then a.(elements := a.elements + [line[9..]])
    else a
  }

  function ReadArgs(a: Args, lines: seq<string>): Args
    decreases |lines|
  {
    if |lines| == 0 then a else ReadArgs(Arg(a, lines[0]), lines[1..])
  }

  /** The patch that a dispatched message stands for. */
  function ReadPatch(m: Message): Send {
    var a := ReadArgs(Args("", "", []), Split(m.data, '\n'));
    Patch(a.mode, a.selector, Join(a.elements, '\n'))
  }

  lemma {:induction false} ReadConcat(a: Args, x: seq<string>, y: seq<string>)
    ensures ReadArgs(a, x + y) == ReadArgs(ReadArgs(a, x), y)
    decreases |x|
  {
    if |x| == 0 {
      assert x + y == y;
    } else {
      assert (x + y)[1..] == x[1..] + y;
      ReadConcat(Arg(a, x[0]), x[1..], y);
    }
  }

  lemma {:induction false} ReadElements(a: Args, parts: seq<string>)
    ensures ReadArgs(a, ElementsArgs(parts)) == a.(elements := a.elements + parts)
    decreases |parts|
  {
    var lines := ElementsArgs(parts);
    if |parts| == 0 {
      assert a.elements + parts == a.elements;
    } else {
      assert lines[0] == "elements " + parts[0] && lines[0][9..] == parts[0];
      assert lines[1..] == ElementsArgs(parts[1..]);
      assert lines[0][0] == 'e';
      ReadElements(a.(elements := a.elements + [parts[0]]), parts[1..]);
      assert a.elements + [parts[0]] + parts[1..] == a.elements + parts;
    }
  }

  lemma ReadOne(a: Args, line: string)
    ensures ReadArgs(a, [line]) == Arg(a, line)
  {
    assert [line][1..] == [];
  }

  lemma ReadSelector(a: Args, selector: string)
    ensures Arg(a, SelectorArg(selector)) == a.(selector := selector)
  {
    assert SelectorArg(selector)[9..] == selector;
  }

  lemma ReadMode(a: Args, mode: string)
    ensures Arg(a, ModeArg(mode)) == a.(mode := mode)
  {
    var line := ModeArg(mode);
    assert line[5..] == mode && line[0] == 'm';
  }

  lemma ArgsReadBack(mode: string, selector: string, elements: string)
    ensures ReadArgs(Args("", "", []), PatchArgs(mode, selector, elements))
         == Args(mode, selector, if elements == "" then [] else Split(elements, '\n'))
  {
    var a0 := Args("", "", []);
    var x := if selector != "" then [SelectorArg(selector)] else [];
    var y := if mode != "" then [ModeArg(mode)] else [];
    var z := if elements != "" then ElementsArgs(Split(elements, '\n')) else [];
    var a1 := Args("", selector, []);
    var a2 := Args(mode, selector, []);
    assert PatchArgs(mode, selector, elements) == x + y + z;
    ReadConcat(a0, x + y, z);
    ReadConcat(a0, x, y);
    ReadOne(a0, SelectorArg(selector));
    ReadSelector(a0, selector);
    ReadOne(a1, ModeArg(mode));
    ReadMode(a1, mode);
    ReadElements(a2, Split(elements, '\n'));
    assert [] + Split(elements, '\n') == Split(elements, '\n');
  }

  /** A patch comes back as one message from which its mode, its selector and its
      many-line elements are read exactly, if and only if no line break gets in
      the way and there is anything to send. */
  lemma PatchRoundTrip(mode: string, selector: string, elements: string)
    ensures (|Parse(TextOf(Patch(mode, selector, elements)))| == 1
             && ReadPatch(Parse(TextOf(Patch(mode, selector, elements)))[0]) == Patch(mode, selector, elements))
       <==> OneLine(mode) && OneLine(selector) && Lacks(elements, '\r')
            && (mode != "" || selector != "" || elements != "")
  {
    var m := Patch(mode, selector, elements);
    var got := Parse(TextOf(m));
    if Sendable(m) {
      RoundTrip([m]);
      assert TextOfAll([m]) == TextOf(m) + "" == TextOf(m);
      assert DispatchedAll([m]) == Dispatched(m) + [] == Dispatched(m);
      if mode != "" || selector != "" || elements != "" {
        var args := PatchArgs(mode, selector, elements);
        ArgsAreLines(mode, selector, elements);
        SplitJoin(args, '\n');
        ArgsReadBack(mode, selector, elements);
        JoinSplit(elements, '\n');
      }
    } else if |got| == 1 {
      ParseLacksReturns(TextOf(m));
      assert got[0] in got;
      ReadsSendable(got[0]);
    }
  }

  /** Nothing is read but what can be sent. */
  lemma ReadsSendable(m: Message)
    requires Lacks(m.data, '\r')
    ensures Sendable(ReadPatch(m))
  {
    SplitPieces(m.data, '\n');
    ArgsAreOneLine(Args("", "", []), Split(m.data, '\n'));
    JoinLacks(ReadArgs(Args("", "", []), Split(m.data, '\n')).elements);
  }

  lemma {:induction false} ArgsAreOneLine(a: Args, lines: seq<string>)
    requires forall i :: 0 <= i < |lines| ==> OneLine(lines[i])
    requires OneLine(a.mode) && OneLine(a.selector)
    requires forall i :: 0 <= i < |a.elements| ==> OneLine(a.elements[i])
    ensures var r := ReadArgs(a, lines);
      && OneLine(r.mode) && OneLine(r.selector)
      && forall i :: 0 <= i < |r.elements| ==> OneLine(r.elements[i])
    decreases |lines|
  {
    if |lines| > 0 {
      ArgsAreOneLine(Arg(a, lines[0]), lines[1..]);
    }
  }

  lemma {:induction false} JoinLacks(parts: seq<string>)
    requires forall i :: 0 <= i < |parts| ==> Lacks(parts[i], '\r')
    ensures Lacks(Join(parts, '\n'), '\r')
    decreases |parts|
  {
    if |parts| > 1 {
      JoinLacks(parts[1..]);
    }
  }
}
