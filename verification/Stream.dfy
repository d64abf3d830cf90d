/** A stream: the writers bound to one response, which is flushed after every
    write that went through and after no other. */
module Streams {
  import opened Options
  import opened Text
  import opened EventStream
  import opened Sse

  lemma {:induction false} TextOfNext(ms: seq<Send>, m: Send)
    ensures TextOfAll(ms + [m]) == TextOfAll(ms) + TextOf(m)
    decreases |ms|
  {
    if |ms| == 0 {
      assert [m][1..] == [] && TextOf(m) + "" == TextOf(m);
    } else {
      TextOfNext(ms[1..], m);
      assert (ms + [m])[1..] == ms[1..] + [m];
      Associate(TextOf(ms[0]), TextOfAll(ms[1..]), TextOf(m));
    }
  }

  class Stream {
    const w: Writer
    var flushed: string
    ghost var sent: seq<Send>

    /** All that was flushed is what was sent, whole. */
    ghost predicate Faithful()
      reads this
    {
      flushed == TextOfAll(sent)
    }

    /** And no part of a failed write is waiting behind it. */
    ghost predicate Clean()
      reads this, w
    {
      Faithful() && w.out == flushed
    }

    constructor (w: Writer)
      requires w.out == ""
      ensures Clean() && this.w == w && sent == []
    {
      this.w, flushed, sent := w, "", [];
    }

    /** What follows a successful write of message. */
    method Flush(ghost message: Send)
      modifies this
      ensures flushed == w.out && sent == old(sent) + [message]
      ensures w.out == old(flushed) + TextOf(message) && old(Faithful()) ==> Clean()
    {
      TextOfNext(sent, message);
      sent := sent + [message];
      flushed := w.out;
    }

    /** A value that cannot be encoded is not sent at all. */
    method Send(event: string, data: Option<string>) returns (ok: bool)
      modifies this, w
      ensures ok ==> data.Some? && flushed == w.out == old(w.out) + TextOf(Named(event, data.value))
      ensures ok ==> sent == old(sent) + [Named(event, data.value)] && (old(Clean()) ==> Clean())
      ensures !ok ==> flushed == old(flushed) && sent == old(sent)
      ensures data.None? ==> w.out == old(w.out)
    {
      ok := w.WriteSSE(event, data);
      if ok {
        Flush(Named(event, data.value));
      }
    }

    method PatchElementsMode(mode: string, selector: string, elements: string) returns (ok: bool)
      modifies this, w
      ensures ok ==> flushed == w.out == old(w.out) + TextOf(Patch(mode, selector, elements))
      ensures ok ==> sent == old(sent) + [Patch(mode, selector, elements)] && (old(Clean()) ==> Clean())
      ensures !ok ==> flushed == old(flushed) && sent == old(sent)
    {
      ok := w.WriteDatastarPatchElementsMode(mode, selector, elements);
      if ok {
        Flush(Patch(mode, selector, elements));
      }
    }

    method PatchElements(elements: string) returns (ok: bool)
      modifies this, w
      ensures ok ==> flushed == w.out == old(w.out) + TextOf(Patch("", "", elements))
      ensures ok ==> sent == old(sent) + [Patch("", "", elements)] && (old(Clean()) ==> Clean())
      ensures !ok ==> flushed == old(flushed) && sent == old(sent)
    {
      ok := PatchElementsMode("", "", elements);
    }

    method RemoveElements(selector: string) returns (ok: bool)
      modifies this, w
      ensures ok ==> flushed == w.out == old(w.out) + TextOf(Patch("remove", selector, ""))
      ensures ok ==> sent == old(sent) + [Patch("remove", selector, "")] && (old(Clean()) ==> Clean())
      ensures !ok ==> flushed == old(flushed) && sent == old(sent)
    {
      ok := PatchElementsMode("remove", selector, "");
    }

    method PatchSignals(signals: Option<string>) returns (ok: bool)
      modifies this, w
      ensures ok ==> signals.Some? && flushed == w.out == old(w.out) + TextOf(Signals(signals.value))
      ensures ok ==> sent == old(sent) + [Signals(signals.value)] && (old(Clean()) ==> Clean())
      ensures !ok ==> flushed == old(flushed) && sent == old(sent)
      ensures signals.None? ==> w.out == old(w.out)
    {
      if signals.None? {
        return false;
      }
      ok := w.WriteDatastarPatchSignals(signals.value);
      if ok {
        Flush(Signals(signals.value));
      }
    }

    method Ping() returns (ok: bool)
      modifies this, w
      ensures ok ==> flushed == w.out == old(w.out) + TextOf(Sse.Send.Ping)
      ensures ok ==> sent == old(sent) + [Sse.Send.Ping] && (old(Clean()) ==> Clean())
      ensures !ok ==> flushed == old(flushed) && sent == old(sent)
    {
      PingText();
      ok := w.Print(": ping\n\n");
      if ok {
        Flush(Sse.Send.Ping);
      }
    }
  }

  lemma PingText()
    ensures TextOf(Sse.Send.Ping) == ": ping\n\n"
  {
    RenderNext([], ": ping");
    RenderNext([": ping"], "");
    assert [] + [": ping"] == [": ping"] && [": ping"] + [""] == LinesOf(Sse.Send.Ping);
  }

  /** Whatever a handler sent, in whatever order, the browser reads back exactly
      that from what was flushed, also after a write that failed. */
  lemma FlushedReadsBack(s: Stream)
    requires s.Faithful()
    requires forall i :: 0 <= i < |s.sent| ==> Sendable(s.sent[i])
    ensures Parse(s.flushed) == DispatchedAll(s.sent)
  {
    RoundTrip(s.sent);
  }
}
