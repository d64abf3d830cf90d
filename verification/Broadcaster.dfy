/** The fan-out hub: the class itself, and every interleaving of its users. */
module Broadcasting {
  import opened Options

  /** A send that does not block: a full buffer drops the value. */
  function Offered<T>(items: seq<T>, value: T, capacity: nat): seq<T> {
    if |items| < capacity then items + [value] else items
  }

  // ------------------------------------------------------------------- the class

  class Channel<T> {
    const capacity: nat
    var items: seq<T>
    var closed: bool

    constructor (capacity: nat)
      ensures this.capacity == capacity && items == [] && !closed
    {
      this.capacity, items, closed := capacity, [], false;
    }
  }

  class Broadcaster<T> {
    const buffer: nat
    var subs: set<Channel<T>>

    /** Every subscriber's channel is open, and no fuller than it can be. */
    ghost predicate Valid()
      reads this, subs
    {
      buffer >= 1 && forall ch :: ch in subs ==> !ch.closed && ch.capacity == buffer && |ch.items| <= buffer
    }

    constructor (buffer: int)
      ensures Valid() && subs == {} && this.buffer == if buffer < 1 then 1 else buffer
    {
      this.buffer := if buffer < 1 then 1 else buffer;
      subs := {};
    }

    method Subscribe() returns (ch: Channel<T>)
      requires Valid()
      modifies this
      ensures Valid() && fresh(ch) && subs == old(subs) + {ch}
      ensures ch.items == [] && !ch.closed && ch.capacity == buffer
    {
      ch := new Channel(buffer);
      subs := subs + {ch};
    }

    /** Calling this twice is as good as calling it once. */
    method Unsubscribe(ch: Channel<T>)
      requires Valid()
      modifies this, ch
      ensures Valid() && subs == old(subs) - {ch}
      ensures ch.closed == (old(ch.closed) || ch in old(subs)) && ch.items == old(ch.items)
    {
      if ch in subs {
        subs := subs - {ch};
        ch.closed := true;
      }
    }

    method Publish(value: T)
      requires Valid()
      modifies subs
      ensures Valid() && subs == old(subs)
      ensures forall ch :: ch in subs ==> ch.items == Offered(old(ch.items), value, buffer)
    {
      var todo := subs;
      while todo != {}
        invariant todo <= subs && Valid()
        invariant forall ch :: ch in subs ==>
          ch.items == if ch in todo then old(ch.items) else Offered(old(ch.items), value, buffer)
        decreases |todo|
      {
        var ch :| ch in todo;
        if |ch.items| < ch.capacity {
          ch.items := ch.items + [value];
        }
        todo := todo - {ch};
      }
    }
  }

  // -------------------------------------------------------------- interleavings

  /** One value put to one channel: which publication it was, and how many values
      were waiting in the channel at that moment. */
  datatype Offer = Offer(number: nat, depth: nat)

  /** A channel, and what happened to it: the values taken out, the values put to
      it, and how many publications had begun when it was made and closed. */
  datatype Chan<T> = Chan(items: seq<T>, closed: bool, received: seq<T>, offers: seq<Offer>, born: nat, until: nat)

  /** Where a Serve call is. */
  datatype Pc = Hydrating | Forwarding | Leaving | Done

  datatype Call<T> = Hydrates | Sends(value: T)

  /** A Serve call: its channel, and the calls it made to hydrate and each. */
  datatype Session<T> = Session(pc: Pc, chan: nat, calls: seq<Call<T>>)

  /** active holds the Publish calls under way, which share the read lock, and
      the channels each has still to visit.  panicked is Go's answer to a send on
      a closed channel or to closing one twice. */
  datatype State<T> = State(buffer: nat, chans: seq<Chan<T>>, subs: set<nat>, published: seq<T>,
                            active: map<nat, set<nat>>, sessions: seq<Session<T>>, panicked: bool)

  datatype Step<T> =
    | Subscribe
    | Unsubscribe(chan: nat)          // by anyone, of any channel, at any time
    | Receive(chan: nat)              // by a subscriber other than Serve
    | Begin(value: T)                 // Publish takes the read lock
    | Visit(number: nat, chan: nat)   // Publish gets to one channel
    | End(number: nat)                // Publish returns
    | Enter                           // Serve subscribes
    | Hydrate(session: nat, ok: bool)
    | Forward(session: nat, ok: bool) // Serve receives a value and passes it on
    | SeesClosed(session: nat)
    | HangsUp(session: nat)           // the client is gone
    | Leave(session: nat)             // Serve unsubscribes

  predicate Owned<T>(sessions: seq<Session<T>>, chan: nat) {
    exists i :: 0 <= i < |sessions| && sessions[i].chan == chan
  }

  predicate At<T>(s: State<T>, i: nat, pc: Pc) {
    i < |s.sessions| && s.sessions[i].pc == pc && s.sessions[i].chan < |s.chans|
  }

  /** Subscribing and unsubscribing take the write lock. */
  predicate Enabled<T>(s: State<T>, step: Step<T>) {
    match step
    case Subscribe => s.active == map[]
    case Unsubscribe(c) => s.active == map[] && c < |s.chans|
    case Receive(c) => c < |s.chans| && s.chans[c].items != [] && !Owned(s.sessions, c)
    case Begin(_) => true
    case Visit(k, c) => k in s.active && c in s.active[k] && c < |s.chans| && k < |s.published|
    case End(k) => k in s.active && s.active[k] == {}
    case Enter => s.active == map[]
    case Hydrate(i, _) => At(s, i, Hydrating)
    case Forward(i, _) => At(s, i, Forwarding) && s.chans[s.sessions[i].chan].items != []
    case SeesClosed(i) =>
      At(s, i, Forwarding) && s.chans[s.sessions[i].chan].items == [] && s.chans[s.sessions[i].chan].closed
    case HangsUp(i) => At(s, i, Forwarding)
    case Leave(i) => At(s, i, Leaving) && s.active == map[]
  }

  function Open<T>(s: State<T>): State<T> {
    s.(chans := s.chans + [Chan([], false, [], [], |s.published|, 0)], subs := s.subs + {|s.chans|})
  }

  function Close<T>(s: State<T>, c: nat): State<T>
    requires c < |s.chans|
  {
    if c !in s.subs then s
    else s.(subs := s.subs - {c}, panicked := s.panicked || s.chans[c].closed,
            chans := s.chans[c := s.chans[c].(closed := true, until := |s.published|)])
  }

  function TakeOut<T>(ch: Chan<T>): Chan<T>
    requires ch.items != []
  {
    ch.(items := ch.items[1..], received := ch.received + [ch.items[0]])
  }

  function PutTo<T>(ch: Chan<T>, number: nat, value: T, buffer: nat): Chan<T> {
    ch.(items := Offered(ch.items, value, buffer), offers := ch.offers + [Offer(number, |ch.items|)])
  }

  function Moved<T>(s: State<T>, i: nat, pc: Pc): State<T>
    requires i < |s.sessions|
  {
    s.(sessions := s.sessions[i := s.sessions[i].(pc := pc)])
  }

  function Called<T>(s: State<T>, i: nat, call: Call<T>, pc: Pc): State<T>
    requires i < |s.sessions|
  {
    s.(sessions := s.sessions[i := s.sessions[i].(pc := pc, calls := s.sessions[i].calls + [call])])
  }

  function Take<T>(s: State<T>, step: Step<T>): State<T>
    requires Enabled(s, step)
  {
    match step
    case Subscribe => Open(s)
    case Unsubscribe(c) => Close(s, c)
    case Receive(c) => s.(chans := s.chans[c := TakeOut(s.chans[c])])
    case Begin(v) => s.(published := s.published + [v], active := s.active[|s.published| := s.subs])
    case Visit(k, c) =>
      s.(active := s.active[k := s.active[k] - {c}], panicked := s.panicked || s.chans[c].closed,
         chans := s.chans[c := PutTo(s.chans[c], k, s.published[k], s.buffer)])
    case End(k) => s.(active := s.active - {k})
    case Enter => Open(s).(sessions := s.sessions + [Session(Hydrating, |s.chans|, [])])
    case Hydrate(i, ok) => Called(s, i, Hydrates, if ok then Forwarding else Leaving)
    case Forward(i, ok) =>
      var c := s.sessions[i].chan;
      Called(s, i, Sends(s.chans[c].items[0]), if ok then Forwarding else Leaving)
        .(chans := s.chans[c := TakeOut(s.chans[c])])
    case SeesClosed(i) => Moved(s, i, Leaving)
    case HangsUp(i) => Moved(s, i, Leaving)
    case Leave(i) => Moved(Close(s, s.sessions[i].chan), i, Done)
  }

  /** The state after an interleaving; none if some step was not possible. */
  function After<T>(buffer: int, steps: seq<Step<T>>): Option<State<T>> {
    if |steps| == 0 then Some(State(if buffer < 1 then 1 else buffer, [], {}, [], map[], [], false))
    else
      match After(buffer, steps[..|steps| - 1])
      case None => None
      case Some(s) => if Enabled(s, steps[|steps| - 1]) then Some(Take(s, steps[|steps| - 1])) else None
  }

  // ------------------------------------------------------------------ invariants

  /** The values that found room, in the order they were put. */
  function Accepted<T>(published: seq<T>, buffer: nat, offers: seq<Offer>): seq<T>
    requires forall i :: 0 <= i < |offers| ==> offers[i].number < |published|
  {
    if |offers| == 0 then []
    else
      var before, last := offers[..|offers| - 1], offers[|offers| - 1];
      Accepted(published, buffer, before) + if last.depth < buffer then [published[last.number]] else []
  }

  ghost predicate Offers(offers: seq<Offer>, number: nat) {
    exists i :: 0 <= i < |offers| && offers[i].number == number
  }

  ghost predicate Pending(active: map<nat, set<nat>>, c: nat, k: int) { k in active && c in active[k] }

  /** How many publications had begun when a channel was closed, or have by now. */
  function Until<T>(published: seq<T>, ch: Chan<T>): nat { if ch.closed then ch.until else |published| }

  /** What a channel took out and still holds is what it was put and had room for. */
  ghost predicate Ledger<T>(buffer: nat, published: seq<T>, ch: Chan<T>) {
    && |ch.items| <= buffer
    && (forall i :: 0 <= i < |ch.offers| ==> ch.offers[i].number < |published| && ch.offers[i].depth <= buffer)
    && ch.received + ch.items == Accepted(published, buffer, ch.offers)
  }

  /** A channel was put each publication of its time once, or is about to be. */
  ghost predicate Once<T>(published: seq<T>, active: map<nat, set<nat>>, c: nat, ch: Chan<T>) {
    var until := Until(published, ch);
    && ch.born <= until <= |published|
    && (forall i :: 0 <= i < |ch.offers| ==> ch.born <= ch.offers[i].number < until)
    && (forall i, j :: 0 <= i < j < |ch.offers| ==> ch.offers[i].number != ch.offers[j].number)
    && (forall k :: ch.born <= k < until ==> (Offers(ch.offers, k) <==> !Pending(active, c, k)))
  }

  ghost predicate ChanSound<T>(s: State<T>, c: nat, ch: Chan<T>) {
    Ledger(s.buffer, s.published, ch) && Once(s.published, s.active, c, ch)
  }

  ghost predicate ChansSound<T>(s: State<T>) {
    forall c :: 0 <= c < |s.chans| ==> ChanSound(s, c, s.chans[c])
  }

  /** The subscribers are the open channels, and nobody visits another. */
  ghost predicate SubsSound<T>(s: State<T>) {
    && s.buffer >= 1 && !s.panicked
    && (forall c :: c in s.subs <==> 0 <= c < |s.chans| && !s.chans[c].closed)
    && (forall k :: k in s.active ==> k < |s.published| && s.active[k] <= s.subs)
    && (forall k, c :: k in s.active && c in s.active[k] && c < |s.chans| ==> s.chans[c].born <= k)
  }

  function SendsOf<T>(values: seq<T>): seq<Call<T>> {
    seq(|values|, i requires 0 <= i < |values| => Sends(values[i]))
  }

  /** A Serve call hydrates once and then passes on what its channel gives, and
      is only done once that channel is closed. */
  ghost predicate SessionSound<T>(s: State<T>, v: Session<T>) {
    && v.chan < |s.chans|
    && v.calls == (if v.pc == Hydrating then [] else [Hydrates] + SendsOf(s.chans[v.chan].received))
    && (v.pc == Hydrating ==> s.chans[v.chan].received == [])
    && (v.pc == Done ==> s.chans[v.chan].closed)
  }

  ghost predicate SessionsSound<T>(s: State<T>) {
    && (forall i :: 0 <= i < |s.sessions| ==> SessionSound(s, s.sessions[i]))
    && (forall i, j :: 0 <= i < j < |s.sessions| ==> s.sessions[i].chan != s.sessions[j].chan)
  }

  ghost predicate Sound<T>(s: State<T>) { SubsSound(s) && ChansSound(s) && SessionsSound(s) }

  // ----------------------------------------------------------- one step at a time

  lemma {:induction false} AcceptedExtends<T>(published: seq<T>, value: T, buffer: nat, offers: seq<Offer>)
    requires forall i :: 0 <= i < |offers| ==> offers[i].number < |published|
    ensures Accepted(published + [value], buffer, offers) == Accepted(published, buffer, offers)
    decreases |offers|
  {
    if |offers| > 0 {
      AcceptedExtends(published, value, buffer, offers[..|offers| - 1]);
    }
  }

  lemma BeginKeeps<T>(buffer: nat, published: seq<T>, active: map<nat, set<nat>>, c: nat, ch: Chan<T>, v: T,
                      subs: set<nat>)
    requires Ledger(buffer, published, ch) && Once(published, active, c, ch) && (c in subs <==> !ch.closed)
    requires forall k :: k in active ==> k < |published|
    ensures Ledger(buffer, published + [v], ch) && Once(published + [v], active[|published| := subs], c, ch)
  {
    AcceptedExtends(published, v, buffer, ch.offers);
  }

  lemma OffersNext(offers: seq<Offer>, last: Offer)
    ensures forall k :: Offers(offers + [last], k) <==> Offers(offers, k) || k == last.number
  {
    var all := offers + [last];
    assert all[|offers|] == last;
    forall k ensures Offers(all, k) <==> Offers(offers, k) || k == last.number {
      if Offers(offers, k) {
        var i :| 0 <= i < |offers| && offers[i].number == k;
        assert all[i].number == k;
      }
    }
  }

  lemma OffersOne(offers: seq<Offer>)
    ensures forall i :: 0 <= i < |offers| ==> Offers(offers, offers[i].number)
  {
  }

  lemma VisitKeepsLedger<T>(buffer: nat, published: seq<T>, ch: Chan<T>, k: nat)
    requires Ledger(buffer, published, ch) && k < |published|
    ensures Ledger(buffer, published, PutTo(ch, k, published[k], buffer))
  {
    var t := PutTo(ch, k, published[k], buffer);
    assert t.offers[..|ch.offers|] == ch.offers;
    assert t.received + t.items == ch.received + ch.items + if |ch.items| < buffer then [published[k]] else [];
  }

  lemma VisitKeepsOnce<T>(buffer: nat, published: seq<T>, active: map<nat, set<nat>>, c: nat, ch: Chan<T>, k: nat)
    requires Once(published, active, c, ch) && !ch.closed
    requires ch.born <= k < |published| && Pending(active, c, k)
    ensures Once(published, active[k := active[k] - {c}], c, PutTo(ch, k, published[k], buffer))
  {
    OffersNext(ch.offers, Offer(k, |ch.items|));
    OffersOne(ch.offers);
    assert !Offers(ch.offers, k);
    hide Offers;
  }

  lemma VisitElsewhere<T>(published: seq<T>, active: map<nat, set<nat>>, c: nat, ch: Chan<T>, k: nat, d: nat)
    requires Once(published, active, c, ch) && k in active && c != d
    ensures Once(published, active[k := active[k] - {d}], c, ch)
  {
    hide Offers;
  }

  lemma EndKeeps<T>(published: seq<T>, active: map<nat, set<nat>>, c: nat, ch: Chan<T>, k: nat)
    requires Once(published, active, c, ch) && k in active && active[k] == {}
    ensures Once(published, active - {k}, c, ch)
  {
    hide Offers;
  }

  lemma TakeOutKeeps<T>(buffer: nat, published: seq<T>, active: map<nat, set<nat>>, c: nat, ch: Chan<T>)
    requires Ledger(buffer, published, ch) && Once(published, active, c, ch) && ch.items != []
    ensures Ledger(buffer, published, TakeOut(ch)) && Once(published, active, c, TakeOut(ch))
  {
    assert ch.received + [ch.items[0]] + ch.items[1..] == ch.received + ch.items;
    hide Offers, Accepted;
  }

  lemma CloseKeeps<T>(buffer: nat, published: seq<T>, active: map<nat, set<nat>>, c: nat, ch: Chan<T>)
    requires Ledger(buffer, published, ch) && Once(published, active, c, ch) && !ch.closed
    ensures var t := ch.(closed := true, until := |published|);
      Ledger(buffer, published, t) && Once(published, active, c, t)
  {
    hide Offers, Accepted;
  }

  lemma NewSound<T>(buffer: nat, published: seq<T>, active: map<nat, set<nat>>, c: nat)
    ensures var t: Chan<T> := Chan([], false, [], [], |published|, 0);
      Ledger(buffer, published, t) && Once(published, active, c, t)
  {
  }

  lemma ChanStaysSound<T>(s: State<T>, step: Step<T>, c: nat)
    requires Sound(s) && Enabled(s, step) && c < |Take(s, step).chans|
    ensures ChanSound(Take(s, step), c, Take(s, step).chans[c])
  {
    NewSound(s.buffer, s.published, s.active, c);
    hide Ledger, Once;
    if c < |s.chans| {
      var ch := s.chans[c];
      assert ChanSound(s, c, ch);
      if !ch.closed {
        CloseKeeps(s.buffer, s.published, s.active, c, ch);
      }
      if ch.items != [] {
        TakeOutKeeps(s.buffer, s.published, s.active, c, ch);
      }
      match step {
        case Begin(v) =>
          BeginKeeps(s.buffer, s.published, s.active, c, ch, v, s.subs);
        case Visit(k, d) =>
          if c == d {
            VisitKeepsLedger(s.buffer, s.published, ch, k);
            VisitKeepsOnce(s.buffer, s.published, s.active, c, ch, k);
          } else {
            VisitElsewhere(s.published, s.active, c, ch, k, d);
          }
        case End(k) =>
          EndKeeps(s.published, s.active, c, ch, k);
        case _ =>
      }
    }
  }

  lemma ChansStaySound<T>(s: State<T>, step: Step<T>)
    requires Sound(s) && Enabled(s, step)
    ensures ChansSound(Take(s, step))
  {
    forall c | 0 <= c < |Take(s, step).chans| ensures ChanSound(Take(s, step), c, Take(s, step).chans[c]) {
      ChanStaysSound(s, step, c);
    }
  }

  lemma SubsStaySound<T>(s: State<T>, step: Step<T>)
    requires Sound(s) && Enabled(s, step)
    ensures SubsSound(Take(s, step))
  {
    forall c | 0 <= c < |s.chans| ensures s.chans[c].born <= |s.published| {
      assert ChanSound(s, c, s.chans[c]);
    }
    hide Ledger, Once, ChanSound, ChansSound, SessionsSound, Owned;
  }

  lemma SendsNext<T>(values: seq<T>, value: T)
    ensures SendsOf(values + [value]) == SendsOf(values) + [Sends(value)]
  {
  }

  lemma ForwardKeeps<T>(s: State<T>, i: nat, ok: bool)
    requires Sound(s) && Enabled(s, Forward(i, ok))
    ensures SessionSound(Take(s, Forward(i, ok)), Take(s, Forward(i, ok)).sessions[i])
  {
    var ch := s.chans[s.sessions[i].chan];
    SendsNext(ch.received, ch.items[0]);
    hide Ledger, Once, ChanSound, ChansSound, SubsSound, SendsOf;
    var sends, last := SendsOf(ch.received), [Sends(ch.items[0])];
    assert [Hydrates] + sends + last == [Hydrates] + (sends + last);
  }

  /** A channel that a step does not take from leaves its Serve call sound. */
  lemma SessionFrame<T>(s: State<T>, t: State<T>, v: Session<T>, w: Session<T>)
    requires SessionSound(s, v) && |s.chans| <= |t.chans| && w.chan == v.chan && w.calls == v.calls
    requires t.chans[v.chan].received == s.chans[v.chan].received
    requires s.chans[v.chan].closed ==> t.chans[v.chan].closed
    requires w.pc == v.pc || (v.pc != Hydrating && w.pc == Leaving)
      || (v.pc == Leaving && t.chans[v.chan].closed && w.pc == Done)
    ensures SessionSound(t, w)
  {
  }

  /** Nobody else takes values out of the channel of a Serve call. */
  lemma SessionStaysSound<T>(s: State<T>, step: Step<T>, i: nat)
    requires Sound(s) && Enabled(s, step) && i < |Take(s, step).sessions|
    ensures SessionSound(Take(s, step), Take(s, step).sessions[i])
  {
    hide Ledger, Once, ChanSound, ChansSound, Offered;
    var t := Take(s, step);
    if i == |s.sessions| || (step.Hydrate? && step.session == i) {
      assert SendsOf<T>([]) == [];
    } else if step.Forward? && step.session == i {
      ForwardKeeps(s, i, step.ok);
    } else {
      assert SessionSound(s, s.sessions[i]);
      assert Owned(s.sessions, s.sessions[i].chan);
      hide Owned, SendsOf;
      SessionFrame(s, t, s.sessions[i], t.sessions[i]);
    }
  }

  lemma SessionsStaySound<T>(s: State<T>, step: Step<T>)
    requires Sound(s) && Enabled(s, step)
    ensures SessionsSound(Take(s, step))
  {
    var t := Take(s, step);
    forall i | 0 <= i < |t.sessions| ensures SessionSound(t, t.sessions[i]) {
      SessionStaysSound(s, step, i);
    }
    hide Ledger, Once, ChanSound, ChansSound, SubsSound, SendsOf;
  }

  // -------------------------------------------------------------- over every run

  lemma {:induction false} AlwaysSound<T>(buffer: int, steps: seq<Step<T>>)
    requires After(buffer, steps).Some?
    ensures Sound(After(buffer, steps).value)
  {
    if |steps| > 0 {
      var before, step := steps[..|steps| - 1], steps[|steps| - 1];
      AlwaysSound(buffer, before);
      var s := After(buffer, before).value;
      hide SubsSound, ChansSound, SessionsSound, Take, Enabled;
      SubsStaySound(s, step);
      ChansStaySound(s, step);
      SessionsStaySound(s, step);
    }
  }

  /** Nobody ever sends on a closed channel or closes one twice, the subscribers
      are exactly the open channels, and no channel holds more than its buffer. */
  lemma NeverPanics<T>(buffer: int, steps: seq<Step<T>>, s: State<T>)
    requires After(buffer, steps) == Some(s)
    ensures !s.panicked
    ensures forall c :: c in s.subs <==> 0 <= c < |s.chans| && !s.chans[c].closed
    ensures forall c :: 0 <= c < |s.chans| ==> |s.chans[c].items| <= s.buffer
  {
    AlwaysSound(buffer, steps);
    forall c | 0 <= c < |s.chans| ensures |s.chans[c].items| <= s.buffer {
      assert ChanSound(s, c, s.chans[c]);
    }
  }

  /** Publish can always go on: whoever holds the read lock has a channel to
      visit, or can return. */
  lemma PublishNeverBlocks<T>(buffer: int, steps: seq<Step<T>>, s: State<T>, k: nat)
    requires After(buffer, steps) == Some(s) && k in s.active
    ensures Enabled(s, End(k))
      || exists c :: Enabled(s, Visit(k, c)) && |Take(s, Visit(k, c)).active[k]| < |s.active[k]|
  {
    AlwaysSound(buffer, steps);
    hide ChansSound, SessionsSound;
    if s.active[k] != {} {
      var c :| c in s.active[k];
      assert Enabled(s, Visit(k, c));
      assert Take(s, Visit(k, c)).active[k] == s.active[k] - {c};
    }
  }

  /** A subscriber was put each value published since it subscribed exactly once,
      but for the Publish calls still on their way, and lost exactly those that
      found it full, however many publish at a time. */
  lemma PutEachOnce<T>(buffer: int, steps: seq<Step<T>>, s: State<T>, c: nat)
    requires After(buffer, steps) == Some(s) && c < |s.chans|
    ensures Ledger(s.buffer, s.published, s.chans[c]) && Once(s.published, s.active, c, s.chans[c])
  {
    AlwaysSound(buffer, steps);
    assert ChanSound(s, c, s.chans[c]);
  }

  /** Serve hydrates once, before anything else, then passes on in order what it
      received; once it has left, its channel is no subscriber. */
  lemma ServeHydratesThenForwards<T>(buffer: int, steps: seq<Step<T>>, s: State<T>, i: nat)
    requires After(buffer, steps) == Some(s) && i < |s.sessions|
    ensures s.sessions[i].chan < |s.chans|
    ensures s.sessions[i].calls
         == if s.sessions[i].pc == Hydrating then [] else [Hydrates] + SendsOf(s.chans[s.sessions[i].chan].received)
    ensures s.sessions[i].pc == Done ==> s.sessions[i].chan !in s.subs
  {
    AlwaysSound(buffer, steps);
    assert SessionSound(s, s.sessions[i]);
  }

  /** Leaving takes away what entering added, and no more. */
  lemma LeavingUndoesEntering<T>(buffer: int, steps: seq<Step<T>>, s: State<T>, i: nat)
    requires After(buffer, steps) == Some(s) && Enabled(s, Leave(i))
    ensures Take(s, Leave(i)).subs == s.subs - {s.sessions[i].chan}
    ensures Enabled<T>(s, Enter) && Take(s, Enter).subs == s.subs + {|s.chans|} && |s.chans| !in s.subs
  {
    AlwaysSound(buffer, steps);
  }

  // -------------------------------------------------- one publisher at a time

  /** No Publish begins while another is under way. */
  predicate Serial<T>(buffer: int, steps: seq<Step<T>>) {
    |steps| == 0 || (
      var before := steps[..|steps| - 1];
      Serial(buffer, before)
      && (steps[|steps| - 1].Begin? && After(buffer, before).Some? ==> After(buffer, before).value.active == map[]))
  }

  /** The publications a channel was put are those of its time, in order. */
  ghost predicate InTurn<T>(s: State<T>, c: nat, ch: Chan<T>) {
    && (forall i :: 0 <= i < |ch.offers| ==> ch.offers[i].number == ch.born + i)
    && ch.born + |ch.offers| + (if !ch.closed && Pending(s.active, c, |s.published| - 1) then 1 else 0)
       == Until(s.published, ch)
  }

  ghost predicate AllInTurn<T>(s: State<T>) {
    && (forall k :: k in s.active ==> k == |s.published| - 1)
    && (forall c :: 0 <= c < |s.chans| ==> InTurn(s, c, s.chans[c]))
  }

  lemma ChanStaysInTurn<T>(s: State<T>, step: Step<T>, c: nat)
    requires SubsSound(s) && AllInTurn(s) && Enabled(s, step) && c < |Take(s, step).chans|
    requires step.Begin? ==> s.active == map[]
    ensures InTurn(Take(s, step), c, Take(s, step).chans[c])
  {
    hide Owned, Offered;
    if c < |s.chans| {
      assert InTurn(s, c, s.chans[c]);
    }
  }

  lemma StaysInTurn<T>(s: State<T>, step: Step<T>)
    requires Sound(s) && AllInTurn(s) && Enabled(s, step) && (step.Begin? ==> s.active == map[])
    ensures AllInTurn(Take(s, step))
  {
    hide ChansSound, SessionsSound, SubsSound, Owned, InTurn;
    forall c | 0 <= c < |Take(s, step).chans| ensures InTurn(Take(s, step), c, Take(s, step).chans[c]) {
      ChanStaysInTurn(s, step, c);
    }
  }

  lemma {:induction false} AlwaysInTurn<T>(buffer: int, steps: seq<Step<T>>)
    requires After(buffer, steps).Some? && Serial(buffer, steps)
    ensures AllInTurn(After(buffer, steps).value)
  {
    if |steps| > 0 {
      var before, step := steps[..|steps| - 1], steps[|steps| - 1];
      AlwaysInTurn(buffer, before);
      AlwaysSound(buffer, before);
      var s := After(buffer, before).value;
      hide Sound, AllInTurn, Take, Enabled;
      StaysInTurn(s, step);
    }
  }

  lemma {:induction false} AllAccepted<T>(published: seq<T>, buffer: nat, offers: seq<Offer>, born: nat)
    requires born + |offers| <= |published|
    requires forall i :: 0 <= i < |offers| ==> offers[i].number == born + i
    ensures |Accepted(published, buffer, offers)| <= |offers|
    ensures |Accepted(published, buffer, offers)| == |offers|
      <==> forall i :: 0 <= i < |offers| ==> offers[i].depth < buffer
    ensures |Accepted(published, buffer, offers)| == |offers| ==>
      Accepted(published, buffer, offers) == published[born..born + |offers|]
    decreases |offers|
  {
    if |offers| > 0 {
      var n := |offers| - 1;
      AllAccepted(published, buffer, offers[..n], born);
      assert published[born..born + n] + [published[born + n]] == published[born..born + n + 1];
      assert (forall i :: 0 <= i <= n ==> offers[i].depth < buffer)
        <==> (forall i :: 0 <= i < n ==> offers[..n][i].depth < buffer) && offers[n].depth < buffer;
    }
  }

  /** With one publisher at a time, what a subscriber took out and still holds is
      exactly what was published in its time, up to where it has been put, if and
      only if no value found it full; and is put in publication order anyway. */
  lemma NothingLostUnlessFull<T>(buffer: int, steps: seq<Step<T>>, s: State<T>, c: nat)
    requires After(buffer, steps) == Some(s) && Serial(buffer, steps) && c < |s.chans|
    ensures var ch := s.chans[c];
      && ch.born + |ch.offers| <= |s.published|
      && (ch.closed || !Pending(s.active, c, |s.published| - 1) ==> ch.born + |ch.offers| == Until(s.published, ch))
      && (forall i :: 0 <= i < |ch.offers| ==> ch.offers[i].number == ch.born + i)
      && (ch.received + ch.items == s.published[ch.born..ch.born + |ch.offers|]
          <==> forall i :: 0 <= i < |ch.offers| ==> ch.offers[i].depth < s.buffer)
  {
    PutEachOnce(buffer, steps, s, c);
    AlwaysInTurn(buffer, steps);
    var ch := s.chans[c];
    assert InTurn(s, c, ch);
    AllAccepted(s.published, s.buffer, ch.offers, ch.born);
  }
}
