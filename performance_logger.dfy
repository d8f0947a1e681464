/**
 * include/PerformanceLogger.h: a trace session collecting Chrome Trace Event
 * Format duration events ("ph": "B" / "E") and writing them, on destruction,
 * as the JSON object form {"traceEvents": [ ... ]}. A section records a
 * begin event when constructed and an end event when destroyed.
 *
 * Timestamps come from the clock and are parameters here; the file stream
 * becomes the string the destructor writes.
 */
module PerformanceTracking {
  import opened Wrappers
  import opened Decimal
  import opened TraceFormat

  datatype Granularity =
    ExtremelyCoarse | VeryCoarse | Coarse | Average | Granular | VeryGranular | ExtremelyGranular

  /** The enumerator's underlying value, 0 to 6. */
  function Ordinal(g: Granularity): (n: nat)
    ensures n <= 6
  {
    match g
    case ExtremelyCoarse => 0
    case VeryCoarse => 1
    case Coarse => 2
    case Average => 3
    case Granular => 4
    case VeryGranular => 5
    case ExtremelyGranular => 6
  }

  function Pow2(n: nat): (p: nat)
    ensures p >= 1
  {
    if n == 0 then 1 else 2 * Pow2(n - 1)
  }

  /** size_t(32) << n, for the shifts used here (no bits leave a 64-bit size_t). */
  function ShiftLeft(x: nat, n: nat): nat
    decreases n
  {
    if n == 0 then x else ShiftLeft(2 * x, n - 1)
  }

  lemma {:induction false} ShiftLeftIsProduct(x: nat, n: nat)
    ensures ShiftLeft(x, n) == x * Pow2(n)
    decreases n
  {
    if n > 0 {
      ShiftLeftIsProduct(2 * x, n - 1);
      var p := Pow2(n - 1);
      assert ShiftLeft(x, n) == (2 * x) * p;
      assert Pow2(n) == 2 * p;
      assert (2 * x) * p == x * (2 * p);
    }
  }

  /** The number of messages the constructor reserves room for. */
  function ReservedCapacity(g: Granularity): nat
  {
    ShiftLeft(32, Ordinal(g))
  }

  /** The capacity is 32·2^g: 32 for the coarsest granularity up to 2048 for the finest, doubling per step. */
  lemma ReservedCapacityRange(g: Granularity)
    ensures ReservedCapacity(g) == 32 * Pow2(Ordinal(g))
    ensures 32 <= ReservedCapacity(g) <= 2048
    ensures g == ExtremelyCoarse ==> ReservedCapacity(g) == 32
    ensures g == ExtremelyGranular ==> ReservedCapacity(g) == 2048
  {
    ShiftLeftIsProduct(32, Ordinal(g));
    assert Pow2(6) == 64;
    Pow2Monotone(Ordinal(g), 6);
  }

  lemma {:induction false} Pow2Monotone(a: nat, b: nat)
    requires a <= b
    ensures Pow2(a) <= Pow2(b)
  {
    if a < b {
      Pow2Monotone(a, b - 1);
    }
  }

  /** A finer granularity reserves strictly more room. */
  lemma ReservedCapacityIncreasing(g: Granularity, h: Granularity)
    requires Ordinal(g) < Ordinal(h)
    ensures ReservedCapacity(g) < ReservedCapacity(h)
  {
    ShiftLeftIsProduct(32, Ordinal(g));
    ShiftLeftIsProduct(32, Ordinal(h));
    Pow2Monotone(Ordinal(g) + 1, Ordinal(h));
  }

  class PerformanceSession {
    var messages: seq<string>
    const reserved: nat
    const outputFilename: string

    constructor (granularity: Granularity, outputFilename: string)
      ensures messages == [] && reserved == ReservedCapacity(granularity)
      ensures this.outputFilename == outputFilename
    {
      messages := [];
      reserved := ReservedCapacity(granularity);
      this.outputFilename := outputFilename;
    }

    /** Appends one message after those already recorded. */
    method AddPerformanceEntry(message: string)
      modifies this
      ensures messages == old(messages) + [message]
    {
      messages := messages + [message];
    }

    /** The destructor's stream: header, one line per message in order, footer. */
    method Write() returns (stream: string)
      ensures stream == Serialized(messages)
    {
      stream := Header;
      var i := 0;
      while i < |messages|
        invariant 0 <= i <= |messages|
        invariant stream == Header + EntriesBefore(messages, i)
      {
        stream := stream + "\t\t" + messages[i];
        if i != |messages| - 1 {
          stream := stream + ",";
        }
        stream := stream + "\n";
        i := i + 1;
      }
      stream := stream + Footer;
      EntriesBeforeThenRest(messages, |messages|);
      assert messages[|messages|..] == [];
    }
  }

  /** The two duration-event phases. */
  datatype Phase = Begin | End

  function PhaseChar(p: Phase): char
  {
    if p == Begin then 'B' else 'E'
  }

  /** A duration event's JSON text; the name goes in as it is, without JSON escaping. */
  function EventText(name: string, phase: Phase, timestamp: int): string
  {
    NameKey + name + PhaseKey + [PhaseChar(phase)] + TimestampKey + IntToString(timestamp) + "}"
  }

  const NameKey: string := "{\"name\": \""
  const PhaseKey: string := "\", \"cat\": \"PERF\", \"ph\": \""
  const TimestampKey: string := "\", \"pid\" : 0, \"ts\": "

  /** The name sits verbatim at offset 10 and the phase letter 25 characters after it. */
  lemma EventTextLayout(name: string, phase: Phase, timestamp: int)
    ensures |EventText(name, phase, timestamp)| > 10 + |name| + 25
    ensures EventText(name, phase, timestamp)[10..10 + |name|] == name
    ensures EventText(name, phase, timestamp)[10 + |name| + 25] == PhaseChar(phase)
  {
    assert |NameKey| == 10 && |PhaseKey| == 25;
    var t := EventText(name, phase, timestamp);
    var rest := TimestampKey + IntToString(timestamp) + "}";
    assert t == NameKey + name + PhaseKey + [PhaseChar(phase)] + rest;
  }

  class PerformanceSection {
    const session: PerformanceSession?
    const name: string

    /** With a session, records the begin event; with none, records nothing. */
    constructor (session: PerformanceSession?, name: string, start: int)
      modifies session
      ensures this.session == session && this.name == name
      ensures session != null ==> session.messages == old(session.messages) + [EventText(name, Begin, start)]
    {
      this.session := session;
      this.name := name;
      new;
      if session != null {
        session.AddPerformanceEntry(EventText(name, Begin, start));
      }
    }

    /** The destructor: with a session, records the end event under the same name. */
    method Close(end: int)
      modifies session
      ensures session != null ==> session.messages == old(session.messages) + [EventText(name, End, end)]
    {
      if session != null {
        session.AddPerformanceEntry(EventText(name, End, end));
      }
    }
  }

  /** A tree of nested traced scopes, as TRACE_SCOPE declarations nest in a program. */
  datatype Scope = Scope(name: string, children: seq<Scope>)

  /** A duration event without its timestamp. */
  datatype Event = Event(name: string, phase: Phase)

  /** The events a scope records: its begin, its children's events in order, its end. */
  function Events(s: Scope): seq<Event>
    decreases s, 1
  {
    [Event(s.name, Begin)] + ChildEvents(s.children) + [Event(s.name, End)]
  }

  function ChildEvents(children: seq<Scope>): seq<Event>
    decreases children, 0
  {
    if |children| == 0 then [] else Events(children[0]) + ChildEvents(children[1..])
  }

  /**
   * Replays events against a stack of open names: a begin pushes its name,
   * an end must close the innermost open name. The result is the stack left
   * open, or None when an end does not match.
   */
  function Replay(events: seq<Event>, open: seq<string>): Option<seq<string>>
  {
    if |events| == 0 then Some(open)
    else if events[0].phase == Begin then Replay(events[1..], open + [events[0].name])
    else if |open| > 0 && open[|open| - 1] == events[0].name then Replay(events[1..], open[..|open| - 1])
    else None
  }

  /** Well nested: every end closes the innermost open begin of the same name, and nothing stays open. */
  predicate WellNested(events: seq<Event>)
  {
    Replay(events, []) == Some([])
  }

  lemma {:induction false} ReplayAppend(a: seq<Event>, b: seq<Event>, open: seq<string>)
    requires Replay(a, open).Some?
    ensures Replay(a + b, open) == Replay(b, Replay(a, open).value)
  {
    if |a| > 0 {
      assert (a + b)[1..] == a[1..] + b;
      if a[0].phase == Begin {
        ReplayAppend(a[1..], b, open + [a[0].name]);
      } else {
        ReplayAppend(a[1..], b, open[..|open| - 1]);
      }
    } else {
      assert a + b == b;
    }
  }

  /** A scope's events leave any stack of open names as they found it. */
  lemma {:induction false} ScopeBalanced(s: Scope, open: seq<string>)
    ensures Replay(Events(s), open) == Some(open)
    decreases s, 1
  {
    var inner := open + [s.name];
    ChildrenBalanced(s.children, inner);
    assert Replay([Event(s.name, Begin)], open) == Some(inner);
    ReplayAppend([Event(s.name, Begin)], ChildEvents(s.children), open);
    var closing := [Event(s.name, End)];
    assert inner[..|inner| - 1] == open;
    assert Replay(closing, inner) == Some(open);
    ReplayAppend([Event(s.name, Begin)] + ChildEvents(s.children), closing, open);
  }

  lemma {:induction false} ChildrenBalanced(children: seq<Scope>, open: seq<string>)
    ensures Replay(ChildEvents(children), open) == Some(open)
    decreases children, 0
  {
    if |children| > 0 {
      ScopeBalanced(children[0], open);
      ChildrenBalanced(children[1..], open);
      ReplayAppend(Events(children[0]), ChildEvents(children[1..]), open);
    }
  }

  /** Sections closed in reverse order of opening yield a well-nested begin/end sequence. */
  lemma ScopeWellNested(s: Scope)
    ensures WellNested(Events(s))
  {
    ScopeBalanced(s, []);
  }

  /** Each event rendered by `text` with its position counted from base. */
  function Stamp<T>(events: seq<Event>, text: (Event, nat) -> T, base: nat): (r: seq<T>)
    ensures |r| == |events|
  {
    seq(|events|, k requires 0 <= k < |events| => text(events[k], base + k))
  }

  lemma StampAppend<T>(a: seq<Event>, b: seq<Event>, text: (Event, nat) -> T, base: nat)
    ensures Stamp(a + b, text, base) == Stamp(a, text, base) + Stamp(b, text, base + |a|)
  {
  }

  /** A scope's events rendered: its begin, its children's events, its end. */
  lemma StampScope<T>(s: Scope, text: (Event, nat) -> T, base: nat)
    ensures Stamp(Events(s), text, base) ==
      [text(Event(s.name, Begin), base)] + Stamp(ChildEvents(s.children), text, base + 1)
      + [text(Event(s.name, End), base + 1 + |ChildEvents(s.children)|)]
  {
    var opening := [Event(s.name, Begin)];
    var children := ChildEvents(s.children);
    var closing := [Event(s.name, End)];
    StampAppend(opening, children, text, base);
    StampAppend(opening + children, closing, text, base);
    assert Events(s) == opening + children + closing;
  }

  /** The texts a list of events becomes, the k-th stamped `now(base + k)`. */
  function Recorded(events: seq<Event>, now: nat -> int, base: nat): seq<string>
  {
    Stamp(events, (e: Event, k: nat) => EventText(e.name, e.phase, now(k)), base)
  }

  lemma RecordedAppend(a: seq<Event>, b: seq<Event>, now: nat -> int, base: nat)
    ensures Recorded(a + b, now, base) == Recorded(a, now, base) + Recorded(b, now, base + |a|)
  {
    StampAppend(a, b, (e: Event, k: nat) => EventText(e.name, e.phase, now(k)), base);
  }

  /**
   * Runs a tree of scopes against a session: each scope opens a section,
   * runs its children in order and closes the section. `now(n)` is the
   * clock reading when the session holds n messages.
   */
  method RunScope(session: PerformanceSession, s: Scope, now: nat -> int)
    modifies session
    ensures session.messages == old(session.messages) + Recorded(Events(s), now, |old(session.messages)|)
    decreases s, 1
  {
    var base := |session.messages|;
    ghost var before := session.messages;
    var section := new PerformanceSection(session, s.name, now(base));
    RunChildren(session, s.children, now);
    ghost var inner := session.messages;
    section.Close(now(|session.messages|));
    ScopeRecorded(s, now, base, before, inner);
  }

  /** The messages of RunScope: the begin text, the children's texts, then the end text. */
  lemma ScopeRecorded(s: Scope, now: nat -> int, base: nat, before: seq<string>, inner: seq<string>)
    requires |before| == base
    requires inner == before + [EventText(s.name, Begin, now(base))] + Recorded(ChildEvents(s.children), now, base + 1)
    ensures inner + [EventText(s.name, End, now(|inner|))] == before + Recorded(Events(s), now, base)
  {
    var rest := Recorded(ChildEvents(s.children), now, base + 1);
    assert |inner| == base + 1 + |ChildEvents(s.children)|;
    EventsRecorded(s, now, base);
    Framed(before, EventText(s.name, Begin, now(base)), rest, EventText(s.name, End, now(|inner|)),
           inner, Recorded(Events(s), now, base));
  }

  /** A scope's texts: its begin text, its children's texts, its end text. */
  lemma EventsRecorded(s: Scope, now: nat -> int, base: nat)
    ensures Recorded(Events(s), now, base) ==
      [EventText(s.name, Begin, now(base))] + Recorded(ChildEvents(s.children), now, base + 1)
      + [EventText(s.name, End, now(base + 1 + |ChildEvents(s.children)|))]
  {
    StampScope(s, (e: Event, k: nat) => EventText(e.name, e.phase, now(k)), base);
  }

  lemma Framed<T>(before: seq<T>, first: T, middle: seq<T>, last: T, inner: seq<T>, whole: seq<T>)
    requires inner == before + [first] + middle
    requires whole == [first] + middle + [last]
    ensures inner + [last] == before + whole
  {
  }

  method RunChildren(session: PerformanceSession, children: seq<Scope>, now: nat -> int)
    modifies session
    ensures session.messages == old(session.messages) + Recorded(ChildEvents(children), now, |old(session.messages)|)
    decreases children, 0
  {
    if |children| > 0 {
      var base := |session.messages|;
      ghost var before := session.messages;
      RunScope(session, children[0], now);
      ghost var first := session.messages;
      RunChildren(session, children[1..], now);
      RecordedAppend(Events(children[0]), ChildEvents(children[1..]), now, base);
      Appended(before, Recorded(Events(children[0]), now, base), first,
               Recorded(ChildEvents(children[1..]), now, |first|), session.messages);
    }
  }

  lemma Appended<T>(before: seq<T>, x: seq<T>, middle: seq<T>, y: seq<T>, after: seq<T>)
    requires middle == before + x && after == middle + y
    ensures after == before + (x + y)
  {
  }
}

/**
 * The file ~PerformanceSession writes (include/PerformanceLogger.h): the
 * JSON object form of the Chrome Trace Event Format, one message per line.
 */
module TraceFormat {
  const Header: string := "{\n\t\"traceEvents\": [\n"
  const Footer: string := "\t]\n}"

  /** One message's line: two tabs, the message, a comma unless it is the last, a newline. */
  function Entry(message: string, last: bool): string
  {
    "\t\t" + message + (if last then "" else ",") + "\n"
  }

  /** The lines of a message list, first to last; only the final line goes without a comma. */
  function Lines(messages: seq<string>): string
  {
    if |messages| == 0 then "" else Entry(messages[0], |messages| == 1) + Lines(messages[1..])
  }

  /** The whole file the destructor writes. */
  function Serialized(messages: seq<string>): string
  {
    Header + Lines(messages) + Footer
  }

  /** The lines of the first i messages of the list, as the destructor's loop has written them. */
  function EntriesBefore(messages: seq<string>, i: nat): string
    requires i <= |messages|
  {
    if i == 0 then "" else EntriesBefore(messages, i - 1) + Entry(messages[i - 1], i - 1 == |messages| - 1)
  }

  /** The loop's prefix followed by the remaining lines is the whole list's lines. */
  lemma {:induction false} EntriesBeforeThenRest(messages: seq<string>, i: nat)
    requires i <= |messages|
    ensures EntriesBefore(messages, i) + Lines(messages[i..]) == Lines(messages)
  {
    if i == 0 {
      assert messages[0..] == messages;
    } else {
      EntriesBeforeThenRest(messages, i - 1);
      var rest := messages[i - 1..];
      assert rest[1..] == messages[i..];
      assert Lines(rest) == Entry(messages[i - 1], i - 1 == |messages| - 1) + Lines(messages[i..]);
      calc {
        EntriesBefore(messages, i) + Lines(messages[i..]);
        (EntriesBefore(messages, i - 1) + Entry(messages[i - 1], i - 1 == |messages| - 1)) + Lines(messages[i..]);
        EntriesBefore(messages, i - 1) + (Entry(messages[i - 1], i - 1 == |messages| - 1) + Lines(messages[i..]));
        EntriesBefore(messages, i - 1) + Lines(rest);
      }
    }
  }

  /** An empty session writes the header immediately followed by the footer. */
  lemma EmptySession()
    ensures Serialized([]) == "{\n\t\"traceEvents\": [\n\t]\n}"
  {
  }

  /**
   * Messages are written in insertion order: message i's line follows the
   * lines of messages 0 .. i-1 and precedes the rest.
   */
  lemma MessageOrder(messages: seq<string>, i: nat)
    requires i < |messages|
    ensures Lines(messages) ==
      EntriesBefore(messages, i) + Entry(messages[i], i == |messages| - 1) + Lines(messages[i + 1..])
  {
    EntriesBeforeThenRest(messages, i);
    var rest := messages[i..];
    assert rest[1..] == messages[i + 1..];
    assert Lines(rest) == Entry(messages[i], i == |messages| - 1) + Lines(messages[i + 1..]);
    assert EntriesBefore(messages, i) + (Entry(messages[i], i == |messages| - 1) + Lines(messages[i + 1..]))
        == EntriesBefore(messages, i) + Entry(messages[i], i == |messages| - 1) + Lines(messages[i + 1..]);
  }

  function Count(s: string, c: char): nat
  {
    if |s| == 0 then 0 else (if s[0] == c then 1 else 0) + Count(s[1..], c)
  }

  lemma {:induction false} CountAppend(a: string, b: string, c: char)
    ensures Count(a + b, c) == Count(a, c) + Count(b, c)
  {
    if |a| > 0 {
      CountAppend(a[1..], b, c);
      assert (a + b)[1..] == a[1..] + b;
    } else {
      assert a + b == b;
    }
  }

  /** The commas inside the messages themselves. */
  function MessageCommas(messages: seq<string>): nat
  {
    if |messages| == 0 then 0 else Count(messages[0], ',') + MessageCommas(messages[1..])
  }

  /** Between m lines there are exactly max(0, m - 1) separator commas. */
  lemma {:induction false} LinesCommas(messages: seq<string>)
    ensures Count(Lines(messages), ',') == MessageCommas(messages) + (if |messages| == 0 then 0 else |messages| - 1)
  {
    if |messages| > 0 {
      LinesCommas(messages[1..]);
      var last := |messages| == 1;
      CountAppend("\t\t" + messages[0] + (if last then "" else ","), "\n", ',');
      CountAppend("\t\t" + messages[0], if last then "" else ",", ',');
      CountAppend("\t\t", messages[0], ',');
      CountAppend(Entry(messages[0], last), Lines(messages[1..]), ',');
    }
  }

  /** The whole file: the header and footer add no commas of their own. */
  lemma SerializedCommas(messages: seq<string>)
    ensures Count(Serialized(messages), ',') == MessageCommas(messages) + (if |messages| == 0 then 0 else |messages| - 1)
  {
    HeaderNoCommas();
    FooterNoCommas();
    FramedCommas(Header, messages, Footer);
  }

  /** Framing text without commas adds none to the lines'. */
  lemma FramedCommas(header: string, messages: seq<string>, footer: string)
    requires Count(header, ',') == 0 && Count(footer, ',') == 0
    ensures Count(header + Lines(messages) + footer, ',') == MessageCommas(messages) + (if |messages| == 0 then 0 else |messages| - 1)
  {
    LinesCommas(messages);
    CountAppend(header + Lines(messages), footer, ',');
    CountAppend(header, Lines(messages), ',');
  }

  lemma HeaderNoCommas()
    ensures Count(Header, ',') == 0
  {
    NoOccurrence(Header, ',');
  }

  lemma FooterNoCommas()
    ensures Count(Footer, ',') == 0
  {
    NoOccurrence(Footer, ',');
  }

  lemma {:induction false} NoOccurrence(s: string, c: char)
    requires c !in s
    ensures Count(s, c) == 0
  {
    if |s| > 0 {
      assert s[0] in s;
      assert forall x :: x in s[1..] ==> x in s;
      NoOccurrence(s[1..], c);
    }
  }
}
