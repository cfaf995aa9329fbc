/** Decimal numerals as they stand in headers and paths. */
module Numerals {

  predicate IsDigit(c: char)
  {
    '0' <= c <= '9'
  }

  /** /^(0|[1-9]\d*)$/ */
  predicate IsCanonical(s: string)
  {
    && s != []
    && (forall i :: 0 <= i < |s| ==> IsDigit(s[i]))
    && (s[0] == '0' ==> s == "0")
  }

  function Digit(c: char): nat
    requires IsDigit(c)
  {
    c as int - '0' as int
  }

  /** The number a text of digits stands for. */
  function NumberOf(s: string): nat
    requires forall i :: 0 <= i < |s| ==> IsDigit(s[i])
  {
    if s == [] then 0 else NumberOf(s[..|s| - 1]) * 10 + Digit(s[|s| - 1])
  }

  function DigitChar(d: nat): char
    requires d < 10
  {
    ('0' as int + d) as char
  }

  /** String(n) */
  function Text(n: nat): string
  {
    if n < 10 then [DigitChar(n)] else Text(n / 10) + [DigitChar(n % 10)]
  }

  lemma {:induction false} TextIsCanonical(n: nat)
    ensures IsCanonical(Text(n)) && NumberOf(Text(n)) == n
    ensures n > 0 ==> Text(n)[0] != '0'
  {
    if n < 10 {
      assert Text(n)[..0] == [];
    } else {
      TextIsCanonical(n / 10);
      assert Text(n)[..|Text(n)| - 1] == Text(n / 10);
    }
  }

  lemma {:induction false} PositiveNumber(s: string)
    requires s != [] && (forall i :: 0 <= i < |s| ==> IsDigit(s[i])) && s[0] != '0'
    ensures NumberOf(s) > 0
  {
    if |s| > 1 {
      PositiveNumber(s[..|s| - 1]);
    }
  }

  /** A canonical numeral is the text of its own number, and of no other. */
  lemma {:induction false} CanonicalIsText(s: string)
    requires IsCanonical(s)
    ensures Text(NumberOf(s)) == s
  {
    var n := |s| - 1;
    if n == 0 {
      assert s[..0] == [] && s == [s[0]];
    } else {
      CanonicalIsText(s[..n]);
      PositiveNumber(s[..n]);
      assert s == s[..n] + [s[n]];
    }
  }
}

/** The in-process bus of order status events: per-order numbering and replay buffer, and the event-stream endpoint. */
module OrderEvents {
  import opened Prelude
  import opened Numerals

  const BUFFER_LIMIT := 50
  const MAX_SAFE_INTEGER := 0x1f_ffff_ffff_ffff

  datatype Event = Event(id: nat, order: string, status: string)

  datatype Stream = Stream(nextId: nat, buffer: seq<Event>)

  /** A connection: the frames written so far, and whether it is still subscribed. */
  datatype Client = Client(order: string, frames: seq<Event>, open: bool)

  // ----- the cursor header

  /** White space and line terminators, as `trim` sees them. */
  predicate IsSpace(c: char)
  {
    || c in {'\t', '\n', '\r', ' ', '\U{B}', '\U{C}', '\U{A0}', '\U{1680}', '\U{2028}', '\U{2029}', '\U{202F}',
             '\U{205F}', '\U{3000}', '\U{FEFF}'}
    || '\U{2000}' <= c <= '\U{200A}'
  }

  function TrimStart(s: string): string
  {
    if s != [] && IsSpace(s[0]) then TrimStart(s[1..]) else s
  }

  function TrimEnd(s: string): string
  {
    if s != [] && IsSpace(s[|s| - 1]) then TrimEnd(s[..|s| - 1]) else s
  }

  function Trim(s: string): string
  {
    TrimEnd(TrimStart(s))
  }

  /** None means "from now on". */
  function ParseLastEventId(header: Option<string>): Option<nat>
  {
    if header.None? then Some(0) else
    var value := Trim(header.value);
    if !IsCanonical(value) then None else
    var id := NumberOf(value);
    if id > MAX_SAFE_INTEGER then None else Some(id)
  }

  /** The header is a cursor exactly when, trimmed, it is the decimal text of a safe integer: that integer. */
  lemma CursorIsItsText(header: Option<string>, k: nat)
    ensures ParseLastEventId(header) == Some(k) <==>
            if header.None? then k == 0 else Trim(header.value) == Text(k) && k <= MAX_SAFE_INTEGER
  {
    TextIsCanonical(k);
    if header.Some? && IsCanonical(Trim(header.value)) {
      CanonicalIsText(Trim(header.value));
    }
  }

  lemma CursorRoundTrip(k: nat)
    ensures ParseLastEventId(Some(Text(k))) == if k <= MAX_SAFE_INTEGER then Some(k) else None
  {
    TextIsCanonical(k);
    var s := Text(k);
    assert IsDigit(s[0]) && IsDigit(s[|s| - 1]);
    assert Trim(s) == s;
  }

  // ----- the events of one order

  /** The events of `order`, oldest first. */
  function Of(history: seq<Event>, order: string): seq<Event>
  {
    if history == [] then []
    else
      var n := |history| - 1;
      Of(history[..n], order) + if history[n].order == order then [history[n]] else []
  }

  lemma OfSnoc(history: seq<Event>, e: Event, order: string)
    ensures Of(history + [e], order) == Of(history, order) + if e.order == order then [e] else []
  {
    assert (history + [e])[..|history|] == history;
  }

  lemma {:induction false} OfConcat(h1: seq<Event>, h2: seq<Event>, order: string)
    ensures Of(h1 + h2, order) == Of(h1, order) + Of(h2, order)
  {
    if h2 == [] {
      assert h1 + h2 == h1;
    } else {
      var n := |h2| - 1;
      OfConcat(h1, h2[..n], order);
      assert (h1 + h2)[..|h1| + n] == h1 + h2[..n];
    }
  }

  /** Each event carries the next number of its own order. */
  ghost predicate Numbered(history: seq<Event>)
  {
    history != [] ==>
      var n := |history| - 1;
      Numbered(history[..n]) && history[n].id == |Of(history[..n], history[n].order)| + 1
  }

  /** `events` are numbered from + 1, from + 2, ... */
  predicate Consecutive(events: seq<Event>, from: nat)
  {
    forall i :: 0 <= i < |events| ==> events[i].id == from + i + 1
  }

  lemma {:induction false} NumberedIsConsecutive(history: seq<Event>, order: string)
    requires Numbered(history)
    ensures Consecutive(Of(history, order), 0)
    ensures forall e :: e in Of(history, order) <==> e in history && e.order == order
  {
    if history != [] {
      var n := |history| - 1;
      NumberedIsConsecutive(history[..n], order);
      assert history == history[..n] + [history[n]];
    }
  }

  lemma {:induction false} NumberedPrefix(h1: seq<Event>, h2: seq<Event>)
    requires Numbered(h1 + h2)
    ensures Numbered(h1)
  {
    if h2 == [] {
      assert h1 + h2 == h1;
    } else {
      assert (h1 + h2)[..|h1| + |h2| - 1] == h1 + h2[..|h2| - 1];
      NumberedPrefix(h1, h2[..|h2| - 1]);
    }
  }

  // ----- replay

  /** All but the first k. */
  function From(events: seq<Event>, k: nat): seq<Event>
  {
    if k <= |events| then events[k..] else []
  }

  lemma FromConcat(a: seq<Event>, b: seq<Event>, k: nat)
    requires k <= |a|
    ensures From(a, k) + b == From(a + b, k)
  {
  }

  lemma FromIsConsecutive(events: seq<Event>, k: nat)
    requires Consecutive(events, 0)
    ensures Consecutive(From(events, k), k)
  {
  }

  function LastOnes(events: seq<Event>): seq<Event>
  {
    if |events| > BUFFER_LIMIT then events[|events| - BUFFER_LIMIT..] else events
  }

  /** buffer.filter(event => event.id > cursor) */
  function After(buffer: seq<Event>, cursor: nat): seq<Event>
  {
    if buffer == [] then []
    else (if buffer[0].id > cursor then [buffer[0]] else []) + After(buffer[1..], cursor)
  }

  lemma {:induction false} AfterIsSuffix(buffer: seq<Event>, from: nat, cursor: nat)
    requires Consecutive(buffer, from)
    ensures After(buffer, cursor) ==
            if cursor <= from then buffer else if cursor - from <= |buffer| then buffer[cursor - from..] else []
  {
    if buffer != [] {
      assert Consecutive(buffer[1..], from + 1) by {
        assert forall i :: 0 <= i < |buffer| - 1 ==> buffer[1..][i] == buffer[i + 1];
      }
      AfterIsSuffix(buffer[1..], from + 1, cursor);
    }
  }

  /** Where a stream starts that connects when its order has `n` events: the number of events it will never see. */
  function Skipped(cursor: Option<nat>, n: nat): (first: nat)
    ensures first <= n
  {
    var dropped := if n > BUFFER_LIMIT then n - BUFFER_LIMIT else 0;
    if cursor.None? || cursor.value > n then n
    else if cursor.value > dropped then cursor.value else dropped
  }

  function Replayed(events: seq<Event>, cursor: Option<nat>): seq<Event>
  {
    if cursor.None? then [] else After(LastOnes(events), cursor.value)
  }

  lemma ReplayIsSuffix(events: seq<Event>, cursor: Option<nat>)
    requires Consecutive(events, 0)
    ensures Replayed(events, cursor) == From(events, Skipped(cursor, |events|))
  {
    if cursor.Some? {
      var dropped := if |events| > BUFFER_LIMIT then |events| - BUFFER_LIMIT else 0;
      assert Consecutive(LastOnes(events), dropped);
      AfterIsSuffix(LastOnes(events), dropped, cursor.value);
    }
  }

  /** The frames of a connection made after `past`, once `live` has been published too. */
  function Received(past: seq<Event>, live: seq<Event>, order: string, cursor: Option<nat>): seq<Event>
  {
    Replayed(Of(past, order), cursor) + Of(live, order)
  }

  /**
   What a connection receives: replay from the history at connect time, then every later event of its order, live.
   Together a suffix of the order's events: in id order, with no gap and no duplicate where the two meet.
   */
  lemma ReplayThenLive(past: seq<Event>, live: seq<Event>, order: string, cursor: Option<nat>)
    requires Numbered(past + live)
    ensures Received(past, live, order, cursor) ==
            From(Of(past + live, order), Skipped(cursor, |Of(past, order)|))
    ensures Consecutive(Received(past, live, order, cursor), Skipped(cursor, |Of(past, order)|))
  {
    NumberedPrefix(past, live);
    NumberedIsConsecutive(past, order);
    NumberedIsConsecutive(past + live, order);
    ReplayIsSuffix(Of(past, order), cursor);
    OfConcat(past, live, order);
    var first := Skipped(cursor, |Of(past, order)|);
    FromConcat(Of(past, order), Of(live, order), first);
    FromIsConsecutive(Of(past + live, order), first);
  }

  /** A client with a valid cursor gets exactly the events after it if, and only if, it missed at most 50. */
  lemma NothingMissed(past: seq<Event>, live: seq<Event>, order: string, cursor: nat)
    requires Numbered(past + live) && cursor <= |Of(past, order)|
    ensures Received(past, live, order, Some(cursor)) == From(Of(past + live, order), cursor) <==>
            |Of(past, order)| - cursor <= BUFFER_LIMIT
    ensures forall e :: e in From(Of(past + live, order), cursor) <==>
            e in past + live && e.order == order && e.id > cursor
  {
    ReplayThenLive(past, live, order, Some(cursor));
    OfConcat(past, live, order);
    var all := Of(past + live, order);
    NumberedIsConsecutive(past + live, order);
    var got := Received(past, live, order, Some(cursor));
    assert |got| == |all| - Skipped(Some(cursor), |Of(past, order)|) && |From(all, cursor)| == |all| - cursor;
    FromAfter(all, cursor);
  }

  lemma FromAfter(all: seq<Event>, cursor: nat)
    requires Consecutive(all, 0)
    ensures forall e :: e in From(all, cursor) <==> e in all && e.id > cursor
  {
    forall e ensures e in From(all, cursor) <==> e in all && e.id > cursor {
      if e in From(all, cursor) {
        var i :| 0 <= i < |all| - cursor && all[cursor..][i] == e;
        assert all[cursor + i] == e;
      }
      if e in all && e.id > cursor {
        var i :| 0 <= i < |all| && all[i] == e;
        assert all[cursor..][i - cursor] == e;
      }
    }
  }

  lemma FromJoin(a: seq<Event>, b: seq<Event>, k: nat)
    requires k <= |a|
    ensures From(a, k) + From(a + b, |a|) == From(a + b, k)
  {
  }

  /** The last frame's id counts the order's events so far. */
  lemma LastFrame(past: seq<Event>, live: seq<Event>, order: string, cursor: Option<nat>)
    requires Numbered(past + live)
    ensures var frames := Received(past, live, order, cursor);
            && frames == From(Of(past + live, order), Skipped(cursor, |Of(past, order)|))
            && |Of(past, order)| <= |Of(past + live, order)|
            && (frames != [] ==> frames[|frames| - 1].id == |Of(past + live, order)|)
  {
    ReplayThenLive(past, live, order, cursor);
    OfConcat(past, live, order);
  }

  /** A stream that knows all events up to `seen` and missed at most 50 after that, resumed from there. */
  lemma Resumed(seen: seq<Event>, missed: seq<Event>, live: seq<Event>, order: string)
    requires Numbered(seen + missed + live) && |Of(missed, order)| <= BUFFER_LIMIT
    ensures Received(seen + missed, live, order, Some(|Of(seen, order)|)) ==
            From(Of(seen + missed + live, order), |Of(seen, order)|)
  {
    ReplayThenLive(seen + missed, live, order, Some(|Of(seen, order)|));
    OfConcat(seen, missed, order);
  }

  lemma ResumedJoins(seen: seq<Event>, missed: seq<Event>, live: seq<Event>, order: string, k: nat)
    requires Numbered(seen + missed + live) && |Of(missed, order)| <= BUFFER_LIMIT && k <= |Of(seen, order)|
    ensures From(Of(seen, order), k) + Received(seen + missed, live, order, Some(|Of(seen, order)|)) ==
            From(Of(seen + missed + live, order), k)
  {
    Resumed(seen, missed, live, order);
    assert seen + missed + live == seen + (missed + live);
    OfConcat(seen, missed + live, order);
    FromJoin(Of(seen, order), Of(missed + live, order), k);
  }

  /**
   Reconnecting with the id of the last frame, as a header: the frames of both connections, end to end, are the order's
   events from where the first one started.
   */
  lemma ReconnectResumes(before: seq<Event>, first: seq<Event>, missed: seq<Event>, live: seq<Event>, order: string,
                         cursor: Option<nat>)
    requires Numbered(before + first + missed + live)
    requires var frames := Received(before, first, order, cursor);
             frames != [] && frames[|frames| - 1].id <= MAX_SAFE_INTEGER
    requires |Of(missed, order)| <= BUFFER_LIMIT
    ensures var frames := Received(before, first, order, cursor);
            var again := ParseLastEventId(Some(Text(frames[|frames| - 1].id)));
            frames + Received(before + first + missed, live, order, again) ==
            From(Of(before + first + missed + live, order), Skipped(cursor, |Of(before, order)|))
  {
    var seen := before + first;
    NumberedPrefix(seen + missed, live);
    NumberedPrefix(seen, missed);
    LastFrame(before, first, order, cursor);
    CursorRoundTrip(|Of(seen, order)|);
    ResumedJoins(seen, missed, live, order, Skipped(cursor, |Of(before, order)|));
  }

  // ----- the bus

  ghost predicate StreamMatches(streams: map<string, Stream>, history: seq<Event>, order: string)
  {
    var events := Of(history, order);
    if order in streams then streams[order] == Stream(|events| + 1, LastOnes(events)) else events == []
  }

  /** The frames are the order's events from `first` on; all of them while the connection is open. */
  ghost predicate ClientMatches(c: Client, first: nat, history: seq<Event>)
  {
    var events := Of(history, c.order);
    && first + |c.frames| <= |events|
    && c.frames == events[first..first + |c.frames|]
    && (c.open ==> first + |c.frames| == |events|)
  }

  /** subject.next: every open subscriber of the event's order writes a frame. */
  function Delivered(clients: map<nat, Client>, e: Event): map<nat, Client>
  {
    map id | id in clients ::
      if clients[id].open && clients[id].order == e.order then clients[id].(frames := clients[id].frames + [e])
      else clients[id]
  }

  lemma LastOnesSnoc(events: seq<Event>, e: Event)
    ensures LastOnes(LastOnes(events) + [e]) == LastOnes(events + [e])
  {
  }

  lemma StreamSnoc(streams: map<string, Stream>, history: seq<Event>, e: Event, buffer: seq<Event>, order: string)
    requires StreamMatches(streams, history, order) && StreamMatches(streams, history, e.order)
    requires e.id == |Of(history, e.order)| + 1
    requires buffer == LastOnes(LastOnes(Of(history, e.order)) + [e])
    ensures StreamMatches(streams[e.order := Stream(e.id + 1, buffer)], history + [e], order)
  {
    OfSnoc(history, e, order);
    LastOnesSnoc(Of(history, e.order), e);
  }

  lemma ClientSnoc(clients: map<nat, Client>, id: nat, first: nat, history: seq<Event>, e: Event)
    requires id in clients && ClientMatches(clients[id], first, history)
    ensures ClientMatches(Delivered(clients, e)[id], first, history + [e])
  {
    OfSnoc(history, e, clients[id].order);
  }

  ghost predicate StreamsMatch(streams: map<string, Stream>, history: seq<Event>)
  {
    forall order: string :: StreamMatches(streams, history, order)
  }

  ghost predicate ClientsMatch(clients: map<nat, Client>, first: map<nat, nat>, history: seq<Event>)
  {
    && clients.Keys == first.Keys
    && forall id :: id in clients ==> ClientMatches(clients[id], first[id], history)
  }

  lemma StreamsSnoc(streams: map<string, Stream>, history: seq<Event>, e: Event, buffer: seq<Event>)
    requires StreamsMatch(streams, history)
    requires e.id == |Of(history, e.order)| + 1 && buffer == LastOnes(LastOnes(Of(history, e.order)) + [e])
    ensures StreamsMatch(streams[e.order := Stream(e.id + 1, buffer)], history + [e])
  {
    var streams' := streams[e.order := Stream(e.id + 1, buffer)];
    var history' := history + [e];
    forall order: string ensures StreamMatches(streams', history', order) {
      assert StreamMatches(streams, history, order) && StreamMatches(streams, history, e.order);
      StreamSnoc(streams, history, e, buffer, order);
    }
  }

  lemma ClientsSnoc(clients: map<nat, Client>, first: map<nat, nat>, history: seq<Event>, e: Event)
    requires ClientsMatch(clients, first, history)
    ensures ClientsMatch(Delivered(clients, e), first, history + [e])
  {
    forall id | id in clients ensures ClientMatches(Delivered(clients, e)[id], first[id], history + [e]) {
      ClientSnoc(clients, id, first[id], history, e);
    }
  }

  lemma SuffixMatches(history: seq<Event>, order: string, k: nat)
    requires k <= |Of(history, order)|
    ensures ClientMatches(Client(order, From(Of(history, order), k), true), k, history)
  {
    var events := Of(history, order);
    assert events[k..] == events[k..|events|];
  }

  /** Connecting: what replay has to be for the connection to match. */
  lemma ConnectMatches(history: seq<Event>, order: string, cursor: Option<nat>)
    requires Numbered(history)
    ensures var events := Of(history, order);
            && Replayed(events, cursor) == From(events, Skipped(cursor, |events|))
            && ClientMatches(Client(order, Replayed(events, cursor), true), Skipped(cursor, |events|), history)
  {
    NumberedIsConsecutive(history, order);
    ReplayIsSuffix(Of(history, order), cursor);
    SuffixMatches(history, order, Skipped(cursor, |Of(history, order)|));
  }

  lemma ConnectKeeps(clients: map<nat, Client>, first: map<nat, nat>, history: seq<Event>,
                     id: nat, c: Client, at: nat)
    requires ClientsMatch(clients, first, history) && ClientMatches(c, at, history)
    ensures ClientsMatch(clients[id := c], first[id := at], history)
  {
  }

  lemma NumberedSnoc(history: seq<Event>, e: Event)
    requires Numbered(history) && e.id == |Of(history, e.order)| + 1
    ensures Numbered(history + [e])
  {
    assert (history + [e])[..|history|] == history;
  }

  lemma CloseMatches(clients: map<nat, Client>, first: map<nat, nat>, history: seq<Event>, id: nat)
    requires ClientsMatch(clients, first, history) && id in clients
    ensures ClientsMatch(clients[id := clients[id].(open := false)], first, history)
  {
  }

  class Bus {
    var streams: map<string, Stream>
    var clients: map<nat, Client>
    /** Everything published, and for each connection how many events of its order came before its first frame. */
    ghost var history: seq<Event>
    ghost var first: map<nat, nat>

    ghost predicate Valid()
      reads this
    {
      Numbered(history) && StreamsMatch(streams, history) && ClientsMatch(clients, first, history)
    }

    constructor ()
      ensures Valid() && history == [] && clients == map[]
    {
      streams, clients, history, first := map[], map[], [], map[];
    }

    method Publish(order: string, status: string) returns (e: Event)
      requires Valid()
      modifies this
      ensures Valid() && first == old(first)
      ensures history == old(history) + [e] && e.order == order && e.status == status
      ensures clients == Delivered(old(clients), e)
    {
      assert StreamMatches(streams, history, order);
      var stream := if order in streams then streams[order] else Stream(1, []);
      e := Event(stream.nextId, order, status);
      var buffer := stream.buffer + [e];
      if |buffer| > BUFFER_LIMIT {
        buffer := buffer[|buffer| - BUFFER_LIMIT..];
      }
      StreamsSnoc(streams, history, e, buffer);
      ClientsSnoc(clients, first, history, e);
      NumberedSnoc(history, e);
      streams := streams[order := Stream(stream.nextId + 1, buffer)];
      clients := Delivered(clients, e);
      history := history + [e];
    }

    method ReplayAfter(order: string, cursor: nat) returns (events: seq<Event>)
      requires Valid()
      ensures events == Replayed(Of(history, order), Some(cursor))
    {
      assert StreamMatches(streams, history, order);
      events := After(if order in streams then streams[order].buffer else [], cursor);
    }

    /** Replay, frame by frame, and then subscribe, with nothing published in between. */
    method StreamEvents(id: nat, order: string, header: Option<string>)
      requires Valid() && id !in clients
      modifies this`clients, this`first
      ensures Valid()
      ensures first == old(first)[id := Skipped(ParseLastEventId(header), |Of(history, order)|)]
      ensures clients == old(clients)[id := Client(order, From(Of(history, order), first[id]), true)]
    {
      var cursor := ParseLastEventId(header);
      var frames: seq<Event> := [];
      if cursor.Some? {
        var replay := ReplayAfter(order, cursor.value);
        for i := 0 to |replay|
          invariant frames == replay[..i]
        {
          frames := frames + [replay[i]];
        }
      }
      assert frames == Replayed(Of(history, order), cursor);
      ConnectMatches(history, order, cursor);
      ConnectKeeps(clients, first, history, id, Client(order, frames, true), Skipped(cursor, |Of(history, order)|));
      clients := clients[id := Client(order, frames, true)];
      first := first[id := Skipped(cursor, |Of(history, order)|)];
    }

    method Close(id: nat)
      requires Valid() && id in clients
      modifies this`clients
      ensures Valid() && clients == old(clients)[id := old(clients)[id].(open := false)]
    {
      CloseMatches(clients, first, history, id);
      clients := clients[id := clients[id].(open := false)];
    }
  }
}
