// The rate-limit gate of src/roq/bybit/tools/throttle.cpp: three response headers and the final HTTP status
// drive one timestamp, before which no request may be sent.  All times are nanoseconds unless said otherwise.

module Throttle {

  const NANOS_PER_MILLI := 1_000_000
  const DEFAULT_BACKOFF := 5_000_000_000
  const BLOCKED_BACKOFF := 600_000_000_000

  datatype Header = Unknown | Limit | LimitStatus | LimitResetTimestamp

  function ToLower(c: char): char {
    if 'A' <= c <= 'Z' then (c as int - 'A' as int + 'a' as int) as char else c
  }

  function Lower(text: string): string {
    seq(|text|, i requires 0 <= i < |text| => ToLower(text[i]))
  }

  function ParseHeader(name: string): Header {
    var key := Lower(name);
    if key == "x-bapi-limit" then Limit
    else if key == "x-bapi-limit-status" then LimitStatus
    else if key == "x-bapi-limit-reset-timestamp" then LimitResetTimestamp
    else Unknown
  }

  // The system clock and the realtime (UTC) clock, read while one event is processed.
  datatype Clock = Clock(now: int, nowUtc: int)

  // The decoded header value is in milliseconds for the reset timestamp.
  datatype Event =
    | MessageHeader(name: string, value: int, clock: Clock)
    | MessageEnd(status: int, clock: Clock)

  datatype State = State(enabled: bool, limit: int, limitStatus: int, limitResetTimestamp: int, suspendUntil: int)

  function Init(enabled: bool): State {
    State(enabled, 0, 0, 0, 0)
  }

  function Max(a: int, b: int): int {
    if a < b then b else a
  }

  // Quota is left, or the exchange has not said when the window ends.
  predicate Open(s: State) {
    s.limitStatus > 0 || s.limitResetTimestamp == 0
  }

  function Resume(s: State, clock: Clock): int {
    var timestamp := s.limitResetTimestamp * NANOS_PER_MILLI;
    if clock.nowUtc < timestamp then clock.now + (timestamp - clock.nowUtc) else clock.now + DEFAULT_BACKOFF
  }

  function UpdateSuspendUntil(s: State, clock: Clock): State {
    if !s.enabled then s
    else if Open(s) then s.(suspendUntil := 0)
    else s.(suspendUntil := Max(s.suspendUntil, Resume(s, clock)))
  }

  // The parameters after a header, before the gate is recomputed.
  function UpdateValue(s: State, header: Header, value: int): State {
    match header
    case Unknown => s
    case Limit => s.(limit := value)
    case LimitStatus => s.(limitStatus := value)
    case LimitResetTimestamp => s.(limitResetTimestamp := value)
  }

  predicate Recomputes(s: State, e: Event) {
    e.MessageHeader? &&
    match ParseHeader(e.name)
    case Unknown => false
    case Limit => false
    case LimitStatus => s.limitStatus != e.value
    case LimitResetTimestamp => s.limitResetTimestamp != e.value
  }

  function Next(s: State, e: Event): State {
    match e
    case MessageHeader(name, value, clock) =>
      var s' := UpdateValue(s, ParseHeader(name), value);
      if Recomputes(s, e) then UpdateSuspendUntil(s', clock) else s'
    case MessageEnd(status, clock) =>
      if !s.enabled then s
      else if status == 403 then s.(suspendUntil := Max(s.suspendUntil, clock.now + BLOCKED_BACKOFF))
      else if status == 429 && s.suspendUntil == 0 then s.(suspendUntil := clock.now + DEFAULT_BACKOFF)
      else s
  }

  function Run(s: State, events: seq<Event>): State
    decreases events
  {
    if events == [] then s else Run(Next(s, events[0]), events[1..])
  }

  /** The object itself: `operator()` for a header and for the end of a message. */
  class Throttler {
    const enabled: bool
    var limit: int
    var limitStatus: int
    var limitResetTimestamp: int
    var suspendUntil: int

    function View(): State
      reads this
    {
      State(enabled, limit, limitStatus, limitResetTimestamp, suspendUntil)
    }

    constructor (enabled: bool)
      ensures View() == Init(enabled)
    {
      this.enabled := enabled;
      limit, limitStatus, limitResetTimestamp, suspendUntil := 0, 0, 0, 0;
    }

    method UpdateGate(clock: Clock)
      modifies this`suspendUntil
      ensures View() == UpdateSuspendUntil(old(View()), clock)
    {
      if !enabled {
        return;
      }
      if limitStatus > 0 || limitResetTimestamp == 0 {
        suspendUntil := 0;
      } else {
        var timestamp := limitResetTimestamp * NANOS_PER_MILLI;
        if clock.nowUtc < timestamp {
          var period := timestamp - clock.nowUtc;
          suspendUntil := Max(suspendUntil, clock.now + period);
        } else {
          suspendUntil := Max(suspendUntil, clock.now + DEFAULT_BACKOFF);
        }
      }
    }

    method OnMessageHeader(name: string, value: int, clock: Clock)
      modifies this
      ensures View() == Next(old(View()), MessageHeader(name, value, clock))
    {
      match ParseHeader(name) {
        case Unknown =>
        case Limit =>
          limit := value;
        case LimitStatus =>
          var changed := limitStatus != value;
          limitStatus := value;
          if changed {
            UpdateGate(clock);
          }
        case LimitResetTimestamp =>
          var changed := limitResetTimestamp != value;
          limitResetTimestamp := value;
          if changed {
            UpdateGate(clock);
          }
      }
    }

    method OnMessageEnd(status: int, clock: Clock)
      modifies this`suspendUntil
      ensures View() == Next(old(View()), MessageEnd(status, clock))
    {
      if !enabled {
        return;
      }
      if status == 403 {
        suspendUntil := Max(suspendUntil, clock.now + BLOCKED_BACKOFF);
      } else if status == 429 {
        if suspendUntil == 0 {
          suspendUntil := clock.now + DEFAULT_BACKOFF;
        }
      }
    }
  }

  // ---- What one event does ----

  // The same letter, in either case.
  predicate SameLetter(a: char, b: char) {
    || a == b
    || ('A' <= a <= 'Z' && 'a' <= b <= 'z' && b as int - 'a' as int == a as int - 'A' as int)
    || ('A' <= b <= 'Z' && 'a' <= a <= 'z' && a as int - 'a' as int == b as int - 'A' as int)
  }

  // The same name, in any spelling of its case.
  predicate SameName(a: string, b: string) {
    |a| == |b| && forall i | 0 <= i < |a| :: SameLetter(a[i], b[i])
  }

  lemma LowerIsSameName(name: string, lower: string)
    requires forall i | 0 <= i < |lower| :: !('A' <= lower[i] <= 'Z')
    ensures Lower(name) == lower <==> SameName(name, lower)
  {
    if |name| == |lower| {
      forall i | 0 <= i < |name| ensures Lower(name)[i] == lower[i] <==> SameLetter(name[i], lower[i]) {
      }
    }
  }

  lemma NamesAreDifferent(name: string)
    ensures Lower(name) == "x-bapi-limit" <==> SameName(name, "x-bapi-limit")
    ensures Lower(name) == "x-bapi-limit-status" <==> SameName(name, "x-bapi-limit-status")
    ensures Lower(name) == "x-bapi-limit-reset-timestamp" <==> SameName(name, "x-bapi-limit-reset-timestamp")
    ensures |"x-bapi-limit"| < |"x-bapi-limit-status"| < |"x-bapi-limit-reset-timestamp"|
  {
    hide Lower, SameName;
    LowerIsSameName(name, "x-bapi-limit");
    LowerIsSameName(name, "x-bapi-limit-status");
    LowerIsSameName(name, "x-bapi-limit-reset-timestamp");
  }

  /** A header replaces the parameter it names, in any spelling of its case, and no other. */
  lemma HeadersAreStored(s: State, name: string, value: int, clock: Clock)
    ensures var s' := Next(s, MessageHeader(name, value, clock));
            && s'.limit == (if SameName(name, "x-bapi-limit") then value else s.limit)
            && s'.limitStatus == (if SameName(name, "x-bapi-limit-status") then value else s.limitStatus)
            && s'.limitResetTimestamp == (if SameName(name, "x-bapi-limit-reset-timestamp") then value else s.limitResetTimestamp)
            && s'.enabled == s.enabled
  {
    hide Lower, SameName;
    NamesAreDifferent(name);
  }

  // The later of two times.
  ghost predicate IsLater(t: int, a: int, b: int) {
    t >= a && t >= b && (t == a || t == b)
  }

  /** A final status moves the gate by its own amount: ten minutes after a 403, never earlier than it was; five
      seconds after a 429 on an open gate.  A 429 on a closed gate, any other status and a disabled gate change
      nothing. */
  lemma StatusMovesGate(s: State, status: int, clock: Clock)
    ensures var s' := Next(s, MessageEnd(status, clock));
            && s'.(suspendUntil := s.suspendUntil) == s
            && (s.enabled && status == 403 ==> IsLater(s'.suspendUntil, s.suspendUntil, clock.now + 600_000_000_000))
            && (s.enabled && status == 429 && s.suspendUntil == 0 ==> s'.suspendUntil == clock.now + 5_000_000_000)
            && (s.enabled && status == 429 && s.suspendUntil != 0 ==> s' == s)
            && (!s.enabled || (status != 403 && status != 429) ==> s' == s)
  {
  }

  /** A header that changes the status or the reset time, without quota and with a reset time, closes the gate until
      that time, given in milliseconds, and for five seconds when it has passed; never for less than before. */
  lemma HeaderMovesGate(s: State, name: string, value: int, clock: Clock)
    requires s.enabled
    ensures var e := MessageHeader(name, value, clock);
            var s' := Next(s, e);
            && (s'.limitStatus == s.limitStatus && s'.limitResetTimestamp == s.limitResetTimestamp ==> s'.suspendUntil == s.suspendUntil)
            && (s'.limitStatus != s.limitStatus || s'.limitResetTimestamp != s.limitResetTimestamp ==>
                  if s'.limitStatus > 0 || s'.limitResetTimestamp == 0 then s'.suspendUntil == 0
                  else if clock.nowUtc < s'.limitResetTimestamp * 1_000_000 then
                    IsLater(s'.suspendUntil, s.suspendUntil, clock.now + (s'.limitResetTimestamp * 1_000_000 - clock.nowUtc))
                  else IsLater(s'.suspendUntil, s.suspendUntil, clock.now + 5_000_000_000))
  {
  }

  predicate Ignored(e: Event) {
    match e
    case MessageHeader(name, _, _) =>
      && !SameName(name, "x-bapi-limit") && !SameName(name, "x-bapi-limit-status")
      && !SameName(name, "x-bapi-limit-reset-timestamp")
    case MessageEnd(status, _) => status != 403 && status != 429
  }

  lemma IgnoredChangesNothing(s: State, e: Event)
    requires Ignored(e)
    ensures Next(s, e) == s
  {
    hide Lower, SameName;
    if e.MessageHeader? {
      NamesAreDifferent(e.name);
    }
  }

  /** A new throttle lets requests pass and knows no limits, until a header or a status that it knows. */
  lemma {:induction false} OpenUntilTold(enabled: bool, events: seq<Event>)
    requires forall e | e in events :: Ignored(e)
    ensures Run(Init(enabled), events) == State(enabled, 0, 0, 0, 0)
    decreases events
  {
    if events != [] {
      hide Next, Ignored;
      assert Ignored(events[0]);
      IgnoredChangesNothing(Init(enabled), events[0]);
      OpenUntilTold(enabled, events[1..]);
    }
  }

  // ---- The gate is a lower bound for the end of an exhausted window ----

  // Clocks do not run before their epoch, and UTC is at most `offset` ahead of the system clock.  A constant
  // offset is the special case in which both readings always differ by exactly `offset`.
  ghost predicate Synchronised(e: Event, offset: int) {
    e.clock.now >= 0 && e.clock.nowUtc - e.clock.now <= offset
  }

  ghost predicate Safe(s: State, offset: int) {
    && s.suspendUntil >= 0
    && (!s.enabled ==> s.suspendUntil == 0)
    && (s.enabled && s.limitStatus <= 0 && s.limitResetTimestamp != 0 ==>
          s.suspendUntil >= s.limitResetTimestamp * 1_000_000 - offset)
  }

  lemma {:induction false} RunKeepsSafe(s: State, events: seq<Event>, offset: int)
    requires Safe(s, offset)
    requires forall e | e in events :: Synchronised(e, offset)
    ensures Safe(Run(s, events), offset)
    decreases events
  {
    if events != [] {
      assert Synchronised(events[0], offset);
      RunKeepsSafe(Next(s, events[0]), events[1..], offset);
    }
  }

  /** In every reachable state with no quota left, no request may be sent before the window has ended,
      although the gate is recomputed only by a header that changes a value; and a disabled gate is open. */
  lemma {:induction false} GateCoversResetTime(enabled: bool, events: seq<Event>, offset: int)
    requires forall e | e in events :: Synchronised(e, offset)
    ensures var s := Run(Init(enabled), events);
            && s.enabled == enabled
            && (!enabled ==> s.suspendUntil == 0)
            && (enabled && s.limitStatus <= 0 && s.limitResetTimestamp != 0 ==>
                  s.suspendUntil >= s.limitResetTimestamp * 1_000_000 - offset)
  {
    RunKeepsSafe(Init(enabled), events, offset);
    RunKeepsEnabled(Init(enabled), events);
  }

  lemma {:induction false} RunKeepsEnabled(s: State, events: seq<Event>)
    ensures Run(s, events).enabled == s.enabled
    decreases events
  {
    if events != [] {
      RunKeepsEnabled(Next(s, events[0]), events[1..]);
    }
  }

  // The last moment any single event can ask for: `horizon` bounds the system clock, `reset` the timestamps.
  ghost predicate Within(e: Event, horizon: int, reset: int, offset: int) {
    && e.clock.now <= horizon
    && e.clock.nowUtc - e.clock.now >= offset
    && (e.MessageHeader? && ParseHeader(e.name) == LimitResetTimestamp ==> e.value <= reset)
    && (e.MessageEnd? ==> e.status != 403)
  }

  /** The gate never closes for longer than the exchange asked for: without a 403, it is at most the latest
      reset time seen, or one default backoff after the latest event. */
  lemma {:induction false} GateNotBeyondResetTime(s: State, events: seq<Event>, horizon: int, reset: int, offset: int)
    requires forall e | e in events :: Within(e, horizon, reset, offset)
    requires s.limitResetTimestamp <= reset
    requires 0 <= horizon
    requires s.suspendUntil <= Max(reset * 1_000_000 - offset, horizon + 5_000_000_000)
    ensures Run(s, events).suspendUntil <= Max(reset * 1_000_000 - offset, horizon + 5_000_000_000)
    decreases events
  {
    if events != [] {
      var e := events[0];
      assert Within(e, horizon, reset, offset);
      GateNotBeyondResetTime(Next(s, e), events[1..], horizon, reset, offset);
    }
  }

  // ---- The shape of the gate over a run ----

  // A header that changes a value and leaves quota available, or no reset time.
  predicate Clears(s: State, e: Event) {
    s.enabled && Recomputes(s, e) && Open(UpdateValue(s, ParseHeader(e.name), e.value))
  }

  /** One event lowers the gate exactly when it is such a header and the gate was closed; then it drops to zero. */
  lemma GateDropsExactlyWhenCleared(s: State, e: Event)
    requires s.suspendUntil >= 0
    requires e.clock.now >= 0
    ensures Next(s, e).suspendUntil < s.suspendUntil <==> Clears(s, e) && s.suspendUntil > 0
    ensures Clears(s, e) ==> Next(s, e).suspendUntil == 0
  {
  }

  ghost predicate ClearedIn(s: State, events: seq<Event>) {
    exists n | 0 <= n < |events| :: Clears(Run(s, events[..n]), events[n])
  }

  ghost predicate BelowIn(s: State, events: seq<Event>, level: int) {
    exists n | 0 <= n <= |events| :: Run(s, events[..n]).suspendUntil < level
  }

  lemma {:induction false} RunSnoc(s: State, events: seq<Event>, e: Event)
    ensures Run(s, events + [e]) == Next(Run(s, events), e)
    decreases events
  {
    if events == [] {
      assert [e][1..] == [];
      assert events + [e] == [e];
    } else {
      assert (events + [e])[1..] == events[1..] + [e];
      RunSnoc(Next(s, events[0]), events[1..], e);
    }
  }

  lemma {:induction false} NotClearedStaysAbove(s: State, events: seq<Event>, level: int)
    requires level >= 0 && s.suspendUntil >= level
    requires forall e | e in events :: e.clock.now >= 0
    requires forall n | 0 <= n < |events| :: !Clears(Run(s, events[..n]), events[n])
    ensures Run(s, events).suspendUntil >= level
  {
    if events != [] {
      var k := |events| - 1;
      var before := events[..k];
      assert events == before + [events[k]];
      forall n | 0 <= n < |before| ensures !Clears(Run(s, before[..n]), before[n]) {
        assert before[..n] == events[..n];
      }
      NotClearedStaysAbove(s, before, level);
      RunSnoc(s, before, events[k]);
      GateDropsExactlyWhenCleared(Run(s, before), events[k]);
    }
  }

  /** From any closed gate, some later moment lets requests out early exactly when some event clears the gate. */
  lemma {:induction false} GateHoldsUntilCleared(s: State, events: seq<Event>, level: int)
    requires 0 < level <= s.suspendUntil
    requires forall e | e in events :: e.clock.now >= 0
    ensures BelowIn(s, events, level) <==> ClearedIn(s, events)
  {
    if n :| 0 <= n < |events| && Clears(Run(s, events[..n]), events[n]) {
      assert events[..n + 1] == events[..n] + [events[n]];
      RunSnoc(s, events[..n], events[n]);
      assert Run(s, events[..n + 1]).suspendUntil < level;
    } else {
      forall n | 0 <= n <= |events| ensures Run(s, events[..n]).suspendUntil >= level {
        forall m | 0 <= m < n ensures !Clears(Run(s, events[..n][..m]), events[..n][m]) {
          assert events[..n][..m] == events[..m];
        }
        NotClearedStaysAbove(s, events[..n], level);
      }
    }
  }

  /** After a 403 the gate stays closed for ten minutes exactly until a header clears it; after a 429 it stays closed
      for five seconds when it was open, and as long as before when it was not, again exactly until a header clears
      it. */
  lemma {:induction false} BackoffHolds(s: State, status: int, clock: Clock, events: seq<Event>)
    requires s.enabled && s.suspendUntil >= 0 && clock.now >= 0
    requires forall e | e in events :: e.clock.now >= 0
    ensures var blocked := Next(s, MessageEnd(status, clock));
            && (status == 403 ==> (BelowIn(blocked, events, clock.now + 600_000_000_000) <==> ClearedIn(blocked, events)))
            && (status == 429 && s.suspendUntil == 0 ==>
                  (BelowIn(blocked, events, clock.now + 5_000_000_000) <==> ClearedIn(blocked, events)))
            && (status == 429 && s.suspendUntil > 0 ==>
                  (BelowIn(blocked, events, s.suspendUntil) <==> ClearedIn(blocked, events)))
  {
    var blocked := Next(s, MessageEnd(status, clock));
    StatusMovesGate(s, status, clock);
    if status == 403 {
      GateHoldsUntilCleared(blocked, events, clock.now + 600_000_000_000);
    }
    if status == 429 {
      GateHoldsUntilCleared(blocked, events, if s.suspendUntil == 0 then clock.now + 5_000_000_000 else s.suspendUntil);
    }
  }

  /** So the ten minutes after a 403 are not guaranteed: the next response that reports quota lifts the block. */
  lemma BlockLiftedByQuota(s: State, clock: Clock, value: int)
    requires s.enabled && s.limitStatus == 0 && value > 0 && clock.now >= 0
    ensures var blocked := Next(s, MessageEnd(403, clock));
            && blocked.suspendUntil >= clock.now + 600_000_000_000
            && Next(blocked, MessageHeader("X-Bapi-Limit-Status", value, clock)).suspendUntil == 0
  {
    assert Lower("X-Bapi-Limit-Status") == "x-bapi-limit-status";
  }

  // ---- The order of the two headers of one response ----

  function StatusHeader(value: int, clock: Clock): Event {
    MessageHeader("x-bapi-limit-status", value, clock)
  }

  function ResetHeader(value: int, clock: Clock): Event {
    MessageHeader("x-bapi-limit-reset-timestamp", value, clock)
  }

  lemma HeaderNames()
    ensures ParseHeader("x-bapi-limit-status") == LimitStatus
    ensures ParseHeader("x-bapi-limit-reset-timestamp") == LimitResetTimestamp
  {
    assert Lower("x-bapi-limit-status") == "x-bapi-limit-status";
    assert Lower("x-bapi-limit-reset-timestamp") == "x-bapi-limit-reset-timestamp";
  }

  /** "No quota left, window ends at `reset`", read in either order at one instant: both orders agree on the
      parameters, and once a value changed both gates cover the deadline.  Reading the status first never opens
      the gate earlier, except in one state: an unknown reset time beside a negative status, with a gate already
      beyond the deadline. */
  lemma HeaderOrder(s: State, reset: int, clock: Clock)
    requires s.enabled && s.suspendUntil >= 0 && clock.now >= 0 && reset != 0
    ensures var statusFirst := Next(Next(s, StatusHeader(0, clock)), ResetHeader(reset, clock));
            var resetFirst := Next(Next(s, ResetHeader(reset, clock)), StatusHeader(0, clock));
            var deadline := reset * 1_000_000 - (clock.nowUtc - clock.now);
            && statusFirst.(suspendUntil := 0) == resetFirst.(suspendUntil := 0)
            && (s.limitStatus != 0 || s.limitResetTimestamp != reset ==>
                  statusFirst.suspendUntil >= deadline && resetFirst.suspendUntil >= deadline)
            && (statusFirst.suspendUntil < resetFirst.suspendUntil <==>
                  && s.limitStatus < 0 && s.limitResetTimestamp == 0
                  && s.suspendUntil > Resume(s.(limitResetTimestamp := reset), clock))
  {
    HeaderNames();
  }

  /** The exception happens: a gate closed for ten seconds is reset by the status and then closed for one. */
  lemma StatusFirstOpensEarlier()
    ensures var s := State(true, 0, -1, 0, 10_000_000_000);
            var clock := Clock(0, 0);
            && Next(Next(s, StatusHeader(0, clock)), ResetHeader(1000, clock)).suspendUntil == 1_000_000_000
            && Next(Next(s, ResetHeader(1000, clock)), StatusHeader(0, clock)).suspendUntil == 10_000_000_000
  {
    HeaderNames();
  }
}
