// What the exchange reads off the subscription messages of a stream: the arguments of all messages in order, sorted
// out by the handler that a push on each of them reaches.

module WireArguments {
  import opened Options
  import opened Json
  import opened Topics
  import opened MarketData
  import Text

  ghost predicate Readable(m: Message) {
    && m.symbols != []
    && CleanTexts(m.symbols)
    && (m.topic.OrderBook? ==> m.topic.depth < 0x1_0000_0000)
  }

  ghost predicate AllReadable(messages: seq<Message>) {
    forall m {:trigger m in messages} | m in messages :: Readable(m)
  }

  lemma ReadableParts(messages: seq<Message>)
    requires AllReadable(messages) && messages != []
    ensures AllReadable(messages[..|messages| - 1]) && Readable(messages[|messages| - 1])
  {
    hide Readable;
    assert messages[|messages| - 1] in messages;
    forall m {:trigger m in messages[..|messages| - 1]} | m in messages[..|messages| - 1] ensures Readable(m) {
      assert m in messages;
    }
  }

  // The arguments of one message, as read; without symbols no message is sent.
  function ReadMessage(m: Message): seq<string> {
    match if m.symbols == [] then None else ReadArgs(MessageText(m))
    case Some(args) => args
    case None => []
  }

  function ReadArguments(messages: seq<Message>): seq<string> {
    if messages == [] then []
    else ReadArguments(messages[..|messages| - 1]) + ReadMessage(messages[|messages| - 1])
  }

  predicate Reaches(arg: string, t: PublicTopic) {
    DispatchTopic(arg) == Some(RouteOf(t))
  }

  // The arguments whose pushes reach the handler of one topic, an order book of that depth.
  function OnTopic(args: seq<string>, t: PublicTopic): seq<string> {
    if args == [] then []
    else OnTopic(args[..|args| - 1], t) + (if Reaches(args[|args| - 1], t) then [args[|args| - 1]] else [])
  }

  lemma {:induction false} OnTopicConcat(a: seq<string>, b: seq<string>, t: PublicTopic)
    ensures OnTopic(a + b, t) == OnTopic(a, t) + OnTopic(b, t)
  {
    if b == [] {
      assert a + b == a;
    } else {
      hide Reaches;
      var n := |b| - 1;
      assert (a + b)[..|a + b| - 1] == a + b[..n] && (a + b)[|a + b| - 1] == b[n];
      OnTopicConcat(a, b[..n], t);
    }
  }

  lemma {:induction false} OnTopicAll(args: seq<string>, t: PublicTopic)
    requires forall i | 0 <= i < |args| :: Reaches(args[i], t)
    ensures OnTopic(args, t) == args
  {
    if args != [] {
      hide Reaches;
      var front, last := args[..|args| - 1], args[|args| - 1];
      OnTopicAll(front, t);
      assert args == front + [last];
    }
  }

  lemma {:induction false} OnTopicNone(args: seq<string>, t: PublicTopic)
    requires forall i | 0 <= i < |args| :: !Reaches(args[i], t)
    ensures OnTopic(args, t) == []
  {
    if args != [] {
      hide Reaches;
      OnTopicNone(args[..|args| - 1], t);
    }
  }

  lemma ReachesExactly(arg: string, a: PublicTopic, b: PublicTopic)
    requires Reaches(arg, a)
    ensures Reaches(arg, b) <==> a == b
  {
    hide DispatchTopic;
  }

  lemma ArgumentReaches(t: PublicTopic, symbol: string)
    requires t.OrderBook? ==> t.depth < 0x1_0000_0000
    ensures Reaches(TopicText(t) + "." + symbol, t)
  {
    hide DispatchTopic, TopicText;
    PushReachesHandler(t, symbol, NoOperation, NoType, false);
  }

  lemma MessageReaches(m: Message, i: nat)
    requires Readable(m) && i < |m.symbols|
    ensures Reaches(MessageArgs(m)[i], m.topic)
  {
    hide Reaches, Text.PrintNat;
    if m.topic.Kline? && i == 0 {
      ArgumentReaches(Kline, Text.PrintNat(KLINE_INTERVAL) + "." + m.symbols[0]);
      assert MessageArgs(m)[0] == TopicText(Kline) + "." + (Text.PrintNat(KLINE_INTERVAL) + "." + m.symbols[0]);
    } else {
      ArgumentReaches(m.topic, m.symbols[i]);
      assert MessageArgs(m)[i] == TopicText(m.topic) + "." + m.symbols[i];
    }
  }

  lemma MessageReads(m: Message)
    requires Readable(m)
    ensures ReadArgs(MessageText(m)) == Some(MessageArgs(m))
  {
    hide ReadArgs, Render, Dispatch, Text.PrintNat, TopicText, Read;
    if m.topic.Kline? {
      KlineReads(m.requestId, KLINE_INTERVAL, m.symbols, NoOperation, NoType, false);
    } else {
      ClosedLoop(m.topic, m.requestId, m.symbols, NoOperation, NoType, false);
    }
  }

  /** The request id read off a message is the number it was sent under, so messages with different ids differ. */
  lemma RequestIdIsRead(m: Message)
    requires Readable(m)
    ensures var v := Read(MessageText(m));
            v.Some? && match GetText(v.value, "req_id") case Some(id) => Text.ReadNat(id) == Some(m.requestId) case None => false
  {
    var args := MessageArgs(m);
    assert CleanTexts(args) by {
      hide Text.PrintNat, TopicText;
      if m.topic.Kline? {
        CleanKlineArgs(KLINE_INTERVAL, m.symbols);
      } else {
        CleanTopic(m.topic);
        CleanArgs(TopicText(m.topic), m.symbols);
      }
    }
    hide Read, Render, MessageArgs, Text.PrintNat, Readable, CleanTexts;
    CleanNumber(m.requestId);
    Text.PrintNatReads(m.requestId);
    SubscribeReads(Text.PrintNat(m.requestId), args);
  }

  lemma MessageOnTopic(m: Message, t: PublicTopic)
    requires Readable(m)
    ensures OnTopic(MessageArgs(m), t) == if m.topic == t then MessageArgs(m) else []
  {
    hide Reaches, MessageArgs, OnTopic;
    forall i | 0 <= i < |MessageArgs(m)| ensures Reaches(MessageArgs(m)[i], t) == (m.topic == t) {
      MessageReaches(m, i);
      ReachesExactly(MessageArgs(m)[i], m.topic, t);
    }
    if m.topic == t {
      OnTopicAll(MessageArgs(m), t);
    } else {
      OnTopicNone(MessageArgs(m), t);
    }
  }

  // One more message adds its own arguments to its own topic.
  lemma OneMoreMessage(messages: seq<Message>, t: PublicTopic)
    requires messages != [] && AllReadable(messages)
    ensures var front, m := messages[..|messages| - 1], messages[|messages| - 1];
            && m.symbols != []
            && OnTopic(ReadArguments(messages), t)
            == OnTopic(ReadArguments(front), t) + (if m.topic == t then MessageArgs(m) else [])
  {
    hide OnTopic, MessageArgs, MessageText, ReadArgs;
    var front, m := messages[..|messages| - 1], messages[|messages| - 1];
    ReadableParts(messages);
    MessageReads(m);
    OnTopicConcat(ReadArguments(front), MessageArgs(m), t);
    MessageOnTopic(m, t);
  }

  lemma ArgsConcat(topic: string, a: seq<string>, b: seq<string>)
    ensures Args(topic, a + b) == Args(topic, a) + Args(topic, b)
  {
  }

  /** What is read for a topic other than kline is that topic and each symbol subscribed on it, in order. */
  lemma {:induction false} TopicIsRead(messages: seq<Message>, t: PublicTopic)
    requires !t.Kline? && AllReadable(messages)
    ensures OnTopic(ReadArguments(messages), t) == Args(TopicText(t), SubscribedOn(messages, t))
  {
    if messages != [] {
      hide OnTopic, Args, ReadArguments, Readable, TopicText;
      var front, m := messages[..|messages| - 1], messages[|messages| - 1];
      ReadableParts(messages);
      TopicIsRead(front, t);
      OneMoreMessage(messages, t);
      ArgsConcat(TopicText(t), SubscribedOn(front, t), if m.topic == t then m.symbols else []);
      NoArgs(TopicText(t));
    }
  }

  lemma NoArgs(topic: string)
    ensures Args(topic, []) == []
  {
  }

  function KlineTopic(): string {
    "kline." + Text.PrintNat(KLINE_INTERVAL)
  }

  // What should stand before the symbol.
  function IntendedTopic(t: PublicTopic): string {
    if t.Kline? then KlineTopic() else TopicText(t)
  }

  ghost predicate OneSymbolEach(messages: seq<Message>) {
    forall i | 0 <= i < |messages| && messages[i].topic.Kline? :: |messages[i].symbols| == 1
  }

  lemma OneSymbolEachSnoc(messages: seq<Message>)
    requires messages != []
    ensures var front, m := messages[..|messages| - 1], messages[|messages| - 1];
            OneSymbolEach(messages) <==> OneSymbolEach(front) && (m.topic.Kline? ==> |m.symbols| == 1)
  {
    var front := messages[..|messages| - 1];
    assert forall i | 0 <= i < |front| :: front[i] == messages[i];
  }

  // One more kline message: it has the intended form exactly when it names one symbol.
  lemma KlineStep(read: seq<string>, subscribed: seq<string>, m: Message)
    requires m.topic.Kline? && m.symbols != [] && |read| == |subscribed|
    ensures read + MessageArgs(m) == Args(KlineTopic(), subscribed + m.symbols)
       <==> read == Args(KlineTopic(), subscribed) && |m.symbols| == 1
  {
    assert MessageArgs(m) == KlineArgs(KLINE_INTERVAL, m.symbols);
    hide Args, KlineArgs, MessageArgs, Text.PrintNat;
    KlineIntended(KLINE_INTERVAL, m.symbols);
    ArgsConcat(KlineTopic(), subscribed, m.symbols);
    SplitEqual(read, MessageArgs(m), Args(KlineTopic(), subscribed), Args(KlineTopic(), m.symbols));
  }

  /** For kline one argument is read for each symbol, and they are the intended ones exactly when every kline message
      names one symbol. */
  lemma {:induction false} KlineIsRead(messages: seq<Message>)
    requires AllReadable(messages)
    ensures var read := OnTopic(ReadArguments(messages), Kline);
            && |read| == |SubscribedOn(messages, Kline)|
            && (read == Args(KlineTopic(), SubscribedOn(messages, Kline)) <==> OneSymbolEach(messages))
  {
    if messages != [] {
      hide OnTopic, Args, ReadArguments, OneSymbolEach, MessageArgs, KlineTopic;
      var front, m := messages[..|messages| - 1], messages[|messages| - 1];
      ReadableParts(messages);
      KlineIsRead(front);
      OneMoreMessage(messages, Kline);
      OneSymbolEachSnoc(messages);
      if m.topic.Kline? {
        KlineStep(OnTopic(ReadArguments(front), Kline), SubscribedOn(front, Kline), m);
      } else {
        assert SubscribedOn(messages, Kline) == SubscribedOn(front, Kline);
        assert OnTopic(ReadArguments(messages), Kline) == OnTopic(ReadArguments(front), Kline);
      }
    }
  }

  lemma SplitEqual(a: seq<string>, a': seq<string>, b: seq<string>, b': seq<string>)
    requires |a| == |b|
    ensures a + a' == b + b' <==> a == b && a' == b'
  {
    if a + a' == b + b' {
      assert a == (a + a')[..|a|] && b == (b + b')[..|b|];
      assert a' == (a + a')[|a|..] && b' == (b + b')[|b|..];
    }
  }

  lemma TakeOut(b: seq<string>, x: string) returns (before: seq<string>, after: seq<string>)
    requires x in b
    ensures b == before + [x] + after
    ensures multiset(b) == multiset(before + after) + multiset{x}
  {
    var j :| 0 <= j < |b| && b[j] == x;
    before, after := b[..j], b[j + 1..];
    assert b == before + [x] + after;
  }

  lemma ArgsTakenOut(topic: string, before: seq<string>, x: string, after: seq<string>)
    ensures multiset(Args(topic, before + [x] + after)) == multiset(Args(topic, before + after)) + multiset(Args(topic, [x]))
  {
    hide Args;
    ArgsConcat(topic, before, after);
    ArgsConcat(topic, before + [x], after);
    ArgsConcat(topic, before, [x]);
  }

  // Rearranging the symbols rearranges the arguments.
  lemma {:induction false} ArgsRearranged(topic: string, a: seq<string>, b: seq<string>)
    requires multiset(a) == multiset(b)
    ensures multiset(Args(topic, a)) == multiset(Args(topic, b))
  {
    if a == [] {
      assert |multiset(b)| == |multiset(a)| == 0;
      assert b == [];
    } else {
      hide Args;
      var front, x := a[..|a| - 1], a[|a| - 1];
      assert a == front + [x];
      assert x in multiset(b);
      var before, after := TakeOut(b, x);
      assert multiset(front) == multiset(a) - multiset{x} == multiset(before + after);
      ArgsRearranged(topic, front, before + after);
      ArgsConcat(topic, front, [x]);
      ArgsTakenOut(topic, before, x, after);
    }
  }

  // ---- Nothing that is read needs escaping ----

  lemma ReadMessageIsClean(m: Message)
    ensures CleanTexts(ReadMessage(m))
  {
    hide ReadArgs, MessageText;
    if m.symbols != [] {
      ReadArgsIsClean(MessageText(m));
    }
  }

  lemma CleanTextsConcat(a: seq<string>, b: seq<string>)
    requires CleanTexts(a) && CleanTexts(b)
    ensures CleanTexts(a + b)
  {
    hide CleanText;
  }

  lemma {:induction false} ReadArgumentsIsClean(messages: seq<Message>)
    ensures CleanTexts(ReadArguments(messages))
  {
    if messages != [] {
      hide ReadMessage, CleanTexts;
      ReadArgumentsIsClean(messages[..|messages| - 1]);
      ReadMessageIsClean(messages[|messages| - 1]);
      CleanTextsConcat(ReadArguments(messages[..|messages| - 1]), ReadMessage(messages[|messages| - 1]));
    } else {
      assert ReadArguments(messages) == [];
    }
  }

  lemma {:induction false} OnTopicIsClean(args: seq<string>, t: PublicTopic)
    requires CleanTexts(args)
    ensures CleanTexts(OnTopic(args, t))
  {
    if args != [] {
      hide Reaches, CleanText;
      OnTopicIsClean(args[..|args| - 1], t);
    }
  }

  /** When some symbol holds a quote or a backslash, no topic is read with each symbol. */
  lemma UncleanIsNotRead(messages: seq<Message>, t: PublicTopic, symbols: seq<string>)
    requires !CleanTexts(symbols)
    ensures OnTopic(ReadArguments(messages), t) != Args(IntendedTopic(t), symbols)
  {
    hide OnTopic, ReadArguments, CleanText, CleanTexts, Args, TopicText, Text.PrintNat;
    ReadArgumentsIsClean(messages);
    OnTopicIsClean(ReadArguments(messages), t);
    CleanIntended(t);
    CleanArgs(IntendedTopic(t), symbols);
  }

  lemma CleanIntended(t: PublicTopic)
    ensures CleanText(IntendedTopic(t))
  {
    hide CleanText, Text.PrintNat;
    CleanTopic(t);
    CleanNumber(KLINE_INTERVAL);
    CleanDot();
    CleanConcat("kline.", Text.PrintNat(KLINE_INTERVAL));
  }

  // Every symbol of a message is among those subscribed on its topic.
  lemma {:induction false} SymbolsOfMessage(messages: seq<Message>, i: nat)
    requires i < |messages|
    ensures forall x | x in messages[i].symbols :: x in SubscribedOn(messages, messages[i].topic)
  {
    var n := |messages| - 1;
    if i < n {
      SymbolsOfMessage(messages[..n], i);
    }
  }
}
