/**
 * The Telegram notifier of src/bot/notifier.rs: the subscriber set, the
 * "/start" subscription rule, the signal message texts and the broadcast that
 * sends one message to every subscriber of a snapshot of the set. Sending is
 * an outcome per chat (`deliver`), given as a parameter.
 */
module Notifier {
  import opened Models
  import opened Crossover

  type ChatId = int

  const StartCommand := "/start"
  const WelcomeText := "\U{2705} You have subscribed to trading signals!"

  /** The text before the instrument name. */
  function Head(signal: TradeSignal): string
  {
    match signal
    case TradeBuy => "\U{1F7E2} BUY SIGNAL\nInstrument: "
    case TradeSell => "\U{1F534} SELL SIGNAL\nInstrument: "
    case TradeHold => "\U{26AA}\U{FE0F} HOLD POSITION\nInstrument: "
  }

  /** The text after the instrument name. */
  function Tail(signal: TradeSignal): string
  {
    match signal
    case TradeBuy => "\nRecommendation: BUY"
    case TradeSell => "\nRecommendation: SELL"
    case TradeHold => "\nRecommendation: HOLD"
  }

  /** The message `notify_signal` formats; Hold has one too. */
  function MessageText(signal: TradeSignal, instrument: string): (m: string)
    // the instrument appears verbatim between the signal's header and its recommendation
    ensures |m| == |Head(signal)| + |instrument| + |Tail(signal)|
    ensures m[..|Head(signal)|] == Head(signal) && m[|m| - |Tail(signal)|..] == Tail(signal)
    ensures m[|Head(signal)|..|m| - |Tail(signal)|] == instrument
  {
    Head(signal) + instrument + Tail(signal)
  }

  /** Reads a message back: which template it is and which instrument it names. */
  function ParseMessage(m: string): (r: Option<(TradeSignal, string)>)
    ensures r.Some? ==> MessageText(r.value.0, r.value.1) == m
  {
    if Frames(m, TradeBuy) then Some((TradeBuy, Inner(m, TradeBuy)))
    else if Frames(m, TradeSell) then Some((TradeSell, Inner(m, TradeSell)))
    else if Frames(m, TradeHold) then Some((TradeHold, Inner(m, TradeHold)))
    else None
  }

  predicate Frames(m: string, signal: TradeSignal)
  {
    |Head(signal)| + |Tail(signal)| <= |m|
    && m[..|Head(signal)|] == Head(signal) && m[|m| - |Tail(signal)|..] == Tail(signal)
  }

  function Inner(m: string, signal: TradeSignal): (i: string)
    requires Frames(m, signal)
    ensures Head(signal) + i + Tail(signal) == m
  {
    var i := m[|Head(signal)|..|m| - |Tail(signal)|];
    assert m == m[..|Head(signal)|] + i + m[|m| - |Tail(signal)|..];
    i
  }

  /** Every message names its signal and its instrument: reading it back gives both. */
  lemma ParseMessageText(signal: TradeSignal, instrument: string)
    ensures ParseMessage(MessageText(signal, instrument)) == Some((signal, instrument))
  {
    var m := MessageText(signal, instrument);
    var h := Head(signal);
    forall other | other != signal
      ensures !Frames(m, other)
    {
      HeadsDiffer(signal, other);
      if |Head(other)| <= |m| {
        assert m[..|Head(other)|][0] == m[0] == h[0];
      }
    }
  }

  /** The three templates already differ in their first character. */
  lemma HeadsDiffer(s1: TradeSignal, s2: TradeSignal)
    requires s1 != s2
    ensures Head(s1)[0] != Head(s2)[0]
  {
  }

  /** Different signals or instruments never produce the same message. */
  lemma MessageTextInjective(s1: TradeSignal, i1: string, s2: TradeSignal, i2: string)
    requires MessageText(s1, i1) == MessageText(s2, i2)
    ensures s1 == s2 && i1 == i2
  {
    ParseMessageText(s1, i1);
    ParseMessageText(s2, i2);
  }

  /** The subscriber set after a message `text` from `chat` (None: a message without text). */
  function Subscribe(subscribers: set<ChatId>, chat: ChatId, text: Option<string>): (r: set<ChatId>)
    ensures text == Some(StartCommand) ==> r == subscribers + {chat}
    ensures text != Some(StartCommand) ==> r == subscribers
  {
    if text == Some(StartCommand) then subscribers + {chat} else subscribers
  }

  /** Subscribing twice is the same as subscribing once. */
  lemma SubscribeIdempotent(subscribers: set<ChatId>, chat: ChatId, text: Option<string>)
    ensures Subscribe(Subscribe(subscribers, chat, text), chat, text) == Subscribe(subscribers, chat, text)
    ensures Subscribe(subscribers, chat, text) >= subscribers
  {
  }

  /** One send attempt and whether it succeeded. */
  datatype Delivery = Delivery(chat: ChatId, text: string, ok: bool)

  /**
   * `deliveries` is one attempt of `message` per chat of `chats`, none to
   * anyone else, each with the outcome `deliver` gives for its chat.
   */
  ghost predicate IsBroadcast(deliveries: seq<Delivery>, chats: set<ChatId>, message: string, deliver: ChatId -> bool)
  {
    && |deliveries| == |chats|
    && (forall c :: c in chats <==> exists k :: 0 <= k < |deliveries| && deliveries[k].chat == c)
    && (forall k, l :: 0 <= k < l < |deliveries| ==> deliveries[k].chat != deliveries[l].chat)
    && (forall k :: 0 <= k < |deliveries| ==>
          deliveries[k].text == message && deliveries[k].ok == deliver(deliveries[k].chat))
  }

  /** A non-empty set has a member to pick. */
  lemma NonEmptyHasMember(s: set<ChatId>)
    requires s != {}
    ensures exists c :: c in s
  {
    if forall c :: c !in s {
      assert false;
    }
  }

  class SignalNotifier {
    var subscribers: set<ChatId>

    /** `SignalNotifier::new`: nobody is subscribed. */
    constructor ()
      ensures subscribers == {}
    {
      subscribers := {};
    }

    /** The listener's handler: "/start" subscribes the chat and earns the welcome reply. */
    method HandleMessage(chat: ChatId, text: Option<string>) returns (reply: Option<string>)
      modifies this
      ensures subscribers == Subscribe(old(subscribers), chat, text)
      ensures reply == if text == Some(StartCommand) then Some(WelcomeText) else None
    {
      reply := None;
      if text.Some? {
        if text.value == StartCommand {
          subscribers := subscribers + {chat};
          reply := Some(WelcomeText);
        }
      }
    }

    /**
     * `notify_signal`: format the message, take a snapshot of the subscribers,
     * then try every chat of the snapshot once; a failed send is recorded and
     * the loop goes on.
     */
    method NotifySignal(instrument: string, signal: TradeSignal, deliver: ChatId -> bool)
      returns (message: string, deliveries: seq<Delivery>)
      ensures message == MessageText(signal, instrument)
      ensures IsBroadcast(deliveries, subscribers, message, deliver)
    {
      message := match signal
        case TradeBuy => "\U{1F7E2} BUY SIGNAL\nInstrument: " + instrument + "\nRecommendation: BUY"
        case TradeSell => "\U{1F534} SELL SIGNAL\nInstrument: " + instrument + "\nRecommendation: SELL"
        case TradeHold => "\U{26AA}\U{FE0F} HOLD POSITION\nInstrument: " + instrument + "\nRecommendation: HOLD";
      var snapshot := subscribers;
      var remaining := snapshot;
      deliveries := [];
      while remaining != {}
        invariant remaining <= snapshot
        invariant |deliveries| + |remaining| == |snapshot|
        invariant forall k :: 0 <= k < |deliveries| ==> deliveries[k].chat in snapshot - remaining
        invariant forall c :: c in snapshot - remaining ==> exists k :: 0 <= k < |deliveries| && deliveries[k].chat == c
        invariant forall k, l :: 0 <= k < l < |deliveries| ==> deliveries[k].chat != deliveries[l].chat
        invariant forall k :: 0 <= k < |deliveries| ==>
          deliveries[k].text == message && deliveries[k].ok == deliver(deliveries[k].chat)
        decreases |remaining|
      {
        NonEmptyHasMember(remaining);
        var chat :| chat in remaining;
        var ok := deliver(chat);
        ghost var before, pending := deliveries, remaining;
        deliveries := deliveries + [Delivery(chat, message, ok)];
        remaining := remaining - {chat};
        forall c | c in snapshot - remaining
          ensures exists k :: 0 <= k < |deliveries| && deliveries[k].chat == c
        {
          if c == chat {
            assert deliveries[|before|].chat == c;
          } else {
            assert c in snapshot - pending;
            var k :| 0 <= k < |before| && before[k].chat == c;
            assert deliveries[k].chat == c;
          }
        }
      }
      assert snapshot - remaining == subscribers;
    }
  }
}
