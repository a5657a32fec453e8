/**
 * The state of the CatGame component (src/components/CatGame.jsx) as one object:
 * the stats, the coin balance, the sleep flag, the face shown, and the chat transcript
 * with the timestamps of the recently accepted messages.
 *
 * The component's effects and timers become methods a caller invokes: Tick is one firing
 * of the 2 s game loop, OnStatsChange the effect that runs after stats or the sleep flag
 * change, UpdateCatState the reclassification scheduled 2 s after an action.
 */
module CatGame {
  import opened Wrappers
  import opened CatStats
  import opened ChatWindow

  datatype Sender = User | Cat
  datatype Turn = Turn(sender: Sender, text: string)

  /** What a save holds; either part may be missing from it. */
  datatype SaveData = SaveData(stats: Option<Stats>, coins: Option<int>)

  /** How the local part of sendMessage ended; only `Sent` goes on to the text generator. */
  datatype SendOutcome = Ignored | TooHungry | RateLimited | Sent(text: string)

  const InitialCoins := 10
  const Greeting := "Salut ! Je suis Gemini. Pose-moi des questions !"
  const Cheerful := "Je suis heureux !"

  const NoCoins := "Plus de pièces !"
  const IsAsleep := "Il dort..."
  const Yummy := "Miam ! (-1 pièce)"
  const TooTired := "Trop fatigué..."
  const Fun := "C'est amusant !"

  const TooHungryToTalk := "Le chat a trop faim pour parler..."
  const SlowDown := "Attends un peu avant d'envoyer d'autres messages."
  const ReplyFailed := "Erreur, réessaye !"

  /** `before` is a prefix of `after`: nothing was removed or rewritten. */
  predicate Extends(before: seq<Turn>, after: seq<Turn>) {
    |before| <= |after| && after[..|before|] == before
  }

  /** The part of the component's state that the chat box reads and writes. */
  datatype Chat = Chat(messages: seq<Turn>, input: string, timestamps: seq<int>)

  /**
   * The local part of sendMessage on the chat state: ignore blank input, refuse to talk when
   * starving (the user's text and the refusal are both shown), refuse a message when the
   * window is full (only the refusal is shown and the input is kept), otherwise show the
   * user's text, clear the input, record `now` and hand the text on to the generator.
   */
  function Submit(chat: Chat, hunger: real, now: int): (r: (SendOutcome, Chat))
    ensures r.0 == Ignored <==> r.1 == chat
    ensures r.0.Sent? ==> r.0.text == chat.input && r.1.input == []
    ensures r.1.input == chat.input || r.1.input == []
    ensures !r.0.Sent? ==> r.1.timestamps == chat.timestamps
    ensures r.0.Sent? ==> 0 < |r.1.timestamps| <= MaxPerWindow && r.1.timestamps[|r.1.timestamps| - 1] == now
  {
    if Trim(chat.input) == [] then (Ignored, chat)
    else if hunger <= 0.0 then
      (TooHungry, chat.(messages := chat.messages + [Turn(User, chat.input), Turn(Cat, TooHungryToTalk)], input := []))
    else match Admit(chat.timestamps, now)
      case None => (RateLimited, chat.(messages := chat.messages + [Turn(Cat, SlowDown)]))
      case Some(window) => (Sent(chat.input), Chat(chat.messages + [Turn(User, chat.input)], [], window))
  }

  /** Whitespace-only input changes nothing. */
  lemma BlankInputIgnored(chat: Chat, hunger: real, now: int)
    requires Blank(chat.input)
    ensures Submit(chat, hunger, now) == (Ignored, chat)
  {
    TrimEmptyIffBlank(chat.input);
  }

  /** A starving cat shows the user's text and exactly one refusal, and the window is not consulted. */
  lemma StarvingCatRefuses(chat: Chat, hunger: real, now: int)
    requires !Blank(chat.input) && hunger <= 0.0
    ensures Submit(chat, hunger, now).0 == TooHungry
    ensures Submit(chat, hunger, now).1 ==
              Chat(chat.messages + [Turn(User, chat.input), Turn(Cat, TooHungryToTalk)], [], chat.timestamps)
  {
    TrimEmptyIffBlank(chat.input);
  }

  /** With three messages already in the window, only the refusal is shown; input and timestamps stay. */
  lemma FullWindowRefuses(chat: Chat, hunger: real, now: int)
    requires !Blank(chat.input) && hunger > 0.0 && |Recent(chat.timestamps, now)| >= MaxPerWindow
    ensures Submit(chat, hunger, now) == (RateLimited, chat.(messages := chat.messages + [Turn(Cat, SlowDown)]))
  {
    TrimEmptyIffBlank(chat.input);
  }

  /**
   * An accepted message is shown once, the input is cleared, and the timestamps become the
   * recent ones plus `now`: at most three, all inside the window.
   */
  lemma AcceptedMessageRecorded(chat: Chat, hunger: real, now: int)
    requires !Blank(chat.input) && hunger > 0.0 && |Recent(chat.timestamps, now)| < MaxPerWindow
    ensures Submit(chat, hunger, now).0 == Sent(chat.input)
    ensures Submit(chat, hunger, now).1.messages == chat.messages + [Turn(User, chat.input)]
    ensures Submit(chat, hunger, now).1.input == []
    ensures Submit(chat, hunger, now).1.timestamps == Recent(chat.timestamps, now) + [now]
    ensures |Submit(chat, hunger, now).1.timestamps| <= MaxPerWindow
  {
    TrimEmptyIffBlank(chat.input);
  }

  /**
   * Whatever happens, the transcript only grows, by at most two turns, and a list of at most
   * three timestamps stays at most three; the generator is reached only with the user's own text.
   */
  lemma SubmitOnlyAppends(chat: Chat, hunger: real, now: int)
    ensures Extends(chat.messages, Submit(chat, hunger, now).1.messages)
    ensures |Submit(chat, hunger, now).1.messages| <= |chat.messages| + 2
    ensures |chat.timestamps| <= MaxPerWindow ==> |Submit(chat, hunger, now).1.timestamps| <= MaxPerWindow
    ensures Submit(chat, hunger, now).0.Sent? ==> Submit(chat, hunger, now).0.text == chat.input && !Blank(chat.input)
  {
    if Trim(chat.input) == [] {
    } else if hunger <= 0.0 {
      AppendExtends(chat.messages, [Turn(User, chat.input), Turn(Cat, TooHungryToTalk)]);
    } else if |Recent(chat.timestamps, now)| >= MaxPerWindow {
      AppendExtends(chat.messages, [Turn(Cat, SlowDown)]);
    } else {
      TrimEmptyIffBlank(chat.input);
      AppendExtends(chat.messages, [Turn(User, chat.input)]);
    }
  }

  lemma AppendExtends(a: seq<Turn>, b: seq<Turn>)
    ensures Extends(a, a + b)
  {
    assert (a + b)[..|a|] == a;
  }

  // ---------------------------------------------------------------------------
  // A run of sends
  // ---------------------------------------------------------------------------

  /** One press of the send button: the text in the box, the cat's hunger and the clock at that moment. */
  datatype Send = Send(input: string, hunger: real, now: int)

  /** The times at which, over a run of sends, a message goes on to the generator. */
  function SentTimes(chat: Chat, sends: seq<Send>): seq<int>
    decreases |sends|
  {
    if sends == [] then []
    else
      var step := Submit(chat.(input := sends[0].input), sends[0].hunger, sends[0].now);
      (if step.0.Sent? then [sends[0].now] else []) + SentTimes(step.1, sends[1..])
  }

  /** The times of the sends that get past the blank-input and hunger checks. */
  function Gated(sends: seq<Send>): seq<int>
    decreases |sends|
  {
    if sends == [] then []
    else (if !Blank(sends[0].input) && sends[0].hunger > 0.0 then [sends[0].now] else []) + Gated(sends[1..])
  }

  predicate InClockOrder(sends: seq<Send>) {
    forall a, b :: 0 <= a <= b < |sends| ==> sends[a].now <= sends[b].now
  }

  /** Over a run of sends, the rolling window decides on exactly the sends that pass the first two checks. */
  lemma {:induction false} SentTimesAreAdmitted(chat: Chat, sends: seq<Send>)
    ensures SentTimes(chat, sends) == Admitted(chat.timestamps, Gated(sends))
    decreases |sends|
  {
    if sends != [] {
      var first := sends[0];
      var step := Submit(chat.(input := first.input), first.hunger, first.now);
      TrimEmptyIffBlank(first.input);
      SentTimesAreAdmitted(step.1, sends[1..]);
      var g := Gated(sends);
      if !Blank(first.input) && first.hunger > 0.0 {
        assert g == [first.now] + Gated(sends[1..]);
        assert g[0] == first.now && g[1..] == Gated(sends[1..]);
      } else {
        assert g == Gated(sends[1..]);
      }
    }
  }

  /** Every time let through by the first two checks is one of the sends' times, so no earlier than their lower bound. */
  lemma {:induction false} GatedAfter(sends: seq<Send>, t: int)
    requires forall i :: 0 <= i < |sends| ==> t <= sends[i].now
    ensures forall i :: 0 <= i < |Gated(sends)| ==> t <= Gated(sends)[i]
    decreases |sends|
  {
    if sends != [] {
      var rest := sends[1..];
      assert forall i :: 0 <= i < |rest| ==> rest[i] == sends[i + 1];
      GatedAfter(rest, t);
    }
  }

  /** Sends in clock order let their times through the first two checks in order. */
  lemma {:induction false} GatedInOrder(sends: seq<Send>)
    requires InClockOrder(sends)
    ensures Nondecreasing(Gated(sends))
    decreases |sends|
  {
    if sends != [] {
      var rest := sends[1..];
      assert InClockOrder(rest) by {
        forall a, b | 0 <= a <= b < |rest| ensures rest[a].now <= rest[b].now {
          assert rest[a] == sends[a + 1] && rest[b] == sends[b + 1];
        }
      }
      GatedInOrder(rest);
      assert forall i :: 0 <= i < |rest| ==> sends[0].now <= rest[i].now by {
        forall i | 0 <= i < |rest| ensures sends[0].now <= rest[i].now {
          assert rest[i] == sends[i + 1];
        }
      }
      GatedAfter(rest, sends[0].now);
    }
  }

  /**
   * From an empty window, with the clock never going back: of any four messages that reach
   * the generator, the last comes at least 60 000 ms after the first.
   */
  lemma AtMostThreeReachGenerator(chat: Chat, sends: seq<Send>)
    requires chat.timestamps == [] && InClockOrder(sends)
    ensures Spread(SentTimes(chat, sends))
  {
    SentTimesAreAdmitted(chat, sends);
    GatedInOrder(sends);
    AtMostThreePerWindow(Gated(sends));
  }

  class Game {
    var stats: Stats
    var coins: int
    var catState: Mood
    var statusMessage: string
    var isSleeping: bool
    var messages: seq<Turn>
    var inputMessage: string
    var messageTimestamps: seq<int>

    /** Stats in [0, 100], no debt, and never more than three timestamps in the window list. */
    ghost predicate Valid()
      reads this
    {
      Bounded(stats) && coins >= 0 && |messageTimestamps| <= MaxPerWindow
    }

    /** The initial state of a new game (CatGame.jsx:17-29). */
    constructor ()
      ensures Valid()
      ensures stats == Initial && coins == InitialCoins && !isSleeping
      ensures catState == Happy && statusMessage == Cheerful
      ensures messages == [Turn(Cat, Greeting)] && inputMessage == [] && messageTimestamps == []
    {
      stats := Initial;
      coins := InitialCoins;
      catState := Happy;
      statusMessage := Cheerful;
      isSleeping := false;
      messages := [Turn(Cat, Greeting)];
      inputMessage := [];
      messageTimestamps := [];
    }

    /** The `{ stats, coins }` record the game saves. */
    function Snapshot(): (d: SaveData)
      reads this
      ensures d.stats == Some(stats) && d.coins == Some(coins)
    {
      SaveData(Some(stats), Some(coins))
    }

    /** Applying saved data: each part that is present replaces the current value. */
    method Load(saved: SaveData)
      modifies this`stats, this`coins
      ensures stats == if saved.stats.Some? then saved.stats.value else old(stats)
      ensures coins == if saved.coins.Some? then saved.coins.value else old(coins)
      ensures saved == old(Snapshot()) ==> stats == old(stats) && coins == old(coins)
      ensures (old(Valid()) && (saved.stats.Some? ==> Bounded(saved.stats.value))
               && (saved.coins.Some? ==> saved.coins.value >= 0)) ==> Valid()
    {
      if saved.stats.Some? {
        stats := saved.stats.value;
      }
      if saved.coins.Some? {
        coins := saved.coins.value;
      }
    }

    /** One firing of the game loop: decay by the sleeping or the awake rule. */
    method Tick()
      modifies this`stats
      ensures stats == Decayed(old(stats), isSleeping)
      ensures old(Valid()) ==> Valid()
    {
      stats := Decayed(stats, isSleeping);
    }

    /** The effect on [stats, isSleeping]: asleep shows the night face, awake reclassifies. */
    method OnStatsChange()
      modifies this`catState, this`statusMessage
      ensures Face(catState, statusMessage) == Appearance(stats, isSleeping)
    {
      if isSleeping {
        catState := Sleeping;
        statusMessage := GoodNight;
      } else {
        UpdateCatState();
      }
    }

    /** updateCatState, also what the 2 s timeout after feed and play runs; it does not look at the sleep flag. */
    method UpdateCatState()
      modifies this`catState, this`statusMessage
      ensures Face(catState, statusMessage) == Classify(stats)
      ensures catState == Happy || catState == Sad
    {
      var face := Classify(stats);
      catState := face.mood;
      statusMessage := face.status;
    }

    /** feed: refused while asleep or without a coin (the coin message wins), otherwise spends one coin. */
    method Feed()
      modifies this`coins, this`stats, this`catState, this`statusMessage
      ensures old(isSleeping) || old(coins) < 1 ==>
                stats == old(stats) && coins == old(coins) && catState == old(catState)
                && statusMessage == (if old(coins) < 1 then NoCoins else IsAsleep)
      ensures !old(isSleeping) && old(coins) >= 1 ==>
                coins == old(coins) - 1 && stats == Fed(old(stats))
                && catState == Eating && statusMessage == Yummy
      ensures old(coins) >= 0 ==> coins >= 0
      ensures old(Valid()) ==> Valid()
    {
      if isSleeping || coins < 1 {
        statusMessage := if coins < 1 then NoCoins else IsAsleep;
        return;
      }
      coins := coins - 1;
      stats := Fed(stats);
      catState := Eating;
      statusMessage := Yummy;
    }

    /** play: refused while asleep or with energy below 20 (the tiredness message wins); coins are never touched. */
    method Play()
      modifies this`stats, this`catState, this`statusMessage
      ensures old(isSleeping) || old(stats).energy < 20.0 ==>
                stats == old(stats) && catState == old(catState)
                && statusMessage == (if old(stats).energy < 20.0 then TooTired else IsAsleep)
      ensures !old(isSleeping) && old(stats).energy >= 20.0 ==>
                stats == Played(old(stats)) && catState == Playing && statusMessage == Fun
      ensures old(Valid()) ==> Valid()
    {
      if isSleeping || stats.energy < 20.0 {
        statusMessage := if stats.energy < 20.0 then TooTired else IsAsleep;
        return;
      }
      stats := Played(stats);
      catState := Playing;
      statusMessage := Fun;
    }

    /** sleep: toggles the flag; falling asleep shows the night face at once, waking leaves the face as it was. */
    method Sleep()
      modifies this`isSleeping, this`catState, this`statusMessage
      ensures isSleeping == !old(isSleeping)
      ensures isSleeping ==> catState == Sleeping && statusMessage == GoodNight
      ensures !isSleeping ==> catState == old(catState) && statusMessage == old(statusMessage)
      ensures old(Valid()) ==> Valid()
    {
      var wasSleeping := isSleeping;
      isSleeping := !wasSleeping;
      if !wasSleeping {
        catState := Sleeping;
        statusMessage := GoodNight;
      }
    }

    /** The input box's change handler. */
    method TypeInput(text: string)
      modifies this`inputMessage
      ensures inputMessage == text
    {
      inputMessage := text;
    }

    /** What the chat box holds. */
    function ChatState(): Chat
      reads this
    {
      Chat(messages, inputMessage, messageTimestamps)
    }

    /** The local part of sendMessage; `Sent` means the text goes on to the generator. */
    method SendMessage(now: int) returns (outcome: SendOutcome)
      modifies this`messages, this`inputMessage, this`messageTimestamps
      ensures (outcome, ChatState()) == Submit(old(ChatState()), stats.hunger, now)
      ensures |old(messageTimestamps)| <= MaxPerWindow ==> |messageTimestamps| <= MaxPerWindow
    {
      var shown, input, window := messages, inputMessage, messageTimestamps;
      if Trim(input) == [] {
        outcome := Ignored;
      } else if stats.hunger <= 0.0 {
        shown := shown + [Turn(User, input), Turn(Cat, TooHungryToTalk)];
        input := [];
        outcome := TooHungry;
      } else {
        var recent := Recent(window, now);
        if |recent| >= MaxPerWindow {
          shown := shown + [Turn(Cat, SlowDown)];
          outcome := RateLimited;
        } else {
          outcome := Sent(input);
          shown := shown + [Turn(User, input)];
          input := [];
          window := recent + [now];
        }
      }
      messages, inputMessage, messageTimestamps := shown, input, window;
    }

    /** The end of sendMessage: the generator's reply, or the fixed apology when it failed. */
    method ReceiveReply(reply: Option<string>)
      modifies this`messages
      ensures reply.Some? ==> messages == old(messages) + [Turn(Cat, reply.value)]
      ensures reply.None? ==> messages == old(messages) + [Turn(Cat, ReplyFailed)]
      ensures Extends(old(messages), messages)
    {
      var text := if reply.Some? then reply.value else ReplyFailed;
      messages := messages + [Turn(Cat, text)];
    }
  }
}
