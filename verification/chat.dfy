/**
 * The reply side of chatbot.py: the prompt `ai_reply` composes, the bounded
 * `chat_history` it maintains, and the module-level state (weather cache and
 * history) as one object whose methods are `get_weather`,
 * `get_realtime_context` and `ai_reply`.
 */
module Chat {
  import opened Wrappers
  import opened Text
  import opened Emotion
  import opened Context

  datatype Role = User | Assistant

  /** `{"role": ..., "content": ...}`. */
  datatype Turn = Turn(role: Role, content: string)

  const HISTORY_LIMIT := 12
  const EVICT_COUNT := 2

  const ACKNOWLEDGE := "Acknowledge and address each of these emotions respectfully before answering.\n\n"

  /** The prompt f-string of `ai_reply`. */
  function Prompt(context: string, blend: string, summary: string, tone: string, userMessage: string): string
  {
    (context + "\n")
    + ("The user\U{2019}s emotions appear to be " + blend + ".\n")
    + ("Detected emotional tones: " + summary + ".\n")
    + ("Respond empathetically in a " + tone + " tone. ")
    + ACKNOWLEDGE
    + ("User: " + userMessage)
  }

  /** The prompt begins with the context sentence on its own line. */
  lemma PromptStartsWithContext(context: string, blend: string, summary: string, tone: string, userMessage: string)
    ensures context + "\n" <= Prompt(context, blend, summary, tone, userMessage)
  {
    var rest := ("The user\U{2019}s emotions appear to be " + blend + ".\n")
      + ("Detected emotional tones: " + summary + ".\n")
      + ("Respond empathetically in a " + tone + " tone. ")
      + ACKNOWLEDGE + ("User: " + userMessage);
    assert Prompt(context, blend, summary, tone, userMessage) == (context + "\n") + rest;
  }

  /** The prompt names the blend of the top emotions. */
  lemma PromptNamesBlend(context: string, blend: string, summary: string, tone: string, userMessage: string)
    ensures Contains(Prompt(context, blend, summary, tone, userMessage), "The user\U{2019}s emotions appear to be " + blend + ".\n")
  {
    var before := context + "\n";
    var t := "The user\U{2019}s emotions appear to be " + blend + ".\n";
    var after := ("Detected emotional tones: " + summary + ".\n")
      + ("Respond empathetically in a " + tone + " tone. ")
      + ACKNOWLEDGE + ("User: " + userMessage);
    assert Prompt(context, blend, summary, tone, userMessage) == before + t + after;
    ContainsMiddle(before, t, after);
  }

  /** The prompt lists the emoji summary of the top emotions. */
  lemma PromptListsSummary(context: string, blend: string, summary: string, tone: string, userMessage: string)
    ensures Contains(Prompt(context, blend, summary, tone, userMessage), "Detected emotional tones: " + summary + ".\n")
  {
    var before := (context + "\n") + ("The user\U{2019}s emotions appear to be " + blend + ".\n");
    var t := "Detected emotional tones: " + summary + ".\n";
    var after := ("Respond empathetically in a " + tone + " tone. ")
      + ACKNOWLEDGE + ("User: " + userMessage);
    assert Prompt(context, blend, summary, tone, userMessage) == before + t + after;
    ContainsMiddle(before, t, after);
  }

  /** The prompt asks for the tone derived from the dominant emotion. */
  lemma PromptNamesTone(context: string, blend: string, summary: string, tone: string, userMessage: string)
    ensures Contains(Prompt(context, blend, summary, tone, userMessage), "Respond empathetically in a " + tone + " tone. ")
  {
    var before := (context + "\n")
      + ("The user\U{2019}s emotions appear to be " + blend + ".\n")
      + ("Detected emotional tones: " + summary + ".\n");
    var t := "Respond empathetically in a " + tone + " tone. ";
    var after := ACKNOWLEDGE + ("User: " + userMessage);
    assert Prompt(context, blend, summary, tone, userMessage) == before + t + after;
    ContainsMiddle(before, t, after);
  }

  /** The prompt ends with the user's own text after "User: ". */
  lemma PromptEndsWithMessage(context: string, blend: string, summary: string, tone: string, userMessage: string)
    ensures EndsWith(Prompt(context, blend, summary, tone, userMessage), "User: " + userMessage)
  {
  }

  /** `if len(chat_history) > 12: del chat_history[:2]`. */
  function Evict(history: seq<Turn>): (r: seq<Turn>)
    ensures |r| == if |history| > HISTORY_LIMIT then |history| - EVICT_COUNT else |history|
    ensures r == history[|history| - |r|..]
  {
    if |history| > HISTORY_LIMIT then history[EVICT_COUNT..] else history
  }

  /**
   * The history after one `ai_reply`: the prompt appended as a user turn,
   * eviction, and, when the chat call answered, the stripped answer as an
   * assistant turn. When the call raised, the user turn stays.
   */
  function ChatStep(history: seq<Turn>, prompt: string, response: Option<string>): seq<Turn>
  {
    var asked := Evict(history + [Turn(User, prompt)]);
    match response
    case Some(text) => asked + [Turn(Assistant, Strip(text))]
    case None => asked
  }

  /** The history is a run of whole exchanges: a user turn, then its assistant turn, and so on. */
  predicate Exchanges(history: seq<Turn>)
    decreases |history|
  {
    || history == []
    || (&& |history| >= 2
        && history[0].role == User && history[1].role == Assistant
        && Exchanges(history[2..]))
  }

  /** A history of whole exchanges within the limit. */
  predicate Paired(history: seq<Turn>)
  {
    Exchanges(history) && |history| <= HISTORY_LIMIT
  }

  lemma {:induction false} ExchangesEven(history: seq<Turn>)
    requires Exchanges(history)
    ensures |history| % 2 == 0
  {
    if history != [] {
      ExchangesEven(history[2..]);
    }
  }

  lemma {:induction false} AddExchange(history: seq<Turn>, question: string, answer: string)
    requires Exchanges(history)
    ensures Exchanges(history + [Turn(User, question), Turn(Assistant, answer)])
  {
    var pair := [Turn(User, question), Turn(Assistant, answer)];
    if history == [] {
      assert (history + pair)[2..] == [];
    } else {
      AddExchange(history[2..], question, answer);
      assert (history + pair)[2..] == history[2..] + pair;
    }
  }

  /** Below the limit an answered call adds one exchange; at the limit it also drops the oldest. */
  lemma {:induction false} AnsweredCallShape(history: seq<Turn>, prompt: string, text: string)
    requires |history| <= HISTORY_LIMIT && |history| != HISTORY_LIMIT - 1
    ensures ChatStep(history, prompt, Some(text)) ==
      (if |history| == HISTORY_LIMIT then history[EVICT_COUNT..] else history)
      + [Turn(User, prompt), Turn(Assistant, Strip(text))]
  {
    var u, a := Turn(User, prompt), Turn(Assistant, Strip(text));
    var kept := if |history| == HISTORY_LIMIT then history[EVICT_COUNT..] else history;
    var asked := history + [u];
    if |history| == HISTORY_LIMIT {
      assert asked[EVICT_COUNT..] == kept + [u];
    }
    assert Evict(asked) == kept + [u];
    assert (kept + [u]) + [a] == kept + [u, a];
  }

  /**
   * An answered call on a history of whole exchanges gives a history of
   * whole exchanges again: the oldest exchange is dropped when the history
   * was full, and the new prompt and stripped answer are the last two turns.
   */
  lemma {:induction false} AnsweredCallKeepsPairs(history: seq<Turn>, prompt: string, text: string)
    requires Paired(history)
    ensures var next := ChatStep(history, prompt, Some(text));
      && Paired(next)
      && next == (if |history| == HISTORY_LIMIT then history[EVICT_COUNT..] else history)
                 + [Turn(User, prompt), Turn(Assistant, Strip(text))]
  {
    var kept := if |history| == HISTORY_LIMIT then history[EVICT_COUNT..] else history;
    ExchangesEven(history);
    assert |history| != HISTORY_LIMIT - 1;
    AnsweredCallShape(history, prompt, text);
    AddExchange(kept, prompt, Strip(text));
  }

  /**
   * An even history of at most 12 turns stays even and at most 12 after an
   * answered call, and ends with the new prompt and the stripped answer.
   */
  lemma {:induction false} AnsweredCallKeepsEven(history: seq<Turn>, prompt: string, text: string)
    requires |history| <= HISTORY_LIMIT && |history| % 2 == 0
    ensures var next := ChatStep(history, prompt, Some(text));
      && |next| <= HISTORY_LIMIT && |next| % 2 == 0
      && next[|next| - 2..] == [Turn(User, prompt), Turn(Assistant, Strip(text))]
  {
    assert |history| != HISTORY_LIMIT - 1;
    AnsweredCallShape(history, prompt, text);
    var u, a := Turn(User, prompt), Turn(Assistant, Strip(text));
    var kept := if |history| == HISTORY_LIMIT then history[EVICT_COUNT..] else history;
    var next := kept + [u, a];
    assert next[|next| - 2..] == [u, a];
    if |history| < HISTORY_LIMIT {
      assert (|history| + 2) % 2 == 0;
    }
  }

  /** The length part of the above: one exchange more, or the same length when full. */
  lemma AnsweredCallLength(history: seq<Turn>, prompt: string, text: string)
    requires Paired(history)
    ensures var next := ChatStep(history, prompt, Some(text));
      && Paired(next)
      && |next| == if |history| == HISTORY_LIMIT then HISTORY_LIMIT else |history| + 2
  {
    AnsweredCallKeepsPairs(history, prompt, text);
  }

  /**
   * Whatever the chat call does, a history of at most 13 turns stays at
   * most 13 turns, and an even history within the limit stays within it
   * under an answered call. Eviction runs before the answer is appended, so
   * an odd history (which only a raised call leaves behind) can grow to 13.
   */
  lemma {:induction false} HistoryAtMostThirteen(history: seq<Turn>, prompt: string, response: Option<string>)
    requires |history| <= HISTORY_LIMIT + 1
    ensures |ChatStep(history, prompt, response)| <= HISTORY_LIMIT + 1
    ensures |history| <= HISTORY_LIMIT && |history| % 2 == 0 && response.Some? ==>
      |ChatStep(history, prompt, response)| <= HISTORY_LIMIT
  {
    if |history| % 2 == 0 {
      assert |history| != HISTORY_LIMIT - 1;
    }
  }

  /**
   * The limit is not a bound on the stored history: an answered call on an
   * 11-turn history evicts nothing before the prompt, then adds the answer.
   */
  lemma AnsweredCallReachesThirteen(history: seq<Turn>, prompt: string, text: string)
    requires |history| == HISTORY_LIMIT - 1
    ensures |ChatStep(history, prompt, Some(text))| == HISTORY_LIMIT + 1
  {
  }

  /**
   * A call whose chat request raised leaves the prompt as the newest turn:
   * nothing is rolled back.
   */
  lemma {:induction false} FailedCallKeepsPrompt(history: seq<Turn>, prompt: string)
    ensures var next := ChatStep(history, prompt, None);
      && next == Evict(history + [Turn(User, prompt)])
      && next[|next| - 1] == Turn(User, prompt)
  {
  }

  /**
   * A raised call followed by an answered one, from an empty history:
   * the unanswered prompt stays, so two user turns stand in a row.
   */
  lemma FailedThenAnswered(first: string, second: string, answer: string)
    ensures ChatStep(ChatStep([], first, None), second, Some(answer))
      == [Turn(User, first), Turn(User, second), Turn(Assistant, Strip(answer))]
  {
    FailedOnEmpty(first);
    AnsweredAfterOne(Turn(User, first), second, answer);
  }

  lemma FailedOnEmpty(prompt: string)
    ensures ChatStep([], prompt, None) == [Turn(User, prompt)]
  {
    assert [] + [Turn(User, prompt)] == [Turn(User, prompt)];
  }

  lemma AnsweredAfterOne(u1: Turn, prompt: string, text: string)
    ensures ChatStep([u1], prompt, Some(text)) == [u1, Turn(User, prompt), Turn(Assistant, Strip(text))]
  {
    assert [u1] + [Turn(User, prompt)] == [u1, Turn(User, prompt)];
    assert Evict([u1, Turn(User, prompt)]) == [u1, Turn(User, prompt)];
  }

  /** After a raised call the pairing of turns is not restored. */
  lemma FailedCallBreaksPairs(first: string, second: string, answer: string)
    ensures !Exchanges(ChatStep(ChatStep([], first, None), second, Some(answer)))
  {
    var next := ChatStep(ChatStep([], first, None), second, Some(answer));
    assert |next| >= 2 && next[1].role == User by {
      FailedThenAnswered(first, second, answer);
    }
    SecondTurnUser(next);
  }

  /** A history whose second turn is a user turn is not a run of exchanges. */
  lemma SecondTurnUser(history: seq<Turn>)
    requires |history| >= 2 && history[1].role == User
    ensures !Exchanges(history)
  {
  }

  /** A run of answered calls, each given as (prompt, chat response). */
  function Replay(history: seq<Turn>, calls: seq<(string, string)>): seq<Turn>
    decreases |calls|
  {
    if calls == [] then history
    else Replay(ChatStep(history, calls[0].0, Some(calls[0].1)), calls[1..])
  }

  /**
   * From a history of whole exchanges, n answered calls give a history of
   * whole exchanges of length min(length + 2n, 12); from the empty history,
   * the last min(n, 6) exchanges.
   */
  lemma {:induction false} ReplayLength(history: seq<Turn>, calls: seq<(string, string)>)
    requires Paired(history)
    ensures Paired(Replay(history, calls))
    ensures |Replay(history, calls)| ==
      if |history| + 2 * |calls| < HISTORY_LIMIT then |history| + 2 * |calls| else HISTORY_LIMIT
    decreases |calls|
  {
    if calls != [] {
      var next := ChatStep(history, calls[0].0, Some(calls[0].1));
      AnsweredCallLength(history, calls[0].0, calls[0].1);
      ReplayLength(next, calls[1..]);
      assert Replay(history, calls) == Replay(next, calls[1..]);
    }
  }

  /** A run of calls whose chat request raised, each given by its prompt. */
  function ReplayUnanswered(history: seq<Turn>, prompts: seq<string>): seq<Turn>
    decreases |prompts|
  {
    if prompts == [] then history
    else ReplayUnanswered(ChatStep(history, prompts[0], None), prompts[1..])
  }

  function UserTurns(prompts: seq<string>): seq<Turn>
  {
    seq(|prompts|, i requires 0 <= i < |prompts| => Turn(User, prompts[i]))
  }

  /** Below the limit, unanswered prompts simply pile up in order. */
  lemma {:induction false} UnansweredPileUp(history: seq<Turn>, prompts: seq<string>)
    requires |history| + |prompts| <= HISTORY_LIMIT
    ensures ReplayUnanswered(history, prompts) == history + UserTurns(prompts)
    decreases |prompts|
  {
    if prompts != [] {
      var next := history + [Turn(User, prompts[0])];
      assert ChatStep(history, prompts[0], None) == next;
      UnansweredPileUp(next, prompts[1..]);
      assert next + UserTurns(prompts[1..]) == history + UserTurns(prompts);
    }
  }

  lemma {:induction false} ReplayUnansweredSplit(history: seq<Turn>, a: seq<string>, b: seq<string>)
    ensures ReplayUnanswered(history, a + b) == ReplayUnanswered(ReplayUnanswered(history, a), b)
    decreases |a|
  {
    if a != [] {
      assert (a + b)[0] == a[0] && (a + b)[1..] == a[1..] + b;
      ReplayUnansweredSplit(ChatStep(history, a[0], None), a[1..], b);
    } else {
      assert a + b == b;
    }
  }

  /**
   * Thirteen prompts appended one by one to an empty history, with eviction
   * after each, leave exactly the eleven most recent: the oldest two go when
   * the thirteenth crosses the limit.
   */
  lemma ThirteenUnanswered(prompts: seq<string>)
    requires |prompts| == HISTORY_LIMIT + 1
    ensures ReplayUnanswered([], prompts) == UserTurns(prompts[EVICT_COUNT..])
  {
    var first, p := prompts[..HISTORY_LIMIT], prompts[HISTORY_LIMIT];
    calc {
      ReplayUnanswered([], prompts);
      { assert prompts == first + [p]; }
      ReplayUnanswered([], first + [p]);
      { FillThenOneMore(first, p); }
      UserTurns(first)[EVICT_COUNT..] + [Turn(User, p)];
      { LatestUserTurns(prompts); }
      UserTurns(prompts[EVICT_COUNT..]);
    }
  }

  /** Twelve unanswered prompts fill the history; one more evicts the oldest two. */
  lemma FillThenOneMore(first: seq<string>, p: string)
    requires |first| == HISTORY_LIMIT
    ensures ReplayUnanswered([], first + [p]) == UserTurns(first)[EVICT_COUNT..] + [Turn(User, p)]
  {
    ReplayUnansweredSplit([], first, [p]);
    UnansweredPileUp([], first);
    assert [] + UserTurns(first) == UserTurns(first);
    OneMoreAtLimit(UserTurns(first), p);
  }

  /** A prompt that finds the history full pushes out the oldest two turns. */
  lemma OneMoreAtLimit(full: seq<Turn>, prompt: string)
    requires |full| == HISTORY_LIMIT
    ensures ReplayUnanswered(full, [prompt]) == full[EVICT_COUNT..] + [Turn(User, prompt)]
  {
    assert [prompt][1..] == [];
    assert (full + [Turn(User, prompt)])[EVICT_COUNT..] == full[EVICT_COUNT..] + [Turn(User, prompt)];
  }

  lemma LatestUserTurns(prompts: seq<string>)
    requires |prompts| == HISTORY_LIMIT + 1
    ensures UserTurns(prompts[..HISTORY_LIMIT])[EVICT_COUNT..] + [Turn(User, prompts[HISTORY_LIMIT])]
         == UserTurns(prompts[EVICT_COUNT..])
  {
  }

  /** The stripped chat response, or None when the request raised. */
  function StrippedReply(response: Option<string>): Option<string>
  {
    match response
    case Some(text) => Some(Strip(text))
    case None => None
  }

  /**
   * The module-level state of chatbot.py: `_last_weather`, `_last_time` and
   * `chat_history`.
   */
  class Chatbot {
    var lastWeather: Option<string>
    var lastTime: real
    var chatHistory: seq<Turn>

    function Cache(): WeatherCache
      reads this
    {
      WeatherCache(lastWeather, lastTime)
    }

    constructor ()
      ensures Cache() == INITIAL_CACHE && chatHistory == []
    {
      lastWeather, lastTime := None, 0.0;
      chatHistory := [];
    }

    /** `get_weather`, with the two clock reads and the request's outcome as inputs. */
    method GetWeather(now: real, response: Option<string>, finishedAt: real) returns (weather: Option<string>)
      modifies this
      ensures Cache() == RefreshWeather(old(Cache()), now, response, finishedAt)
      ensures weather == lastWeather
      ensures chatHistory == old(chatHistory)
    {
      if now - lastTime > CACHE_SECONDS {
        match response {
          case Some(text) =>
            lastWeather := Some(Strip(text));
          case None =>
            lastWeather := Some(WEATHER_UNAVAILABLE);
        }
        lastTime := finishedAt;
      }
      weather := lastWeather;
    }

    /** `get_realtime_context`, with the environment's readings as input. */
    method GetRealtimeContext(env: Readings) returns (context: string)
      modifies this
      ensures Cache() == RefreshWeather(old(Cache()), env.clock, env.weatherResponse, env.clockAfterFetch)
      ensures context == ContextSentence(env.timestamp, DayPartOf(env.hour), env.cpu,
                                         BatteryText(env.battery), WeatherText(lastWeather))
      ensures chatHistory == old(chatHistory)
    {
      var part: DayPart;
      if 5 <= env.hour < 12 {
        part := Morning;
      } else if 12 <= env.hour < 18 {
        part := Afternoon;
      } else if 18 <= env.hour < 22 {
        part := Evening;
      } else {
        part := Night;
      }
      var battery := match env.battery case Some(percent) => percent case None => "unknown";
      var weather := GetWeather(env.clock, env.weatherResponse, env.clockAfterFetch);
      context := ContextSentence(env.timestamp, part, env.cpu, battery, WeatherText(weather));
    }

    /**
     * `ai_reply`. `profile` carries the four values `analyze_emotion`
     * returned (the dominant label is not used); `response` is what the chat
     * service answers, None when the request raised. `sent` is the message
     * list the chat service receives.
     */
    method AiReply(userMessage: string, profile: Profile, env: Readings, response: Option<string>)
      returns (reply: Option<string>, sent: seq<Turn>)
      modifies this
      ensures Cache() == RefreshWeather(old(Cache()), env.clock, env.weatherResponse, env.clockAfterFetch)
      ensures var context := ContextSentence(env.timestamp, DayPartOf(env.hour), env.cpu,
                                             BatteryText(env.battery), WeatherText(lastWeather));
        var prompt := Prompt(context, profile.blend, profile.summary, profile.tone, userMessage);
        && sent == Evict(old(chatHistory) + [Turn(User, prompt)])
        && chatHistory == ChatStep(old(chatHistory), prompt, response)
      ensures reply == StrippedReply(response)
    {
      var context := GetRealtimeContext(env);
      var prompt := Prompt(context, profile.blend, profile.summary, profile.tone, userMessage);

      chatHistory := chatHistory + [Turn(User, prompt)];
      if |chatHistory| > HISTORY_LIMIT {
        chatHistory := chatHistory[EVICT_COUNT..];
      }
      sent := chatHistory;

      match response {
        case None =>
          reply := None;
        case Some(text) =>
          var answer := Strip(text);
          chatHistory := chatHistory + [Turn(Assistant, answer)];
          reply := Some(answer);
      }
    }
  }
}
