/** The interactive loop of main.py: the conversation history, the streaming
    flag, and how one menu choice changes them.  The model's reply is an input:
    a whole string in non-streaming mode, a finite sequence of fragments in
    streaming mode. */
module Conversation {
  import opened Wrappers
  import opened Messages

  /** The system prompt that seeds every conversation. */
  const SystemPrompt: string := "你是一个有用的AI助手，可以理解图像并回答问题。"

  function SystemMessage(): (m: Message)
    ensures m.role == "system"
    ensures m.content.Parts?
    ensures PlainText(m.content) == Some(SystemPrompt)
  {
    CreateTextMessage(SystemPrompt, "system")
  }

  // ---------------------------------------------------------------------------
  // Streaming: accumulating fragments

  /** The fragments of a stream joined in order. */
  function Concat(fragments: seq<string>): string
  {
    if |fragments| == 0 then ""
    else Concat(fragments[..|fragments| - 1]) + fragments[|fragments| - 1]
  }

  function TotalLength(fragments: seq<string>): nat
  {
    if |fragments| == 0 then 0 else |fragments[0]| + TotalLength(fragments[1..])
  }

  /** Joining distributes over splitting the stream anywhere. */
  lemma {:induction false} ConcatAppend(a: seq<string>, b: seq<string>)
    ensures Concat(a + b) == Concat(a) + Concat(b)
  {
    if |b| == 0 {
      assert a + b == a;
    } else {
      var b' := b[..|b| - 1];
      assert (a + b)[..|a + b| - 1] == a + b';
      ConcatAppend(a, b');
    }
  }

  /** The joined text is exactly as long as all fragments together. */
  lemma {:induction false} ConcatLength(fragments: seq<string>)
    ensures |Concat(fragments)| == TotalLength(fragments)
  {
    if |fragments| > 0 {
      assert fragments == [fragments[0]] + fragments[1..];
      ConcatAppend([fragments[0]], fragments[1..]);
      assert Concat([fragments[0]]) == Concat([]) + fragments[0];
      ConcatLength(fragments[1..]);
    }
  }

  /** Fragment `i` appears in the joined text right after fragments `0..i`. */
  lemma FragmentInPlace(fragments: seq<string>, i: nat)
    requires i < |fragments|
    ensures var start := |Concat(fragments[..i])|;
            start + |fragments[i]| <= |Concat(fragments)| &&
            Concat(fragments)[start..start + |fragments[i]|] == fragments[i]
  {
    assert fragments == fragments[..i] + fragments[i..];
    ConcatAppend(fragments[..i], fragments[i..]);
    assert fragments[i..] == [fragments[i]] + fragments[i + 1..];
    ConcatAppend([fragments[i]], fragments[i + 1..]);
    assert Concat([fragments[i]]) == Concat([]) + fragments[i];
  }

  /** The loop of `handle_stream_response`: `full_response += chunk` for every
      chunk, starting from the empty string. */
  method AccumulateStream(fragments: seq<string>) returns (full: string)
    ensures full == Concat(fragments)
    ensures |full| == TotalLength(fragments)
    ensures fragments == [] ==> full == ""
  {
    full := "";
    for i := 0 to |fragments|
      invariant full == Concat(fragments[..i])
    {
      assert fragments[..i + 1][..i] == fragments[..i];
      full := full + fragments[i];
    }
    assert fragments[..|fragments|] == fragments;
    ConcatLength(fragments);
  }

  // ---------------------------------------------------------------------------
  // The menu loop as a state machine

  /** The two variables the loop of `main` updates. */
  datatype State = State(history: seq<Message>, streamMode: bool)

  /** What the model answers to the current history, in each mode. */
  datatype Reply = Reply(whole: string, fragments: seq<string>)

  /** One pass of the loop: the menu choice, the inputs read after it, and the
      model's reply (used only when a user message was added). */
  datatype Turn = Turn(choice: string, userText: string, imagePath: string, prompt: string, reply: Reply)

  /** Python's `str.lower` on the letters A to Z; every other character is kept. */
  function Lower(s: string): (r: string)
    ensures |r| == |s|
  {
    seq(|s|, i requires 0 <= i < |s| => if 'A' <= s[i] <= 'Z' then (s[i] as int + 32) as char else s[i])
  }

  /** `s.lower() == letter` for a lower-case letter: exactly the letter and its capital. */
  function LowersTo(s: string, letter: char): (matches: bool)
    requires 'a' <= letter <= 'z'
    ensures matches <==> Lower(s) == [letter]
  {
    var capital := (letter as int - 32) as char;
    if s == [letter] || s == [capital] then true
    else
      assert Lower(s) != [letter] by {
        if |s| == 1 { assert Lower(s)[0] != letter; }
      }
      false
  }

  /** `choice.lower() == 'q'`: the choices `q` and `Q`. */
  function IsQuit(choice: string): (quit: bool)
    ensures quit <==> Lower(choice) == "q"
    ensures quit <==> choice == "q" || choice == "Q"
  {
    LowersTo(choice, 'q')
  }

  /** The answer to the streaming question, `input().lower() == 'y'`: the answers `y` and `Y`. */
  function StreamAnswer(answer: string): (on: bool)
    ensures on <==> Lower(answer) == "y"
    ensures on <==> answer == "y" || answer == "Y"
  {
    LowersTo(answer, 'y')
  }

  predicate AddsUserTurn(choice: string)
  {
    choice == "1" || choice == "2"
  }

  /** The state right after startup. */
  function Initial(answer: string): (s: State)
    ensures |s.history| == 1 && s.history[0].role == "system"
    ensures s.streamMode <==> StreamAnswer(answer)
  {
    State([SystemMessage()], StreamAnswer(answer))
  }

  /** The user message that choice "1" or "2" appends. */
  function UserMessage(t: Turn, encode: string -> string): (m: Message)
    requires AddsUserTurn(t.choice)
    ensures m.role == "user"
    ensures t.choice == "1" ==> m.content.Parts? && PlainText(m.content) == Some(t.userText)
    ensures t.choice == "2" ==> m == CreateImageMessage(t.imagePath, t.prompt, encode)
  {
    if t.choice == "1" then CreateTextMessage(t.userText)
    else CreateImageMessage(t.imagePath, t.prompt, encode)
  }

  /** The reply text the assistant message holds, by streaming mode. */
  function ReplyText(r: Reply, streamMode: bool): (text: string)
    ensures streamMode ==> text == Concat(r.fragments)
    ensures streamMode ==> |text| == TotalLength(r.fragments)
    ensures streamMode && r.fragments == [] ==> text == ""
    ensures !streamMode ==> text == r.whole
  {
    ConcatLength(r.fragments);
    if streamMode then Concat(r.fragments) else r.whole
  }

  /** One pass of the loop body of `main`; a quit choice changes nothing here
      (the loop ends instead). */
  function Next(s: State, t: Turn, encode: string -> string): (r: State)
    ensures |s.history| <= |r.history| && r.history[..|s.history|] == s.history
    ensures AddsUserTurn(t.choice) <==> |r.history| == |s.history| + 2
    ensures AddsUserTurn(t.choice) ==>
              r.streamMode == s.streamMode &&
              r.history[|s.history|] == UserMessage(t, encode) &&
              r.history[|s.history| + 1].role == "assistant" &&
              r.history[|s.history| + 1].content.Parts? &&
              PlainText(r.history[|s.history| + 1].content) == Some(ReplyText(t.reply, s.streamMode))
    ensures t.choice == "3" ==> r.history == s.history && r.streamMode == !s.streamMode
    ensures !AddsUserTurn(t.choice) && t.choice != "3" ==> r == s
  {
    if IsQuit(t.choice) then s
    else if AddsUserTurn(t.choice) then
      var user := UserMessage(t, encode);
      var reply := CreateTextMessage(ReplyText(t.reply, s.streamMode), "assistant");
      State(s.history + [user, reply], s.streamMode)
    else if t.choice == "3" then State(s.history, !s.streamMode)
    else s
  }

  /** The loop of `main` over a finite list of turns: stops at the first quit. */
  function RunSpec(s: State, turns: seq<Turn>, encode: string -> string): (r: State)
    ensures |s.history| <= |r.history| && r.history[..|s.history|] == s.history
    ensures |turns| > 0 && IsQuit(turns[0].choice) ==> r == s
    decreases |turns|
  {
    if |turns| == 0 || IsQuit(turns[0].choice) then s
    else RunSpec(Next(s, turns[0], encode), turns[1..], encode)
  }

  /** Turns after a quit are never read: the loop ends at the first quit. */
  lemma {:induction false} RunStopsAtQuit(s: State, before: seq<Turn>, quit: Turn, after: seq<Turn>, encode: string -> string)
    requires IsQuit(quit.choice)
    ensures RunSpec(s, before + [quit] + after, encode) == RunSpec(s, before, encode)
    decreases |before|
  {
    var turns := before + [quit] + after;
    if |before| > 0 && !IsQuit(before[0].choice) {
      assert turns[1..] == before[1..] + [quit] + after;
      RunStopsAtQuit(Next(s, before[0], encode), before[1..], quit, after, encode);
    }
  }

  /** Number of user rounds (choices "1" and "2") before the first quit. */
  function Rounds(turns: seq<Turn>): nat
  {
    if |turns| == 0 || IsQuit(turns[0].choice) then 0
    else (if AddsUserTurn(turns[0].choice) then 1 else 0) + Rounds(turns[1..])
  }

  /** The shape every history of the loop has: the system message first, then
      user and assistant messages alternating, ending with an assistant reply. */
  ghost predicate WellFormed(h: seq<Message>)
  {
    && |h| % 2 == 1
    && h[0] == SystemMessage()
    && forall i :: 1 <= i < |h| ==> h[i].role == (if i % 2 == 1 then "user" else "assistant")
  }

  lemma NextPreservesWellFormed(s: State, t: Turn, encode: string -> string)
    requires WellFormed(s.history)
    ensures WellFormed(Next(s, t, encode).history)
  {
  }

  /** Every history the loop reaches from startup is well formed. */
  lemma {:induction false} RunPreservesWellFormed(s: State, turns: seq<Turn>, encode: string -> string)
    requires WellFormed(s.history)
    ensures WellFormed(RunSpec(s, turns, encode).history)
    decreases |turns|
  {
    if |turns| > 0 && !IsQuit(turns[0].choice) {
      NextPreservesWellFormed(s, turns[0], encode);
      RunPreservesWellFormed(Next(s, turns[0], encode), turns[1..], encode);
    }
  }

  /** The loop only ever appends: the old history stays a prefix, and the
      history grows by exactly two messages per user round. */
  lemma {:induction false} RunExtends(s: State, turns: seq<Turn>, encode: string -> string)
    ensures var r := RunSpec(s, turns, encode);
            |r.history| == |s.history| + 2 * Rounds(turns) &&
            r.history[..|s.history|] == s.history
    decreases |turns|
  {
    if |turns| > 0 && !IsQuit(turns[0].choice) {
      var n := Next(s, turns[0], encode);
      RunExtends(n, turns[1..], encode);
      var r := RunSpec(s, turns, encode);
      assert r.history[..|s.history|] == r.history[..|n.history|][..|s.history|];
    }
  }

  /** The history seeded at startup is well formed, so every reachable one is. */
  lemma ReachableWellFormed(answer: string, turns: seq<Turn>, encode: string -> string)
    ensures WellFormed(RunSpec(Initial(answer), turns, encode).history)
    ensures RunSpec(Initial(answer), turns, encode).history[0] == SystemMessage()
  {
    RunPreservesWellFormed(Initial(answer), turns, encode);
  }

  // ---------------------------------------------------------------------------
  // The imperative loop

  /** The local variables `chat_history` and `stream_mode` of `main`. */
  class Session {
    var history: seq<Message>
    var streamMode: bool

    /** Seeds the history with the system message and reads the streaming answer. */
    constructor(answer: string)
      ensures State(history, streamMode) == Initial(answer)
    {
      history := [SystemMessage()];
      streamMode := StreamAnswer(answer);
    }

    /** `handle_stream_response`: joins the stream and appends one assistant message. */
    method HandleStreamResponse(fragments: seq<string>) returns (full: string)
      modifies this`history
      ensures full == Concat(fragments)
      ensures history == old(history) + [CreateTextMessage(full, "assistant")]
    {
      full := AccumulateStream(fragments);
      history := history + [CreateTextMessage(full, "assistant")];
    }

    /** One pass of the loop body; `quit` tells whether the loop ends. */
    method Step(t: Turn, encode: string -> string) returns (quit: bool)
      modifies this
      ensures quit == IsQuit(t.choice)
      ensures State(history, streamMode) == Next(old(State(history, streamMode)), t, encode)
    {
      quit := IsQuit(t.choice);
      if quit {
        return;
      } else if t.choice == "1" {
        history := history + [CreateTextMessage(t.userText)];
      } else if t.choice == "2" {
        history := history + [CreateImageMessage(t.imagePath, t.prompt, encode)];
      } else if t.choice == "3" {
        streamMode := !streamMode;
        return;
      } else {
        return;
      }
      if streamMode {
        var _ := HandleStreamResponse(t.reply.fragments);
      } else {
        history := history + [CreateTextMessage(t.reply.whole, "assistant")];
      }
    }

    /** The `while True` loop of `main`, fed a finite list of turns. */
    method Run(turns: seq<Turn>, encode: string -> string)
      modifies this
      ensures State(history, streamMode) == RunSpec(old(State(history, streamMode)), turns, encode)
    {
      var i := 0;
      while i < |turns|
        invariant 0 <= i <= |turns|
        invariant RunSpec(old(State(history, streamMode)), turns, encode)
               == RunSpec(State(history, streamMode), turns[i..], encode)
      {
        assert turns[i..][1..] == turns[i + 1..];
        var quit := Step(turns[i], encode);
        if quit {
          return;
        }
        i := i + 1;
      }
    }
  }
}
