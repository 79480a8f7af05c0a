/**
 * The conversation memory of the cat chat game as values: the turns sent to
 * the completion endpoint, the trim that keeps that list bounded, and what one
 * submission (a typed message plus whatever the request came back with) does
 * to it. The class in module Game is proved against these functions.
 */
module Conversation {
  import opened Text

  datatype Option<T> = None | Some(value: T)

  datatype Role = System | User | Assistant

  /** One `{role, content}` entry of the conversation history. */
  datatype Turn = Turn(role: Role, content: string)

  /**
   * What the completion request came back with. `NetworkError` is a rejected
   * fetch; `Response` carries the HTTP status and `choices[0].message.content`
   * when the body holds a string there (`None` for a body that does not parse
   * or has no such string).
   */
  datatype Outcome =
    | NetworkError
    | Response(status: int, content: Option<string>)

  /** One press of Send or Enter: the text in the input box and how the request it triggers ends. */
  datatype Submission = Submission(text: string, outcome: Outcome)

  /** The persona prompt that is always the first turn. */
  const CatSystemPrompt: string :=
    "You are Delilah, a friendly and playful AI cat. You should respond like a cat named Delilah would, "
    + "but in a way humans can understand. Your responses should be:\n"
    + "- Short and cute (1-2 sentences max)\n"
    + "- Include cat-like behaviors and sounds (purr, meow, etc.)\n"
    + "- Show typical cat personality (curious, playful, sometimes aloof, loving)\n"
    + "- Use cat emojis when appropriate \U{1F431}\U{1F638}\U{1F63A}\U{1F43E}\U{1F63B}\U{1F408}\n"
    + "- Sometimes be a bit sassy or independent like a real cat\n"
    + "- React to what the human says in a cat-like way\n"
    + "- Remember previous conversations and reference them naturally\n"
    + "- You are specifically Delilah, so respond as if you know that's your name\n"
    + "\n"
    + "Keep responses brief and charming. You're a beloved pet cat named Delilah who can somehow type back!"

  /** The canned replies shown when the request fails. */
  const CatResponses: seq<string> := [
    "Meow! \U{1F431}",
    "Meow meow! \U{1F638}",
    "Meooow~ \U{1F63A}",
    "Mew mew! \U{1F43E}",
    "Meow meow meow! \U{1F63B}",
    "Mrow! \U{1F408}",
    "*purr* Meow! \U{1F60A}"
  ]

  /** Appended to a canned reply to mark it as a fallback. */
  const FallbackMarker: string := " (API error - using fallback)"

  /** Longest history the trim leaves: the system turn and 20 messages. */
  const MaxHistory: nat := 21
  const KeptMessages: nat := 20

  function Min(a: nat, b: nat): nat { if a <= b then a else b }

  /** `response.ok`: a status in the 2xx range. */
  predicate IsOk(status: int) {
    200 <= status <= 299
  }

  /** The history starts with a system turn, and no other turn is a system turn. */
  ghost predicate WellFormed(h: seq<Turn>) {
    |h| >= 1 && h[0].role == System &&
    forall k :: 1 <= k < |h| ==> h[k].role != System
  }

  /**
   * The trim after the user push: once there are more than 21 turns, keep
   * turn 0 and the last 20. The result is never longer than 21, starts with
   * the old first turn, and the rest are the most recent turns, in order.
   */
  function TrimHistory(h: seq<Turn>): (r: seq<Turn>)
    ensures |r| == Min(|h|, MaxHistory)
    ensures |h| > 0 ==> r[0] == h[0]
    ensures forall k :: 1 <= k < |r| ==> r[k] == h[|h| - |r| + k]
  {
    if |h| > MaxHistory then
      assert |h[|h| - KeptMessages..]| == KeptMessages;
      [h[0]] + h[|h| - KeptMessages..]
    else h
  }

  /** The user push followed by the trim. */
  function AfterUserTurn(h: seq<Turn>, message: string): seq<Turn> {
    TrimHistory(h + [Turn(User, message)])
  }

  /**
   * The text that ends up in the assistant turn: present exactly when the
   * status is 2xx and the body carries a content string, and then that string
   * trimmed. Everything else takes the fallback path.
   */
  function ReplyText(o: Outcome): (r: Option<string>)
    ensures r.Some? <==> o.Response? && IsOk(o.status) && o.content.Some?
    ensures r.Some? ==> r.value == Trim(o.content.value)
  {
    match o
    case NetworkError => None
    case Response(status, content) =>
      if !IsOk(status) then None
      else if content.None? then None
      else Some(Trim(content.value))
  }

  /** The history once the request has come back: one assistant turn more on success, unchanged on failure. */
  function AfterResponse(h: seq<Turn>, o: Outcome): seq<Turn> {
    var reply := ReplyText(o);
    if reply.Some? then h + [Turn(Assistant, reply.value)] else h
  }

  /**
   * The text shown for a failed request: the canned reply at `pick` with the
   * fallback marker after it. It is always some canned reply plus the marker.
   */
  function FallbackText(pick: nat): (r: string)
    requires pick < |CatResponses|
    ensures |r| >= |FallbackMarker|
    ensures r[..|r| - |FallbackMarker|] in CatResponses
    ensures r[|r| - |FallbackMarker|..] == FallbackMarker
  {
    var canned := CatResponses[pick];
    assert (canned + FallbackMarker)[..|canned|] == canned;
    canned + FallbackMarker
  }

  /**
   * The text shown once the request has come back: the trimmed reply when
   * there is one, otherwise a canned reply followed by the fallback marker.
   */
  function DisplayText(o: Outcome, pick: nat): (r: string)
    requires pick < |CatResponses|
    ensures ReplyText(o).Some? ==> r == ReplyText(o).value
    ensures ReplyText(o).None? ==>
      |r| >= |FallbackMarker| && r[..|r| - |FallbackMarker|] in CatResponses &&
      r[|r| - |FallbackMarker|..] == FallbackMarker
  {
    var reply := ReplyText(o);
    if reply.Some? then reply.value else FallbackText(pick)
  }

  /** One submission: a blank message changes nothing, otherwise push the user turn, trim, then take the response. */
  function Step(h: seq<Turn>, s: Submission): seq<Turn> {
    var message := Trim(s.text);
    if message == [] then h else AfterResponse(AfterUserTurn(h, message), s.outcome)
  }

  /** The history after a whole run of submissions, oldest first. */
  function Replay(h: seq<Turn>, subs: seq<Submission>): seq<Turn>
    decreases |subs|
  {
    if subs == [] then h else Step(Replay(h, subs[..|subs| - 1]), subs[|subs| - 1])
  }

  /** The turns one submission adds to the conversation, before any trimming. */
  function NewTurns(s: Submission): seq<Turn> {
    var message := Trim(s.text);
    var reply := ReplyText(s.outcome);
    if message == [] then []
    else if reply.Some? then [Turn(User, message), Turn(Assistant, reply.value)]
    else [Turn(User, message)]
  }

  /** Every turn a run of submissions has produced, oldest first. */
  function Transcript(subs: seq<Submission>): seq<Turn>
    decreases |subs|
  {
    if subs == [] then [] else Transcript(subs[..|subs| - 1]) + NewTurns(subs[|subs| - 1])
  }

  /**
   * How many of the most recent transcript turns the history holds after a
   * run: everything until the trim first fires, then 21 after a success and
   * 20 after a failure.
   */
  function Kept(subs: seq<Submission>): nat
    decreases |subs|
  {
    if subs == [] then 0
    else
      var last := subs[|subs| - 1];
      if NewTurns(last) == [] then Kept(subs[..|subs| - 1])
      else Min(|Transcript(subs)|, if ReplyText(last.outcome).Some? then MaxHistory else KeptMessages)
  }
}
