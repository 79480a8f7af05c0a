/**
 * The chat controller of the cat game as an object: the conversation history
 * it sends with every request, whether the message box and Send button are
 * enabled, and the text in the message box. The request itself is not made
 * here: `SendMessage` does everything up to the request and returns the
 * messages it would send, and `ReceiveResponse` is handed the outcome of that
 * request and the random pick among the canned replies.
 */
module Game {
  import opened Text
  import opened Conversation
  import opened ConversationFacts

  class CatGame {
    /** `conversationHistory`. */
    var history: seq<Turn>
    /** Whether the message box and the Send button accept input. */
    var inputEnabled: bool
    /** The text in the message box (`messageInput.value`). */
    var draft: string

    /**
     * The persona prompt is the first turn and the only system turn, the
     * history holds at most 22 turns, and while a request is outstanding
     * (input disabled) it holds at most 21 and ends with the user's turn.
     */
    ghost predicate Valid()
      reads this
    {
      WellFormed(history) && history[0] == Turn(System, CatSystemPrompt) &&
      |history| <= MaxHistory + 1 &&
      (!inputEnabled ==> |history| <= MaxHistory && history[|history| - 1].role == User)
    }

    /** Page load: the history is the persona prompt alone; the input starts enabled and empty, as the page markup has it. */
    constructor ()
      ensures Valid() && inputEnabled && draft == []
      ensures history == [Turn(System, CatSystemPrompt)]
    {
      inputEnabled := true;
      draft := [];
      new;
      InitializeConversationHistory();
    }

    /** Resets the history to exactly one system turn holding the persona prompt. */
    method InitializeConversationHistory()
      modifies this`history
      ensures history == [Turn(System, CatSystemPrompt)]
      ensures WellFormed(history)
    {
      history := [Turn(System, CatSystemPrompt)];
    }

    /** Enables or disables the message box and the Send button together. */
    method SetInputEnabled(enabled: bool)
      modifies this`inputEnabled
      ensures inputEnabled == enabled
    {
      inputEnabled := enabled;
    }

    /** The browser writing what the user types into the message box, which it allows only while the box is enabled. */
    method SetDraft(text: string)
      requires inputEnabled
      modifies this`draft
      ensures draft == text
    {
      draft := text;
    }

    /**
     * The start of `getCatResponse`: push the user turn, then trim back to the
     * system turn and the last 20 turns once there are more than 21. Returns
     * the messages the request carries. The invariant holds afterwards
     * whether or not the input is enabled: the history is at most 21 turns
     * and ends with the user's turn.
     */
    method PushUserTurn(message: string) returns (request: seq<Turn>)
      requires WellFormed(history) && history[0] == Turn(System, CatSystemPrompt)
      modifies this`history
      ensures history == AfterUserTurn(old(history), message)
      ensures request == history
      ensures Valid()
    {
      ghost var before := history;
      history := history + [Turn(User, message)];
      if |history| > MaxHistory {
        history := [history[0]] + history[|history| - KeptMessages..];
      }
      request := history;
      AfterUserTurnShape(before, message);
    }

    /**
     * Send or Enter. A message that is blank once trimmed is ignored: nothing
     * changes and no request is made. Otherwise the input is disabled and
     * cleared, the trimmed message is pushed as a user turn, and the history
     * as trimmed is what the request sends.
     */
    method SendMessage() returns (request: Option<seq<Turn>>)
      requires Valid() && inputEnabled
      modifies this
      ensures Valid()
      ensures Trim(old(draft)) == [] ==>
        request == None && history == old(history) && inputEnabled && draft == old(draft)
      ensures Trim(old(draft)) != [] ==>
        request == Some(history) && history == AfterUserTurn(old(history), Trim(old(draft))) &&
        !inputEnabled && draft == []
    {
      var message := Trim(draft);
      if message == [] {
        request := None;
        return;
      }
      SetInputEnabled(false);
      draft := [];
      var sent := PushUserTurn(message);
      request := Some(sent);
    }

    /**
     * The rest of `getCatResponse`, once the request has come back. With a
     * reply, its trimmed text is pushed as an assistant turn and shown; on
     * any failure the history is left alone and the canned reply at `pick`
     * is shown with the fallback marker. Either way the input is enabled again.
     */
    method ReceiveResponse(outcome: Outcome, pick: nat) returns (shown: string)
      requires Valid() && !inputEnabled && pick < |CatResponses|
      modifies this`history, this`inputEnabled
      ensures Valid() && inputEnabled
      ensures history == AfterResponse(old(history), outcome)
      ensures shown == DisplayText(outcome, pick)
    {
      var reply := ReplyText(outcome);
      if reply.Some? {
        history := history + [Turn(Assistant, reply.value)];
        shown := reply.value;
        assert forall k :: 1 <= k < |history| ==> history[k].role != System by {
          forall k | 1 <= k < |history| ensures history[k].role != System {
            if k < |history| - 1 { assert history[k] == old(history)[k]; }
          }
        }
      } else {
        shown := FallbackText(pick);
      }
      SetInputEnabled(true);
    }

    /**
     * One whole submission, run to the end: the history moves on by `Step`,
     * input is enabled again afterwards, and the text shown is the reply or
     * the fallback (nothing for a blank message, which also stays in the box).
     */
    method Submit(outcome: Outcome, pick: nat) returns (shown: Option<string>)
      requires Valid() && inputEnabled && pick < |CatResponses|
      modifies this
      ensures Valid() && inputEnabled
      ensures history == Step(old(history), Submission(old(draft), outcome))
      ensures Trim(old(draft)) == [] ==> shown == None && draft == old(draft)
      ensures Trim(old(draft)) != [] ==> shown == Some(DisplayText(outcome, pick)) && draft == []
    {
      var request := SendMessage();
      if request.Some? {
        var text := ReceiveResponse(outcome, pick);
        shown := Some(text);
      } else {
        shown := None;
      }
    }
  }
}
