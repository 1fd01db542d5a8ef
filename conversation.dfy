/** The per-session conversation state of the chat client: the message
    history and the running cost, and the three actions that change them
    (editing the system prompt, sending a turn, clearing the chat). */
module Conversation {
  import opened Messages

  datatype Option<T> = None | Some(value: T)

  /** The model every request names. */
  const ModelName: string := "gpt-4-vision-preview"

  /** Cost is kept in units of $0.00001: a prompt token costs $0.01 per
      thousand (one unit), a completion token $0.03 per thousand (three). */
  const PromptRate: nat := 1
  const CompletionRate: nat := 3

  /** The values of the settings tab at the moment Send is pressed. */
  datatype Settings = Settings(detail: Detail, temperature: real, maxTokens: nat)

  /** What the client hands to the chat-completions service. */
  datatype Request = Request(
    model: string, temperature: real, maxTokens: nat,
    messages: seq<Message>, apiKey: string)

  /** What the service answers: the reply text and the token usage, or a
      failure (which the client does not catch). */
  datatype Reply =
    | Completed(text: string, promptTokens: nat, completionTokens: nat)
    | Failed

  /** How a press of Send ended: one of the two warnings, an answered
      turn, or a call that raised after the question was recorded. */
  datatype SendOutcome = KeyRequired | NothingToSend | Answered | CallFailed

  function TurnCost(promptTokens: nat, completionTokens: nat): nat
  {
    promptTokens * PromptRate + completionTokens * CompletionRate
  }

  /** The messages actually sent: the system message is left out while
      the system prompt is empty. Either way the payload is a suffix of
      the history that drops at most its first entry, and it ends with
      the history's latest message. */
  function Payload(history: seq<Message>): (p: seq<Message>)
    requires |history| >= 1 && history[0].System?
    ensures |history| - |p| == (if history[0].content == "" then 1 else 0)
    ensures p == history[|history| - |p|..]
    ensures |history| >= 2 ==> |p| >= 1 && p[|p| - 1] == history[|history| - 1]
  {
    if history[0].content != "" then history else history[1..]
  }

  /** On a well-formed history the payload starts with a system message
      exactly when the prompt is non-empty, and then carries it verbatim;
      it never carries an empty system prompt or any other system message. */
  lemma PayloadSystemMessage(history: seq<Message>)
    requires WellFormedHistory(history)
    ensures var p := Payload(history);
      (|p| >= 1 && p[0].System?) <==> history[0].content != ""
    ensures var p := Payload(history);
      history[0].content != "" ==> p[0] == history[0]
    ensures var p := Payload(history);
      forall i :: 0 <= i < |p| && p[i].System? ==> i == 0 && p[i].content != ""
  {
    var p := Payload(history);
    if history[0].content == "" {
      forall i | 0 <= i < |p| ensures !p[i].System? {
        assert p[i] == history[i + 1];
      }
    }
  }

  /** Whatever the system prompt, the payload of a history with a message
      just appended ends with that message. */
  lemma PayloadEndsWith(history: seq<Message>, m: Message)
    requires |history| >= 1 && history[0].System?
    ensures var p := Payload(history + [m]);
      |p| >= 1 && p[|p| - 1] == m
  {
    var h := history + [m];
    assert h[0] == history[0] && h[|h| - 1] == m;
  }

  function TextParts(text: string): seq<Part>
  {
    if text == "" then [] else [TextPart(text)]
  }

  /** One image part per upload, in upload order, all with one detail. */
  function ImageParts(uploads: seq<string>, detail: Detail): (ps: seq<Part>)
    ensures |ps| == |uploads|
  {
    if uploads == [] then []
    else ImageParts(uploads[..|uploads| - 1], detail)
         + [ImagePart(DataUri(uploads[|uploads| - 1]), detail)]
  }

  /** The user turn made from the prompt text and the base64 text of each
      upload: the text part first when there is text, then the images. */
  function UserMessage(text: string, uploads: seq<string>, detail: Detail): Message
  {
    User(TextParts(text) + ImageParts(uploads, detail))
  }

  lemma {:induction false} ImagePartsAt(uploads: seq<string>, detail: Detail, i: nat)
    requires i < |uploads|
    ensures ImageParts(uploads, detail)[i] == ImagePart(DataUri(uploads[i]), detail)
  {
    var n := |uploads| - 1;
    if i < n {
      ImagePartsAt(uploads[..n], detail, i);
    }
  }

  /** The layout of a user turn: one part for the text if there is any,
      and it comes first; then exactly one part per upload, in order, each
      with the selected detail. */
  lemma UserMessageLayout(text: string, uploads: seq<string>, detail: Detail)
    ensures var parts := UserMessage(text, uploads, detail).parts;
      |parts| == (if text == "" then 0 else 1) + |uploads|
    ensures var parts := UserMessage(text, uploads, detail).parts;
      text != "" ==> parts[0] == TextPart(text)
    ensures var parts := UserMessage(text, uploads, detail).parts;
      forall i :: 0 <= i < |uploads| ==>
        parts[|parts| - |uploads| + i] == ImagePart(DataUri(uploads[i]), detail)
  {
    var parts := UserMessage(text, uploads, detail).parts;
    forall i | 0 <= i < |uploads|
      ensures parts[|parts| - |uploads| + i] == ImagePart(DataUri(uploads[i]), detail)
    {
      ImagePartsAt(uploads, detail, i);
    }
  }

  /** A user turn is well-formed (in particular has at least one part)
      exactly when there was text or at least one upload. */
  lemma UserMessageWellFormed(text: string, uploads: seq<string>, detail: Detail)
    ensures WellFormedUser(UserMessage(text, uploads, detail).parts)
        <==> text != "" || uploads != []
  {
    var parts := UserMessage(text, uploads, detail).parts;
    var t := |TextParts(text)|;
    forall j | t <= j < |parts| ensures WellFormedPart(parts[j], j) {
      ImagePartsAt(uploads, detail, j - t);
    }
  }

  /** Builds the user turn the way the client does, appending the text
      part and then one image part per upload to an initially empty list. */
  method BuildUserMessage(text: string, uploads: seq<string>, detail: Detail)
    returns (msg: Message)
    ensures msg == UserMessage(text, uploads, detail)
  {
    var parts: seq<Part> := [];
    if text != "" {
      parts := parts + [TextPart(text)];
    }
    for k := 0 to |uploads|
      invariant parts == TextParts(text) + ImageParts(uploads[..k], detail)
    {
      assert uploads[..k + 1][..k] == uploads[..k];
      parts := parts + [ImagePart(DataUri(uploads[k]), detail)];
    }
    assert uploads[..|uploads|] == uploads;
    msg := User(parts);
  }

  /** The request for a turn, sent once the user turn is in the history. */
  function TurnRequest(history: seq<Message>, settings: Settings, apiKey: string): (req: Request)
    requires |history| >= 1 && history[0].System?
    ensures req.apiKey == apiKey && req.model == ModelName
    ensures req.temperature == settings.temperature && req.maxTokens == settings.maxTokens
    ensures req.messages == Payload(history)
  {
    Request(ModelName, settings.temperature, settings.maxTokens, Payload(history), apiKey)
  }

  /** One user's chat session. */
  class Session {
    var history: seq<Message>
    /** Running cost in units of $0.00001; never reset. */
    var cost: nat

    ghost predicate Valid()
      reads this
    {
      WellFormedHistory(history)
    }

    /** A new session: only an empty system message, and nothing spent. */
    constructor ()
      ensures Valid()
      ensures history == [System("")] && cost == 0
    {
      history := [System("")];
      cost := 0;
    }

    /** The system-prompt editor writes its text into the first entry;
        nothing else in the history or the cost changes. */
    method SetSystem(text: string)
      requires Valid()
      modifies this
      ensures Valid()
      ensures history == old(history)[0 := System(text)]
      ensures |history| == |old(history)| && history[0].content == text
      ensures history[1..] == old(history)[1..] && cost == old(cost)
    {
      history := history[0 := System(text)];
    }

    /** A press of Send. The key is checked first, then that there is
        something to send; either refusal changes nothing and calls no
        one. Otherwise the user turn is recorded, the payload is sent, and
        on an answer the reply is recorded and its cost added. A failed
        call leaves the user turn in place without an answer. `sent` is
        the request made, if any. */
    method Send(apiKey: string, text: string, uploads: seq<string>,
                settings: Settings, service: Request -> Reply)
      returns (outcome: SendOutcome, sent: Option<Request>)
      requires Valid()
      modifies this
      ensures Valid()
      ensures outcome == KeyRequired <==> apiKey == ""
      ensures outcome == NothingToSend <==> apiKey != "" && text == "" && uploads == []
      ensures sent.Some? <==> apiKey != "" && (text != "" || uploads != [])
      ensures sent.None? <==> outcome in {KeyRequired, NothingToSend}
      ensures sent.None? ==> history == old(history) && cost == old(cost)
      ensures sent.Some? ==>
        var question := UserMessage(text, uploads, settings.detail);
        && sent.value == TurnRequest(old(history) + [question], settings, apiKey)
        && sent.value.messages[|sent.value.messages| - 1] == question
        && match service(sent.value)
           case Completed(answer, p, c) =>
             && outcome == Answered
             && history == old(history) + [question] + [Assistant(answer)]
             && cost == old(cost) + TurnCost(p, c)
           case Failed =>
             && outcome == CallFailed
             && history == old(history) + [question]
             && cost == old(cost)
      ensures cost >= old(cost)
    {
      if apiKey == "" {
        return KeyRequired, None;
      }
      if text == "" && uploads == [] {
        return NothingToSend, None;
      }
      var question := BuildUserMessage(text, uploads, settings.detail);
      UserMessageWellFormed(text, uploads, settings.detail);
      var request;
      outcome, request := Submit(question, settings, apiKey, service);
      sent := Some(request);
    }

    /** An accepted press: the user turn is appended, the payload of the
        grown history is sent, and the reply is recorded. */
    method Submit(question: Message, settings: Settings, apiKey: string,
                  service: Request -> Reply)
      returns (outcome: SendOutcome, request: Request)
      requires Valid() && question.User? && WellFormedUser(question.parts)
      modifies this
      ensures Valid()
      ensures request == TurnRequest(old(history) + [question], settings, apiKey)
      ensures request.messages[|request.messages| - 1] == question
      ensures match service(request)
        case Completed(answer, p, c) =>
          && outcome == Answered
          && history == old(history) + [question] + [Assistant(answer)]
          && cost == old(cost) + TurnCost(p, c)
        case Failed =>
          && outcome == CallFailed
          && history == old(history) + [question]
          && cost == old(cost)
    {
      AppendUserWellFormed(history, question.parts);
      PayloadEndsWith(history, question);
      history := history + [question];
      request := TurnRequest(history, settings, apiKey);
      outcome := Record(service(request));
    }

    /** The step after the call returns: an answer is appended as an
        assistant message and its token cost is added; a failure leaves the
        history ending in the unanswered user turn. */
    method Record(reply: Reply) returns (outcome: SendOutcome)
      requires Valid() && history[|history| - 1].User?
      modifies this
      ensures Valid()
      ensures match reply
        case Completed(answer, p, c) =>
          && outcome == Answered
          && history == old(history) + [Assistant(answer)]
          && cost == old(cost) + TurnCost(p, c)
        case Failed =>
          && outcome == CallFailed
          && history == old(history)
          && cost == old(cost)
    {
      match reply {
        case Failed =>
          outcome := CallFailed;
        case Completed(answer, p, c) =>
          AppendAssistantWellFormed(history, answer);
          history := history + [Assistant(answer)];
          cost := cost + p * PromptRate;
          cost := cost + c * CompletionRate;
          outcome := Answered;
      }
    }

    /** The Clear button: back to the system message alone, which keeps
        its text; the cost is not reset. */
    method Clear()
      requires Valid()
      modifies this
      ensures Valid()
      ensures history == [old(history)[0]] && cost == old(cost)
    {
      history := [history[0]];
    }
  }
}
