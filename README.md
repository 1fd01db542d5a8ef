# Conversation state of the GPT-4 Vision chat client

The client is a single Streamlit page. It forwards a user's text and images
to the chat-completions service and shows the conversation. Its logic is a
small per-session state manager. That manager holds an ordered message
history and a running cost. The history always starts with the system message.
Three actions change the state:

- editing the system prompt writes into history entry 0;
- Send checks the API key, then checks that there is text or at least one
  image. It then builds a user turn and appends it. It sends the history,
  leaving out entry 0 when the system prompt is empty. On an answer it
  appends the assistant reply and adds the token cost;
- Clear cuts the history back to its first entry and keeps the cost.

Two string conventions sit beside this. Every image is stored as the data
URI `data:image/jpeg;base64,<text>`, and the transcript recovers `<text>` by
slicing the URL from offset 23. Assistant replies are shown with every
newline turned into a Markdown hard line break (`"  \n"`).

The model has three modules:

- `Messages` (messages.dfy) holds the message datatypes, the data-URI prefix
  and slice, and the well-formedness of the history.
- `Display` (display.dfy) holds the newline rewrite and its inverse.
- `Conversation` (conversation.dfy) holds the payload selection, the user-turn
  builder, and the `Session` class with `SetSystem`, `Send` and `Clear`.

Cost is an integer in units of $0.00001. The source's rates of $0.01 and
$0.03 per thousand tokens become 1 and 3 units per token.

The chat-completions call is the parameter `service: Request -> Reply` of
`Send`. `Reply` is either `Completed(text, promptTokens, completionTokens)` or
`Failed`. `Send` also returns the request it made, or `None` when it made no
request.

app.py has no image-format check. The uploader (app.py:51) takes any file,
and every upload is labelled `image/jpeg` (app.py:63-74). So the model has no
rejection path for image formats.

## Model

| member | source | states |
|---|---|---|
| Messages.SliceFrom | app.py:43 | Python's `s[k:]`. The result is empty when the string is shorter than k. Otherwise it is the characters from k on, in order. |
| Messages.DataUri | app.py:70 | The stored URL carries the JPEG prefix and is 23 characters longer than the base64 text. Slicing it at 23 gives back exactly that text. |
| Messages.DataUriOfEncodedPayload | app.py:43 | `EncodedPayload` is the transcript's `url[23:]`. Slicing a URL at 23 and wrapping the result again gives back that URL exactly when the URL starts with the JPEG prefix. |
| Messages.AppendUserWellFormed | app.py:75 | Appending a user turn keeps the history well-formed exactly when the turn is well-formed. |
| Messages.AppendAssistantWellFormed | app.py:88-90 | Appending a reply keeps the history well-formed exactly when the history ends with a user turn. |
| Display.FixNewlines | app.py:46 | `Chunk` is the comprehension's per-character expression: a newline becomes `"  \n"`, any other character stays. The output length is the input length plus two per newline. A reply is unchanged exactly when it has no newlines. |
| Display.NewlineCountZero | app.py:46 | The newline count is 0 exactly when the reply contains no newline. |
| Display.UnfixFixNewlines | app.py:46 | The rewrite is lossless: reading each `"  \n"` back as one newline recovers the original reply. |
| Display.FixNewlinesAppend | app.py:46 | The rewrite is a per-character map: it distributes over concatenation. |
| Conversation.Payload | app.py:76-80 | The payload is a suffix of the history. It is one entry shorter exactly when the system prompt is empty. When the history has a turn after the system message, the payload ends with the latest entry. |
| Conversation.PayloadEndsWith | app.py:75-80 | Whatever the system prompt, the payload of a history with a message just appended ends with that message. |
| Conversation.PayloadSystemMessage | app.py:76-80 | On a well-formed history the payload starts with a system message exactly when the prompt is non-empty, and that message is carried verbatim. No other system message, and no empty one, is ever sent. |
| Conversation.ImageParts | app.py:63-74 | There is exactly one image part per upload. |
| Conversation.ImagePartsAt | app.py:64-74 | Image part i wraps upload i as a data URI and carries the selected detail. |
| Conversation.UserMessageLayout | app.py:60-74 | `UserMessage` is the turn built at app.py:60-74. It has one part for the text when there is text, and that part comes first. Then it has exactly one part per upload, in upload order, each with the selected detail. |
| Conversation.UserMessageWellFormed | app.py:59-74 | A user turn is well-formed, and so has at least one part, exactly when there is text or at least one upload. |
| Conversation.BuildUserMessage | app.py:60-74 | The loop that appends parts to an empty list produces exactly the specified user turn. |
| Conversation.TurnRequest | app.py:81-87 | The request names the vision model. It passes the key, the temperature and the max-token limit through unchanged (app.py:84-85). Its messages are the payload of the history. |
| Conversation.Session.constructor | app.py:7-10 | A new session holds only an empty system message and has cost 0. |
| Conversation.Session.SetSystem | app.py:31-33 | Only the text of entry 0 changes. The length, every later entry and the cost stay the same. |
| Conversation.Session.Send | app.py:57-97 | The outcome is `KeyRequired` exactly when the key is empty; this is checked first. It is `NothingToSend` exactly when there is a key but neither text nor uploads. Both refusals change nothing and make no request. A request is made exactly when there is a key and text or at least one upload. That request carries the payload of the history with the new user turn appended, and the payload ends with that turn. An answer appends the user turn and the reply, so the history grows by 2, and adds `TurnCost`, i.e. `prompt + 3 * completion` units, the cost increment of app.py:91-92. A failed call leaves the user turn dangling and the cost unchanged. The cost never decreases, and the history stays well-formed. |
| Conversation.Session.Submit | app.py:75-92 | An accepted press appends the user turn and sends exactly the request for the grown history, whose last message is that turn. An answer adds the reply and `TurnCost`. A failure leaves the turn unanswered and the cost unchanged. The history stays well-formed. |
| Conversation.Session.Record | app.py:88-92 | With the history ending in a user turn, an answer appends one assistant message and adds `prompt + 3 * completion` units of cost. A failure changes nothing more. The history stays well-formed. |
| Conversation.Session.Clear | app.py:101-103 | The history becomes its old first entry alone, so the system text is kept. The cost is unchanged. |

## Left out

- Streamlit widgets, tabs, the cost banner, transcript rendering and `st.rerun`. Each button press is one method call. The widget values (key, prompt, uploads, settings) become parameters.
- The OpenAI client and its network call. The call is the `service` parameter of `Send`. An exception it raises is the `Failed` reply, and that stops the rest of the action.
- Base64 encoding and decoding, reading uploaded files, and PIL image decoding. Each upload is its base64 text, which is opaque to the model.
- Floating-point cost. The cost is an exact integer count of $0.00001 units, so float rounding in the running sum is not modelled.
- The ranges of the temperature and max-token sliders and the detail selectbox. The widgets enforce them and the logic does not check them. Temperature is a `real` that the model passes through.
- Aliasing of the system-message dictionary. `Clear` puts the same dictionary object into the new list. Messages are values in the model, and no code observes the old list afterwards.
