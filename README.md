# Conversation client state, in Dafny

This project models the in-memory conversation state of the `OpenAIModel` chat
client in `openai_model.py`:

- the token budget resolved from the model name, with 4096 for unknown names;
- the message history, an append-only list of `{role, content}` turns that
  `add_message` validates (role first, then content) and stores stripped;
- the all-or-nothing effect of `chat` on the history and the stored response;
- `reset_conversation`, which clears both, and `get_last_response`, which reads
  the stored response back.

The remote completion call is a parameter of `Chat`: a function from the
request the client builds (model name, the whole history in order, the token
budget) to the outcome the endpoint reports. That outcome is either an error or
a response whose candidates may be missing or have null content. Python's
`str.strip()` and `str.isspace()` are modelled in `pystr.dfy`, with the
Unicode whitespace set Python uses.

Files:

- `wrappers.dfy`: `Option` (Python's `None`) and `Outcome` (raise or return).
- `pystr.dfy`: `IsWhitespace`, `TrimStart`, `TrimEnd`, `Strip` and their lemmas.
- `conversation.dfy`: the token table, roles and messages, the request and
  response shapes, the `OpenAIModel` class, and scenarios that drive the
  class as `main.py` does.

The class keeps the object invariant `Valid()`. The budget comes from the table.
Every history entry has non-empty content with no whitespace at either end.
A stored response has a first candidate with non-blank content. Roles are a
datatype, so a stored role is always one of user, assistant and system.

## Model

| member | source | states |
|---|---|---|
| `PyStr.WhitespaceChars` | openai_model.py:96 | the whitespace set `strip` removes: among ASCII characters exactly TAB, LF, VT, FF, CR, FS, GS, RS, US and SPACE, as Python's `str.isspace`; nothing beyond U+3000 |
| `PyStr.TrimStartSpec` | openai_model.py:96 | what `lstrip` keeps is a suffix of the input; everything dropped is whitespace; the result does not start with whitespace |
| `PyStr.TrimEndSpec` | openai_model.py:96 | what `rstrip` keeps is a prefix of the input; everything dropped is whitespace; the result does not end with whitespace |
| `PyStr.Strip` | openai_model.py:96-101 | `strip()` is empty exactly when the text is blank; otherwise it begins and ends with a non-whitespace character |
| `PyStr.StripIsInfix` | openai_model.py:101 | the stripped text is a contiguous part of the input with only whitespace on either side |
| `PyStr.StripFixedPoint` | openai_model.py:101 | `strip()` leaves text unchanged exactly when it has no whitespace at either end |
| `PyStr.StripIdempotent` | openai_model.py:131-134 | stripping twice gives the same text as stripping once, so the entry `chat` appends through `add_message` equals the text it returns |
| `PyStr.StripPadded` | openai_model.py:96-101 | whitespace added before or after a text does not change its stripped form |
| `Conversation.GetModelMaxTokens` | openai_model.py:45-65 | the budget is always positive: 16384 for "gpt-4o-mini", 4096 for "gpt-3.5-turbo" and for every unknown name |
| `Conversation.ParseRole` | openai_model.py:93-95 | exactly the strings "user", "assistant" and "system" are accepted, each as the role whose name it is |
| `Conversation.FirstContent` | openai_model.py:131 | `response.choices[0].message.content`: a value exactly when there is a first candidate and its content is not null, and then that content; the IndexError and the AttributeError on null content both give no value |
| `Conversation.ChatReply` | openai_model.py:120-140 | `chat` returns a reply exactly when the call succeeded and the first candidate's content is present and not blank; the reply is that content stripped and is a well-formed assistant entry |
| `Conversation.OpenAIModel.constructor` | openai_model.py:16-43 | the model name defaults to "gpt-4o-mini"; the budget is resolved once from the model name; history starts empty and no response is stored |
| `Conversation.OpenAIModel.AddMessage` | openai_model.py:84-102 | a role outside the three raises the role error and changes nothing, whatever the content; a valid role with content whose `strip()` is empty (that is, blank content) raises the content error and changes nothing; otherwise exactly one entry with the role and the stripped content is appended; the stored response and the invariant are kept |
| `Conversation.OpenAIModel.Chat` | openai_model.py:104-140 | the endpoint receives the model name, the whole history and the budget; on a usable reply exactly one assistant entry holding the returned stripped text is appended and the response is stored; on any failure, a blank reply included, the history and the stored response are unchanged |
| `Conversation.OpenAIModel.ResetConversation` | openai_model.py:142-149 | the history is empty and no response is stored, whatever the state before, so a second reset changes nothing |
| `Conversation.OpenAIModel.GetLastResponse` | openai_model.py:151-164 | a value is returned exactly when a response is stored; it is the unstripped first-candidate content, and stripping it gives what the storing `chat` returned |
| `Conversation.AddMessageScenario` | main.py:7-8 | a client built with the default model name has model "gpt-4o-mini" and budget 16384; after a user greeting the history is exactly that one turn and no response is stored; the role "narrator" gets the role error and the content "   " the content error |
| `Conversation.ChatScenario` | main.py:9 | after the greeting, a failing endpoint gives no reply; a reply "Bonjour!" is returned, the history is the user turn followed by the assistant turn "Bonjour!", the stored response's first content is "Bonjour!" and the last response reads "Bonjour!" |
| `Conversation.ResetScenario` | openai_model.py:142-164 | a reset after that exchange, followed by a second reset, leaves no history and no stored response, and the last response read between them is absent |

## Left out

- Logging: the logger, its file and console handlers and every log call. Apart from the failure below, they only write to files and the console and do not affect the conversation state.
- The SDK client: its construction from the API key and the `api_key` and `console_debug` constructor arguments. The constructor takes the model name only.
- `Conversation.OpenAIModel.constructor`: never fails, while `__init__` can raise. Opening the log file `logs/openai_model.log` (openai_model.py:26) raises when the directory is missing, and building the SDK client (openai_model.py:38) can raise. Both are I/O or foreign code outside this model.
- `list_available_models`: a remote catalogue query with no effect on the client state.
- The sampling arguments `temperature`, `top_p`, `n` and `stop`. They are floats or are passed through to the endpoint unchanged. Only the first candidate of a response is read, so `n` does not change the state effect.
- The endpoint's behaviour. It is any function from the request to an outcome. Network errors, rate limits and malformed responses are all the single `RemoteError` outcome. A missing first candidate or a null content is a failure, as the `IndexError` or `AttributeError` it causes is caught by `chat`.
- `Conversation.OpenAIModel.GetLastResponse`: models `get_last_response`'s dictionary-style indexing of the stored SDK response as reading its first candidate's content. The response type belongs to the SDK, which is not part of this model, so whether that indexing succeeds on it is not modelled.
- Python exceptions: `add_message`'s `ValueError` is the returned `Fail` outcome with the reason; the message texts are not modelled.
- Non-string arguments (a `None` content, say) are excluded by the types.
- `config.py` (environment loading) and the printing in `main.py` are not part of this model.

`get_last_response` (openai_model.py:151-164, whose docstring promises "the content of the last response") returns the raw, unstripped content of the stored response, while `chat` returns and stores the stripped text. The model follows the code and proves that stripping the last response gives the reply `chat` returned.
