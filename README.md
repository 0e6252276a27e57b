# Multi-provider vision chat client — verified model of its core

This project models, in Dafny, the small amount of real logic in a Python
command-line client that chats with remote vision-language models:

- **Messages** (`messages.dfy`, from `main.py`): the chat-message records the
  client builds — a text message (one `text` part, role `user` by default) and
  an image message (an `image_url` part holding a PNG data URL of the
  base64-encoded file, then a `text` part with the prompt). A parser for data
  URLs is the inverse used to state what the image URL holds.
- **Conversation** (`conversation.dfy`, from `main.py`): the interactive loop
  as a state machine over `(chat_history, stream_mode)`. `Next` and `RunSpec`
  are the pure specification; the class `Session` is the imperative loop
  (`Step`, `Run`, `HandleStreamResponse`) proved against it. Streamed replies
  are joined by `AccumulateStream`, whose loop is proved to compute `Concat`.
  Every reachable history is well formed: the system message first, then
  user and assistant messages alternating.
- **Registry** (`registry.dfy`, from `model_registry.py`): the fixed
  configuration table `MODEL_CONFIGS` and the lazily filled singleton cache
  `_MODEL_INSTANCES`, as the class `ModelRegistry` with a `Valid()` invariant
  (every cached name is configured, has a key, and its instance was built
  from its configuration).
- **Doubao** (`doubao.dfy`, from `models/doubao_client.py`): the constructor's
  API-key check and the in-place rewrite that collapses a content list made of
  exactly one text part into a bare string, proved idempotent and
  meaning-preserving.

`wrappers.dfy` holds the `Option` and `Result` datatypes used for Python's
`None` and for the `ValueError`s the code raises.

Inputs the program reads from outside are parameters: the menu choice and the
text typed after it, the model's reply (a whole string, or a finite sequence
of stream fragments), the environment's API keys, and `encode_image` (a
function from path to its base64 text).

## Notes on the program

- The image URL always carries the prefix `data:image/png;base64,`, whatever the file's type (`main.py:26`).
- `DoubaoClient.chat` passes the caller's list to `_convert_message_format`, which rewrites it in place (`models/doubao_client.py:20`), so a call changes the caller's history; `ConvertMessageFormat` models exactly that rewrite.

## Model

| member | source | states |
|---|---|---|
| Messages.CreateTextMessage | main.py:11-16 | the message has the given role (default `user`) and its content is a list of exactly one part, a `text` part whose text is read back as the input |
| Messages.CreateImageMessage | main.py:18-33 | a `user` message with exactly two parts: first an image whose URL parses back as media type `image/png` with the encoded file as payload, for every path, then a `text` part equal to the prompt |
| Messages.DataUrlRoundTrip | main.py:26 | `data:<mime>;base64,<payload>` parses back to the same media type and payload whenever the media type holds no `;` |
| Messages.IndexOf | main.py:26 | the index of the first occurrence of a character, or the length when absent (used to read a data URL back) |
| Conversation.SystemMessage | main.py:55-57 | the seed message has role `system` and its content is a list whose only part is a `text` part holding the fixed system prompt |
| Conversation.Initial | main.py:55-60 | the history starts as exactly one `system` message; streaming is on exactly when the answer is `y` or `Y` |
| Conversation.AccumulateStream | main.py:37-41 | the loop returns the in-order concatenation of all fragments, as long as all of them together; an empty stream gives `""` |
| Conversation.ConcatAppend | main.py:40-41 | joining a stream split in two equals joining each half and concatenating |
| Conversation.ConcatLength | main.py:40-41 | the joined text's length is the sum of the fragments' lengths |
| Conversation.FragmentInPlace | main.py:40-41 | fragment `i` occurs in the joined text exactly at the offset reached by fragments `0..i` |
| Conversation.Session.HandleStreamResponse | main.py:35-48 | returns the concatenation of the fragments and appends exactly one `assistant` text message holding it; earlier entries are unchanged |
| Conversation.UserMessage | main.py:70-79 | the message appended for option `1` is a `user` list message whose only text is the typed input; for option `2` it is the image message built from the given path and prompt |
| Conversation.LowersTo | main.py:60-67 | `s.lower()` equals a given lower-case letter exactly when `s` is that letter or its capital |
| Conversation.IsQuit | main.py:67 | exactly the choices whose lower-case form is `q`, that is `q` and `Q` |
| Conversation.StreamAnswer | main.py:59-60 | streaming is chosen exactly by the answers whose lower-case form is `y`, that is `y` and `Y` |
| Conversation.ReplyText | main.py:94-103 | in streaming mode the reply is the in-order join `Concat` of the fragments (as long as all fragments together, `""` for an empty stream); otherwise it is the whole reply |
| Conversation.RunSpec | main.py:63-103 | the loop over a list of turns keeps the old history as a prefix, and a leading quit changes nothing |
| Conversation.RunStopsAtQuit | main.py:67-68 | the loop ends at the first quit: turns after it have no effect on the final state |
| Conversation.Next | main.py:63-103 | one loop pass only appends; options `1`/`2` (and only they) grow the history by two: the user message, then an `assistant` list message holding the reply of the current mode; option `3` flips streaming and keeps the history; any other choice changes nothing |
| Conversation.NextPreservesWellFormed | main.py:70-103 | one loop pass keeps the history well formed: system message first, then user/assistant alternating |
| Conversation.RunPreservesWellFormed | main.py:63-103 | any sequence of loop passes up to the first quit keeps the history well formed |
| Conversation.RunExtends | main.py:63-103 | the loop keeps the old history as a prefix and adds exactly two messages per text or image round |
| Conversation.ReachableWellFormed | main.py:55-103 | every history reachable from startup is well formed and keeps the system message at index 0 |
| Conversation.Session.constructor | main.py:55-60 | the session starts in the initial state |
| Conversation.Session.Step | main.py:63-103 | one imperative loop pass reports quit exactly for `q`/`Q` and leaves history and streaming flag as `Next` prescribes |
| Conversation.Session.Run | main.py:63-103 | the imperative loop over a list of turns ends in the state `RunSpec` prescribes, stopping at the first quit |
| Registry.Names | model_registry.py:56-58 | the keys of the configuration table, one per entry, in order |
| Registry.Lookup | model_registry.py:36 | finds a configuration exactly when the name is a configured key, and the one found is that key's entry |
| Registry.HasApiKey | model_registry.py:41 | the truthiness test of the key: false exactly for a missing key (`None`) and the empty string |
| Registry.CheckConfig | model_registry.py:35-42 | an unknown name fails with the list of available names, a configured name with an absent or empty key fails with a missing-key error, and otherwise the name's configuration is returned |
| Registry.ModelConfigs | model_registry.py:11-24 | the table holds `qwen-vl` then `glm-4v`, in that order, with the Bailian key under `qwen-vl` and the Zhipu key under `glm-4v`, whatever the environment holds |
| Registry.ModelClient.constructor | model_registry.py:45-49 | the instance holds the given class, key, base URL and default model |
| Registry.ModelRegistry.constructor | model_registry.py:11-27 | the registry starts with the fixed configuration table and an empty cache |
| Registry.ModelRegistry.GetModel | model_registry.py:29-54 | a cached name returns its stored instance without consulting the configuration; an unknown name or missing key fails and leaves the cache unchanged; otherwise a fresh instance built from that configuration's key, base URL and default model is returned and the cache gains exactly that entry |
| Registry.ModelRegistry.ListAvailableModels | model_registry.py:56-58 | returns the configuration keys one per entry in definition order, and a name is listed exactly when it is configured |
| Registry.GetModelTwice | model_registry.py:32-33 | two successive lookups of one name that succeed return the very same instance |
| Registry.CacheKeysConfigured | model_registry.py:29-54 | the cached names are always a subset of the configured names |
| Doubao.NewDoubaoClient | models/doubao_client.py:6-11 | construction fails exactly when the key is absent or empty; otherwise the client keeps the key and the default model, and the base URL is ignored |
| Doubao.ConvertContent | models/doubao_client.py:44-50 | the content changes exactly when it is a list of one `text` part, which becomes that text; the parts the content stands for are the same before and after |
| Doubao.ConvertMessage | models/doubao_client.py:44-47 | a message keeps its role, its content is rewritten by the single-text rule (a list of one `text` part becomes the bare text), and the meaning of its content is kept |
| Doubao.ConvertAll | models/doubao_client.py:44-52 | the converted list has the same length and each message is converted on its own |
| Doubao.ConvertContentIdempotent | models/doubao_client.py:45-47 | converting a converted content changes nothing |
| Doubao.ConvertAllIdempotent | models/doubao_client.py:44-52 | converting the list twice equals converting it once |
| Doubao.ConvertAllPreserves | models/doubao_client.py:44-52 | message count, order and roles are kept, and every message's parts and plain text are unchanged |
| Doubao.ConvertMessageFormat | models/doubao_client.py:37-52 | rewrites the array in place so that it holds the converted list, and returns that same array |

## Left out

- File reading and base64 encoding in `encode_image` (`main.py:6-9`): a parameter `encode` from path to text.
- Exceptions from `encode_image` (`main.py:8`, an unreadable file) and from `model.chat` (`main.py:96`, `main.py:100`, a failed request) end the program, since `main` has no handler; the model treats both as total, so that termination is not modelled.
- Conversation.Lower folds only the letters A to Z, where Python's `str.lower` folds all of Unicode; no other character lowers to `q` or `y`, so `IsQuit` and `StreamAnswer` are exact.
- `input()` and `print()` in `main`: the menu choice, the typed text and the answer to the streaming question are inputs of a `Turn`; the echo of each stream fragment is not modelled.
- The `chat` calls of every client (Ark, ZhipuAI and OpenAI SDKs): the reply is an input of each `Turn`, in both of its forms; generator laziness, early stop and connection cleanup are not modelled (a stream is a finite sequence).
- The `get_model("qwen-vl")` call at the start of `main`: its behaviour is `Registry.ModelRegistry.GetModel`; the session does not hold the model, since replies are inputs.
- `.env` loading and `os.getenv`: the two API keys are constructor parameters of `ModelRegistry`.
- The client classes' own constructors (`models.qwen_vl_client` is not part of this model; `models/glm4v_client.py` and `models/hunyuan_vision_client.py` are thin SDK wrappers): an instance is an opaque `ModelClient` holding the four values `get_model` passes.
- A content part of type `text` always carries its text, so the `KeyError` that `models/doubao_client.py:47` would raise on a malformed part is not modelled.
- Doubao.ConvertMessageFormat: each message is a value in an array, so aliasing between the list's message dictionaries and other references to them is not captured.
