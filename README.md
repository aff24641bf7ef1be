# alexa-ai bridge, modelled in Dafny

alexa-ai connects an Alexa skill to an LLM endpoint that each user picks.
The voice webhook (`alexa_ai.py`) reads the Alexa user id and the spoken
query from a `POST /query` request. It looks up that user's endpoint and API
key in an encrypted per-user config file. It forwards the query to that
endpoint and speaks the answer back as SSML. A configuration page (`app.py`)
lets a user test an endpoint and save it.

This project models that logic and proves properties about it:

- `paths.dfy` (`Paths`): the file-name guard applied to the config and key
  file names.
- `ssml.dfy` (`Ssml`): the reply builder. It escapes `&`, `<` and `>` (the
  character-data escaping of section 2.4 of XML 1.0, which SSML 1.1 uses)
  and wraps the text in `<speak>` inside the Alexa response envelope.
- `codec.dfy` (`Codec`): a symbolic stand-in for Fernet. A token opens
  only under the key it was made with.
- `credentials.dfy` (`Credentials`): the config file as a table from user
  id to encrypted `(url, key)`. The class `AlexaAI` holds the file's
  contents as a field: `ConfigureLlm` rewrites it and `LoadLlm` reads it.
- `webhook.dfy` (`Webhook`): the early-return decision chain of the
  `/query` route. Its result is the value spoken and the upstream request
  sent, if one was sent. The upstream's answer is an input.
- `config_page.dfy` (`ConfigPage`): the HTTPS check, `test_connection`,
  `save_configuration`, and the two button handlers as methods of a class
  that holds the page message.
- `strings.dfy` (`PyStrings`) and `wrappers.dfy` (`Wrappers`): Python
  `str` operations (`isspace`, `strip`, `find`, `split`, `count`,
  `replace`) and `Option`/`Result`.

Behaviour of the code a reader may not expect, which the model follows:

- `../secret` is not rejected. `_sanitize_path` keeps only the base name,
  so it is accepted as `secret` (`Paths.ParentPrefixIsStripped`).
- A status-200 upstream body that cannot be read as
  `choices[0].message…` gives "Sorry, there was an error processing your
  request.", not "could not reach your model". An empty `choices` list is
  one such body.
- An unreadable config file, a missing record, a missing field and a
  decryption failure all read as `(None, None)`. The webhook reports them
  all as "not configured". No "storage unavailable" condition exists.
- `test_connection` fails for every endpoint without `/model_name=`.
  `api_endpoint` is only assigned inside that branch, so building the
  client raises, and the exception is caught
  (`ConfigPage.NoSeparatorAlwaysFails`).
- A JSON `null` content from the upstream is spoken as "None", because
  `str(None)` is "None".
- A request body that is not JSON, a `session` or `user` that is not an
  object, and a `requests` exception all speak "Sorry, there was an error
  processing your request.". The route's catch-all handler turns every
  exception into that reply (`Webhook.ProcessingErrorBeforeForwardIff`).
- The webhook posts to the stored URL unchanged, with model `gpt-4`. It
  does this even when the URL carries the `/model_name=` suffix that the
  configuration page's connection test reads.

## Model

| member | source | states |
|---|---|---|
| `Paths.Basename` | alexa_ai.py:27 | the base name is a suffix of the path with no `/`, and it starts at the beginning of the path or right after a `/` |
| `Paths.SanitizePath` | alexa_ai.py:24-30 | the call succeeds exactly when the base name is non-empty, has no `..` and does not start with `.`; success returns the base name; failure raises "Invalid filename: " followed by the input |
| `Paths.SanitizedNameIsSafe` | alexa_ai.py:27-30 | an accepted name is non-empty, has no `/` and no `..`, does not start with `.`, and is the tail of the input after its last `/` |
| `Paths.SanitizeIdempotent` | alexa_ai.py:27-30 | sanitising an accepted name again returns it unchanged |
| `Paths.ParentPrefixIsStripped` | alexa_ai.py:27-30 | `../secret` is accepted as `secret`, not rejected |
| `Paths.HiddenNameRejected` | alexa_ai.py:28-29 | every path whose base name starts with `.` is rejected with "Invalid filename: " followed by the path |
| `Paths.ParentReferenceRejected` | alexa_ai.py:28-29 | every path whose base name contains `..` is rejected with "Invalid filename: " followed by the path |
| `Paths.DirectoryPathRejected` | alexa_ai.py:27-29 | the empty path and every path ending in `/` have an empty base name and are rejected |
| `Ssml.Escape` | alexa_ai.py:68 | the escaped text has no `<` and no `>`, and every character in it comes from the input or from the entity references |
| `Ssml.EscapeIsPerCharacter` | alexa_ai.py:68 | because `&` is replaced first, the three chained `replace` calls equal escaping each character on its own |
| `Ssml.EscapeWellEscaped` | alexa_ai.py:68 | escaped text has no raw `<` or `>`, and every `&` in it begins `&amp;`, `&lt;` or `&gt;` |
| `Ssml.UnescapeEscape` | alexa_ai.py:68 | unescaping the escaped text gives back the original text |
| `Ssml.EscapeUnescape` | alexa_ai.py:68 | on well-escaped text, escaping undoes unescaping, so escaping is a bijection onto well-escaped text |
| `Ssml.EscapeLength` | alexa_ai.py:68 | escaped length = length + 4·(count of `&`) + 3·(count of `<`) + 3·(count of `>`) |
| `Ssml.EscapeFixedPoints` | alexa_ai.py:68 | escaping leaves a text unchanged exactly when it has no `&`, `<` or `>`, so escaping is not idempotent |
| `Ssml.AlexaResponse` | alexa_ai.py:64-78 | the reply has version "1.0", type "SSML" and shouldEndSession false; its SSML is a `<speak>` document whose body is well-escaped and reads back as exactly `str(text)` |
| `Ssml.MarkupOnlyInEnvelope` | alexa_ai.py:68-74 | the only `<` and `>` in the reply's SSML belong to the two `<speak>` tags |
| `Codec.Encrypt` | alexa_ai.py:82-83 | decrypting a token under the key it was made with gives the plaintext back |
| `Codec.Decrypt` | alexa_ai.py:103 | decryption succeeds only for a token made under the same key, and gives that token's plaintext |
| `Codec.WrongKeyFails` | alexa_ai.py:103 | a token made under one key never decrypts under another |
| `Credentials.Configure` | alexa_ai.py:80-92 | writing a user's config is an upsert: that user's record is the pair of new tokens; every other record is unchanged; the key set gains only that user; an unreadable file raises and is left as it was |
| `Credentials.Load` | alexa_ai.py:94-105 | url and key are both present or both `None`; they are present exactly when the file is readable, holds the user, and both fields exist and decrypt, and then they are the decrypted values |
| `Credentials.LoadAfterConfigure` | alexa_ai.py:80-105 | after a successful write, loading that user gives exactly the written `(url, key)` |
| `Credentials.ConfigureIsolation` | alexa_ai.py:90 | writing one user's record does not change what any other user loads |
| `Credentials.LastWriteWins` | alexa_ai.py:90 | a second write for the same user fully replaces the first |
| `Credentials.ConfigureCommutes` | alexa_ai.py:85-92 | writes for two different users give the same file in either order |
| `Credentials.ReplacedKeyLooksUnconfigured` | alexa_ai.py:103-105 | a record written under one key loads as `(None, None)` under another key |
| `Credentials.AlexaAI.Create` | alexa_ai.py:10-20 | the file names default to `user_config.json` and `secret.key`; construction fails with the first bad file name's error; otherwise it holds both sanitised names, the key already on disk (or else the generated one) and the current config file |
| `Credentials.AlexaAI.ConfigureLlm` | alexa_ai.py:80-92 | the new file contents are the upsert of the old; the call succeeds unless the old file was unreadable, and then the user's pair loads back |
| `Credentials.AlexaAI.LoadLlm` | alexa_ai.py:94-105 | the result is `Load` of the current file contents, so it is the decrypted pair of the user's record or `(None, None)`; both are present or both absent, and present only when the file holds the user |
| `Webhook.FalsyUser` | alexa_ai.py:37-38 | `not user_id`: a string id is falsy exactly when it is empty; a broken `session`/`user` path is not a falsy id (it raises instead) |
| `Webhook.HasEndpoint` | alexa_ai.py:41-42 | `llm_url` is truthy only for a string id that has a record in a readable table, whose fields both decrypt, with a non-empty URL |
| `Webhook.UserInput` | alexa_ai.py:46 | the spoken query is the slot's `value`, and `""` when the value is absent |
| `Webhook.BuildRequest` | alexa_ai.py:49-51 | the forwarded request goes to the stored URL with an `Authorization: Bearer <key>` header (section 2.1 of RFC 6750), model `gpt-4`, one user message with the query and a 30 s timeout |
| `Webhook.UpstreamText` | alexa_ai.py:56-57 | the lookup raises exactly on a non-JSON or non-object body, `choices` that is not a list or is empty, or a first choice or message that is not an object; a missing `choices`, `message` or `content` gives "No response received."; a present `choices[0].message.content` is the result |
| `Webhook.ForwardedReply` | alexa_ai.py:51-62 | a non-200 status gives "could not reach your model"; a 200 gives the upstream text; a transport error or an unreadable 200 body gives the generic error |
| `Webhook.Query` | alexa_ai.py:35-62 | a request is forwarded only for a string user id with a non-empty stored endpoint and a readable slot path, and it is forwarded to that user's URL with that user's key and the query (default `""`) |
| `Webhook.Respond` | alexa_ai.py:33-62 | the route's JSON reply is the SSML envelope that reads back as the decided speech and keeps the session open |
| `Webhook.InvalidRequestIff` | alexa_ai.py:37-39 | "Invalid request format." is spoken, with nothing forwarded, exactly when the body parses and its user id is falsy |
| `Webhook.NotConfiguredIff` | alexa_ai.py:41-43 | "You have not configured an LLM yet." is spoken, with nothing forwarded, exactly when the user id is truthy but does not resolve to a non-empty URL |
| `Webhook.ForwardsIff` | alexa_ai.py:37-51 | the route forwards exactly when the user id is truthy, resolves to a non-empty URL and the slot path is readable |
| `Webhook.ProcessingErrorBeforeForwardIff` | alexa_ai.py:35-62 | the generic error is spoken with nothing forwarded exactly when the body is not JSON, `session`/`user` is not an object, or a configured user's slot path cannot be read |
| `Webhook.UpstreamContentIsSpoken` | alexa_ai.py:53-60 | a configured user's query answered with status 200 and a string `choices[0].message.content` is spoken as exactly that string |
| `Webhook.ForwardedOutcome` | alexa_ai.py:53-62 | once forwarded: a transport error gives the generic error; a non-200 status gives "could not reach"; a 200 gives the upstream text, or the generic error when the body cannot be read |
| `Webhook.ReplyIsFixedOrUpstream` | alexa_ai.py:35-62 | every spoken value is one of the five fixed texts or the content of a status-200 upstream answer to a forwarded request |
| `Webhook.ConfiguredUserIsForwarded` | alexa_ai.py:41-51 | after a user stores a non-empty URL, that user's next request is forwarded to it with the stored key |
| `Webhook.OtherUsersUnaffected` | alexa_ai.py:41-43 | storing one user's credentials does not change how another user's requests are handled |
| `PyStrings.SplitFirstTwo` | app.py:206 | `parts[0]` is the text before the first `/model_name=`; `parts[1]` runs from after it up to the next occurrence or the end; `None` when the separator does not occur |
| `ConfigPage.IsValidHttpsUrl` | app.py:189-194 | true exactly when the parser returns the scheme `https`; false when the parser raises |
| `ConfigPage.ProbeRequest` | app.py:216-227 | the `model` field is sent exactly when the parsed model name is non-empty, and it carries that name |
| `ConfigPage.CompletionReply` | app.py:231-239 | success exactly when the first choice's content, or else the `response` attribute, is a string; the message is then `content.strip()` of the first choice, or `response.strip()` when there are no choices; a failure gives "couldn't get a response" when neither attribute is there, and the generic error otherwise |
| `ConfigPage.TestConnection` | app.py:198-239 | without a call the result is the generic failure; with a call the result is the completion mapping |
| `ConfigPage.NoSeparatorAlwaysFails` | app.py:205-214 | an endpoint without `/model_name=` always gives `(False, generic error)` and makes no call |
| `ConfigPage.SeparatorSplitsEndpoint` | app.py:205-229 | with the separator, the call goes to the stripped `parts[0]` with the given key, and it carries the stripped `parts[1]` as `model` exactly when that is non-empty |
| `ConfigPage.SaveConfiguration` | app.py:241-250 | the insert gets user `"test"` when none was given; success, with "Configuration saved successfully!", exactly when the insert returns `True`; otherwise "Failed to save configuration." or "Save Error: " followed by the exception text |
| `ConfigPage.PageMessage.OnTestConnection` | app.py:291-308 | a blank endpoint is reported before the HTTPS check; a valid one is tested stripped and the outcome is shown as success or as "Test failed: " with the message |
| `ConfigPage.PageMessage.OnSaveAndLink` | app.py:310-330 | blank and non-HTTPS endpoints get one message; otherwise the unstripped endpoint and key are encrypted and saved, and the outcome is shown |

## Left out

- Fernet itself (AES, HMAC, token format, TTL) and key generation. The
  codec is symbolic. The random IV and timestamp of each token are a
  `nonce` parameter. A freshly generated key is a parameter of `Create`.
- File I/O. The contents of `user_config.json` are a `ConfigFile` value
  (`Missing`, `Unreadable` or a table) held by the `AlexaAI` object. The key
  file's contents are an optional key given to `Create`. The UTF-8
  `encode`/`decode` around the codec is taken to round-trip.
- `requests.post`, the OpenAI client and their timeouts. The model returns
  the request that would be sent and takes the answer (`Upstream`,
  `Completion`) as an input.
- `urlparse`. It is a function parameter that returns a scheme or raises.
- FastAPI routing, uvicorn and the ngrok tunnel in `serve`, which are
  process hosting. Concurrency is left out too: `ConfigureCommutes` states
  only that writes for different users commute.
- The Streamlit page: layout, CSS, Lottie animation, spinners, and
  rendering of the message (app.py:17-28, 69-181, 252-289, 332-347).
- The AWS Secrets Manager lookup, `load_dotenv` and the database
  connection (app.py:30-48, 56-67). db_connection.py is not part of this
  model. The result of its insert is an input to `SaveConfiguration`.
- Webhook.Query: a slot value that is not a JSON string is not modelled.
  The query slot is modelled as absent, a string, or an unreadable path.
- Credentials.Load: a config file that is a JSON list is modelled as
  unreadable. `_load_llm` tests `user_id in config` and reads
  `config[user_id]`, so on a list an integer or boolean user id that equals
  an element indexes the list. When that element is a record that
  decrypts, the source returns its pair and the model returns
  `(None, None)`. String ids on a list, and every id on any other
  non-object file, give `(None, None)` in the source too. That happens
  either at the `not in` test (alexa_ai.py:100-101) or through the caught
  exception (alexa_ai.py:104-105), so the two agree there.
- Webhook.Query: a truthy user id that is not a string always gives
  "not configured". This differs from the source only for the list-shaped
  file above, where such an id can reach a record and be forwarded.
- Ssml.Str: what `str()` gives for JSON values other than strings and
  `null` is an input (`PyOther(shown)`), not computed.
