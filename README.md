# ChainWhisperer command handler and intent classifier, in Dafny

This project models the two pieces of logic in ChainWhisperer, a Telegram wallet bot:

- **The Telegram command handler** (`messageHandler.js`). It keeps a per-chat registry of smart-account wallets (`walletConnections`). For each message, `handleMessage` does three things:
  - It picks one reply from the command text and from whether the chat has a wallet.
  - It creates a wallet for `/start` when the chat has none.
  - It posts the reply back to the chat.
- **The intent classifier of the analysis service** (`ai_service.py`). `detect_intent` labels a message by keyword. `extract_parameters` is still a stub. `analyze_message` validates the request before building the response.

Layout:

- `wrappers.dfy` — `Option`.
- `text.dfy` (module `Text`) — the string operations the sources use:
  - Python's `lower()` (ASCII letters only; see "## Left out");
  - Python's `in` on strings, with an independent occurrence definition (`OccursAt`) and the lemma linking them (`ContainsIff`);
  - JavaScript's `split(' ')`. `Join` is defined only to state the round-trip `JoinSplit`; neither source calls `join`.
- `ai_service.dfy` (module `AiService`) — `DetectIntent`, `ExtractParameters`, and `AnalyzeMessage` over a JSON value.
- `message_handler.dfy` (module `MessageHandler`) — the pure pieces:
  - `Route` (which branch a text takes);
  - `Reply`;
  - `Respond` (new registry and reply);
  - `Posts` (what is sent).
  It also holds the class `Handler`. The class has the `walletConnections` map field and a ghost `sent` outbox of attempted posts, including posts whose `axios.post` threw. Its methods `CreateSmartAccount`, `ChooseResponse` (the `try` block up to the post) and `HandleMessage` follow the source's if/else chain. Each method's postcondition ties the new map and the new outbox to `Respond` and `Posts`.

External effects are not executed. Each one becomes an outcome passed to `HandleMessage` in a `World` value:
- key generation, Nexus client creation and the address lookup together form one `AccountCreation`, which either succeeds or fails;
- `getBalance` is a `BalanceQuery`;
- whether the Telegram `axios.post` throws is a flag.
Reply texts are one variant each of `Response`.

## Model

| member | source | states |
|---|---|---|
| Text.Lower | ai_service.py:89 | ASCII-only `lower()`: the length is kept and each character is lowered in place, 'A'..'Z' to 'a'..'z', every other character unchanged |
| Text.LowerIsLowerCase | ai_service.py:89 | a lowered text has no upper-case ASCII letter |
| Text.LowerIdempotent | ai_service.py:89 | lowering twice is the same as lowering once |
| Text.ContainsIff | ai_service.py:90-95 | the left-to-right scan used for `word in message` succeeds exactly when the word occurs at some position of the message |
| Text.Split | messageHandler.js:114 | `split(' ')` gives one more part than there are spaces in the text, and no part contains a space |
| Text.JoinSplit | messageHandler.js:128 | joining the parts of `split(' ')` with a space gives back the original text |
| AiService.AnyInIff | ai_service.py:90 | `any(word in message for word in words)` holds exactly when some word of the group occurs in the message |
| AiService.DetectIntent | ai_service.py:88-96 | the label is always one of `balance`, `swap`, `bridge`, `unknown` |
| AiService.DetectIntentByKeyword | ai_service.py:89-95 | `balance` exactly when a balance keyword occurs in the lowered text, even when swap or bridge keywords occur too; `swap` exactly when no balance keyword occurs and a swap keyword does; `bridge` exactly when no balance or swap keyword occurs and a bridge keyword does |
| AiService.DetectIntentUnknown | ai_service.py:88-96 | `unknown` exactly when none of the nine keywords occurs in the lowered text |
| AiService.DetectIntentCaseInsensitive | ai_service.py:89 | a message and its lower-cased form get the same label |
| AiService.ExtractParameters | ai_service.py:98-103 | `amount`, `fromToken` and `toToken` are all null, whatever the message |
| AiService.AnalyzeMessage | ai_service.py:57-86 | 400 "No data provided" exactly for a falsy body; 400 "No message provided" exactly for a non-empty object whose `message` is missing or falsy; a 200 analysis exactly when `message` is a non-empty string, with response text "I understand you said: " + message and that message's intent and parameters; 500 exactly when the body is not JSON, when a truthy body is not an object, or when a truthy `message` is not a string |
| MessageHandler.Route | messageHandler.js:61-108 | only the exact text `/start` takes the start branch; a missing text takes the branch that throws at `startsWith` |
| MessageHandler.RoutePriority | messageHandler.js:61-137 | the exact matches `/balance` and `/export` come next; then any text with the `/swap` prefix that is not an exact command (so `/swapx` counts); then any other text with the `/bridge` prefix; every other text is an unknown command; the swap and bridge arity is the number of spaces plus one |
| MessageHandler.Reply | messageHandler.js:83-137 | for commands other than `/start`: the generic error is the reply exactly for a missing text; "use /start first" is the reply exactly for a wallet command from a chat without a wallet; an unknown command gets the unknown-command reply; with a wallet, `/balance` gets the queried balance or the balance error, and `/export` gets the stored private key |
| MessageHandler.Respond | messageHandler.js:54-150 | the registry gains the chat's wallet exactly when `/start` comes from a chat without one and creation succeeds; otherwise the registry is unchanged; the reply is the generic error exactly for a missing text or a failed creation |
| MessageHandler.Posts | messageHandler.js:140-150 | the chosen reply is posted first; a second post, the generic error, follows exactly when the first post throws and the reply was not already the generic error |
| MessageHandler.StartWithWallet | messageHandler.js:61-81 | `/start` from a chat with a wallet leaves the registry unchanged and replies with the stored `smartAccountAddress` |
| MessageHandler.StartCreatesOneWallet | messageHandler.js:40-66 | a successful `/start` adds exactly one entry, under that chat, holding the created address; every other chat's entry is unchanged |
| MessageHandler.NoWalletNeedsStart | messageHandler.js:83-125 | with no wallet, `/balance`, `/export` and any `/swap…` or `/bridge…` text reply "Please use /start to create a wallet first!" and leave the registry unchanged |
| MessageHandler.SwapArity | messageHandler.js:108-121 | with a wallet, a `/swap…` text gets the usage text unless it has exactly three spaces, and then gets "coming soon" |
| MessageHandler.BridgeArity | messageHandler.js:122-135 | the same for `/bridge…` texts that do not start with `/swap` |
| MessageHandler.UnknownTextReply | messageHandler.js:136-137 | a text that is no exact command and has neither the `/swap` nor the `/bridge` prefix gets "Unknown command. Use /start to see available commands!", with or without a wallet, and the registry is unchanged |
| MessageHandler.BalanceReply | messageHandler.js:88-92 | with a wallet, a successful `getBalance` is answered with that balance, and the registry is unchanged |
| MessageHandler.BalanceFailureCaught | messageHandler.js:88-96 | a failing `getBalance` gives the balance error reply, not the generic one, and the registry is unchanged |
| MessageHandler.StartTwice | messageHandler.js:61-81 | a second `/start` creates nothing and repeats the address created by the first |
| MessageHandler.WalletsPersist | messageHandler.js:40 | across any sequence of messages, a chat's wallet entry is never removed or replaced |
| MessageHandler.WalletsComeFromStart | messageHandler.js:61-65 | a chat that ends a sequence of messages with a wallet it did not have at the start sent `/start` at some point, and that account creation succeeded |
| MessageHandler.Handler.constructor | messageHandler.js:10 | the registry starts empty and nothing has been posted |
| MessageHandler.Handler.CreateSmartAccount | messageHandler.js:21-52 | on success, stores the new wallet under the chat and returns its address; on failure, leaves the registry unchanged and signals the rethrow |
| MessageHandler.Handler.ChooseResponse | messageHandler.js:58-138 | the if/else chain leaves the registry as `Respond` says; its reply is `Respond`'s reply, or an exception for the generic-error cases |
| MessageHandler.Handler.HandleMessage | messageHandler.js:54-152 | the new registry is `Respond`'s registry, and the outbox gains exactly `Posts` of `Respond`'s reply |

## Left out

- Help, emoji and multi-line reply texts: each reply is a tagged `Response` variant rather than its exact string.
- Key generation, `privateKeyToAccount`, `createNexusClient` and the address lookup (messageHandler.js:16-38): together they are one opaque creation that either succeeds or fails. The private key and the Nexus client are opaque stored values.
- `getBalance` and `axios.post` are outcomes supplied from outside. The `${balance} ETH` formatting is not modelled. If the post in the catch block also throws, `handleMessage` rejects. Nothing further is sent in that case, which the outbox already reflects.
- Concurrency: two `/start` messages for one chat that interleave at the `await`s of `createSmartAccount` are not modelled. In the source, both handlers pass the `if (!wallet)` test (messageHandler.js:64). Each creates an account and posts its address. The second `walletConnections.set` (messageHandler.js:40) replaces the first wallet, so the first key, whose address the user was already sent, is lost. `WalletsPersist`, `StartTwice` and "at most one wallet per chat" hold only when messages are handled one at a time.
- A message without `chat`: `message.chat.id` throws before the `try` (messageHandler.js:55). `Message` always carries a chat id.
- `console.log`/`console.error`, and `print` in ai_service.py.
- Text.Lower: lowers ASCII letters only. Python's `str.lower()` also lowers non-ASCII capitals such as `Ä`. It can change the length: `İ` becomes `i` followed by a combining dot, two code points. It applies the final-sigma rule, so `'ΑΣ'.lower()` is `'ας'`, with the sigma depending on its position. None of this is modelled.
- DetectIntent: lowers ASCII letters only. Python's `str.lower()` also maps non-ASCII characters, some of them to ASCII letters. For example, KELVIN SIGN becomes `k`, so a text can match a keyword in Python that it does not match here.
- AnalyzeMessage: the 500 reply does not carry the exception's text. The OPTIONS preflight branch, CORS, the `/health` route, the unused LangChain/CDP agent setup, and the unused `chatId` field are not modelled. JSON numbers are reals, so the model cannot represent the `NaN` and `Infinity` bodies that Python's `json` accepts. Such a body is truthy and not an object, so the source answers it with 500.
- index.js (Express routing and its HTTP status codes) and db.js (the Postgres pool and the table reset) are not part of this model.
- messageHandler.js has no quote staging, confirm flow, token/chain registry or decimal scaling. The `/swap` and `/bridge` branches only reply "coming soon".
