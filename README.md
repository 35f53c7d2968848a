# Verified model of the python-training services

This project models, in Dafny, the parts of the python-training repository
that carry checkable logic:

- **the chat-completion gateway** (`LLM_app/src/llm_api/main.py`): validation of
  the request body (roles limited to `system`/`user`/`assistant`, sampling
  defaults 0.2 and 0.9), conversion of the conversation into the backend's
  system/human/AI messages, the blocking `/chat` handler with its 500 mapping,
  and the event framing of `/chat/stream`: zero or more `token` events, then
  exactly one `done` (`[DONE]`) or `error` event;
- **the task endpoints** (`Session_2/src/app/api/tasks.py`): create (the user
  must exist), filtered listing by descending id, partial update and silent
  delete, over a `TaskStore` object holding the task table, the existing user
  ids and the auto-increment counter;
- **the user endpoints** (`Session_2_4/src/app/api/users.py`): create with a
  unique email (409 otherwise) and lookup by id (404 otherwise), over a
  `UserStore` object whose invariant keeps emails unique;
- **the customer credit account** (`customer/customer.py` and the `main.py`
  script that drives it): a `Customer` class whose `credit` field is absent
  until the account is opened once, and then moves by signed amounts.

The backend of the gateway is a parameter (`ChatGateway.Backend`): whether
building the client raises, what a blocking call returns or raises, and which
chunks a stream yields before it is exhausted or raises. A stream that faults
after `k` chunks is a `StreamRun` whose chunk list has length `k` and whose
ending is `Faulted(message)`.

Files: `common.dfy` (Option, Result, HTTP errors), `chat_gateway.dfy`,
`tasks.dfy`, `users.dfy`, `customer.dfy`.

Behaviour of `LLM_app/src/llm_api/main.py` that the model keeps:

- `messages: List[ChatMessage]` (line 28) accepts an empty list, so
  `ParseMessages` accepts `[]`.
- In `/chat/stream`, `build_chain` and `to_lc_messages` run before the
  generator's `try` (lines 71-72). A failure there propagates out of the
  handler (`StreamReply.Propagated`) and does not become an `error` event.
- `temperature` and `top_p` are `Optional[float]` with defaults (lines 29-30)
  and no bounds. An explicit `null` is passed on as `None`; only an omitted
  field gets the default.

## Model

| member | source | states |
|---|---|---|
| ChatGateway.ParseRole | LLM_app/src/llm_api/main.py:23-25 | a role is accepted exactly when it is `system`, `user` or `assistant`, and the accepted role carries that name |
| ChatGateway.RoleNameRoundTrip | LLM_app/src/llm_api/main.py:24 | every role's wire name is accepted and parses back to the same role |
| ChatGateway.ParseMessages | LLM_app/src/llm_api/main.py:23-28 | the message list is accepted exactly when every role is valid (else 422); the result has the same length, contents and role names |
| ChatGateway.ParseRequest | LLM_app/src/llm_api/main.py:27-30 | validation of the body: 422 exactly on a bad role; an omitted temperature/top_p becomes 0.2/0.9, an explicit null becomes None, a number is kept |
| ChatGateway.ToLcMessages | LLM_app/src/llm_api/main.py:45-54 | one backend message per input message, in order, with the same content; system becomes System, user Human, the rest AI; the conversation can be read back unchanged |
| ChatGateway.Chat | LLM_app/src/llm_api/main.py:57-67 | success exactly when building the client and invoking it both succeed, with the request's temperature/top_p and the converted messages; the content is the result's `content`, else its string form; any raised error becomes a 500 carrying its message |
| ChatGateway.ParseField | LLM_app/src/llm_api/main.py:29-30 | an omitted field gives the default, an explicit null gives None, a number is kept |
| ChatGateway.BuildChain | LLM_app/src/llm_api/main.py:36-43 | the client is bound to model `gemma3:270m` with the given temperature and top_p unchanged |
| ChatGateway.ResultText | LLM_app/src/llm_api/main.py:64 | a message result gives its `content`; any other result gives its string form |
| ChatGateway.HandleChat | LLM_app/src/llm_api/main.py:27-67 | a request with an unknown role is rejected with 422 whatever the backend does; a valid request is answered exactly as `Chat` answers the validated request, so its own sampling values (or the defaults) reach the client; with both sampling fields omitted the client is built with model `gemma3:270m`, 0.2 and 0.9 |
| ChatGateway.ChunkText | LLM_app/src/llm_api/main.py:78 | a chunk without `content` gives the empty text; otherwise its `content` |
| ChatGateway.TokenEvents | LLM_app/src/llm_api/main.py:76-80 | token events are never empty and never more than the chunks |
| ChatGateway.Framed | LLM_app/src/llm_api/main.py:74-83 | tokens only before the last event, exactly one terminal event and it is last; every other event is named `token`; the last is named `done` (data `[DONE]`) exactly when the stream was exhausted, else `error` with the fault's message |
| ChatGateway.EventGen | LLM_app/src/llm_api/main.py:74-83 | the loop over the chunks yields exactly the framed event sequence of the run |
| ChatGateway.ChatStream | LLM_app/src/llm_api/main.py:69-84 | a failure while building the client propagates out of the handler; otherwise the reply is the framed stream of the backend run for the request's settings and converted messages |
| ChatGateway.TokenEventsAppend | LLM_app/src/llm_api/main.py:76-80 | framing the chunks of two consecutive stretches gives the tokens of the first followed by those of the second |
| ChatGateway.TokenSources | LLM_app/src/llm_api/main.py:76-80 | the tokens are exactly the texts of the non-empty chunks, in backend order (a strictly increasing index list covering every non-empty chunk) |
| ChatGateway.AllNonEmptyChunks | LLM_app/src/llm_api/main.py:76-81 | with N non-empty chunks and normal exhaustion: N tokens carrying the chunk texts in order, then `done` |
| ChatGateway.FaultAfterPrefix | LLM_app/src/llm_api/main.py:75-83 | a fault after the first k chunks: the tokens sent are a prefix of the full run's tokens, followed by one `error`, and no `done` |
| ChatGateway.EmptyChunkSuppressedExample | LLM_app/src/llm_api/main.py:78-81 | chunks `hi`, empty, `there` give `token(hi)`, `token(there)`, `done` |
| ChatGateway.MidStreamFaultExample | LLM_app/src/llm_api/main.py:75-83 | `partial`, a chunk without content, then a fault give `token(partial)`, `error` |
| Tasks.QueryOrdered | Session_2/src/app/api/tasks.py:29 | the query result has ids in range, strictly descending |
| Tasks.QueryMembers | Session_2/src/app/api/tasks.py:24-28 | a task is in the query result exactly when it is a stored row within the id range that passes both filters |
| Tasks.TaskStore.constructor | Session_2/src/app/models/task.py:6-11 | an empty task table whose first insert gets id 1 |
| Tasks.TaskStore.ListTasks | Session_2/src/app/api/tasks.py:18-29 | exactly the stored tasks matching `user_id` and `completed` when given (all tasks without filters), strictly descending by id |
| Tasks.TaskStore.CreateTask | Session_2/src/app/api/tasks.py:10-16 | unknown user: 404 "User does not exist" and nothing changes; otherwise exactly one new row with a fresh id, the user and title, `completed` false, other rows unchanged, and it is listed for that user |
| Tasks.TaskStore.UpdateTask | Session_2/src/app/api/tasks.py:31-41 | missing id: 404 "Not found" and nothing changes; otherwise only the given title/completed change; id, user and all other rows stay |
| Tasks.TaskStore.DeleteTask | Session_2/src/app/api/tasks.py:43-48 | the row is removed if present, a silent no-op if absent; afterwards no listing contains the id |
| Tasks.DeleteTwice | Session_2/src/app/api/tasks.py:43-48 | deleting twice equals deleting once |
| Tasks.CreateListUpdateDeleteScenario | Session_2_4/tests/test_api_tasks.py:1-25 | a created task is not completed and is listed for its user; marking it done shows completed; after delete it is not listed |
| Users.UserStore.constructor | Session_2_4/src/app/api/users.py:9-15 | an empty user table whose first insert gets id 1 |
| Users.UserStore.GetUser | Session_2_4/src/app/api/users.py:17-22 | the stored user with that id, or 404 "Not found" exactly when absent; a read-only lookup |
| Users.UserStore.CreateUser | Session_2_4/src/app/api/users.py:9-15 | taken email: 409 "Email already exists" and nothing changes; otherwise exactly one new user with a fresh id, the email and full name; emails stay unique; the new id fetches the same user back |
| Users.CreateThenGetScenario | Session_2_3/tests/test_api_users.py:1-14 | creating `x@y.com` and fetching the returned id gives the same id and email |
| Users.DuplicateEmailScenario | Session_2_4/src/app/api/users.py:11-12 | a second registration with the same email gets 409 and the store still holds one user |
| Customers.Customer.constructor | customer/customer.py:15-26 | stores name, email and phone as given, with no credit account |
| Customers.Customer.ToString | customer/customer.py:28-35 | the shown text is name, `" - "`, email, `" - "`, phone, with each part at its position |
| Customers.Customer.HasCreditAccount | customer/customer.py:37-44 | true exactly when the customer has a credit account, whatever its balance (zero included) |
| Customers.DisplayLayout | customer/customer.py:28-35 | the string form is name, `" - "`, email, `" - "`, phone, in that order |
| Customers.Customer.CreateCreditAccount | customer/customer.py:46-63 | true and balance 0 exactly when there was no account; otherwise false and the balance is unchanged; the account exists afterwards; name, email, phone unchanged |
| Customers.Customer.ModifyCredit | customer/customer.py:65-86 | with an account: true and balance becomes old balance plus the amount (negative allowed); without: false, no account is created, nothing changes; name, email, phone unchanged |
| Customers.DemoDisplay | main.py:8-18 | the first customer is shown as `John Doe - john.doe@example.com - 1234567890` and has no account |
| Customers.DemoScript | main.py:14-70 | modify before opening fails; opening succeeds; +100, +50, -25 give balances 100, 150, 125; a second customer has no account and cannot modify |

## Left out

- The text-generation backend (the LangChain/Ollama client, its `invoke` and `stream`) is a parameter; the model name is kept as a constant only.
- Server-sent-event transport, CORS, uvicorn start-up and the FastAPI routing are not modelled; a stream is the list of events the generator yields.
- Laziness of the generator and client-disconnect cancellation are not modelled: the model produces the whole event list of a run.
- Sampling parameters are `real` values passed through unchanged; their ranges and float behaviour are not modelled.
- Message and chunk contents are plain strings; a backend result or chunk whose `content` is not a string (a list of parts) is not modelled, nor is the response validation that would reject it.
- Request validation models only the role literal and the two optional numeric fields; other malformed bodies (missing fields, wrong types) are not modelled. The 422 detail is abbreviated to one message.
- `build_chain` is modelled as the settings it passes to the client; `ChatGateway.Backend.construct` says whether constructing the client raises.
- The SQLAlchemy session (add, commit, refresh, transactions, SQL) is replaced by maps in `TaskStore` and `UserStore`; the user table seen by the task endpoints is a fixed set of ids.
- The descending-id order of the task listing is produced by scanning ids below the auto-increment counter; the `created_at` column and the database's own order of execution are not modelled.
- The `created_at` columns, the schema migration, the Streamlit dashboard, test fixtures and application wiring are not modelled.
- Email format validation (`EmailStr`) is a library feature and is not modelled; emails are compared as plain strings.
- Tasks.TaskStore.CreateTask, Tasks.TaskStore.UpdateTask, Users.UserStore.CreateUser: column lengths are not modelled. `title`, `email` and `full_name` are `String(255)` columns (Session_2/src/app/models/task.py:10 and the Session_2 migration), and on strict-mode MySQL a longer value makes the commit fail with a 500. `CreateTask`, `UpdateTask` and `CreateUser` accept strings of any length and always succeed past their 404/409 checks.
- Concurrent requests are not modelled; each operation runs alone on the store.
- The customer balance is a `real`; float rounding is not modelled, and neither are the `print` calls of `customer.py` and the script.
