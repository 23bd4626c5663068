# Bookstore assistant: order turn orchestration

A Dafny model of the deterministic core of a bookstore chat assistant. A
router classifies each user request and dispatches it to one handler: catalog
lookup, recommendation, order placement or general chat. Order placement is
handled by an `OrderManager`, which keeps two pieces of state: an append-only
chat memory (human, system and AI messages) and an order snapshot (five optional
fields and a `confirmed` flag). On each user message it:

1. appends the message;
2. replaces the snapshot with the extractor's output;
3. runs `_monitor_system`, which emits exactly one advisory (missing fields,
   review request, success or system error) and, for a complete and confirmed
   snapshot, runs the inventory check and the insert;
4. re-extracts;
5. composes the reply and appends it.

Eight modules: src/tasks/order.py is split into `OrderModel` (schema) and `OrderTask` (manager), the other three source files get one module each, and three modules hold shared types:

- `Wrappers` (`Option`) and `Exceptions` (`Exception`, `Fallible`, `Outcome`):
  a Python `None` and a call that either returns or raises.
- `OrderModel`: the `Order` schema, its dictionary view (`ValueOf`), and the
  `missing_fields` comprehension (`MissingFields`).
- `Chat`: messages, and advisories as a datatype instead of formatted strings.
- `Sers`: the inventory check as a function over a `book_id -> stock` map. A
  `Database` class holds the `books` map and the `orders` rows, and its
  insert appends one five-column row.
- `OrderTask`: two specification functions, `Monitor` and `Turn`, and the
  `OrderManager` class, whose methods are proved equal to them.
- `Fallback`: `convert_history` as a loop, proved equal to a recursive
  filter-and-map `Converted`, with lemmas on length, order and dropped roles.
- `Router`: `Route` (label to handler) and `HandleUserRequest`.

External collaborators are parameters. The extractor, the composer, the
classifier and the three other handlers are function values that may raise. The
database engine's answer to the INSERT is an `Option<Exception>` parameter
(`fault`). The module-level `order_manager` singleton is an `OrderManager`
passed by the caller.

Some things one might expect of the manager are not in the code, and the model follows the code:

- The manager does not reset the snapshot after a successful submission. It
  does not null the field an error implicates, and it does not reject
  ambiguous extractions. All three are left to the extraction model's prompt,
  so whatever the snapshot becomes is whatever the extractor returns.
- The re-extraction inside the `try` (src/tasks/order.py:126) runs before the
  advisories are appended to memory. It therefore sees the same transcript as
  the first extraction. Only the later re-extraction (src/tasks/order.py:147)
  sees the success advisory.
- That inner re-extraction runs after the INSERT has committed. If it raises,
  the order is stored but the advisory reports a system error
  (`OrderTask.CommittedButReportedAsError`). Within `Turn` the extractor is a
  function of the transcript, so it repeats the first extraction's result.
  There a success advisory appears exactly when a row was stored.

## Model

| member | source | states |
|---|---|---|
| OrderModel.ValueOf | src/tasks/order.py:68-74 | a key's dumped value is `None` exactly when it is a data key whose optional field is empty; the flag is never `None` |
| OrderModel.MissingFields | src/tasks/order.py:114 | `missing_fields` holds exactly the keys whose value is `None`, never `confirmed`, in schema order, and is empty exactly when all five data fields are present |
| OrderModel.MissingAmongMembers | src/tasks/order.py:114 | a key is in the comprehension's result exactly when it is in the scanned keys and passes the `is None and key != "confirmed"` test |
| OrderModel.MissingAmongKeepsOrder | src/tasks/order.py:114 | the comprehension keeps the schema order of the keys it scans |
| OrderModel.SchemaOrderedUnique | src/tasks/order.py:114 | two key lists with the same members, both in schema order, are equal; so the membership and order facts fix `missing_fields` uniquely |
| OrderModel.MissingFieldsIsTheFilter | src/tasks/order.py:114 | any list in schema order whose members are exactly the missing keys is `missing_fields` |
| OrderModel.InitializeData | src/tasks/order.py:105-106 | the initial snapshot has all five data fields missing, in schema order, and `confirmed` false |
| Sers.CheckOrderValidity | src/sers.py:19-37 | an unknown book fails with "does not exist", a known book with `quantity > stock` fails with "exceeds stock", and the check passes exactly when the book exists and `quantity <= stock` (so `quantity == stock` passes) |
| Sers.UnknownBookIgnoresQuantity | src/sers.py:24-29 | existence is decided before any stock comparison: for an unknown book the outcome does not depend on the quantity |
| Sers.CheckMonotone | src/sers.py:31-35 | an accepted order stays accepted with fewer copies or with more stock |
| Sers.RowOmitsConfirmed | src/sers.py:41-52 | two snapshots give the same row exactly when they differ at most in `confirmed`: the row keeps all five data fields and drops only the flag |
| Sers.CompleteRowHasNoNulls | src/sers.py:46-52 | a complete snapshot gives a row with no NULL column |
| Sers.Database.constructor | src/sers.py:11-17 | a connection sees the existing tables: the given inventory and the given order rows, whatever they already hold |
| Sers.Database.InsertOrderToDb | src/sers.py:39-57 | without an engine fault, exactly one row is appended; with a fault, that exception is raised and the table is unchanged; the inventory is never changed |
| OrderTask.Monitor | src/tasks/order.py:112-139 | missing fields give the "Missing required fields" advisory listing them; a complete but unconfirmed snapshot gives the review request; a row is inserted exactly when the snapshot is complete, confirmed, passes the check and the INSERT does not fail; success exactly when that insert happened and the inner re-extraction returned; any exception on that path becomes "System error: <exc>"; the snapshot changes only on success |
| OrderTask.UngatedIgnoresDatabase | src/tasks/order.py:116-137 | without a complete, confirmed snapshot the outcome does not depend on the inventory or the engine, and nothing is inserted: neither the check nor the insert is reached |
| OrderTask.CommittedButReportedAsError | src/tasks/order.py:123-133 | when the re-extraction after a committed insert raises, a row is stored and yet the advisory is a system error |
| OrderTask.Turn | src/tasks/order.py:141-154 | memory is only appended to: the user message, then, whenever the first extraction returned, the advisory `Monitor` chooses for the extracted snapshot, then the AI message whose content is the returned reply; whenever the re-extraction over the memory after the advisory returns, the snapshot is its result, even if the composer then raises; a raising first extraction changes nothing else; a raising re-extraction or composer propagates its own exception with no AI message appended, the snapshot then being the monitored one or the re-extraction respectively; the table gains at most one row, exactly for a submittable extracted snapshot and no engine fault, and that row is the snapshot's; within a turn the success advisory appears exactly when a row was stored |
| OrderTask.UngatedTurnStoresNothing | src/tasks/order.py:141-147 | a turn whose extracted snapshot is incomplete or unconfirmed stores nothing, whatever the database would say |
| OrderTask.OrderManager.constructor | src/tasks/order.py:78-83 | a fresh manager has an empty chat memory and the initial snapshot (all five fields missing, not confirmed) |
| OrderTask.OrderManager.UpdateData | src/tasks/order.py:108-110 | the snapshot becomes the extraction of the whole memory; if extraction raises, the snapshot is unchanged and the exception propagates |
| OrderTask.OrderManager.MonitorSystem | src/tasks/order.py:112-139 | returns exactly one system message, the advisory of `Monitor`; the snapshot and the orders table change as `Monitor` says; the memory and the inventory are unchanged |
| OrderTask.OrderManager.ProcessOrder | src/tasks/order.py:141-154 | memory, snapshot, orders table and the returned reply (or propagated exception) are those of `Turn` on the old state |
| OrderTask.HandleOrder | src/tasks/order.py:158-160 | one `process_order` turn of the given manager, with its result returned unchanged |
| Fallback.ToMessage | src/tasks/fallback.py:10-13 | a `user` entry becomes a human message and an `assistant` entry an AI message, with the content preserved |
| Fallback.ConvertedAppend | src/tasks/fallback.py:8-15 | converting a concatenation is concatenating the conversions, so the conversion is applied entry by entry in order |
| Fallback.ConvertedLength | src/tasks/fallback.py:7-15 | the output is never longer than the input, and exactly as long when every role is `user` or `assistant` |
| Fallback.EntryImage | src/tasks/fallback.py:9-13 | an entry with any other role adds nothing; a kept entry's message sits at its position in the output |
| Fallback.OrderPreserved | src/tasks/fallback.py:8-15 | the relative order of kept entries is preserved in the output |
| Fallback.ConvertedComesFromKept | src/tasks/fallback.py:9-13 | every output message is the conversion of some kept entry |
| Fallback.ConvertHistory | src/tasks/fallback.py:7-15 | the loop's result equals `Converted` of the whole history |
| Fallback.HandleFallback | src/tasks/fallback.py:36-42 | the chat model is called with the request and the converted history, and its answer is returned |
| Router.Route | src/router.py:11-19 | `"lookup"`, `"recommend"` and `"order"` each select their own handler, and every other label (including `"none"`) selects the fallback |
| Router.HandleUserRequest | src/router.py:9-21 | the classifier is consulted once; a raising classifier propagates and changes nothing; otherwise exactly the routed handler's result is returned unchanged; only the order handler changes the order manager, and it receives the request without the history |

## Left out

- The extraction and response prompt rules (src/tasks/order.py:11-66) are instructions to a language model. They cover ambiguity rejection, carry-over of fields, reset with retained identity, and when to confirm. No code enforces them, so the extractor and the composer are arbitrary functions of the transcript.
- OrderTask.Turn: the two extractions over the same transcript in one turn are assumed to give the same result. A transient failure or a different answer on the inner re-extraction is captured only at the level of `Monitor`, because the extractor is a function of the transcript.
- Sers.CheckOrderValidity: a database error raised by the SELECT itself is not modelled; the stock lookup always answers. An INSERT failure is modelled, through the `fault` parameter. One consequence the model therefore misses: after a failed INSERT the connection stays in an aborted transaction (src/sers.py never rolls back), so every later SELECT raises and every later confirmed order ends in a system error.
- Cursors, commit, durability and the connection parameters (src/sers.py:11-17, src/db.py) are not modelled. The tables are an in-memory map and sequence, with whatever contents they hold when the connection opens.
- The classifier (src/tasks/intent_classifier.py), the SQL-agent lookup (src/tasks/lookup.py) and the retrieval recommender (src/tasks/recommend.py) wrap hosted models. They are function parameters, as is the fallback chat model. The classifier's own `strip().lower()` belongs to it and is not modelled.
- The module-level singleton `order_manager` (src/tasks/order.py:156) is created once, on first import. Every session the server process serves shares it, whether one after another or at the same time: a new session starts with an empty UI history (src/app.py:9-10) but the old `chat_memory` and `data`. The model passes the manager explicitly, so sharing it across sessions corresponds to the caller passing the same manager to each request. Concurrent interleaving of turns is not modelled.
- The Streamlit session handling (src/app.py) is not modelled. That includes its catch-all that turns an exception into an apology message.
- Exact message strings: advisories and the check's errors are datatypes, not formatted text.
- Untyped inputs are not modelled: `convert_history` on an entry without a `role` or `content` key, or an extractor whose output does not fit the schema. History entries and snapshots are typed.
