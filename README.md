# piker order client, FSP step sync and `api` key filtering, in Dafny

This project models three small sequential cores of piker, a trading toolkit:

- **The client side of the execution management system (EMS)**, from `piker/exchange/_client.py`.
  `OrderClient.OrderBook` is a class with three fields:
  - the registry `_sent_orders`, a map from order id to the last command sent for it;
  - the commands buffered in the bounded memory channel of capacity 100 that links `_to_ems` to `_from_order_book`;
  - the readiness flag `_ready_to_receive`.

  `Send` builds the order, writes it into the registry, and only then enqueues it without blocking, so a full channel raises after the registry has changed. `Cancel` fails on an unknown id and otherwise enqueues the reduced cancel message, leaving the registry as it was. `Relay` (the body of `send_order_cmds`) sets the flag and then yields the buffered commands oldest first. `ClientActor` holds the `_orders` global and creates the book once. `Send` and `Cancel` are tied to a value-level step function, `Apply`, and `SendNowait` to its enqueue step, `Enqueue`. Lemmas about `Run` (a sequence of calls) prove three things: FIFO order, last-writer-wins in the registry, and the capacity bound.
- **The FSP step-sync rules**, from `piker/fsp/_engine.py`. FSP means financial signal processing. This part covers:
  - the `desynced` predicate;
  - `filter_quotes_by_sym`, modelled as a sequence filter;
  - the `_fsp_builtins` lookup and its `ValueError`;
  - the `cascade` step loop, which appends one zeroed row, or one copy of the last row, to a non-empty destination buffer for each increment message while the buffers stay in step.
- **The `api` console command**, from `piker/cli.py`. `ParseKwargs` is the loop that builds `_kwargs`: it skips arguments without `=`, splits the others at the first `=`, and a later key wins. `FilterKeys` is the `--keys` restriction of the result, with the `KeyError`/`TypeError` paths Python takes.

Python exceptions become `Err`/`Fail` values from module `Results`; no precondition excludes an input the source handles.

## Model

| member | source | states |
|---|---|---|
| OrderClient.Apply | piker/exchange/_client.py:57-92 | One call on a book value. `send` overwrites the registry entry for its id with the command built from its arguments (action, price, size, symbol key, brokers, oid, exec mode) and leaves every other entry alone. It succeeds exactly when the channel holds fewer than 100 commands, and then appends that same command at the back. On a full channel it raises `WouldBlock` with the queue unchanged, but the registry already written. `cancel` on an unknown id raises `KeyError` and enqueues nothing; on a known id it enqueues exactly `CancelMsg(uuid, stored symbol)`. Cancel never changes the registry. No call clears the flag, removes an entry or overfills the channel. |
| OrderClient.RunIsFifo | piker/exchange/_client.py:75-92 | After any sequence of calls, the channel holds its old contents followed by every accepted command, in call order. |
| OrderClient.RegistryHoldsLastSend | piker/exchange/_client.py:66-75 | After any sequence of calls, each id maps to the command of the last `send` for it, even when that send's enqueue failed. Ids never sent keep their old entry, so cancel neither adds nor deletes. |
| OrderClient.RunPreservesInvariants | piker/exchange/_client.py:75-92 | Any sequence of calls keeps the channel within capacity, leaves the readiness flag as it was and never removes a registry key. |
| OrderClient.OrderBook.constructor | piker/exchange/_client.py:109-114 | A new book has an empty registry, an empty channel and an unset flag. |
| OrderClient.OrderBook.SendNowait | piker/exchange/_client.py:76 | Non-blocking enqueue: it succeeds exactly when fewer than 100 commands are buffered, and then appends at the back. Otherwise it raises `WouldBlock` and the channel is unchanged. The new book is the `Enqueue` step of the old one. |
| OrderClient.OrderBook.Send | piker/exchange/_client.py:57-77 | The new registry is the old one with `uuid` mapped to the built order. It returns and enqueues that same order, or raises `WouldBlock` with the queue unchanged but the registry written. The flag is unchanged. The new state is `Apply` of the old state. |
| OrderClient.OrderBook.Cancel | piker/exchange/_client.py:82-92 | The registry and flag are unchanged. An unknown id gives `KeyError(uuid)` and no enqueue. A known id enqueues `CancelMsg(uuid, stored symbol)`, or raises `WouldBlock` on a full channel. The new state is `Apply` of the old state. |
| OrderClient.OrderBook.Relay | piker/exchange/_client.py:136-146 | Sets the flag before anything is yielded: the trace starts with `ReadySet`. It then yields every buffered command in enqueue order and leaves the channel empty and the registry unchanged. |
| OrderClient.ClientActor.constructor | piker/exchange/_client.py:95 | A process starts with no order book: the `_orders` global is `None`. |
| OrderClient.ClientActor.GetOrders | piker/exchange/_client.py:98-116 | The first call creates a fresh empty book. Every later call returns the same instance, untouched. |
| OrderClient.Submit | piker/exchange/_client.py:57-92 | Calling `send`/`cancel` in turn on a book, each on the state the previous call left (raised or not), leaves the book equal to `Run` of the calls. |
| OrderClient.SubmitThenRelay | piker/exchange/_client.py:57-146 | End-to-end FIFO: after any sequence of calls, the relay sets the flag first and then yields the commands already buffered followed by exactly the commands the calls enqueued, in call order. Afterwards the flag is set, the channel is empty and the registry is the one `Run` of the calls gives. |
| OrderClient.ClientActor.SendOrderCmds | piker/exchange/_client.py:120-146 | Fetches the singleton book, sets its flag, and yields what it had buffered in FIFO order after the initial `ReadySet`. |
| FspEngine.Desynced | piker/fsp/_engine.py:272-284 | False exactly when the index difference `src.index - dst.index` is 0 or 1 and the length difference is at most 2. |
| FspEngine.DesyncedOnLengthGap | piker/fsp/_engine.py:274-278 | An absolute length difference above 2 always means desynced. |
| FspEngine.DesyncedOffStep | piker/fsp/_engine.py:273-283 | An index difference above 1 or below 0 always means desynced. |
| FspEngine.DesyncedLengthSymmetric | piker/fsp/_engine.py:274 | Swapping the two lengths does not change the verdict, because the test uses `abs`. |
| FspEngine.RealtimeQuotes | piker/fsp/_engine.py:68-71 | The real-time part yields at most one quote per batch, and every quote it yields is truthy (non-empty). |
| FspEngine.FilterQuotesBySym | piker/fsp/_engine.py:54-71 | The first item is `{}`, and every later item is a truthy quote. There is at most one item per batch, plus the initial one. |
| FspEngine.RealtimeQuotesAppend | piker/fsp/_engine.py:68-71 | The filter works batch by batch, in order: filtering `s + t` gives the output for `s` followed by the output for `t`. |
| FspEngine.RealtimeQuotesOne | piker/fsp/_engine.py:69-71 | A single batch yields `quotes[sym]` exactly when it is present and truthy, and nothing otherwise. |
| FspEngine.RealtimeQuotesSkipsAbsent | piker/fsp/_engine.py:68-71 | Batches that lack a truthy quote for the symbol yield nothing. |
| FspEngine.LookupFspAsWritten | piker/fsp/_engine.py:202-205 | Succeeds exactly for `rsi`, `wma` and `vwap` and returns the table entry. Every other name raises `ValueError` with the literal message `Unknown fsp target: {func_name}`. |
| FspEngine.UnknownTargetLiteralHidesName | piker/fsp/_engine.py:205 | Two different unknown names (`ema` and `macd`) raise identical errors. |
| FspEngine.LookupFsp | piker/fsp/_engine.py:202-205 | Same success cases as the source. An unknown name raises `ValueError` whose message is `Unknown fsp target: ` followed by the name. |
| FspEngine.UnknownTargetNamesTarget | piker/fsp/_engine.py:205 | With the corrected message, two unknown names give equal errors exactly when they are the same name. |
| FspEngine.Builtins | piker/fsp/_engine.py:41-45 | The builtin table has exactly the names `rsi`, `wma` and `vwap`, and no two names share a routine. |
| FspEngine.ShmArray.Push | piker/fsp/_engine.py:319 | Appends the pushed rows at the end and keeps the earlier rows and the start position. |
| FspEngine.LastRows | piker/fsp/_engine.py:317 | `array[-1:]` is one row, the last, when the array is non-empty, and no row otherwise. |
| FspEngine.ZerosLike | piker/fsp/_engine.py:249-250 | Gives the same number of rows with the same widths, with every field zero. |
| FspEngine.AppendStep | piker/fsp/_engine.py:309-319 | With `zero_on_step` it appends the zeroed slice. Without it, it appends a copy of the last row: on a non-empty buffer that is exactly one row, equal to the previous last row, with the earlier rows unchanged. |
| FspEngine.Cascade | piker/fsp/_engine.py:196-319 | An unknown routine name raises `ValueError` before any row is pushed. Otherwise each increment message that finds the buffers in step appends one row to a non-empty `dst`: all-zero, of the start-up row's width, with `zero_on_step`, or a copy of the start-up last row without it. An empty `dst` gains no row, because `array[-1:]` of an empty array is empty. The rows present at start-up are kept. The loop stops at the first message that finds the buffers desynced, and says at which message; every earlier message found them in step. (These whole-run claims assume no other writer; see Left out.) |
| Cli.FirstIndex | piker/cli.py:68 | Gives the position of the first `=` (or the length when there is none); no earlier character is `=`. |
| Cli.Partition | piker/cli.py:68 | `str.partition`: with a separator present, `head + sep + tail` rebuilds the string and the head contains no separator. Without one, the result is `(s, "", "")`. |
| Cli.PartitionJoined | piker/cli.py:68 | Splitting `key + "=" + value` returns `key` and `value` for any value, including one that contains `=`, as long as the key has no `=`. |
| Cli.ParseKwargs | piker/cli.py:63-69 | The keys of `_kwargs` are exactly the keys of the arguments that contain `=`, so an argument without `=` adds nothing. Each key maps to the value of the last argument with that key. |
| Cli.Pick | piker/cli.py:80 | The dict comprehension succeeds exactly when the item is a dict holding every requested key. The result then has exactly the requested keys, with the item's values. A missing key raises `KeyError` for the first missing key in request order, and a non-dict item raises `TypeError`. |
| Cli.FilterKeys | piker/cli.py:75-84 | Without keys, the data passes through unchanged. With keys and `meth` present holding a list, the result is a list with one restricted dict per item, in order, or the error of the first item that fails. With keys and `meth` absent, the result is a one-element list holding the restricted data. Non-dict data raises `TypeError`. A non-list under `meth` gives `[]` when it is empty and `TypeError` otherwise. |

## Left out

- `open_ems` (piker/exchange/_client.py:149-212) is left out. It spawns the daemon actor, calls it over a portal and waits up to 10 seconds for the readiness flag. That is concurrency and timing; the flag itself is modelled as `ready`.
- `OrderBook.modify` is left out. It is a bare stub coroutine that returns None. The model follows the code and invents no behaviour for it.
- The `trio.Event()` default of `_ready_to_receive` is one object shared by every `OrderBook` instance. The model keeps a flag per book, which matches as long as `get_orders` creates only one book.
- OrderClient.OrderBook.Relay: does not model `send_order_cmds` as an endless generator that suspends on an empty channel and resumes on later sends. It yields only what is buffered when it runs. The `log.info` of each command is left out.
- Closing either end of the memory channel, and the errors trio raises then, is not modelled.
- The `emsd_uid` argument of `get_orders` has no effect in the source and is omitted.
- Prices and sizes are `real`. No arithmetic is done on them, so floating point plays no part. `Symbol` (piker/data/_source.py is not part of this model) is reduced to its `key` and its `brokers`, taken as a list.
- `fsp_compute` is left out, along with the history push, `resync` and `TaskTracker` respawning, shared-memory attach, the tractor streams and the profiler. `FspEngine.Cascade` starts after the history push and stops at the first desynced message. The resync path that follows is not modelled. In that path, `poll_and_sync_to_step` returns a `diff` that is never bound in its scope.
- piker/data/_sharedmem.py is not part of this model. `ShmArray.index` is taken to be the start position plus the number of rows (no ring wrap-around), and `push` to append at the end.
- numpy structured dtypes are rows of reals, one per field. The `rsi`, `wma` and `vwap` routines themselves are not modelled.
- FspEngine.Cascade: the concurrent writes of `fsp_compute` (piker/fsp/_engine.py:153-157) are not modelled. That task runs in the same nursery as the step loop and overwrites a field of `dst.array[-1]` with each processed value between increment messages. So in the program a copied row is the last row as the latest value left it, not the start-up last row, and the start-up last row itself does not stay unchanged. The contract's copy-of-the-start-up-row equality and its kept prefix hold only without those writes; the row count, the zeroed rows and the desync stop do not depend on them.
- `FspEngine.Cascade` uses the corrected `LookupFsp`, so its error message names the target (see Findings).
- The rest of `api` is left out: click option parsing, the `trio.run` of `core.api`, the `log.error` printed for a malformed argument, and `colorize_json`/`click.echo`. The broker call's result is a parameter of `FilterKeys`. The other commands in piker/cli.py are not modelled either.
- Dict key order in the filtered output is not modelled, because dicts are maps.

## Findings

| source | as written | input that shows it | evidently intended | confidence | as-written member | corrected member |
|---|---|---|---|---|---|---|
| piker/fsp/_engine.py:205 | The `ValueError` message is a plain string literal without the `f` prefix, so `{func_name}` is never substituted. | `func_name = "ema"` and `func_name = "macd"` raise the identical message `Unknown fsp target: {func_name}`. | The message names the unknown target, as every other formatted message in the file does. | high; not executed | FspEngine.LookupFspAsWritten | FspEngine.LookupFsp |
