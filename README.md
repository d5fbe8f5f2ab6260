# Food price tracker: verified model of price-update reconciliation

The food price tracker keeps a ledger for each user. The ledger maps each
tracked item to three prices: the current price, the last price (the current
price just before the latest update) and a target price. When the user
submits a form of observations, the tracker does three things:

- it builds a batch from the form rows, keyed by the trimmed item name;
- it compares every observation with the item's prior current price and
  reports the change as cheaper, increased or unchanged;
- it raises an alert for every observation at or below its target, then
  writes the new prices into the ledger.

The tracker also reads ledgers saved by older versions, which lack some
columns, and it checks logins against the stored accounts.

This Dafny project models that logic and proves its properties:

- `prices.dfy` (module `Prices`) holds the data model: `PriceRecord`,
  `Ledger` (a map from item to record) and `Entry` (one observation). A batch
  is a `seq<Entry>` in insertion order. `Distinct` says that no item occurs
  twice, just as in the source's dictionary.
- `reconciler.dfy` (module `Reconciler`) models `update_prices` without its
  file load and save. `Reconcile` is the imperative loop. It reads the prior
  price from the working ledger, appends to the message and alert logs, and
  overwrites the record. The functions `Step` and `Run` state the same loop
  over values. `RecordFor`, `MessageFor`, `MessagesOf` and `AlertsOf` are
  independent reference definitions, stated against the ledger as it was
  before the batch. The lemmas prove that the loop agrees with them.
- `ledger_file.dfy` (module `LedgerFile`) models the per-row defaulting of
  `load_prices` (`RecordOf`) and its row loop (`Load`, specified by
  `Loaded`). It also models the row that `save_prices` writes
  (`SavedRow`, `SavedRows`). It proves that a saved ledger loads back
  unchanged.
- `batch_form.dfy` (module `BatchForm`) models the form loop that builds
  the batch. `Trim` models Python's `str.strip()`, using Python's set of
  whitespace characters. `Put` models assignment into an insertion-ordered
  dictionary: a key that is already present keeps its position and takes the
  new value, and a new key is added at the end.
- `accounts.dfy` (module `Accounts`) models `verify_user`.

`BuildBatch` ensures `Distinct` of the batch it returns. `Reconcile`
requires exactly that, so any batch the form builds can be reconciled.

Two behaviours of the code are worth stating plainly:

- `update_prices` never checks the sign of a price. Only the form widgets
  bound prices, so the model accepts any real price.
- `load_prices` returns an empty ledger when the file is missing, empty or
  has only a header. It raises an error on a price cell that is not a
  number, on a short row, and on a file without an `item` column. The model
  covers the three empty cases with the empty row sequence, and
  `Loaded([])` is the empty ledger. A file with an `item` column but no
  price column loads every row at 0, as `RecordOf` states.

## Model

| member | source | states |
|---|---|---|
| `Reconciler.Reconcile` | foodtracker.py:70-103 | The update loop returns the ledger, messages and alerts of `Run`. The new keys are the old keys plus the batch items. Items outside the batch keep their records. Every batch item gets current = new price, target = submitted target, and last = the pre-batch current price (or the new price for a new item). There is exactly one message per observation, in batch order, each classified against the pre-batch price. The alerts are `AlertsOf(batch)`. |
| `Reconciler.Prior` | foodtracker.py:78 | The price an observation is compared with: the item's current price in the ledger, or the observed price itself for an item the ledger lacks. `FirstObservation` states the consequence: a new item is reported unchanged. |
| `Reconciler.Classify` | foodtracker.py:81-86 | Decreased iff new < prior, increased iff new > prior, unchanged iff they are equal (exact comparison). The three cases are exclusive and exhaustive. The message carries the item and new price, plus the prior price when it changed. |
| `Reconciler.Reached` | foodtracker.py:91 | The alert condition, price <= target, with the boundary inclusive. `AlertsOfMember` states it for a whole batch. |
| `Reconciler.Step` | foodtracker.py:76-99 | One turn of the update loop: compare with the prior price read from the working ledger, log one message, log an alert if reached, and overwrite the item's record. `Reconcile`'s loop invariant ties each iteration to it. |
| `Reconciler.Run` | foodtracker.py:75-99 | The update loop over the batch in order. `RunKeys`, `RunUntouched`, `RunRecord`, `RunMessages` and `RunAlerts` state its result against the pre-batch ledger. |
| `Reconciler.RunKeys` | foodtracker.py:95-99 | After the loop, the ledger's keys are exactly the stored keys plus the batch items. Nothing is deleted. |
| `Reconciler.RunUntouched` | foodtracker.py:75-99 | An item the batch does not mention keeps its stored record, or stays absent. |
| `Reconciler.RunRecord` | foodtracker.py:76-99 | For a batch with distinct items, each item ends with `RecordFor(stored, e)`: the new current and target prices, and the pre-batch current price as last. This holds even though the loop reads the prior price from the ledger it is updating. |
| `Reconciler.RunMessages` | foodtracker.py:78-88 | There is exactly one message per observation, and message i classifies observation i against the pre-batch current price. |
| `Reconciler.MessagesOfAt` | foodtracker.py:88 | The reference message log has one entry per observation, and entry i is the message for observation i. |
| `Reconciler.RunAlerts` | foodtracker.py:90-92 | The loop's alerts equal `AlertsOf(batch)`. That function has no ledger argument, so alerts do not depend on the stored prices or on the classification, and an increased item can still alert. |
| `Reconciler.AlertsOfMember` | foodtracker.py:91-92 | An alert (item, p, t) is raised iff the batch has that observation and p <= t. The boundary is inclusive. |
| `Reconciler.AlertsOfBound` | foodtracker.py:91-92 | There are never more alerts than observations. |
| `Reconciler.AlertsOfConcat` | foodtracker.py:75-92 | Alerts of consecutive parts of a batch are concatenated in order, so alerts keep batch order. |
| `Reconciler.FirstObservation` | foodtracker.py:78 | An item absent from the stored ledger is classified unchanged, and its record has last = current = the observed price. |
| `Reconciler.OrderIndependent` | foodtracker.py:75-99 | Two batches with the same distinct observations in different orders produce the same ledger. |
| `Reconciler.MessagesPermuted` | foodtracker.py:75-88 | Reordering a batch permutes its reference messages (multiset equality). |
| `Reconciler.AlertsPermuted` | foodtracker.py:90-92 | Reordering a batch permutes its alerts (multiset equality). |
| `Reconciler.ReorderedBatch` | foodtracker.py:73-99 | Only the order of the outputs depends on batch order. The ledger is equal, and messages and alerts are equal as multisets. |
| `Reconciler.RepeatSubmission` | foodtracker.py:75-99 | Submitting the same batch again classifies every item as unchanged and records last = current for each. It raises the same alerts again, because alerts are recomputed on every call and are not edge-triggered. |
| `LedgerFile.RecordOf` | foodtracker.py:52-54 | The current price is `current_price` if that column is present, else `price`, else 0. `last_price` and `target_price` each default to the current price. |
| `LedgerFile.SavedRow` | foodtracker.py:68 | The row `save_prices` writes for one record: item, current, last and target columns, with no old `price` column. `SavedRowReadsBack` shows it loads back as that record. |
| `LedgerFile.SavedRows` | foodtracker.py:67-68 | One saved row per listed item, in the listed order, and row i is the saved row of item i. |
| `LedgerFile.Loaded` | foodtracker.py:50-59 | The ledger the rows fill in file order, a later row for an item replacing an earlier one. `LoadedKeys` and `LoadedLastWins` state its keys and records. |
| `LedgerFile.SavedRowReadsBack` | foodtracker.py:66-68 | The row written for a record reads back as that record. |
| `LedgerFile.LoadedKeys` | foodtracker.py:50-55 | The loaded ledger has exactly the items the rows name. |
| `LedgerFile.LoadedLastWins` | foodtracker.py:55-59 | Each item holds the record of the last row that names it. |
| `LedgerFile.SavedRowItems` | foodtracker.py:67-68 | The saved rows name exactly the ledger's items. |
| `LedgerFile.SavedRecordLoads` | foodtracker.py:55-59 | Each saved item loads back with the record it was saved from. |
| `LedgerFile.SaveThenLoad` | foodtracker.py:62-68 | A ledger saved with its items in any order loads back unchanged, so the next update sees this update's ledger. |
| `LedgerFile.Load` | foodtracker.py:46-60 | The row loop returns `Loaded(rows)`: the keys are the row items, and each item holds the defaulted record of its last row. |
| `BatchForm.Trim` | foodtracker.py:179 | `str.strip()`: the result is no longer than the name and neither of its ends is Python whitespace. `TrimIsSlice` shows it is the slice between the leading and trailing whitespace. |
| `BatchForm.TrimStartSpec` | foodtracker.py:179 | Trimming the start removes a whitespace prefix, and all of it. |
| `BatchForm.TrimEndSpec` | foodtracker.py:179 | Trimming the end removes a whitespace suffix, and all of it. |
| `BatchForm.TrimIsSlice` | foodtracker.py:179-180 | `Trim(s)` is the slice of `s` between its leading and trailing whitespace, and neither of its ends is whitespace. |
| `BatchForm.TrimBlank` | foodtracker.py:179 | A name is dropped (empty after trimming) iff it is all whitespace. |
| `BatchForm.TrimIdempotent` | foodtracker.py:180 | A name without outer whitespace is its own trim, and trimming twice equals trimming once. |
| `BatchForm.Put` | foodtracker.py:180 | Assignment keeps the length for a key that is already present and adds one for a new key. |
| `BatchForm.PutNew` | foodtracker.py:180 | A new key is appended at the end. |
| `BatchForm.PutAt` | foodtracker.py:180 | After assignment the entry is present, and every position holding another item is unchanged. |
| `BatchForm.PutKeeps` | foodtracker.py:180 | Assigning one key keeps the entries of all other keys. |
| `BatchForm.PutItems` | foodtracker.py:180 | Assignment adds exactly its key to the key set. |
| `BatchForm.PutDistinct` | foodtracker.py:180 | Assignment keeps keys distinct. |
| `BatchForm.Built` | foodtracker.py:171-180 | The batch the rows build in row order: a blank trimmed name is skipped, and any other row is assigned under its trimmed name. `BuiltItems`, `BuiltTrimmed` and `BuiltLastWins` state its keys and entries. |
| `BatchForm.BuiltItems` | foodtracker.py:171-180 | The built batch has distinct keys, and they are exactly the non-blank trimmed names of the rows. |
| `BatchForm.BuiltTrimmed` | foodtracker.py:179-180 | Every key of the built batch is non-empty and already trimmed. |
| `BatchForm.BuiltLastWins` | foodtracker.py:180 | For each name, the last row filed under it supplies the prices. |
| `BatchForm.BuildBatch` | foodtracker.py:168-180 | The form loop returns `Built(rows)`. Its keys are distinct, trimmed, non-blank, and exactly the rows' keys. For each name, the last row wins. |
| `Accounts.VerifyUser` | foodtracker.py:37-41 | An account is returned iff the email is registered and its stored password equals the given one. The returned account is the stored one. |

## Left out

- The Streamlit UI is not modelled: page setup, session state, the login and sign-up forms, logout, the dashboard, and the rendering of messages, alerts and tracked prices. This includes the display-only sign check on current minus last. It is presentation and framework calls.
- File I/O is not modelled: `load_users`, `save_user`, opening files, the CSV dialect, and building the per-user file name. `Load` takes the rows a dictionary CSV reader would yield. `SavedRows` is the row content `save_prices` writes. `VerifyUser` takes the accounts as a map, so the default country in `load_users` and the duplicate-email check at sign-up are not modelled.
- Float parsing and formatting are not modelled. Prices are exact `real`s. The core only compares prices, so no arithmetic is lost. A cell that is present but empty or not a number makes the source raise an error, and this is not modelled. Neither is a short row whose missing cells the reader fills with nothing.
- A ledger cell of "nan", "inf" or "-inf" is not modelled. `float()` accepts these at foodtracker.py:52-54, but exact reals cannot represent them. With a stored NaN as the prior price, both comparisons at foodtracker.py:81-83 are false, so the source reports any new price as unchanged. The model cannot show this. NaN cannot come from the form widgets.
- A ledger file whose header has no `item` column is not modelled. In the source, `row['item']` at foodtracker.py:55 raises a KeyError. `Row` always carries an item.
- Message and alert text (emoji, f-strings, currency symbols) is replaced by the `Message` and `Alert` datatypes.
- The widget bounds are not modelled. Prices may be any real, and the form may have any number of rows, not 0-10000 and 1-20.
- `SaveThenLoad` takes any listing of the ledger's items as the save order. The source uses the dictionary's insertion order, which is one such listing.
- Concurrent writes to the same ledger file are not modelled. The source does not handle them.
- The four `…Scenario` methods in `reconciler.dfy` are example cases checked against `Reconcile`'s contract. They have no counterpart in the source.
