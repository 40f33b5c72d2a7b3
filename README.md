# Event pipeline core, modelled in Dafny

This project models the event orchestration core of an air-raid alert
backend. The backend works as follows:

- An alert monitor polls one Telegram channel and keeps a table of 25
  Ukrainian regions. For the monitored region it publishes `alert` and
  `clear` events on an in-process message bus.
- While an alert is active, an info monitor polls a set of info channels
  and publishes their new posts, merged and sorted by date, as
  `new_messages`.
- An AI worker keeps a rolling history of ten messages. It is switched on by
  `alert` and off by `clear`. For each batch it asks an external classifier,
  and it publishes `ai_alert` when the verdict says so.
- A notifications sender reads device tokens, deletes the ones older than
  eight weeks, and sends the rest in multicast batches of 500.
- Settings come from a YAML document.

Threads, sleeps and the event wait are replaced by single steps:

- Each monitor's loop body is one method call.
- The bus's dispatch loop is one `DispatchStep` per event.
- External calls are inputs: channel fetches, the classifier and the clock.
  A fetch is a function of its cutoff, and the classifier is a function of
  the request.

The monitors and the worker do not hold a bus. Each step returns the
`(topic, payload)` pairs it publishes, in publish order.
`MessageBus.Publish` appends exactly such a pair to the queue.

Timestamps are integers (seconds) for posts. Device-token timestamps are in
milliseconds, as the token store keeps them. They are `real` because the
stored value may be an `int` or a `float`. Dynamically typed input (YAML,
the decoded classifier reply, token documents) is the datatype
`Values.Value`.

Modules, one per source file: `Common` (Option, Result), `Values`,
`Telegram`, `MessageBus`, `AlertMonitor`, `InfoMonitor`, `AiWorker`,
`NotificationsSender` and `Config`.

Three behaviours of the code shape the model:

- The bus does not catch handler exceptions (src/message_bus.py:29-30). A
  handler that raises is the last one called, and the dispatch thread ends.
  `DispatchStep` takes the set of raising handlers and sets `running` to
  false.
- The alert monitor publishes on every qualifying post for the monitored
  region, not only when the region's state changes
  (`RepeatedRaisePublishesTwice`).
- The info monitor's fetches are not wrapped in any error handling.

## Model

| member | source | states |
|---|---|---|
| `Telegram.LatestMessages` | src/telegram.py:16-38 | The result is the last `limit` of the collected messages (Python's `[-limit:]`, so at most `limit` when `limit > 0`). Every returned message comes from an entry that has text and is not older than the cutoff, with that entry's id, author, text and date. |
| `Telegram.Collected` | src/telegram.py:20-36 | The messages the page loop collects, in page order: at most one per entry. |
| `Telegram.LastSlice` | src/telegram.py:38 | For `limit > 0` the result is the suffix of length min(limit, n). For `limit == 0` it is the whole list. For a negative limit it drops the first `-limit` elements. |
| `Telegram.CollectedExactly` | src/telegram.py:26-36 | A message is collected if and only if some entry has a text node, passes the cutoff and maps to that message. |
| `Telegram.CutoffIsInclusive` | src/telegram.py:34-35 | With a cutoff, every collected message is dated at or after it. An entry dated exactly at the cutoff is kept. |
| `Telegram.NoCutoffKeepsAllText` | src/telegram.py:26-34 | Without a cutoff, the collected messages are exactly the entries with text, in page order. |
| `MessageBus.MessageBus.constructor` | src/message_bus.py:9-11 | Models `__init__` followed by `start` (lines 32-34): no subscribers, an empty queue, and `running` set for the dispatch thread that `start` launches. |
| `MessageBus.MessageBus.Subscribe` | src/message_bus.py:13-16 | The handler is appended at the end of the topic's list, and a new topic gets a one-element list. Every other topic's list, the queue and the running flag are unchanged. |
| `MessageBus.MessageBus.Publish` | src/message_bus.py:19-20 | Exactly `(topic, payload)` is appended at the tail of the queue. The subscriber table is unchanged. |
| `MessageBus.MessageBus.DispatchStep` | src/message_bus.py:23-30 | When the loop runs and the queue is non-empty, exactly the head is removed and delivered to the topic's handlers (none for an unsubscribed topic). The loop stops when a handler raises. Otherwise nothing changes. |
| `MessageBus.Deliveries` | src/message_bus.py:29-30 | The handler calls of one dispatched event, in subscription order, ending at the first raising handler: at most one call per subscription. `DeliveriesInOrder` and `DeliveriesStopAtRaise` state the rest. |
| `MessageBus.DeliveriesInOrder` | src/message_bus.py:29-30 | If no handler raises, each subscription gets exactly one call, in subscription order, so a handler subscribed twice is called twice. |
| `MessageBus.DeliveriesStopAtRaise` | src/message_bus.py:29-30 | Handlers are called in order up to and including the first raising one, and no later one. |
| `MessageBus.PublishOrderIsDispatchOrder` | src/message_bus.py:13-30 | Three events are published on a fresh bus and dispatched first-in first-out. The first two go to their topic's handlers in subscription order. The third, on a topic with no subscribers, is taken and delivered to no one, and the queue is then empty. |
| `AlertMonitor.ContainsIffOccurs` | src/alert_monitor.py:68-76 | The substring test behind Python's `in` holds if and only if the phrase occurs at some position. |
| `AlertMonitor.Classify` | src/alert_monitor.py:68-73 | A post is a raise exactly when it contains "Повітряна тривога", even if it also contains "Відбій". It is a lower exactly when it contains "Відбій" and not the raise phrase. Otherwise it is ignored. |
| `AlertMonitor.InitialRegionTable` | src/alert_monitor.py:30-56 | The initial table has 25 regions with ids 1..25 in order (so distinct), all clear and never changed. |
| `AlertMonitor.FirstMatch` | src/alert_monitor.py:75-87 | Returns the first region in table order whose name occurs in the text, or `None` exactly when no region name occurs. |
| `AlertMonitor.Step` | src/alert_monitor.py:64-87 | The effect of one post: an unclassified post or one naming no region changes nothing (`StepIgnores`); otherwise the first named region is updated, with an event and a flag change when it is the monitored one (`StepUpdatesFirstNamed`). |
| `AlertMonitor.Run` | src/alert_monitor.py:64-87 | The effect of a cycle's posts, in order: the region table keeps its size, and the published events only grow, by at most one per post. |
| `AlertMonitor.StepIgnores` | src/alert_monitor.py:68-76 | A post that is unclassified or names no region changes no region, publishes nothing and keeps the flag. |
| `AlertMonitor.StepUpdatesFirstNamed` | src/alert_monitor.py:75-87 | Only the first named region changes: it takes the classified state and the post's date. An event (`alert` on raise, `clear` on lower, with the updated region) is published and the flag set if and only if that region is the monitored one. |
| `AlertMonitor.StepKeepsInvariants` | src/alert_monitor.py:75-87 | One more post keeps the cycle invariants: ids and names stay, events are only appended and only for the monitored region, and the flag follows the last event. |
| `AlertMonitor.RunInvariants` | src/alert_monitor.py:64-87 | Over a cycle's posts, region ids and names are preserved and events are only appended. Each event is for the monitored region, with a change date, and its topic matches its state. The flag equals the direction of the last event, or is unchanged when none was published. |
| `AlertMonitor.RepeatedRaisePublishesTwice` | src/alert_monitor.py:80-86 | Two raise posts for the monitored region publish two `alert` events: publishing is per post, not per state change. |
| `AlertMonitor.AlertMonitor.constructor` | src/alert_monitor.py:23-56 | Starts with no cutoff, the flag clear and the initial region table. |
| `AlertMonitor.AlertMonitor.CheckAlerts` | src/alert_monitor.py:58-94 | A failed fetch changes nothing. A successful fetch moves the cutoff to `now` and applies the posts in order. The sleep is the backoff interval if the flag is set, else the normal interval. |
| `InfoMonitor.SortByDate` | src/info_monitor.py:48 | Python's `sorted(..., key=date)`, written as insertion sort: the result has the input's length. |
| `InfoMonitor.SortByDateIsStableSort` | src/info_monitor.py:48 | The sort's result is ordered by date and is a permutation of its input. Messages with the same date keep their input order. |
| `InfoMonitor.Gather` | src/info_monitor.py:39-45 | The channel loop's result: each channel in list order is fetched with its current cursor, which then moves to `now`. The first channel's messages come first, fetched with its pre-cycle cursor. |
| `InfoMonitor.GatherDistinct` | src/info_monitor.py:39-45 | With distinct channel names, the loop's result is each channel's fetch with its pre-cycle cursor, concatenated in channel order. |
| `InfoMonitor.InfoMonitor.constructor` | src/info_monitor.py:13-18 | Every configured channel has a cursor of `None`, and polling is off. |
| `InfoMonitor.InfoMonitor.ProcessAlertEvent` | src/info_monitor.py:26-29 | Every cursor becomes the region's change date minus 300 s. The key set is unchanged and polling is switched on. |
| `InfoMonitor.InfoMonitor.ProcessClearEvent` | src/info_monitor.py:32-33 | Polling is switched off and the cursors are untouched. |
| `InfoMonitor.InfoMonitor.FetchMessages` | src/info_monitor.py:36-53 | The cycle runs only while polling is on. Every cursor ends at `now`. `new_messages` is published, with the stably sorted merge of the channel results, if and only if that merge is non-empty. |
| `AiWorker.AiAlertFromDict` | src/ai_worker.py:27-35 | Present keys are copied. Defaults: attacker "UNKNOWN", alert `None`, confidence 0.0, text "<No text>", original text "<No original text>"; text and original text both come from `trigger`. |
| `AiWorker.Window` | src/ai_worker.py:40 | The bounded history holds the last min(10, n) elements, in order. |
| `AiWorker.WindowAppend` | src/ai_worker.py:82-83 | Appending to the window one element at a time gives the window of the whole sequence. |
| `AiWorker.Request` | src/ai_worker.py:70-99 | The request is the system prompt, then a HISTORY line per old history message, then a NEW line per batch message (both in order), then the local time. |
| `AiWorker.Verdict` | src/ai_worker.py:107-114 | `ai_alert` is published, with the parsed verdict, if and only if the reply decodes to an object whose `alert` is truthy. A failure or a non-object reply publishes nothing. |
| `AiWorker.AiWorker.constructor` | src/ai_worker.py:39-45 | Starts disabled with an empty history. |
| `AiWorker.AiWorker.ProcessAlertEvent` | src/ai_worker.py:53-57 | Empties the history and enables analysis, also when analysis was already enabled. |
| `AiWorker.AiWorker.ProcessClearEvent` | src/ai_worker.py:59-63 | Empties the history and disables analysis. |
| `AiWorker.AiWorker.Append` | src/ai_worker.py:83 | A bounded-deque append: the new history is the window of the old history plus the message, at most 10 long. |
| `AiWorker.AiWorker.ProcessMessages` | src/ai_worker.py:65-114 | While disabled, nothing changes or is published. While enabled, the history becomes the last ≤10 of the old history plus the batch, and the request is built from the pre-append history. The published events depend only on the reply, and a failed reply does not roll back the history. |
| `NotificationsSender.TokenRecordFromDict` | src/notifications_sender.py:22-28 | Succeeds if and only if the timestamp is a number, and then copies it. Token and uid are copied, or `None` when missing. |
| `NotificationsSender.Expired` | src/notifications_sender.py:56 | A record is expired when the clock reading minus its timestamp is strictly more than eight weeks, in milliseconds. |
| `NotificationsSender.EightWeeksOldIsKept` | src/notifications_sender.py:56 | A record exactly eight weeks old is kept, and one a millisecond older is expired. |
| `NotificationsSender.Scan` | src/notifications_sender.py:54-60 | The token loop over the documents, each judged at its own clock reading: it keeps or deletes at most one entry per document, and deletes only listed documents. |
| `NotificationsSender.ScanPartitions` | src/notifications_sender.py:54-60 | When every document parses, each document is either deleted (if and only if expired at its clock reading) or contributes its token. The deletions are in document order and the counts add up. |
| `NotificationsSender.KeptTokens` | src/notifications_sender.py:54-60 | The reference list of kept tokens: the token of every parsing, non-expired document, in document order, at most one per document. |
| `NotificationsSender.ScanKeepsTokensInOrder` | src/notifications_sender.py:54-60 | When every document parses, the scan's tokens are exactly `KeptTokens`: every non-expired document contributes its token, once, in document order, duplicates included. |
| `NotificationsSender.ScanFailsIffUnparsable` | src/notifications_sender.py:54-55 | The scan ends with an exception if and only if some document's record does not parse. |
| `NotificationsSender.FetchNotificationTokens` | src/notifications_sender.py:50-62 | The loop returns the kept tokens and the deletions in document order, reading the clock once per document. A document that does not parse aborts the loop, and the deletions already made stay made. |
| `NotificationsSender.SendPushNotifications` | src/notifications_sender.py:64-72 | There are ceil(n/500) batches (none for no tokens), and batch i is `tokens[i*500 : min((i+1)*500, n)]`. Each batch has 1 to 500 tokens and all but the last exactly 500. Their concatenation is the token list. |
| `Config.ParseEach` | src/config.py:52 | A list comprehension over dictionaries succeeds if and only if every element parses. The result then has the same length and order. |
| `Config.ParseDicts` | src/config.py:64 | Iterating a list parses it element-wise. An empty string or dictionary gives no elements. Anything else raises. |
| `Config.ParseQueryArg` | src/config.py:69-73 | Name and value are copied, or `''` when missing. |
| `Config.ParseWebhook` | src/config.py:59-66 | name, method and url are copied or `''`, and the payload is copied or `{}`. Query args default to none and are otherwise parsed element-wise in order. |
| `Config.ParseSettings` | src/config.py:42-56 | Each field is the document's value verbatim, or its default: '', 5, 60, [], 5, 'Europe/Kyiv', 14, '', '/etc/pyalerts/account.json', 'INFO'. Webhooks are parsed element-wise in order. It fails if the document is not a dictionary or a webhook fails. |
| `Config.EmptyDocumentGivesDefaults` | src/config.py:42-56 | An empty document yields exactly the default settings. |

## Left out

- Threads, `threading.Event.wait`, `time.sleep` (including the 0.3 s pause
  between channel fetches) and the state lock are not modelled. Each loop is
  modelled one iteration at a time, and the sleep length is returned.
- The `start` methods, the subscriptions they make, and src/main.py are not
  modelled. They only wire the components to the bus.
- src/app_logger.py and all logging are not modelled.
- The HTTP request and the HTML parsing of the channel page are not
  modelled: the parsed entries are an input. `Message.id` is the page's
  `data-post` string.
- The chat-completion call and `json.loads` are not modelled. Their outcome
  is the input `Reply`.
- Timezone conversion and date formatting of the prompt lines are not
  modelled. A line carries the message it renders.
- Firestore reads and deletes are not modelled (deletions are reported as
  document indices).
- `send_multicast`, the notification payload, the per-token error reporting
  and `handle_ai_alert` are not modelled. They are I/O and Python string
  formatting of values, including `"{:.2f}"` of the confidence.
- `datetime.utcnow()` is a parameter: the current time for the monitors and
  the AI worker, and for the token scan a clock giving the reading taken
  for each document.
- `NotificationsSender.TokenRecordFromDict`: it does not model the
  microsecond rounding of `utcfromtimestamp`, nor its failure on timestamps
  outside the datetime range. Expiry is compared in milliseconds.
- `InfoMonitor.InfoMonitor.FetchMessages`: it uses one clock reading for all
  channels, whereas the code reads the clock after each channel's fetch. A
  failing fetch, which ends the thread, is not modelled.
- src/info_monitor.py:16 reads `settings.stop_list` and line 41 passes
  `stop_list=` to the page reader. `Settings` has no such field, and the
  reader takes no such argument, so the code raises there. The model leaves
  both out and treats each channel fetch as an abstract input.
- Region objects are published by reference, so a handler sees later
  changes to the region. The model publishes a copy taken at publish time.
- The monitors' constructors take the settings fields they read, already
  typed. Settings are not type-checked when parsed, and a wrongly typed
  value fails where it is first used: `alert_polling_interval` in
  `time.sleep` inside the monitor's thread, `timezone_name` in
  `AiWorker.__init__` on the main thread. Some never fail: a string
  `region_to_monitor` (src/alert_monitor.py:28) never equals a region id at
  line 80, so nothing is ever published. The model's integer region id
  cannot express that case.
- Reading the YAML file (src/config.py:36-39) is not modelled: the loaded
  document is the input. Dictionary keys are strings.
