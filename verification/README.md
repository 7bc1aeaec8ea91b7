# Planka → Telegram watcher: diff classifier and notification routing

This project models the core of a bot that watches a Planka kanban server and forwards
card changes to Telegram chats. Every poll yields a snapshot of the board data (`PlankaData`):
cards, tasks, lists, boards, users and projects, each keyed by id. The watcher's `State` keeps
the current snapshot and the previous one. The first snapshot becomes the baseline. Every
later one is diffed against the current snapshot. The diff maps each `BoardAction` (ADD,
UPDATE, MOVE_TO_LIST, DELETE) to a set of card ids. A non-empty diff goes to the
notification channel, and then the pair is rotated. The notification job indexes the
subscriptions by the boards their chats may see. It flattens the diff into (action, card)
pairs and resolves each card: from the previous snapshot for DELETE, from the current one
otherwise. It then sends a message, whose template is chosen by the action, to every
subscription on that card's board that watches the action.

Files:

- `wrappers.dfy` (`Wrappers`): `Option` and `Result`.
- `planka.dfy` (`Planka`): the snapshot records. Each map's key is kept apart from the id
  stored in its record. The classifier reads ADD and DELETE from the record ids
  (`cards.values.map(CardData::id)`), but it looks records up by key. `KeyedById` says the
  two agree.
- `watcher_diff.dfy` (`WatcherDiff`): `BoardAction`, the `Diff` and the classification
  `Classify`. It is built from one function per step of `findDiff`. Lemmas state its
  meaning over the keys of well-formed snapshots.
- `watcher_state.dfy` (`WatcherState`): the class `State`. It has the fields `value` and
  `oldValue`, plus `sent`, the diffs handed to the channel so far. `SetNewState` and
  `FindDiff` are imperative: `FindDiff` builds the four sets by successive updates, ending
  with the removal of ADD ids from UPDATE.
- `watcher_notify.dfy` (`WatcherNotify`): flattening of a diff (a loop), the board index, card
  resolution, the choice of template, and routing. These are functions of explicit inputs:
  the visibility cache, the board sets fetched for chats missing from it, the subscriptions,
  and the old and new snapshots. `Due` is an independent reference that says how often
  each delivery must be sent, and `NotifyDiff` is proved to send exactly that.

Behaviour of the code that is easy to misread, modelled as written:

- The card records' MOVE_TO_LIST filter keeps cards out of UPDATE. Task-triggered UPDATE
  entries are not filtered against MOVE_TO_LIST, so a card can be in both
  (`MovedCardWithTaskChangeIsUpdated`).
- There are only the four actions of `BoardAction`. The code has no burst suppression, no
  comment or task-completion events, no disabled lists and no self-notification rule.
- A subscription without a cache entry does not just skip that chat. When any board is
  watched, building the index fails for the whole diff (the `!!` dereference), and the
  exception ends the notification job itself (see "## Findings").
- The watched boards come from the cache as it was before the refresh pass. A chat whose
  entry was only just fetched therefore gets nothing for a board that no other cached chat
  sees (`FreshlyFetchedBoardIsNotDue`).
- The DELETE message takes the list name from the new snapshot and the board name from the
  old one.

## Model

| member | source | states |
|---|---|---|
| `Planka.CardIdsAreKeys` | src/main/kotlin/tywinlanni/github/com/plankaTelegram/planka/PlankaData.kt:6 | In a snapshot whose cards are stored under their own ids, the ids carried by the card records are exactly the keys of the card map. |
| `Planka.TaskIdsAreKeys` | src/main/kotlin/tywinlanni/github/com/plankaTelegram/planka/PlankaData.kt:9 | The same for the task map. |
| `WatcherDiff.Rank` | src/main/kotlin/tywinlanni/github/com/plankaTelegram/wacher/Watcher.kt:241-246 | Each action has a position in the declaration order ADD, UPDATE, MOVE_TO_LIST, DELETE, and that position holds the action. |
| `WatcherDiff.Classify` | src/main/kotlin/tywinlanni/github/com/plankaTelegram/wacher/Watcher.kt:179-232 | Whatever the snapshots, ADD and DELETE share no id and no added card is also in UPDATE. Its full meaning on well-formed snapshots is given by `ClassifyAddDelete`, `ClassifyMove` and `ClassifyUpdate`. |
| `WatcherDiff.ClassifyAddDelete` | src/main/kotlin/tywinlanni/github/com/plankaTelegram/wacher/Watcher.kt:182-188 | ADD is exactly the new card ids minus the old ones, and DELETE is exactly the old minus the new, so ADD and DELETE never share an id. |
| `WatcherDiff.ClassifyMove` | src/main/kotlin/tywinlanni/github/com/plankaTelegram/wacher/Watcher.kt:190-197 | A card is in MOVE_TO_LIST if and only if it is in both snapshots with different list ids, so MOVE_TO_LIST meets neither ADD nor DELETE. |
| `WatcherDiff.ChangedCardsByKey` | src/main/kotlin/tywinlanni/github/com/plankaTelegram/wacher/Watcher.kt:199-202 | The changed-card step picks exactly the new cards whose old record is missing or different. |
| `WatcherDiff.TaskCardsByKey` | src/main/kotlin/tywinlanni/github/com/plankaTelegram/wacher/Watcher.kt:208-227 | The three task steps together pick exactly the cards owning a task that was added or changed (owner from the new record) or removed (owner from the old record). Tasks without an owner add nothing. |
| `WatcherDiff.ClassifyUpdate` | src/main/kotlin/tywinlanni/github/com/plankaTelegram/wacher/Watcher.kt:199-232 | A card is in UPDATE if and only if it is not in ADD and either its record changed while its list did not, or one of its tasks was added, removed or changed. UPDATE never meets ADD. |
| `WatcherDiff.ClassifySameIsEmpty` | src/main/kotlin/tywinlanni/github/com/plankaTelegram/wacher/Watcher.kt:179-235 | Diffing a well-formed snapshot against itself leaves every action set empty. |
| `WatcherDiff.MovedCardWithTaskChangeIsUpdated` | src/main/kotlin/tywinlanni/github/com/plankaTelegram/wacher/Watcher.kt:208-232 | A card that changed list and whose task changed is in both MOVE_TO_LIST and UPDATE. |
| `WatcherState.Emitted` | src/main/kotlin/tywinlanni/github/com/plankaTelegram/wacher/Watcher.kt:234-237 | A diff reaches the channel if and only if some action set is non-empty, and then it is sent once and nothing else is. |
| `WatcherState.State.constructor` | src/main/kotlin/tywinlanni/github/com/plankaTelegram/wacher/Watcher.kt:157-162 | A new holder has no current snapshot, no previous snapshot and has sent nothing. |
| `WatcherState.State.SetNewState` | src/main/kotlin/tywinlanni/github/com/plankaTelegram/wacher/Watcher.kt:164-173 | First call: the snapshot becomes `value`, while `oldValue` and the channel are unchanged. Later calls: the diff against the old `value` is sent if non-empty, then `oldValue` is the old `value` and `value` is the new snapshot. Sent diffs are never empty. |
| `WatcherState.State.FindDiff` | src/main/kotlin/tywinlanni/github/com/plankaTelegram/wacher/Watcher.kt:175-238 | The set-by-set construction of the diff equals `Classify` of the current and new snapshots, and it is appended to the channel exactly when non-empty. |
| `WatcherState.RepeatedPollSendsNothing` | src/main/kotlin/tywinlanni/github/com/plankaTelegram/wacher/Watcher.kt:164-173 | Two polls of the same well-formed snapshot send nothing on the channel. |
| `WatcherNotify.FlattenDiff` | src/main/kotlin/tywinlanni/github/com/plankaTelegram/wacher/Watcher.kt:80-82 | The pairs list every (action, card id) of the diff and nothing else, each once, grouped by action in declaration order. |
| `WatcherNotify.AllWatchedBoards` | src/main/kotlin/tywinlanni/github/com/plankaTelegram/wacher/Watcher.kt:60-63 | The watched boards are exactly the union of the chats' cached sets: every board of a cached set is watched, every watched board is in some cached set, and nothing is watched exactly when every cached set is empty. |
| `WatcherNotify.RefreshCache` | src/main/kotlin/tywinlanni/github/com/plankaTelegram/wacher/Watcher.kt:65-70 | After the refresh a chat has an entry exactly when it had one or is subscribed and has fetched boards. Existing entries are kept unchanged and new ones hold the fetched boards. |
| `WatcherNotify.Interested` | src/main/kotlin/tywinlanni/github/com/plankaTelegram/wacher/Watcher.kt:72-78 | For a board, the subscriptions kept are those whose cached board set contains it, each with its multiplicity in the subscription list; no other subscription is kept. |
| `WatcherNotify.BoardIndex` | src/main/kotlin/tywinlanni/github/com/plankaTelegram/wacher/Watcher.kt:72-78 | The index has exactly the watched boards as keys, and a subscription is listed under a board if and only if it is a subscription whose chat's cached set holds that board. |
| `WatcherNotify.ResolveCard` | src/main/kotlin/tywinlanni/github/com/plankaTelegram/wacher/Watcher.kt:84-88 | A DELETE event's card is looked up in the old snapshot and any other event's card in the new one; it resolves exactly when that snapshot holds it. `ClassifiedCardsResolve` says which classified cards always resolve. |
| `WatcherNotify.Render` | src/main/kotlin/tywinlanni/github/com/plankaTelegram/wacher/Watcher.kt:95-116 | The message uses the template of the event's action and carries the card's name. |
| `WatcherNotify.SendTo` | src/main/kotlin/tywinlanni/github/com/plankaTelegram/wacher/Watcher.kt:91-119 | Every send for an event to a list of subscriptions carries that event and that text, there are no more sends than subscriptions, and each chat receives the message exactly once per subscription of that chat whose watched actions hold the event's action. |
| `WatcherNotify.EventSends` | src/main/kotlin/tywinlanni/github/com/plankaTelegram/wacher/Watcher.kt:83-121 | Every send produced for an event carries that event. |
| `WatcherNotify.Route` | src/main/kotlin/tywinlanni/github/com/plankaTelegram/wacher/Watcher.kt:80-122 | Every send produced for a list of events carries one of those events. |
| `WatcherNotify.Dispatch` | src/main/kotlin/tywinlanni/github/com/plankaTelegram/wacher/Watcher.kt:59-124 | No subscriptions give no sends. Handling fails if and only if there are subscriptions, some board is watched, and a subscription has no cache entry after the refresh. Every send carries one of the listed events. |
| `WatcherNotify.DispatchSkipping` | src/main/kotlin/tywinlanni/github/com/plankaTelegram/wacher/Watcher.kt:72-78 | The corrected handling: the index is built over the subscriptions whose chat has a cache entry. Wherever `Dispatch` succeeds, both produce the same deliveries. |
| `WatcherNotify.AudiencePositive` | src/main/kotlin/tywinlanni/github/com/plankaTelegram/wacher/Watcher.kt:91-92 | A chat has a non-zero audience for a board and action if and only if one of its subscriptions sees the board and watches the action. |
| `WatcherNotify.SendToInterestedCount` | src/main/kotlin/tywinlanni/github/com/plankaTelegram/wacher/Watcher.kt:91-119 | Sending to the subscriptions interested in a board reaches a chat exactly once per subscription of that chat that sees the board and watches the action. |
| `WatcherNotify.RouteCount` | src/main/kotlin/tywinlanni/github/com/plankaTelegram/wacher/Watcher.kt:80-122 | With distinct events, a delivery is sent as often as its own event's sends contain it, and never for an event outside the list. |
| `WatcherNotify.DispatchCount` | src/main/kotlin/tywinlanni/github/com/plankaTelegram/wacher/Watcher.kt:59-124 | When dispatch succeeds on pairs listing the diff, each delivery is sent exactly as often as `Due` says. |
| `WatcherNotify.DispatchSkippingCount` | src/main/kotlin/tywinlanni/github/com/plankaTelegram/wacher/Watcher.kt:72-122 | For pairs listing the diff, the corrected handling sends each delivery exactly as often as `Due` says, whatever the cache holds. |
| `WatcherNotify.MissingEntryFailsWholeDiff` | src/main/kotlin/tywinlanni/github/com/plankaTelegram/wacher/Watcher.kt:72-78 | One subscribed chat with neither a cache entry nor credentials makes `Dispatch` fail, although another chat is due a message, which the corrected handling sends. |
| `WatcherNotify.FreshlyFetchedBoardIsNotDue` | src/main/kotlin/tywinlanni/github/com/plankaTelegram/wacher/Watcher.kt:60-70 | A card on a board that is in no chat's cached set before the refresh is due to nobody, whatever the refresh fetches. |
| `WatcherNotify.DueExactly` | src/main/kotlin/tywinlanni/github/com/plankaTelegram/wacher/Watcher.kt:83-92 | A delivery is due if and only if all of the following hold: its (action, card) is in the diff; the card resolves (old snapshot for DELETE, new otherwise) to a card on a watched board; the text is that card's message; and a subscription of the chat sees the board and watches the action. Unresolved cards and an empty subscription list give nothing. |
| `WatcherNotify.NotifyDiff` | src/main/kotlin/tywinlanni/github/com/plankaTelegram/wacher/Watcher.kt:59-124 | With no subscriptions nothing is sent. Handling fails if and only if there are subscriptions, some board is watched, and a subscription has no cache entry after the refresh. Otherwise each delivery is sent exactly as often as it is due. The refreshed cache is returned as the new shared cache, whether handling fails or not. |
| `WatcherNotify.ClassifiedCardsResolve` | src/main/kotlin/tywinlanni/github/com/plankaTelegram/wacher/Watcher.kt:84-88 | ADD, MOVE_TO_LIST and DELETE entries of a well-formed diff always resolve to a card; only UPDATE entries can fail to. |
| `WatcherNotify.DeletedCardTaskUpdateIsSkipped` | src/main/kotlin/tywinlanni/github/com/plankaTelegram/wacher/Watcher.kt:216-221 | A deleted card whose task disappeared with it is in both DELETE and UPDATE, and its UPDATE entry does not resolve, so it sends nothing. |

## Left out

- Coroutine machinery: the supervisor job, the `while (isActive)` loops with their delays,
  the mutex and the rendezvous channel. The channel is modelled as the ordered list `sent`.
  `State.SetNewState` is one poll step.
- The cache rebuild job and `addAvailablePlankaBoardsToCache` (credential lookup and the
  `projects()` HTTP call). The cache is an input. The refresh pass for subscribed chats
  without an entry takes the board sets those calls would return as an input
  (`fetched`), and `NotifyDiff` returns the cache with those entries written back.
  Failures of those calls are not modelled.
- The notification job reads the shared `state.value` and `state.oldValue` while the poller
  may rotate them. Routing takes the old and new snapshots as explicit inputs instead.
- The exact message strings and the logging. Each message is the template chosen by the
  action, with the card name and the looked-up creator, list and board names, which are
  absent when the lookup finds nothing.
- The outbound sender, the subscription store, the HTTP client and the bot commands. A
  subscription is the chat id with its watched actions.
- WatcherNotify.NotifyDiff: an `Err` is the end of the handling of that one diff. In the code
  the exception ends the notification job, so later diffs are never received and the
  poller blocks on its next non-empty diff. The sequence of later diffs is not modelled.
- WatcherDiff.ClassifyAddDelete: stated only for snapshots whose maps are keyed by the records' own ids (`KeyedById`), because the code mixes record ids and keys.
- WatcherDiff.ClassifyMove: stated only for snapshots keyed by id, for the same reason.
- WatcherDiff.ClassifyUpdate: stated only for snapshots keyed by id, for the same reason.
- WatcherDiff.ClassifySameIsEmpty: stated only for snapshots keyed by id. With a card stored under another card's id, the list lookup can differ even against itself.
- WatcherState.State.FindDiff: requires a current snapshot, as the source's `require`
  does. Its only caller checks this first.

## Findings

| source | as written | input that shows it | evidently intended | confidence | as-written member | corrected member |
|---|---|---|---|---|---|---|
| src/main/kotlin/tywinlanni/github/com/plankaTelegram/wacher/Watcher.kt:72-78 | The index dereferences every subscription's cache entry with `!!`. A subscribed chat that has no entry and no stored credentials throws. Nothing catches it, so the notification job ends, no later diff is received, and the poller blocks on its next non-empty diff. The bot itself does not create such a chat: `/addWatcher` refuses a chat without credentials (src/main/kotlin/tywinlanni/github/com/plankaTelegram/bot/NotificationBot.kt:92-100) and `/finish` deletes the subscription together with the credentials (NotificationBot.kt:143-146). The state arises when `/finish` runs between reading the subscriptions and the credential lookup, or from stored data written elsewhere; the warning at Watcher.kt:154 shows the code expects it. | Cache `{1: {10}}`, no fetched boards, subscriptions for chats 1 and 2 watching ADD, card 5 added on board 10. | A chat without a cache entry is skipped and every other chat still gets its messages. | high (not executed) | `WatcherNotify.MissingEntryFailsWholeDiff` (on `WatcherNotify.Dispatch`) | `WatcherNotify.DispatchSkipping`, proved by `WatcherNotify.DispatchSkippingCount` |
