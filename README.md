# Marketplace core in Dafny

A model of the core of a small marketplace web application (app.py) and of its maintenance
script assign_master.py. The marketplace has streets, pavilions on streets, and listings
("ads") in pavilions. Each listing is served by a master account. Users and masters talk in
per-listing chats. Masters propose new streets, pavilions and listings as requests. An
administrator approves or rejects each request exactly once.

The model covers four parts of the application:

- **Conversation threads** (`threads.dfy`, `thread_views.dfy`). The message pages of
  `ad_messages` and `user_messages` group the message log into threads keyed by listing and
  counterpart. Each thread has a running latest time and an unread count. The list is sorted
  newest first, and the unread counts are summed into a total. One scan, generic over the two
  perspectives, is proved against a specification function. The lemmas prove what the list
  holds: exactly one row per key that occurs, each row's count and time, the sort order, and
  that the total is the sum of the keyed unread messages.
- **The message log** (`messaging.dfy`). This covers posting in `ad_chat`, the two read
  receipts (bulk `is_read` updates), the unread badge of `recalc_unread_total`, and the
  master's default client. The log is a class whose methods append to or relabel a `seq`.
- **Request moderation** (`moderation.dfy`, `registry.dfy`). This covers submitting street,
  pavilion and listing requests, the six approve and reject handlers, and the status tallies
  of the admin pages. `Moderation` states each handler as a function on a value `Db` of all
  tables. It proves that every handler keeps the tables consistent (`Db.Valid`) and acts only
  on a pending request. `Database.Registry` holds the same tables as fields that the handlers
  update in place. Each of its methods is proved to leave exactly the state that the
  corresponding function describes.
- **Validators** (`validators.dfy`, `text.dfy`). These are `allowed_file`, the street-code rule
  of `request_street`, the error lists of the three forms, and `Ad.master_display_name`, with
  the Python string operations they rely on.

`assignment.dfy` models assign_master.py. The ads, in id order, are handed out round-robin to
the masters in id order. The loop is proved against a specification function. Lemmas prove
that every ad gets a master and its signature, and that the masters' shares differ by at most
one.

Behaviour of the code worth noting:

- `ad_chat` accepts a message whose sender is its receiver. A master can open
  `?client_id=<own id>` and post to themself, and `MessageStore.Post` models exactly that. Such a
  message is counted by the badge of `recalc_unread_total`, but the owner thread list skips it.
  `ThreadViews.SelfMessageSplitsTotals` shows a log where the two totals differ.
  `ThreadViews.OwnerTotalMatchesBadge` proves that they agree once there is no unread
  self-addressed message.
- `approve_request` does not check the street code. Two pending requests may carry the same
  code. Approving the second one then violates the unique constraint on `Street.code` (app.py:48),
  and the `flush()` after adding the street (app.py:841) fails, so the request is never
  approved. The model reports this as `DuplicateCode` and changes nothing.

Other modelling choices:

- Ids are integers. Python truthiness of an id (`not client_id`, `not ad.master_id`) treats 0
  as absent (`Wrappers.Truthy`).
- The log is kept in creation order. `MessageStore.Valid` requires every message to carry a
  creation time (`server_default=now()` stamps each row) and the times never to decrease along
  the log. `Post` and `SubmitChat` take a present clock reading no earlier than any time in the
  log. `Messaging.LastOnAdIsLatest` proves that in such a log the last message on a listing is
  timed and is a newest one by `created_at`.
- Timestamps are `Option<int>` so that the thread functions are total over any list of messages.
  Untimed messages never occur in a log the store produces. For such arbitrary lists only, the
  `x or datetime.min` sort key places threads without a time last, and `last_time` keeps the
  code's rule as written: a thread whose first message has no time keeps no time.
- `Db.Valid` requires every request's author to be an account and every listing request's
  pavilion to exist. Account deletion removes the user's requests (app.py:610-649,
  app.py:951-996), but the code does not guarantee the rest of this invariant; "## Left out"
  names the states it excludes.
- Clocks and the autoincrement ids of the database are method parameters or counters.

## Model

| member | source | states |
|---|---|---|
| Text.Strip | app.py:688-691 | the stripped text is a slice of the input with only whitespace before and after it; it is empty exactly when the input is blank, and otherwise neither starts nor ends with whitespace |
| Validators.LastDot | app.py:27 | the split point of `rsplit(".", 1)`: absent exactly when there is no dot, otherwise a dot with no dot after it |
| Validators.AllowedFile | app.py:26-27 | a name is accepted only if it contains a dot |
| Validators.AllowedFileByExtension | app.py:23-27 | a name `stem.ext` is accepted exactly when the lower-cased `ext` is one of png, jpg, jpeg, gif, webp |
| Validators.StreetCodeFormat | app.py:698-699 | a code passes `replace("_","").isalnum() and islower()` exactly when every character is a lower-case letter, digit or underscore and at least one is a letter |
| Validators.StreetFormErrors | app.py:693-709 | the street form is clean exactly when the name is given, the code is well-formed and not taken, and the pavilion title is given; each error is reported exactly when its condition holds, and a taken code is tested only for a well-formed code |
| Validators.PavilionFormErrors | app.py:1512-1517 | clean exactly when the pavilion title and the first listing's title and text are given; one error per missing field |
| Validators.AdFormErrors | app.py:465-468 | clean exactly when title and text are given; one error per missing field |
| Validators.MasterDisplayName | app.py:91-97 | the master's username if non-empty, else the stored author name if non-empty, else the default "Мастер"; never empty |
| Messaging.OnAds | app.py:1183-1187 | keeps exactly the messages on the given listings |
| Messaging.OnAdsAppend | app.py:1183-1187 | filtering a concatenated log is concatenating the filtered parts, so the kept messages stay in log order |
| Messaging.OnAdsSingle | app.py:1183-1187 | a single message is kept exactly when it is on one of the listings |
| Messaging.Involving | app.py:1420-1426 | keeps exactly the messages the user sent or received |
| Messaging.InvolvingAppend | app.py:1420-1426 | filtering a concatenated log is concatenating the filtered parts, so the kept messages stay in log order |
| Messaging.InvolvingSingle | app.py:1420-1426 | a single message is kept exactly when the user sent or received it |
| Messaging.UnreadBadge | app.py:256-287 | zero without a session; for a master, the unread messages addressed to them on listings they own (none when they own none); for anyone else, all unread messages addressed to them; never more than the log length |
| Messaging.MarkRead | app.py:1366-1371 | same length; a message becomes read exactly when it was read or the receipt selects it; no other field changes |
| Messaging.MarkReadIdempotent | app.py:1366-1371 | applying a receipt twice gives the same log as applying it once |
| Messaging.MarkReadUnread | app.py:1277-1281 | after a receipt, the viewer's unread count drops by exactly the selected unread messages; everyone else's is unchanged |
| Messaging.PostRaisesBadge | app.py:1264-1273 | a new unread message raises its receiver's badge by one when the receiver is an ordinary user or a master who owns the listing; every other badge, including a master's on a listing they do not own, is unchanged |
| Messaging.LastOnAd | app.py:1323-1327 | absent exactly when the listing has no message; otherwise a message on the listing with none on it after it |
| Messaging.LastOnAdIsLatest | app.py:1323-1327 | in a log of timed messages whose creation times never decrease, the last message on the listing is timed and no message on it is newer |
| Messaging.DefaultClient | app.py:1322-1332 | the other party of the newest message on the listing: its sender unless that is the master, else its receiver unless that is the master; absent exactly when the listing has no message or its newest message has the master on both sides; never the master |
| Messaging.ChatCounterpart | app.py:1253-1334 | a user always talks to the master; a master talks to a truthy `client_id` argument, otherwise to the default client when that is truthy, otherwise to nobody; a master's counterpart is never 0 |
| Messaging.MessageStore.Post | app.py:1261-1272 | blank text changes nothing; otherwise exactly one unread message with the stripped text, the next id and the given time is appended; the ids stay in order and every message stays timed, in time order |
| Messaging.MessageStore.SubmitChat | app.py:1252-1364 | the POST branch of `ad_chat`: 404 without the listing, refusal without a master, no conversation without a counterpart; otherwise the message to the counterpart is posted, and the log changes only by that append |
| Messaging.MessageStore.OpenChat | app.py:1252-1373 | the GET branch of `ad_chat`: with a counterpart, the log becomes exactly the receipt applied to it (user: all unread to them on the listing; master: those from the client); otherwise unchanged |
| Threads.OwnerKeyOf | app.py:1193-1200 | an owner-view message is skipped exactly when the master is both or neither of sender and receiver; otherwise its key is the listing and the other participant, who is not the master |
| Threads.DistinctKeys | app.py:1200-1207 | the thread keys, each at most once |
| Threads.DistinctKeysPrefix | app.py:1200-1207 | the keys of a prefix of the messages are a prefix of the keys, as dictionary insertion order is |
| Threads.DistinctKeysFirstAppearance | app.py:1200-1207 | the keys come in order of first appearance: before any message of a later key there is a message of every earlier key |
| Threads.DistinctKeysMembers | app.py:1200-1207 | a key is a thread key exactly when some message has that key |
| Threads.LastOfIsLatest | app.py:1200-1214 | a thread's time is absent exactly when its first message has none; otherwise it is at least every timed message of the thread and equals one of them |
| Threads.ThreadsTotal | app.py:1224-1229 | the sum of the threads' unread counts equals the number of keyed messages unread to the viewer |
| Threads.SortByLastTime | app.py:1231-1234 | the result is sorted newest first with untimed threads last, is a permutation of the input, and has the same unread sum |
| Threads.Absorb | app.py:1193-1219 | one iteration of the scan keeps the dictionary equal to the specification of the messages seen so far |
| Threads.ScanThreads | app.py:1189-1219 | the dictionary has exactly the thread keys, each with its unread count and latest time, and the key order is first appearance |
| Threads.CollectThreads | app.py:1224-1229 | the rows are the dictionary's entries in key order with their display names, and the total is their unread sum |
| Threads.Aggregate | app.py:1189-1236 | the items are the sorted thread list of the specification, and the total is both their unread sum and the keyed unread count |
| ThreadViews.ThreadListFacts | app.py:1224-1234 | the list has one row per thread key, rows with distinct keys, sorted newest first; every row is its key's thread and its key occurs; every keyed message has a row |
| ThreadViews.OwnerThreads | app.py:1170-1236 | `ad_messages`: the threads over the messages on the master's listings, its total, and every row is on one of them with a counterpart other than the master |
| ThreadViews.UserThreads | app.py:1420-1478 | `user_messages`: the threads over the user's messages; every row's counterpart is its listing's master |
| ThreadViews.OwnerUnreadSplit | app.py:1192-1217 | the owner view's unread total plus the unread self-addressed messages is the viewer's whole unread count |
| ThreadViews.OwnerTotalMatchesBadge | app.py:1229-1236 | with no unread self-addressed message, the page total equals the master's badge of `recalc_unread_total` |
| ThreadViews.SelfMessageSplitsTotals | app.py:1193-1198 | one unread self-addressed message makes the page total 0 while the badge is 1 |
| ThreadViews.UserTotalMatchesBadge | app.py:1440-1464 | when every unread message to the user is on a listing with a master, the sum of the unread counts of the user's thread rows equals their badge (the page itself shows no total) |
| ThreadViews.ReceiptClearsOwnerThread | app.py:1366-1371 | the master's receipt zeroes the opened thread's unread count and leaves every other thread's count unchanged |
| ThreadViews.ReceiptClearsClientThreads | app.py:1277-1279 | the user's receipt zeroes the unread counts of their threads on that listing and no others |
| ThreadViews.OpenedThreadIsRead | app.py:1366-1373 | after the master opens a chat, that thread shows no unread message in `ad_messages` |
| Moderation.FileStreet | app.py:693-721 | a clean form stores one pending request under the next id with no street, and nothing else changes; otherwise the errors are reported and nothing changes |
| Moderation.SubmitStreet | app.py:672-691 | only masters and administrators may submit; the fields are stripped before the checks |
| Moderation.FilePavilion | app.py:1512-1531 | a clean form stores one pending request whose `title` repeats the pavilion title; otherwise nothing changes |
| Moderation.SubmitPavilion | app.py:1488-1510 | a missing street is a 404 before the role check; then the role; then the stripped form |
| Moderation.FileAd | app.py:465-479 | a clean form stores one pending listing request; otherwise nothing changes |
| Moderation.SubmitAd | app.py:450-463 | a missing pavilion is a 404 before the role check; then the role; then the stripped form |
| Moderation.SubmitStreetKeepsValid | app.py:711-721 | submitting a street request keeps the tables consistent |
| Moderation.SubmitPavilionKeepsValid | app.py:1519-1531 | submitting a pavilion request keeps the tables consistent |
| Moderation.SubmitAdKeepsValid | app.py:470-479 | submitting a listing request keeps the tables consistent |
| Moderation.ApproveStreet | app.py:832-853 | 404 exactly for a missing request, "already processed" exactly for a non-pending one, a failed commit exactly for a taken code; in those cases nothing changes |
| Moderation.RejectStreet | app.py:862-871 | 404 or "already processed" as for approval; otherwise exactly the request becomes rejected |
| Moderation.ApprovePavilion | app.py:1552-1577 | 404 or "already processed" change nothing; otherwise the pavilion, its listing and the approval are created |
| Moderation.RejectPavilion | app.py:1586-1593 | 404 or "already processed" change nothing; otherwise exactly the request becomes rejected |
| Moderation.ApproveAd | app.py:1640-1658 | 404 or "already processed" change nothing; otherwise the listing and the approval are created |
| Moderation.RejectAd | app.py:1666-1673 | 404 or "already processed" change nothing; otherwise exactly the request becomes rejected |
| Moderation.StreetApprovalCreates | app.py:839-851 | approval adds exactly one street with the request's name and code under a fresh id, and exactly one pavilion on it; the request is approved and names that street; other tables are unchanged |
| Moderation.PavilionApprovalPublishes | app.py:1559-1576 | approval adds exactly one pavilion on the requested street and one listing in it, owned by the requester and signed with their username |
| Moderation.AdApprovalPublishes | app.py:1647-1656 | approval adds exactly one listing in the requested pavilion, owned by the requester and signed with their username |
| Moderation.ApproveStreetKeepsValid | app.py:839-853 | street approval keeps ids fresh, references valid, approved requests linked and codes unique |
| Moderation.ApprovePavilionKeepsValid | app.py:1559-1577 | pavilion approval keeps the tables consistent |
| Moderation.ApproveAdKeepsValid | app.py:1647-1658 | listing approval keeps the tables consistent |
| Moderation.RejectStreetKeepsValid | app.py:865-871 | street rejection keeps the tables consistent |
| Moderation.RejectPavilionKeepsValid | app.py:1589-1593 | pavilion rejection keeps the tables consistent |
| Moderation.RejectAdKeepsValid | app.py:1669-1673 | listing rejection keeps the tables consistent |
| Moderation.ModerateKeepsValid | app.py:830-873 | every approve or reject button keeps the tables consistent |
| Moderation.ModerateOnlyFromPending | app.py:835-871 | a button acts exactly on a pending request, moving it to approved or rejected as pressed and leaving every other status of every kind unchanged; otherwise nothing changes |
| Moderation.DecisionIsFinal | app.py:835-837 | once decided, a request answers every later button with "already processed" and nothing changes |
| Moderation.TallyAddsUp | app.py:814-819 | total = pending + approved + rejected |
| Moderation.TallyAfterDecision | app.py:814-819 | deciding one pending request moves one count from pending to the chosen status and keeps the total |
| Moderation.ModerateMovesTally | app.py:1610-1622 | every successful button moves its kind's tally by exactly one from pending |
| Database.Registry.RequestStreet | app.py:672-725 | the tables become exactly `SubmitStreet` of the old tables, and stay consistent |
| Database.Registry.FileStreetRequest | app.py:693-721 | the tables become exactly `FileStreet` of the old tables |
| Database.Registry.RequestPavilion | app.py:1488-1531 | the tables become exactly `SubmitPavilion` of the old tables, and stay consistent |
| Database.Registry.FilePavilionRequest | app.py:1512-1531 | the tables become exactly `FilePavilion` of the old tables |
| Database.Registry.OfferAd | app.py:450-479 | the tables become exactly `SubmitAd` of the old tables, and stay consistent |
| Database.Registry.FileAdRequest | app.py:465-479 | the tables become exactly `FileAd` of the old tables |
| Database.Registry.ApproveStreetRequest | app.py:832-853 | the tables and the answer are exactly `ApproveStreet` of the old tables, and stay consistent |
| Database.Registry.OpenStreet | app.py:839-853 | the in-place commit of an approval gives exactly the `ApproveStreet` tables |
| Database.Registry.RejectStreetRequest | app.py:862-871 | exactly `RejectStreet` of the old tables |
| Database.Registry.ApprovePavilionRequest | app.py:1552-1577 | exactly `ApprovePavilion` of the old tables, consistent |
| Database.Registry.OpenPavilion | app.py:1559-1577 | the in-place commit gives exactly the `ApprovePavilion` tables |
| Database.Registry.RejectPavilionRequest | app.py:1586-1593 | exactly `RejectPavilion` of the old tables |
| Database.Registry.ApproveAdRequest | app.py:1640-1658 | exactly `ApproveAd` of the old tables, consistent |
| Database.Registry.PublishAd | app.py:1647-1657 | the in-place commit gives exactly the `ApproveAd` tables |
| Database.Registry.RejectAdRequest | app.py:1666-1673 | exactly `RejectAd` of the old tables |
| Assignment.Masters | assign_master.py:5-10 | exactly the users with role "master" |
| Assignment.MastersInIdOrder | assign_master.py:5-10 | the masters come in increasing id order, so no two share an id |
| Assignment.RoundRobin | assign_master.py:18-23 | the k-th ad gets the master at position k mod n as owner and signature, and nothing else changes |
| Assignment.AssignMasters | assign_master.py:5-25 | given the users in id order: with no master no ad changes; otherwise the ads become exactly `RoundRobin` of the old ads, and their number is reported |
| Assignment.EveryAdHasAMaster | assign_master.py:19-22 | every ad is owned by one of the masters and signed with that master's username; its title, text and pavilion are kept |
| Assignment.ShareOfEachMaster | assign_master.py:18-23 | the master at position j of n owns N / n ads, plus one when j < N mod n |
| Assignment.SharesDifferByAtMostOne | assign_master.py:18-23 | any two masters' numbers of ads differ by at most one |

## Left out

- Flask plumbing is not modelled: routing, templates, redirects, flash messages, cache
  headers, and the `login_required` and `admin_required` decorators. Handlers take the
  session's user id and role as parameters.
- Session writes are not modelled (`session["unread_total"]` and the others). The badge and
  totals are results of functions.
- `recalc_admin_counters` (app.py:328-342) is not modelled. It only writes the pending counts
  into the session; the tallies of the request tables are modelled instead.
- `recalc_support_badge` and the support pages are not modelled. They depend on datetime
  parsing and session state.
- Storage is not modelled: SQLAlchemy, commit and flush, and the schema migration. The
  autoincrement ids are counters in `Db.ids` and `MessageStore.nextId`.
- Passwords, login, registration and avatar file storage are not modelled; they are library
  calls and file I/O. Only `allowed_file` is modelled.
- Account, pavilion and listing deletion and the listing edit pages are not modelled. They
  are bulk deletes and updates with no logic of their own.
- The seed scripts and create_admin.py are not modelled; they load data.
- Concurrency and transaction isolation are not modelled. Each handler is one atomic step.
- The message transcript shown by `ad_chat` is not modelled: the participant query,
  `users_map` and the fallback to all messages of the listing are display only. The model
  covers what the handler changes and which counterpart it picks.
- The user-name queries of the thread pages are not modelled as queries. They are a `names`
  map parameter, with the `f"ID {id}"` fallback.
- Character classes are ASCII plus basic Cyrillic. `Strip` removes the ASCII characters that
  `str.strip()` removes (space, tab to carriage return, 0x1C to 0x1F) but not the non-ASCII
  spaces such as U+0085 or U+00A0. `isalnum` and `islower` know only those letters. Python's
  full Unicode tables are not modelled.
- Threads.SortByLastTime: proved sorted and a permutation. It is also stable, like Python's
  `list.sort`, but that is not proved.
- Messaging.LastOnAd, Messaging.DefaultClient, Threads.DistinctKeys: messages created in the same
  second tie on `created_at` (SQLite's `CURRENT_TIMESTAMP`, app.py:176). The database leaves
  the order of ties open in `order_by(created_at)` and `.desc().first()`. The model resolves
  ties in insertion order, so equal-time messages keep their log order, and so do the thread
  rows sorted from them.
- Database.Registry.RequestStreet, Database.Registry.RequestPavilion, Database.Registry.OfferAd,
  Moderation.ApprovePavilion, Moderation.ApproveAd: these require the consistent tables of
  `Db.Valid`, so they assume that the session's user still has an account and that a listing
  request's pavilion still exists. The code allows both to fail. `admin_delete_user`
  (app.py:951-996) does not end the deleted user's session, `login_required`
  (app.py:370-374) checks only that the session has a user id, and `auto_update_unread`
  (app.py:347-356) carries on when the user is gone. So a deleted master can still file
  requests (app.py:471-472, 712-713, 1520-1521), and approving such a pavilion or listing
  request fails at `req.user.username` (app.py:1570, 1650). `admin_delete_pavilion`
  (app.py:1016-1025) leaves listing requests pointing at the deleted pavilion. The model does
  not cover these states.
