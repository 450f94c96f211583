# frilo-server core, modelled in Dafny

frilo-server is the backend of a neighbourhood-help app. Users post help
points (and, in the older API, markers) on a map. Other users apply to help,
and the owner accepts or rejects them. The owner moves the point through its
statuses, and each status moves a per-category counter. The backend also
runs chats with unread counters and a typing set, and emoji reactions on
messages. Around these sit notifications with push delivery, achievements,
one-time codes for phone login and onboarding, and password-reset tokens.

This project models that core as Dafny 4 modules, one per source file:

- **Services whose state changes** are classes.
  - Each class holds its collections as `seq<Doc<T>>` fields (a `Doc` is an id and a record).
  - Each method states the new state through specification functions (`SetBody`, `Delete`, `Bumped`, `Pulled`, …).
  - A `Valid()` invariant is kept by every method: unique well-formed ids, one record per key pair, messages linked to stored chats. For help points and markers it includes one participant entry per user, which the program keeps only as far as updates cannot set participants (see "## Left out").
- **Pure code** is functions and lemmas.
  - This covers the adapters, the phone and time utilities, the file validator, the registration rules, data-URI parsing and the storage URL format.
- **Services that call other services** hold them as `const` fields and call their methods.
  - Marker → categories, users → achievements, auth and onboarding → users and OTP.
- **Effects on foreign systems** are appended to logs.
  - Storage deletions, push requests, notification requests, achievement-completion calls and socket events.
- **Inputs the code reads from outside** are parameters.
  - The clock, new ids, random draws, the password hash, the geospatial `$near` test and upload results.
- **Errors** are an `Outcome` value instead of exceptions.
  - `InvalidId`: a malformed ObjectId fails its cast.
  - `NotFound`, `Unauthorized`, `BadRequest`.
  - `Crash`: a property read on a missing record.
  - `Failure`: any other thrown error.

Shared helpers:

- `Common`: Option, Outcome, string splitting and joining, decimal digits.
- `Documents`: id-keyed collections.
- `Sorting`: an insertion sort over a total preorder, proved sorted and a permutation, and the page of the first `n` sorted elements (`.sort(...).limit(n)`).
- `Grouping`: group-by, keyed and order-preserving.
- `Proximity`: the location query shared by help points and markers: radius default, `$near` filter, newest pick.

Behaviours of the code that the model keeps as written:

- `users.create` asks for achievement ids that are not ObjectIds, so the first request fails, and a new user never gets achievement ids.
- `findOrCreateByPhone` writes a known user back through `update` with the whole stored record. That write-back deletes the user's own avatar from storage and hashes the stored password hash again (`Users.WriteBack`, `Users.WriteBackRehashes`).
- `findOrCreateByPhone` for an unknown number without user data crashes on `userData.name`.
- The onboarding store accepts a code at exactly its expiry instant; the OTP service does not (`Onboarding.AcceptedAtExpiryInstant`).
- Onboarding progress with no flags at all counts as complete.
- `getReactionsReceivedCount` is always 0, and `calculateProgress` always yields 0, so `checkAchievementProgress` changes nothing.
- `markNotificationAsRead` adds a read flag even for a user who is not a recipient.
- `addMessage` in a chat whose only participant is the sender builds a message with the empty `receiverId`, which the message schema requires, so the save fails and nothing is stored or counted (`Chats.SaveRejects`).
- `updateParticipantStatus` notifies the participant even when no entry matched.
- The help-point adapter reads a `helpPointsCount` that categories do not have, so it always shows 0.

## Model

| member | source | states |
|---|---|---|
| HelpPoints.StatusDelta | src/modules/help-points/help-points.service.ts:293-304 | the counter moves +1 exactly for Active, −1 exactly for Completed, Cancelled and Pending, and 0 exactly for the other two statuses; the old status plays no part |
| Proximity.EffectiveRadius | src/modules/help-points/help-points.service.ts:137-148 | a missing or zero radius is 5000, any other radius is used as given (the same `radius || 5000` at src/modules/markers/markers.service.ts:128-145) |
| Proximity.Newest | src/modules/help-points/help-points.service.ts:137-148 | none exactly for an empty list; otherwise a member of the list no older than any other (the `limit(1)` pick, shared with the markers query) |
| Proximity.NearOnes | src/modules/help-points/help-points.service.ts:131-145 | exactly the records the `$near` test accepts at the effective radius, for help points and markers alike |
| HelpPoints.HelpPointStore.FindOne | src/modules/help-points/help-points.service.ts:152-166 | InvalidId for a malformed id, NotFound for an unknown one, otherwise the stored record with that id |
| HelpPoints.HelpPointStore.FindAll | src/modules/help-points/help-points.service.ts:127-150 | at most one stored record, near the point when one is given; empty exactly when the store is empty (no point) or no record is near the point; otherwise the newest among the candidates |
| HelpPoints.HelpPointStore.Create | src/modules/help-points/help-points.service.ts:67-125 | a malformed category id fails before any change; otherwise the record starts with no participants, zero rating, review and visit counts, not favourited, owned by the caller, and a failure after the save returns the failure envelope with the record kept |
| HelpPoints.HelpPointStore.Update | src/modules/help-points/help-points.service.ts:168-232 | a missing or malformed id is NotFound and a non-owner is Unauthorized, both with nothing changed; the owner's patch is applied, the attachment folder deleted, and the counters move only when the patch names another category |
| HelpPoints.HelpPointStore.Remove | src/modules/help-points/help-points.service.ts:234-248 | lookup errors and non-owners change nothing; the owner's record and attachment folder are deleted, counters untouched |
| HelpPoints.HelpPointStore.ChangeStatus | src/modules/help-points/help-points.service.ts:268-305 | the status is set; the owner is notified only when the new status is Completed and the caller is someone else; the counter moves by StatusDelta of the new status; a missing record crashes with nothing changed |
| HelpPoints.HelpPointStore.ApplyForHelp | src/modules/help-points/help-points.service.ts:307-346 | an existing participant is refused with nothing changed; otherwise exactly one Pending entry is appended, the owner is notified, and participant ids stay unique |
| HelpPoints.HelpPointStore.RemoveFromHelp | src/modules/help-points/help-points.service.ts:348-369 | a non-participant is refused; otherwise every entry of that user is pulled and the others keep their order |
| HelpPoints.HelpPointStore.UpdateParticipantStatus | src/modules/help-points/help-points.service.ts:371-397 | the first entry of the participant gets the decision, everyone else is unchanged, and the participant is notified |
| HelpPoints.DecisionNotice | src/modules/help-points/help-points.service.ts:386-396 | the notice goes to the participant alone, titled by the decision |
| Markers.StatusDelta | src/modules/markers/markers.service.ts:278-289 | +1 exactly for active and −1 exactly for cancelled, completed and pending, so every status moves the counter |
| Markers.MoveKeepsTotal | src/modules/markers/markers.service.ts:199-206 | moving a marker between two stored categories keeps the total number of markers counted |
| Markers.MarkerStore.FindOne | src/modules/markers/markers.service.ts:149-160 | InvalidId, NotFound, or the stored marker |
| Markers.MarkerStore.FindAll | src/modules/markers/markers.service.ts:124-147 | at most one stored marker, near the point when given; empty exactly when the store is empty (no point) or no marker is near the point; otherwise the newest candidate |
| Markers.MarkerStore.Create | src/modules/markers/markers.service.ts:64-122 | the initial record as for help points (status pending unless given); the category gains one marker only after the achievement check succeeds; failures give the envelope instead of an exception |
| Markers.MarkerStore.Update | src/modules/markers/markers.service.ts:162-222 | NotFound or Unauthorized with nothing changed; the owner's patch is applied and the category counters follow the record |
| Markers.MarkerStore.Remove | src/modules/markers/markers.service.ts:224-236 | owner only; the marker and its folder are deleted |
| Markers.MarkerStore.ChangeStatus | src/modules/markers/markers.service.ts:253-290 | status set, completion notice only to an owner who is not the caller, counter moved by StatusDelta |
| Markers.MarkerStore.ApplyForHelp | src/modules/markers/markers.service.ts:292-331 | an existing participant is refused; otherwise one 'Pending' entry is appended and the owner notified |
| Markers.MarkerStore.RemoveFromHelp | src/modules/markers/markers.service.ts:333-354 | non-participants refused; otherwise all of the user's entries pulled, the rest in order |
| Markers.MarkerStore.UpdateParticipantStatus | src/modules/markers/markers.service.ts:356-382 | only the participant's first entry changes, and the participant is notified |
| Markers.DecisionNotice | src/modules/markers/markers.service.ts:371-381 | addressed to the participant alone, titled by the decision |
| Participants.WithApplicant | src/modules/help-points/help-points.service.ts:318-329 | the list gains exactly one Pending entry for the user, at the end |
| Participants.Pulled | src/modules/help-points/help-points.service.ts:357-361 | no entry of the user remains, every other entry remains in order |
| Participants.PulledConcat | src/modules/help-points/help-points.service.ts:357-361 | pulling distributes over concatenation, so relative order is kept |
| Participants.PulledUnique | src/modules/help-points/help-points.service.ts:357-361 | pulling keeps participant ids unique |
| Participants.ApplyThenWithdraw | src/modules/help-points/help-points.service.ts:307-369 | withdrawing right after applying restores the list |
| Participants.SetFirstStatus | src/modules/help-points/help-points.service.ts:378-385 | the positional `$set` changes only the first entry of the user |
| Participants.SetFirstStatusUnique | src/modules/help-points/help-points.service.ts:378-385 | with unique ids, exactly that participant gets the status and the ids stay unique |
| Participants.SetBodyKeepsUniqueUsers | src/modules/help-points/help-points.service.ts:311-329 | replacing one record by one with unique participants keeps the store's invariant |
| Participants.DeleteKeepsUniqueUsers | src/modules/help-points/help-points.service.ts:234-248 | deleting a record keeps the store's invariant |
| CounterDeltas.UpdateBumps | src/modules/help-points/help-points.service.ts:205-211 | the intended counter step of `update`: nothing unless the patch names a different category |
| CounterDeltas.UpdateBumpsFollowRecord | src/modules/help-points/help-points.service.ts:205-211 | with the intended step the old category loses one, the new one gains one, and nothing else changes |
| CounterDeltas.AsWrittenDropsUnchangedCategory | src/modules/markers/markers.service.ts:199-206 | as written, a patch without a category id still takes one from the record's own category |
| CounterDeltas.AsWrittenAgreesWithCategory | src/modules/markers/markers.service.ts:199-206 | when the patch names a category, the written and the intended steps agree |
| Categories.Patched | src/modules/categories/categories.service.ts:32-40 | each field the patch carries replaces the stored one, the others stay |
| Categories.NameLeIsTotalPreorder | src/modules/categories/categories.service.ts:21 | the name order used by `findAll` is a total preorder |
| Categories.Active | src/modules/categories/categories.service.ts:21 | exactly the active categories, in collection order |
| Categories.Bumped | src/modules/categories/categories.service.ts:49-59 | `$inc` changes only the count of the category with that id |
| Categories.BumpedChangesOnlyThatCount | src/modules/categories/categories.service.ts:49-59 | that category's count changes by exactly delta and every other record is untouched |
| Categories.DecrementUndoesIncrement | src/modules/categories/categories.service.ts:49-59 | a decrement after an increment restores the collection |
| Categories.TotalDiffersAt | src/modules/categories/categories.service.ts:49-59 | two collections differing by delta at one index differ by delta in total |
| Categories.BumpedTotal | src/modules/categories/categories.service.ts:49-59 | bumping a stored category moves the total count by exactly delta |
| Categories.DefaultCategories | src/modules/categories/categories.service.ts:61-101 | the five default categories, all active, with zero counts |
| Categories.CategoryStore.FindAll | src/modules/categories/categories.service.ts:20-22 | only active categories, sorted by name, a permutation of the active ones |
| Categories.CategoryStore.FindOne | src/modules/categories/categories.service.ts:24-30 | InvalidId, NotFound, or the stored record |
| Categories.CategoryStore.Update | src/modules/categories/categories.service.ts:32-40 | the record after the patch, or the lookup error with nothing changed |
| Categories.CategoryStore.Remove | src/modules/categories/categories.service.ts:42-47 | the record is deleted, or the lookup error with nothing changed |
| Categories.CategoryStore.IncrementMarkersCount | src/modules/categories/categories.service.ts:49-53 | +1 on that category; an unknown id changes nothing |
| Categories.CategoryStore.DecrementMarkersCount | src/modules/categories/categories.service.ts:55-59 | −1 on that category with no lower bound |
| Categories.CategoryStore.InitializeDefaultCategories | src/modules/categories/categories.service.ts:61-101 | the store holds exactly the five defaults |
| Categories.ActiveOfAllActive | src/modules/categories/categories.service.ts:20-22 | filtering all-active categories keeps all of them |
| Categories.DefaultsAllListed | src/modules/categories/categories.service.ts:61-101 | after the reset `findAll` lists all five defaults |
| Achievements.RecordIndex | src/modules/achievements/achievements.service.ts:35-38 | the position of the pair's record, or none when the pair has no record |
| Achievements.Progressed | src/modules/achievements/achievements.service.ts:49-55 | progress is overwritten; completion holds iff it held or progress reaches the total; completedAt is stamped only on the false-to-true step |
| Achievements.CompletionIsFinal | src/modules/achievements/achievements.service.ts:50-52 | after completion, any later reports keep the record completed with its completion time |
| Achievements.HandlerRunsAtMostOnce | src/modules/achievements/achievements.service.ts:50-55 | over any sequence of reports the completion handler runs at most once, and never for a completed record |
| Achievements.CalculateProgress | src/modules/achievements/achievements.service.ts:75-99 | every type yields 0 |
| Achievements.Visible | src/modules/achievements/achievements.service.ts:17-19 | exactly the definitions stored with `isHidden: false` |
| Achievements.RecordsOf | src/modules/achievements/achievements.service.ts:21-23 | exactly the user's records |
| Achievements.AchievementStore.GetAchievements | src/modules/achievements/achievements.service.ts:17-19 | exactly the non-hidden definitions |
| Achievements.AchievementStore.GetUserAchievements | src/modules/achievements/achievements.service.ts:21-23 | exactly that user's records |
| Achievements.AchievementStore.UpdateAchievementProgress | src/modules/achievements/achievements.service.ts:25-58 | a malformed or unknown achievement fails with nothing changed; otherwise the pair's record, created with progress 0 when missing, becomes Progressed, one record per pair stays, and the handler is logged exactly on completion |
| Achievements.AchievementStore.CheckAchievementProgress | src/modules/achievements/achievements.service.ts:60-73 | no state changes |
| AchievementHelper.ProgressPercentage | src/modules/achievements/helpers/achievement.helper.ts:6-11 | never above 100; exactly 100 iff the ratio reaches 1, the ratio times 100 otherwise, for a total of either sign; for a positive total, 100 once progress reaches the total and non-negative for non-negative progress |
| AchievementHelper.PercentageMonotone | src/modules/achievements/helpers/achievement.helper.ts:10 | more progress never shows a smaller percentage |
| AchievementHelper.NextAchievements | src/modules/achievements/helpers/achievement.helper.ts:13-26 | exactly the definitions no completed record names, in their order |
| AchievementHelper.NextConcat | src/modules/achievements/helpers/achievement.helper.ts:23-25 | `filter` works element by element: the result for a concatenation is the results for its parts, in order, so order and multiplicity follow the input |
| AchievementHelper.NothingCompletedAllNext | src/modules/achievements/helpers/achievement.helper.ts:13-26 | with nothing completed, every definition is still to earn |
| AchievementHelper.ProgressLeIsTotalPreorder | src/modules/achievements/helpers/achievement.helper.ts:31-45 | the comparator's order is total and transitive |
| AchievementHelper.SortByProgress | src/modules/achievements/helpers/achievement.helper.ts:28-46 | a permutation; incomplete before completed; incomplete by progress, highest first; completed by completion time, newest first |
| AchievementHelper.GroupByType | src/modules/achievements/helpers/achievement.helper.ts:48-59 | one non-empty group per occurring type, each achievement in exactly its type's group, original order kept |
| Notifications.ChunkCount | src/modules/notifications/notifications.service.ts:161-185 | the number of loop rounds: the least k with 100·k covering the tokens |
| Notifications.Chunks | src/modules/notifications/notifications.service.ts:161-185 | the batches, each holding 1 to 100 tokens |
| Notifications.FlattenPrefix | src/modules/notifications/notifications.service.ts:161-185 | the first k batches joined are the token list's prefix of length min(100·k, n) |
| Notifications.ChunksCover | src/modules/notifications/notifications.service.ts:161-185 | the batches joined are exactly the token list |
| Notifications.AddressedTo | src/modules/notifications/notifications.service.ts:59-63 | exactly the notifications naming the user |
| Notifications.DevicesOf | src/modules/notifications/notifications.service.ts:117-123 | exactly the device records of the recipients |
| Notifications.Tokens | src/modules/notifications/notifications.service.ts:117-123 | the token of each record, in order |
| Notifications.PushTokens | src/modules/notifications/notifications.service.ts:117-123 | the tokens of the recipients' devices, one per device record, listed in most-recently-used-first order of a permutation of those records |
| Notifications.PairIndex | src/modules/notifications/notifications.service.ts:84-87 | the position of the (user, device) record, or none |
| Notifications.Registered | src/modules/notifications/notifications.service.ts:79-103 | the pair's record carries the new token and time; other records are kept; at most one record per pair stays |
| Notifications.Unregistered | src/modules/notifications/notifications.service.ts:105-107 | the pair has no record afterwards; the others are kept |
| Notifications.ReRegisterReplaces | src/modules/notifications/notifications.service.ts:79-103 | a second registration of a device leaves one record, with the newer token |
| Notifications.Requests | src/modules/notifications/notifications.service.ts:161-185 | one push request per batch, in batch order |
| Notifications.BatchRequests | src/modules/notifications/notifications.service.ts:161-185 | the loop over batches of 100 tokens sends one request per batch, in order, and stops at the first failing batch |
| Notifications.NotificationCenter.InitialReadBy | src/modules/notifications/notifications.service.ts:26-29 | the read map's keys are exactly the recipients, all unread |
| Notifications.NotificationCenter.SendMulticastNotification | src/modules/notifications/notifications.service.ts:155-189 | no request without tokens; otherwise one request per batch of at most 100, in order, up to a failing batch |
| Notifications.NotificationCenter.AddNotification | src/modules/notifications/notifications.service.ts:18-56 | the stored notification carries the request and all recipients unread, and is returned even when the push fails |
| Notifications.NotificationCenter.GetNotifications | src/modules/notifications/notifications.service.ts:58-64 | min(50, n) of the user's n notifications, each taken at most as often as it is stored, newest first, none newer left out |
| Sorting.Page | src/modules/notifications/notifications.service.ts:58-64 | `.sort(...).limit(n)`: sorted, a sub-multiset of the input, min(n, size) long, and every element left out sorts no earlier than the last one kept |
| Notifications.NotificationCenter.MarkNotificationAsRead | src/modules/notifications/notifications.service.ts:66-77 | only `readBy[userId]` becomes true; an unknown id changes nothing |
| Notifications.NotificationCenter.RegisterDeviceToken | src/modules/notifications/notifications.service.ts:79-103 | the devices become Registered |
| Notifications.NotificationCenter.RemoveDeviceToken | src/modules/notifications/notifications.service.ts:105-107 | the devices become Unregistered |
| Notifications.MarkReadChangesOneFlag | src/modules/notifications/notifications.service.ts:70-76 | every other recipient's flag is unchanged |
| Chats.AddToSet | src/modules/chats/chats.service.ts:30-32 | the id is present afterwards, appended only when absent |
| Chats.Pull | src/modules/chats/chats.service.ts:133-137 | the id is absent afterwards, every other id kept |
| Chats.PullUndoesAdd | src/modules/chats/chats.service.ts:133-137 | starting and stopping typing restores the set |
| Chats.PullAppend | src/modules/chats/chats.service.ts:133-137 | pulling a freshly appended absent id restores the list |
| Chats.TypingIdempotent | src/modules/chats/chats.service.ts:133-137 | typing twice is typing once; stopping twice is stopping once |
| Chats.FindExistingChat | src/modules/chats/chats.service.ts:119-126 | a stored non-group chat with every requested participant and the same count, or none iff there is no such chat |
| Chats.ZeroCounts | src/modules/chats/chats.service.ts:41-48 | a zero counter for exactly the participants |
| Chats.NewChat | src/modules/chats/chats.service.ts:41-48 | admins are the creator for group chats and empty otherwise; every participant has 0 unread |
| Chats.Receiver | src/modules/chats/chats.service.ts:81-83 | a participant other than the sender when one exists, '' otherwise |
| Chats.Incremented | src/modules/chats/chats.service.ts:88-94 | one counter +1 (counting from 0 when absent), the others unchanged |
| Chats.Delivered | src/modules/chats/chats.service.ts:88-94 | the receiver has one more unread message, the message is the last one, the rest is unchanged |
| Chats.AttachmentKeys | src/modules/chats/chats.service.ts:152-158 | the storage key of each attachment URL, in order |
| Chats.SameIdsKeepLinks | src/modules/chats/chats.service.ts:88-94 | updating a chat keeps every message linked to a stored chat |
| Chats.SetBodyKeepsLinks | src/modules/chats/chats.service.ts:103-117 | updating a message within its chat keeps the links |
| Chats.ChatStore.GetChat | src/modules/chats/chats.service.ts:53-59 | InvalidId, NotFound, or the stored chat |
| Chats.ChatStore.GetMessage | src/modules/chats/chats.service.ts:103-108 | InvalidId, NotFound, or the stored message |
| Chats.ChatStore.GetMessages | src/modules/chats/chats.service.ts:99-101 | exactly the chat's messages, newest first |
| Chats.ChatStore.CreateChat | src/modules/chats/chats.service.ts:26-51 | the creator is a participant; an existing matching chat is returned with nothing created; otherwise NewChat is appended |
| Chats.ChatStore.AddMessage | src/modules/chats/chats.service.ts:68-97 | NotFound for an unknown chat and Unauthorized for a non-participant, with nothing changed; a message with an empty required string (no other participant) fails to save, with nothing changed; otherwise the message is stored and the chat Delivered to the receiver |
| Chats.ChatStore.MarkMessageAsRead | src/modules/chats/chats.service.ts:103-117 | the message is marked read and the reader's unread count in that chat becomes 0 |
| Chats.ChatStore.UpdateTypingStatus | src/modules/chats/chats.service.ts:128-138 | the typing set gains or loses the user; an unknown chat changes nothing |
| Chats.ChatStore.DeleteMessage | src/modules/chats/chats.service.ts:140-164 | NotFound, or Unauthorized for anyone but the sender; otherwise only `isDeleted` is set, the record stays, and its attachments are deleted from storage |
| Reactions.PairIndex | src/modules/reactions/reactions.service.ts:23-27 | the position of the (message, user) reaction, or none |
| Reactions.WithoutPair | src/modules/reactions/reactions.service.ts:23-27 | the pair's first reaction removed, or the list unchanged when there is none |
| Reactions.WithoutPairClears | src/modules/reactions/reactions.service.ts:23-32 | with one reaction per pair, the pair has none left and one per pair still holds |
| Reactions.CountByUser | src/modules/reactions/reactions.service.ts:87-89 | zero exactly when the user made no reaction; at most the list's length |
| Reactions.CountAppend | src/modules/reactions/reactions.service.ts:87-89 | the count of a concatenation is the sum of the counts |
| Reactions.ForMessages | src/modules/reactions/reactions.service.ts:69-73 | exactly the reactions to the listed messages; none for no messages |
| Reactions.GroupedByMessage | src/modules/reactions/reactions.service.ts:75-84 | a key exactly for each listed message with reactions, holding exactly its reactions in collection order |
| Reactions.ReactionStore.AddReaction | src/modules/reactions/reactions.service.ts:17-43 | the user's earlier reaction is removed, the new one appended and announced; one reaction per pair stays |
| Reactions.ReactionStore.RemoveReaction | src/modules/reactions/reactions.service.ts:45-60 | the pair has no reaction afterwards; an event only when one existed |
| Reactions.ReactionStore.GetReactionsByMessage | src/modules/reactions/reactions.service.ts:62-64 | exactly the reactions to that message |
| Reactions.ReactionStore.GetReactionsForMessages | src/modules/reactions/reactions.service.ts:66-85 | keys only for listed messages with reactions; each group non-empty and exactly that message's reactions |
| Reactions.ReactionStore.GetUserReactionsCount | src/modules/reactions/reactions.service.ts:87-89 | zero exactly when the user made no reaction |
| Reactions.ReactionStore.GetReactionsReceivedCount | src/modules/reactions/reactions.service.ts:91-105 | always 0 |
| Reactions.AddReactionCount | src/modules/reactions/reactions.service.ts:17-43 | a new reaction raises the user's count by one, unless it replaces the user's earlier one on that message |
| Otp.OtpValue | src/modules/auth/otp.service.ts:18-20 | a value in [100000, 999999] |
| Otp.GenerateOtp | src/modules/auth/otp.service.ts:18-20 | six decimal digits whose value is in [100000, 999999] |
| Otp.OtpService.SendOtp | src/modules/auth/otp.service.ts:25-50 | the phone's entry is replaced by a fresh code expiring in 300000 ms; the reply is true |
| Otp.OtpService.VerifyOtp | src/modules/auth/otp.service.ts:51-71 | true iff the code matches strictly before expiry; then the entry is removed and the phone verified; otherwise nothing changes |
| Otp.OtpService.IsPhoneNumberVerified | src/modules/auth/otp.service.ts:73-75 | membership in the verified set |
| Otp.OtpService.RemovePhoneNumber | src/modules/auth/otp.service.ts:77-79 | only that phone leaves the verified set |
| Otp.SingleUse | src/modules/auth/otp.service.ts:63-68 | after a code is accepted, no code is accepted for that phone |
| Otp.SentCodeAcceptedUntilExpiry | src/modules/auth/otp.service.ts:25-71 | the code just sent is accepted exactly before five minutes have passed |
| Onboarding.AcceptedAtExpiryInstant | src/modules/onboarding/onboarding.service.ts:53-65 | a code is still confirmed at its expiry instant, where the OTP service refuses it |
| Onboarding.MergedProgress | src/modules/onboarding/onboarding.service.ts:89-95 | the request's flags win, the other stored flags stay |
| Onboarding.AllStepsReported | src/modules/onboarding/onboarding.service.ts:96-107 | reporting every step done completes onboarding |
| Onboarding.OpenStepBlocks | src/modules/onboarding/onboarding.service.ts:96-107 | a step reported not done keeps onboarding incomplete |
| Onboarding.WithPhoneVerified | src/modules/onboarding/onboarding.service.ts:68-79 | the number and the verified flag are set, the phone step is done, the other steps and fields stay |
| Onboarding.WithGuidelinesAccepted | src/modules/onboarding/onboarding.service.ts:111-124 | the guideline flag and its step are set, the other steps stay |
| Onboarding.WithProgress | src/modules/onboarding/onboarding.service.ts:89-107 | the stored flags are the merge, and completion holds iff every merged flag is set |
| Onboarding.OnboardingService.RequestPhoneVerification | src/modules/onboarding/onboarding.service.ts:26-47 | lookup errors and verified users are refused with the store unchanged; otherwise a six-digit code replaces any earlier one for five minutes |
| Onboarding.OnboardingService.ConfirmPhoneVerification | src/modules/onboarding/onboarding.service.ts:49-82 | no entry is BadRequest; an expired one is removed and BadRequest; a wrong code is Unauthorized with the entry kept; a right code is used up and the user becomes WithPhoneVerified |
| Onboarding.OnboardingService.UpdateOnboardingProgress | src/modules/onboarding/onboarding.service.ts:84-108 | the user becomes WithProgress, and the reply is whether every merged flag is set |
| Onboarding.OnboardingService.AcceptSafetyGuidelines | src/modules/onboarding/onboarding.service.ts:110-125 | refusal is BadRequest before the lookup; otherwise the user becomes WithGuidelinesAccepted |
| Users.HashedPassword | src/modules/users/users.service.ts:102-104 | a truthy password is stored hashed, any other value as given |
| Users.AppliedOwnFields | src/modules/users/users.service.ts:106-110 | applying a record's own fields leaves it as it is |
| Users.AppliedNothing | src/modules/users/users.service.ts:106-110 | an empty patch changes nothing |
| Users.AvatarDeletions | src/modules/users/users.service.ts:97-100 | one key deleted exactly when both the new and the stored avatar URL are non-empty, and it is the stored avatar's key |
| Users.Merged | src/modules/users/users.service.ts:244-248 | name, terms flag and email are replaced only by truthy values; nothing else changes |
| Users.DigitsOnly | src/modules/users/users.service.ts:232 | only digits, exactly the input's digits, never longer |
| Users.DigitsOnlyKeepsDigits | src/modules/users/users.service.ts:232 | a string of digits is unchanged |
| Users.DigitsOnlyIdempotent | src/modules/users/users.service.ts:232-234 | stripping twice is stripping once |
| Users.SeparatorsIgnored | src/modules/users/users.service.ts:232 | a non-digit separator makes no difference |
| Users.FirstWith | src/modules/users/users.service.ts:133-142 | a stored user whose phone number (or email, at src/modules/users/users.service.ts:86-88) is exactly the value, or none iff no user has it |
| Users.UserStore.FindOne | src/modules/users/users.service.ts:75-84 | InvalidId, NotFound, or the stored user |
| Users.UserStore.FindByPhoneNumber | src/modules/users/users.service.ts:133-142 | a stored user with exactly that number, or none iff there is none |
| Users.UserStore.FindByEmail | src/modules/users/users.service.ts:86-88 | a stored user with exactly that email, or none iff there is none |
| Users.UserStore.Create | src/modules/users/users.service.ts:35-69 | the new user is appended with a hashed password; the default achievement request fails its cast, so no achievement ids and no achievement records |
| Users.UserStore.Update | src/modules/users/users.service.ts:94-117 | lookup errors change nothing; otherwise AvatarDeletions are logged and the patch, with the password hashed, is applied |
| Users.UserStore.Remove | src/modules/users/users.service.ts:119-131 | lookup errors change nothing; otherwise a non-empty avatar is deleted and then the user |
| Users.UserStore.UploadAvatar | src/modules/users/users.service.ts:183-221 | no file fails first, then the lookup, then the upload; on success the old avatar is deleted and the new URL stored and returned |
| Users.UserStore.FindOrCreateByPhone | src/modules/users/users.service.ts:223-253 | the number is reduced to digits; an unknown number creates CreatedByPhone (a crash without user data); a known one with user data is stored as WrittenBack and its own avatar deleted |
| Users.MemberFound | src/modules/users/users.service.ts:75-84 | a stored user is what `findOne` finds under its id |
| Users.CreatedByPhone | src/modules/users/users.service.ts:236-241 | the digits as phone, the given name, the terms flag only when true, not verified, no avatar |
| Users.WriteBack | src/modules/users/users.service.ts:244-248 | writing the merged record back stores WrittenBack and deletes the user's own avatar |
| Users.WriteBackRehashes | src/modules/users/users.service.ts:248 | the write-back replaces a stored password hash by its hash |
| Users.WriteBackKeepsRest | src/modules/users/users.service.ts:244-248 | the write-back keeps every field other than the merged ones and the password |
| AuthAdapter.OrNone | src/modules/auth/adapter/auth.adapter.ts:22-23 | an absent list becomes empty, a present one is kept |
| AuthAdapter.MapUserToAppUser | src/modules/auth/adapter/auth.adapter.ts:5-27 | the id; the app's terms flag is the safety-guideline flag; lists default to empty; the other fields copied |
| AuthAdapter.TermsFlagNotShown | src/modules/auth/adapter/auth.adapter.ts:9 | the stored terms flag never changes the app's view |
| Auth.Login | src/modules/auth/auth.service.ts:63-64 | always true |
| Auth.ResetStoredAsWritten | src/modules/auth/auth.service.ts:378-379 | as written, the stored value is the hash of the hash of the new password |
| Auth.ResetAsWrittenRejectsNewPassword | src/modules/auth/auth.service.ts:378-379 | a concrete hash for which the new password does not match what the reset stores |
| Auth.ResetStored | src/modules/auth/auth.service.ts:378-379 | as intended, a non-empty new password matches what is stored |
| Auth.LoginVerifiedPhoneAsWritten | src/modules/auth/auth.service.ts:116-160 | as written, never a login: 'User not found', then 'Phone number must be verified first', then always 'Invalid OTP' |
| Auth.AuthService.LoginWithPhone | src/modules/auth/auth.service.ts:94-114 | 'User not found' first, then the verification check, and only then a code is sent |
| Auth.AuthService.LoginVerifiedPhone | src/modules/auth/auth.service.ts:116-160 | the same two refusals first; then a login exactly when the OTP service accepts the code |
| Auth.AuthService.RegisterWithPhone | src/modules/auth/auth.service.ts:163-176 | 'User already exists' with no code sent for a registered phone; otherwise a code is sent |
| Auth.AuthService.Register | src/modules/auth/auth.service.ts:178-210 | BadRequest unless the terms are accepted, with nothing changed; otherwise the number's digits are found afterwards, on a user with the terms flag: an unknown number appends `CreatedByPhone` and deletes nothing, a known one is written back in place as `WrittenBack` with its own avatar deleted, and no achievement record changes |
| Auth.AuthService.VerifyUser | src/modules/auth/auth.service.ts:212-247 | Unauthorized exactly for an unknown or unverified phone; a given token that the JWT check rejects is the thrown error (Failure); otherwise that user, with the given token handed back or, without one, a newly signed token |
| Auth.AuthService.RequestPasswordReset | src/modules/auth/auth.service.ts:327-357 | NotFound for an unknown email; otherwise the token maps to the email for one hour |
| Auth.AuthService.ResetPassword | src/modules/auth/auth.service.ts:360-385 | unknown token Unauthorized; expired token removed and Unauthorized; a vanished user NotFound with the token kept; otherwise the token is used up and ResetStored is written |
| S3.ValueEnd | src/modules/s3/s3.service.ts:101-103 | where the lazy name-value match stops: the first ';' or the end, with no line terminator before |
| S3.MimeTypeOf | src/modules/s3/s3.service.ts:98 | never empty and never containing ':'; 'image/jpeg' when the header gives none |
| S3.Base64ToFile | src/modules/s3/s3.service.ts:74-112 | a file only for a non-empty URI containing 'base64' with a non-empty, comma-free payload, and with a MIME type and file name |
| S3.NameMatchSkip | src/modules/s3/s3.service.ts:101-103 | the name search resumes past positions where no "name=" starts |
| S3.NoEqualsNoName | src/modules/s3/s3.service.ts:101-103 | a header without '=' names no file |
| S3.ValueEndAfterName | src/modules/s3/s3.service.ts:101-103 | a name followed by ';' is read whole |
| S3.HeaderParts | src/modules/s3/s3.service.ts:89-98 | the header of a well-formed data URI yields its MIME type |
| S3.NamedHeader | src/modules/s3/s3.service.ts:101-103 | a header naming its file yields that name |
| S3.UnnamedHeader | src/modules/s3/s3.service.ts:101-103 | a header without a name parameter names no file |
| S3.UriPieces | src/modules/s3/s3.service.ts:75-89 | a well-formed data URI contains 'base64' and splits into header and payload at its comma |
| S3.DataUriRoundTrip | src/modules/s3/s3.service.ts:74-112 | reading a well-formed data URI gives back its payload, MIME type and file name (or the default name) |
| S3.UploadedKeyRecovered | src/modules/s3/s3.service.ts:36-51 | the key recovered from an upload's URL is the key it was stored under, inside its folder |
| S3.UploadFiles | src/modules/s3/s3.service.ts:55-72 | a result iff every URI converts and uploads; then one URL per URI, in order |
| StorageUrl.KeyRoundTrip | src/modules/users/users.service.ts:164-167 | the key of any object URL is recovered when the bucket has no '/' |
| StorageUrl.ShortUrlHasNoKey | src/modules/users/users.service.ts:164-167 | a string without '/' yields the empty key |
| HelpPointAdapter.CategorySummary | src/modules/help-points/adapter/help-points.adapter.ts:10-18 | the id is the category id; missing fields default to '' and the count is always 0 |
| HelpPointAdapter.MapHelpPoint | src/modules/help-points/adapter/help-points.adapter.ts:5-45 | latitude is coordinates[1] and longitude coordinates[0]; address, description, owner and the other fields as stored |
| HelpPointAdapter.MapHelpPoints | src/modules/help-points/adapter/help-points.adapter.ts:47-51 | same length, each element mapped in place |
| HelpPointAdapter.CreatedPointShownInPlace | src/modules/help-points/adapter/help-points.adapter.ts:5-45 | a new point is shown with no participants, zero counts and the caller as owner |
| MarkerAdapter.CategorySummary | src/modules/markers/adapter/markers.adapter.ts:10-18 | the id is the category id; missing fields default to '' and the count to 0 |
| MarkerAdapter.MapMarker | src/modules/markers/adapter/markers.adapter.ts:5-45 | latitude is coordinates[1] and longitude coordinates[0]; owner, priority and the rest as stored |
| MarkerAdapter.MapMarkers | src/modules/markers/adapter/markers.adapter.ts:47-49 | same length, each element mapped in place |
| MarkerAdapter.ShownCountFollowsIncrement | src/modules/markers/adapter/markers.adapter.ts:17 | after an increment the shown count is one more |
| Phone.Cleaned | src/utils/phone.utils.ts:9 | only '+' and digits, exactly those of the input |
| Phone.CleanedOfClean | src/utils/phone.utils.ts:9 | cleaning a clean string changes nothing |
| Phone.NormalizePhoneNumber | src/utils/phone.utils.ts:7-33 | the result holds only '+' and digits |
| Phone.NormalizedShape | src/utils/phone.utils.ts:12-32 | a leading '+' except for 9 characters starting with '0' and 10 not starting with '0' or '+', which stay as cleaned |
| Phone.LocalIsraeliNumber | src/utils/phone.utils.ts:12-14 | '0' and nine digits become '+972' and the nine digits |
| Phone.NationalIsraeliNumber | src/utils/phone.utils.ts:17-22 | nine digits not starting with '0' gain '+972' |
| Phone.FormattingIgnored | src/utils/phone.utils.ts:9 | separators do not change the result |
| Phone.NormalizeIdempotent | src/utils/phone.utils.ts:7-33 | normalising twice is normalising once |
| RemainingTime.CeilDiv | src/utils/get.remaining.time.utils.ts:2 | the ceiling: (q − 1)·m < d ≤ q·m |
| RemainingTime.GetRemainingTime | src/utils/get.remaining.time.utils.ts:1-7 | minutes iff the deadline is after now; then at least 1 and the ceiling of the gap |
| RemainingTime.RemainingNeverGrows | src/utils/get.remaining.time.utils.ts:2-6 | as the clock advances the count never goes up |
| RemainingTime.LaterDeadlineNotFewer | src/utils/get.remaining.time.utils.ts:2-6 | a later deadline never shows fewer minutes |
| RemainingTime.WholeMinutes | src/utils/get.remaining.time.utils.ts:2-6 | a deadline n whole minutes away shows n |
| FileValidation.FileValidator.Validate | src/common/validators/file.validator.ts:14-32 | valid iff the type is allowed and the size at most the limit; the type error whenever the type is disallowed; an error exactly when invalid |
| FileValidation.LargerLimitAcceptsMore | src/common/validators/file.validator.ts:24 | raising the limit never rejects an accepted file |
| FileValidation.TypeCheckedFirst | src/common/validators/file.validator.ts:15-22 | a disallowed type gives the same verdict whatever the size |
| RegisterDto.Violations | src/modules/auth/dto/register-user.dto.ts:23-111 | as intended, each rule is broken exactly in its case: email checked only without the other identifiers, name non-empty, skills non-empty, at least one identifier among the payload's fields |
| RegisterDto.ConstraintAsCalled | src/modules/auth/dto/register-user.dto.ts:23-25 | `validate` given the dummy property's value: a TypeError (Crash) exactly when it is missing, and true only for an object carrying a truthy identifier |
| RegisterDto.ViolationsAsWritten | src/modules/auth/dto/register-user.dto.ts:109-110 | as written, validation crashes exactly when the dummy property is missing; otherwise the other rules agree with `Violations` and the identifier rule follows the dummy value alone |
| RegisterDto.AsWrittenRejectsWellFormedPayload | src/modules/auth/dto/register-user.dto.ts:109-110 | a payload with a phone number and a name passes the intended rules but crashes as written |
| RegisterDto.AsWrittenFlagNeverSatisfies | src/modules/auth/dto/register-user.dto.ts:109-110 | sending the dummy field as a boolean is always refused with the identifier violation |
| RegisterDto.ValidHasIdentifierAndName | src/modules/auth/dto/register-user.dto.ts:23-90 | an accepted payload has an identifier, a non-empty name, and non-empty skills when given |
| RegisterDto.EmailUncheckedBesideOtherIdentifier | src/modules/auth/dto/register-user.dto.ts:39-48 | a malformed email passes beside a phone number or Google id |
| RegisterDto.Language | src/modules/auth/dto/register-user.dto.ts:98 | 'he' when absent, the given value otherwise |

## Left out

- Controllers, modules, guards, strategies, interceptors, the websocket gateway, app-data, analytics, seed scripts and configuration are routing or startup glue. They are not part of this model.
- Foreign calls are not modelled beyond what is listed here.
  - The storage SDK's put, list and delete calls are appended logs or parameters.
  - The push endpoint is a log of requests; a failing batch is a parameter.
  - Mail, SMS, Google OAuth, Google Maps and JWT signing are left out. JWT verification is a parameter: whether `verify` accepts the given token.
  - Socket emits are a log.
  - bcrypt is a deterministic `hash` parameter without a salt; `compare` is equality with the hash.
- `loginWithEmail`, `loginWithGoogle`, `getUserActivity`, `findAll`, `findOrCreate` and `findByGoogleId` of the user and auth services are outside the core.
- Geospatial `$near` filtering uses spherical floating-point distance. It is a parameter `near`, and only the radius default and `limit(1)` are modelled.
- Document-store mechanics are not modelled: population, timestamps other than stored integers, schema validation on save (apart from the required strings of a message), unique indexes, and casting beyond "24 hex characters is an ObjectId".
- A failed cast of a malformed id is the error `InvalidId`.
  - `update` of help points turns it into NotFound, as the code does.
- Of schema validation on save, only the required strings of a message are modelled (`Chats.SaveRejects`); the `$inc` on the empty key that would follow is therefore never reached.
- `incrementHelpPointsCount`, `decrementHelpPointsCount` and `checkAchievementsByType` are called by the help-point service, but the category and achievement services do not define them.
  - The help-point counters are an abstract map field.
  - The achievement check is a parameter that may fail.
- Entity and service disagree in several places. The model follows the service.
  - Notifications are written with `userIds`, `message` and `readBy`.
  - Markers' stored location carries `coordinates`.
  - `onboardingProgress` and the achievement `isHidden` are read and written, although the entities do not declare them.
  - The registered user schema (src/modules/users/entities/user.entity.ts, bound at src/modules/users/users.module.ts:14) declares none of `phoneNumber`, `name`, `agreedToTerms`, `isPhoneVerified`, `hasAcceptedSafetyGuidelines`, `hasCompletedOnboarding` and `achievementIds`. It makes `firstName`, `lastName`, `email` and `password` required. A strict store would drop the undeclared fields, and the record `findOrCreateByPhone` creates would fail validation on save. The model stores the fields the service writes, and saves succeed. The model also assumes that queries and population on these undeclared paths (the `{ phoneNumber }` filter and `.populate('badges')` at src/modules/users/users.service.ts:135-137) behave as on declared ones.
  - `UserAchievement` declares `earnedAt` and no `completedAt` (src/modules/achievements/entities/achievement.entity.ts:63-78). The `completedAt` stamped at src/modules/achievements/achievements.service.ts:51, and read by `SortByProgress`, would not be stored. The model stores it.
- The 'marker' action kind and the `MarkerCompleted` notification type are outside the declared unions. The model has them as values of their own.
- AchievementHelper.ProgressPercentage: requires a non-zero total. With a zero total, `current / 0` is NaN for zero progress and minus infinity for negative progress, and neither is a real number; only positive progress over a zero total gives exactly 100, and that case is left out with the others.
- AchievementHelper.SortByProgress: compares completion times as integers with a missing time last; the NaN that `new Date(undefined)` gives is not modelled.
- The OTP service's SMS send is left out; `sendOtp` always reports the code as sent.
- S3.Base64ToFile: the payload is kept as base64 text; decoding it into bytes is not modelled.
- Concurrency is not modelled: each request is one atomic method. The interleavings of a status write followed by a counter write are left out.
- HelpPoints.HelpPointStore.Update: moves the counters by the intended step `CounterDeltas.UpdateBumps`. As written, a patch without `categoryId` also takes one from the stored category (see Findings); that step is `CounterDeltas.UpdateBumpsAsWritten`, and the store does not run it.
- HelpPoints.HelpPointStore.Update: the patch carries only title, description, category, images, status, priority, contact phone, address, location description and the active flag. The unvalidated `Partial<HelpPoint>` body can also set `participants`, `ownerId`, `rating`, `reviewCount`, `visitCount`, `isFavorited`, `verified`, `location`, `type`, `imageUrl`, `savedBy` and `createdAt`; the model does not let it. The one-entry-per-user half of `Valid()` holds after `Update` only because of this narrowing: a body with two entries for one user would be stored as sent.
- Markers.MarkerStore.Update: the patch carries only title, description, location, category, images, status, priority, contact phone and the active flag. The unvalidated `Partial<Marker>` body can also set `participants`, `ownerId`, `rating`, `reviewCount`, `visitCount`, `isFavorited`, `verified`, `imageUrl` and `createdAt`; the model does not let it. The one-entry-per-user half of `Valid()` holds after `Update` only because of this narrowing.
- Markers.MarkerStore.Update: moves the category counts by the intended step `Markers.Moved`. As written, a patch without `categoryId` also decrements the stored category (see Findings); the store does not model that decrement.
- Auth.AuthService.ResetPassword: writes the intended single hash `Auth.ResetStored`. As written, the stored value is the double hash `Auth.ResetStoredAsWritten` (see Findings), which the store does not write.
- Auth.AuthService.LoginVerifiedPhone, Auth.AuthService.LoginWithPhone and Auth.AuthService.RegisterWithPhone: call the OTP service with the phone number itself. The code passes an object instead; that disagreement is recorded under Findings for `loginVerifiedPhone`, and for the other two the code is otherwise the same.

## Findings

| source | as written | input that shows it | evidently intended | confidence | as-written member | corrected member |
|---|---|---|---|---|---|---|
| src/modules/markers/markers.service.ts:199-206 | the counters move whenever `updateData.categoryId !== stored`, and a patch without `categoryId` is `undefined` | a marker in category C updated with a patch that only changes the title: C's count drops by one (the same step in src/modules/help-points/help-points.service.ts:205-211) | the counters move only when the patch names a different category | high, not executed | CounterDeltas.AsWrittenDropsUnchangedCategory | CounterDeltas.UpdateBumpsFollowRecord |
| src/modules/auth/auth.service.ts:378-379 | `resetPassword` hashes the new password, and `UsersService.update` (src/modules/users/users.service.ts:102-104) hashes the hash again | a reset to "secret" stores hash(hash("secret")), so logging in with "secret" fails | the plain new password is passed to `update`, which hashes it once | high, not executed | Auth.ResetAsWrittenRejectsNewPassword | Auth.ResetStored |
| src/modules/auth/auth.service.ts:135-145 | `verifyOtp` is given an object where it takes a phone number, and the reply is read for `isSuccess` while it only carries `isValid` | a verified user with the correct, unexpired code gets "Invalid OTP" | the phone number and code are passed as arguments and `isValid` decides | high, not executed | Auth.LoginVerifiedPhoneAsWritten | Auth.AuthService.LoginVerifiedPhone |
| src/modules/auth/dto/register-user.dto.ts:109-110 | `@Validate(AtLeastOneIdentifierConstraint)` is declared on the dummy property `atLeastOneIdentifier`, so class-validator passes `validate` that property's value, and `object.phoneNumber` at line 24 is read on `undefined` | `{ "phoneNumber": "+15551234567", "name": "John Doe" }` fails with a TypeError instead of being accepted; sending `"atLeastOneIdentifier": true` is always refused | the constraint reads the payload's own phone number, email and Google id (for example through `args.object`) | medium, not executed; rests on the validation library's call convention | RegisterDto.AsWrittenRejectsWellFormedPayload | RegisterDto.ValidHasIdentifierAndName |
