# A Dafny model of the InfoBip voice-broadcast back end

The system is an Express and MongoDB service. Users register caller IDs and
upload contact lists. They create voice campaigns whose message script is
screened against a blocklist of words, and start and pause those campaigns.
The service dispatches one call per contact in batches. It charges the
campaign owner's credits at the platform's per-call rate, and writes a ledger
of credit and debit records whose profit is the part of each charge above the
provider's rate. Administrators manage users, the blocklist, the settings
(call rates, batch size, provider keys) and notifications.

This project models the data of each Mongoose model and the handlers of every
route file that changes that data. It also proves properties of both.

- Each document the handlers update in place is a class: User, Campaign, Call,
  CallerId, Notification and the setting store.
- Collections the handlers query or add to are fields of one `Database` object.
  Calls and the ledger are sequences in insertion order; the others are maps
  keyed by id.
- Money is an integer number of cents. The default platform rate of 0.05 is 5
  and the default provider rate of 0.03 is 3.
- Times are integer milliseconds.
- Request fields the handlers test for truthiness are strings, where "" means
  absent. Fields they test against `undefined` are `Option` values.
- The clock, the random parts of codes and file names, and the ids Mongo
  assigns are inputs to the operations.
- A CSV file is given as its parsed rows.
- A save that the schema's validation refuses changes nothing and is the
  handler's 500. This decides much of the call handling: the handlers create
  calls with status "initiated" and mark transfers with "transfer", and
  neither is in the Call schema's status enum. So the test call always
  fails, a dispatch stores no call and charges nothing, and a transfer is
  never recorded.

Modules, one per file:

| module | what it holds |
|---|---|
| Util, Http | shared helpers (rounding, strings, trimming, case); HTTP errors and their status codes |
| CampaignModel, CallModel, BillingModel, BlocklistModel, CallerIdModel, FileModel, NotificationModel, SettingModel, UserModel | the documents, their defaults, virtuals and model methods |
| Db | the collections, and the lookups the handlers share |
| Contacts, Batching | reading contacts from CSV rows; the batching of the dispatch |
| ApiRoutes | call events (`/call/process`, the provider webhook), the test call, the campaign dispatch |
| CampaignRoutes, BillingRoutes, UserRoutes, BlocklistRoutes, SettingRoutes, CallerIdRoutes, FileRoutes, NotificationRoutes | the other route files |

## Model

| member | source | states |
|---|---|---|
| CampaignModel.TransferKeyOrDefault | src/routes/campaign.routes.js:123 | the transfer key is never empty: the key given, else the default "1" |
| CampaignModel.Progress | src/models/campaign.model.js:79-82 | progress is 0 with no contacts, else processed/total × 100 rounded half up in exact arithmetic (the bounds of that rounding stated exactly) |
| CampaignModel.ProgressComplete | src/models/campaign.model.js:79-82 | a campaign that processed all its contacts is at 100% |
| CampaignModel.ProgressBounds | src/models/campaign.model.js:79-82 | progress stays between 0 and 100 while processed ≤ total |
| CampaignModel.ProgressMonotone | src/models/campaign.model.js:79-82 | processing more contacts never lowers the progress |
| CampaignModel.Campaign.ProgressPercentage | src/models/campaign.model.js:79-82 | the virtual on a campaign: 100 once every contact is processed, and between 0 and 100 while processed ≤ total |
| CampaignModel.Duration | src/models/campaign.model.js:85-89 | 0 minutes before the start; otherwise (end or now − start)/60000 rounded half up |
| CampaignModel.Campaign.DurationMinutes | src/models/campaign.model.js:85-89 | the virtual on a campaign: 0 before the start; otherwise the minutes from the start to the end, or to now while running, within half a minute |
| CampaignModel.Campaign.constructor | src/models/campaign.model.js:1-76 | a new campaign is pending, at 10 calls per minute, with nothing processed and zero call statistics |
| CallModel.DurationMinutes | src/models/call.model.js:84-86 | seconds/60 rounded half up, with its bounds stated exactly |
| CallModel.DurationMinutesExamples | src/models/call.model.js:84-86 | under 30 s is 0 minutes; 30 s and 89 s are 1; 90 s is 2 |
| CallModel.IsSuccessful | src/models/call.model.js:89-91 | a successful status is one of the schema's statuses, and never the handlers' "transfer" |
| CallModel.Call.Successful | src/models/call.model.js:89-91 | the virtual on a call: true exactly for answered, transferred and completed, all statuses of the schema |
| CallModel.Call.Minutes | src/models/call.model.js:84-86 | the virtual on a call: 0 for no duration, otherwise the seconds in minutes within half a minute |
| CallModel.Call.constructor | src/models/call.model.js:39-66 | a new call has zero duration, cost and retries and no digits |
| BillingModel.NewBilling | src/models/billing.model.js:9-62 | a new record is pending, paid by the system, with zero calls, rates and profit |
| BillingModel.TransactionId | src/models/billing.model.js:82-84 | "TRX-" followed by the last 8 characters of the id in upper case |
| BillingModel.TransactionIdRecoversSuffix | src/models/billing.model.js:82-84 | for an id without upper-case letters (a Mongo hex id), lower-casing the transaction id gives back the id's last 8 characters |
| BillingModel.InvoiceNumber | src/models/billing.model.js:87-96 | a stored invoice number wins; otherwise "INV-…-" plus the id's last 4 characters in upper case |
| BillingModel.InvoiceNumberFields | src/models/billing.model.js:87-96 | the generated number is INV-YYYYMM-XXXX: 15 characters for an id of at least 4 characters (11 plus the id length below that), a 4-digit year and a 2-digit zero-padded month |
| BlocklistModel.NewBlockedWord | src/models/blocklist.model.js:3-27 | a new entry holds the word trimmed of surrounding white space, is active, and is in the category given or "custom" |
| BlocklistModel.FoundWordsMembers | src/models/blocklist.model.js:44-61 | a word is reported exactly when an active entry matches it as a whole word, ignoring case |
| BlocklistModel.FoundWordsDistinct | src/models/blocklist.model.js:44-61 | with unique entries, no word is reported twice |
| BlocklistModel.FoundWords | src/models/blocklist.model.js:44-61 | at most one reported word per blocklist entry |
| BlocklistModel.ContainsBlockedWords | src/models/blocklist.model.js:44-61 | empty text contains nothing; otherwise the loop returns exactly the found words, and `contains` holds iff some were found |
| BlocklistModel.MatchesIgnoresCase | src/models/blocklist.model.js:51-54 | matching with the "i" flag does not depend on the case of the entry |
| BlocklistModel.MatchesAtLower | src/models/blocklist.model.js:51-54 | the same, at one position of the text |
| BlocklistModel.EqualsIgnoreCaseLower | src/models/blocklist.model.js:51-54 | case-insensitive equality does not depend on the case of the second word |
| BlocklistModel.LowerIdempotent | src/models/blocklist.model.js:51-54 | lower-casing twice is lower-casing once |
| BlocklistModel.WholeWordsOnly | src/models/blocklist.model.js:51-54 | "ass" does not match inside "class"; "MONEY" matches "free money now" |
| CallerIdModel.CodeFor | src/models/callerId.model.js:46-51 | a code is 6 digits whose value is 100000 plus the random draw |
| CallerIdModel.CodeForInjective | src/models/callerId.model.js:46-51 | different draws give different codes |
| CallerIdModel.IssuedCodeLifetime | src/models/callerId.model.js:46-57 | an issued code is valid until one hour after it was issued |
| CallerIdModel.NoCodeAfterExpiry | src/models/callerId.model.js:54-57 | no code is valid at or after the expiry, or when no code or expiry is stored |
| CallerIdModel.CallerId.constructor | src/models/callerId.model.js:3-43 | a new caller ID is unverified and active, with no code |
| CallerIdModel.CallerId.GenerateVerificationCode | src/models/callerId.model.js:46-51 | stores and returns the code for the draw, expiring an hour after `now` |
| FileModel.NewFile | src/models/file.model.js:3-63 | a new file record is active and has no metadata |
| FileModel.Url | src/models/file.model.js:70-72 | "/api/files/" followed by the id |
| FileModel.LastDot | src/models/file.model.js:75-77 | the position of the last '.', or none when there is no dot |
| FileModel.Extension | src/models/file.model.js:75-77 | the text after the last dot (the whole name when there is no dot), a suffix of the name without a dot |
| FileModel.ExtensionAfterDot | src/models/file.model.js:75-77 | the extension of stem.ext is ext, for any dot-free ext |
| NotificationModel.Unread | src/models/notification.model.js:24-35 | a recipient entry starts unread, with no read time |
| NotificationModel.AgeText | src/models/notification.model.js:71-82 | the text starts with the count, a space and the unit's name, ends in " ago", and has a plural "s" exactly when the count is not 1 |
| NotificationModel.AgeUnitThresholds | src/models/notification.model.js:65-82 | the unit depends only on the time elapsed: minutes below 59.5 minutes (3 570 000 ms), hours below 1409.5 minutes (84 570 000 ms), days from then on |
| NotificationModel.AgeCountBounds | src/models/notification.model.js:65-82 | the count, bounded in milliseconds for each unit: minutes are the elapsed time rounded to the nearest minute (halves up), hours those minutes rounded to the nearest hour, days those hours rounded to the nearest day |
| NotificationModel.AgeWithoutCreation | src/models/notification.model.js:65-82 | without a creation time the age is "0 minutes ago" |
| NotificationModel.Age | src/models/notification.model.js:65-82 | the text starts with the count and unit AgeParts picks, ends with " ago", and the unit is plural exactly when the count is not 1 |
| NotificationModel.FirstUnreadOf | src/models/notification.model.js:85-99 | the first unread entry of the user, or none when the user has no unread entry |
| NotificationModel.FirstUnread | src/models/notification.model.js:87-96 | the first unread entry of any user, or none when every entry is read |
| NotificationModel.MarkedAsWritten | src/models/notification.model.js:85-99 | when some entry is the user's and some entry is unread, the first unread entry, whoever's it is, is marked read at `now` and nothing else changes; otherwise nothing changes |
| NotificationModel.MarkedOwnEntry | src/models/notification.model.js:85-99 | the intended update: the user's own first unread entry is marked read at `now`, no other user's entry changes, and nothing changes when the user has no unread entry |
| NotificationModel.Notification.constructor | src/models/notification.model.js:3-58 | the notification holds the fields and recipients it was given |
| NotificationModel.Notification.MarkAsRead | src/models/notification.model.js:85-99 | the recipients become MarkedAsWritten of the old ones, and one document is reported modified exactly when the query matches |
| NotificationModel.AsWrittenMeetsIntentIff | src/models/notification.model.js:85-99 | the update as written equals the intended one exactly when the query does not match or the first unread entry is the user's |
| NotificationModel.FirstUnreadOfIsFirstUnread | src/models/notification.model.js:85-99 | when the first unread entry is the user's, it is the user's first unread entry |
| NotificationModel.MarkAsReadMarksOtherUsersEntry | src/models/notification.model.js:87-96 | with a's entry read and b's unread, a's request matches and marks b's entry read, where the intended update changes nothing |
| SettingModel.Upsert | src/models/setting.model.js:64-73 | setting a key adds it or keeps it, and no other key appears |
| SettingModel.LookupAfterUpsert | src/models/setting.model.js:55-73 | after setting a key, reading it returns the value set |
| SettingModel.UpsertOnlyTouchesKey | src/models/setting.model.js:64-73 | setting one key leaves every other key as it was |
| SettingModel.UpsertMetadata | src/models/setting.model.js:64-73 | the record keeps its key and records who updated it and when; a new record gets the schema defaults |
| SettingModel.SettingStore.constructor | src/models/setting.model.js:4-45 | the store starts empty |
| SettingModel.SettingStore.GetByKey | src/models/setting.model.js:55-61 | the stored value for a key, or none when the key is not stored |
| SettingModel.SettingStore.SetByKey | src/models/setting.model.js:64-73 | the store is the upsert of the old store, and the key now reads as the value |
| SettingModel.DefaultKeysDistinct | src/models/setting.model.js:76-87 | the ten default keys are distinct |
| SettingModel.DefaultSettingsFacts | src/models/setting.model.js:76-87 | the defaults set the platform rate to 5 cents, the provider rate to 3, 10 calls per minute and 3 retries |
| SettingModel.OrElse | src/routes/api.routes.js:236 | `value \|\| fallback`: the stored value when it is truthy, otherwise the fallback |
| SettingModel.NumberSetting | src/models/setting.model.js:55-61 | `getByKey(k) \|\| fallback`: the fallback when the setting is missing or 0, else the stored number |
| SettingModel.NumberSettingIsOrElse | src/models/setting.model.js:55-61 | the numeric setting is what `\|\|` yields whenever that is a number, which is exactly when nothing truthy other than a number is stored |
| UserModel.User.constructor | src/routes/user.routes.js:104-113 | the user holds exactly the fields it was created with |
| Db.Database.UserById | src/routes/billing.routes.js:86-90 | the user with that id, or none when there is no such user |
| Db.Database.OwnedCampaign | src/routes/campaign.routes.js:217-225 | the campaign with that id when the user owns it, else none |
| Db.FindCall | src/routes/api.routes.js:90-94 | the first call with that call id, or none when no call has it |
| Contacts.PhoneOf | src/routes/api.routes.js:368 | the first non-empty column of phone, phoneNumber, mobile and cell; empty exactly when all four are |
| Contacts.ValidRows | src/routes/file.routes.js:94-113 | at most as many rows as given, each of them with a phone |
| Contacts.ValidRowsMembers | src/routes/file.routes.js:94-113 | the valid rows are exactly the input rows that have a phone |
| Contacts.ValidRowsAppend | src/routes/file.routes.js:94-113 | filtering distributes over concatenation, so the stream can be read row by row |
| Contacts.CountContacts | src/routes/campaign.routes.js:89-113 | the loop returns the valid rows; total = rows, valid + invalid = total |
| Contacts.ToContact | src/routes/api.routes.js:366-377 | a contact takes the row's phone, keeps the row as data, and its name is name or else firstName |
| Contacts.ContactsAreValidRows | src/routes/api.routes.js:363-380 | there is one contact per valid row, made from that row, in order |
| Contacts.ReadContacts | src/routes/api.routes.js:363-380 | the loop returns exactly the contacts of the rows |
| Batching.SliceSize | src/routes/api.routes.js:394-395 | the length of `slice(start, end)`: never more than the array, min(end, n) − min(start, n) for an end at or past the start, and for a negative end either empty or reaching to n + end |
| Batching.Slice | src/routes/api.routes.js:394 | `Array.slice` semantics: SliceSize elements, the consecutive ones from `start`, including a negative end counted from the back |
| Batching.StopCount | src/routes/api.routes.js:387-395 | the value processedCount stops at lies between the starting count and the number of contacts |
| Batching.BatchIsSlice | src/routes/api.routes.js:394 | each batch is the slice processBatch takes at that point |
| Batching.BatchesReachStop | src/routes/api.routes.js:387-395 | the batches, together and in order, are exactly the contacts from the starting count up to where the walk stops |
| Batching.FlattenCons | src/routes/api.routes.js:387-398 | a batch followed by more batches flattens to that batch followed by the rest |
| Batching.PositiveSizeReachesEnd | src/routes/api.routes.js:387-395 | with a positive batch size the walk takes every contact |
| Batching.NonPositiveSizeStalls | src/routes/api.routes.js:387-395 | with a zero or negative batch size the walk never takes the last contact |
| Batching.BatchesFull | src/routes/api.routes.js:387-395 | with a positive size no batch is empty or larger than the size, and only the last may be smaller |
| Batching.BatchCount | src/routes/api.routes.js:387-395 | with a positive size there are ⌈remaining/size⌉ batches |
| CallModel.HandlerStatusesOutsideSchema | src/models/call.model.js:28-32 | "initiated" and "transfer", which the handlers write, are not in the status enum, so a save with either fails; isSuccessful counts "transferred" but not "transfer" |
| ApiRoutes.TransferKeyOverrides | src/routes/api.routes.js:96-108 | at both endpoints, pressing the transfer key sets "transfer", whatever status the event reports |
| ApiRoutes.WebhookKeepsMissingFields | src/routes/api.routes.js:147-187 | the webhook keeps the call's status, duration and digits when the event leaves them out |
| ApiRoutes.TransferKeyRejected | src/routes/api.routes.js:96-110 | a pressed transfer key makes the save fail at both endpoints: the webhook leaves the call unchanged and counts nothing |
| ApiRoutes.CountOneEffect | src/routes/api.routes.js:113-126 | counting a contact adds exactly one; the campaign completes exactly when the total is reached, and only then does the end time move |
| ApiRoutes.WebhookRunCounts | src/routes/api.routes.js:147-187 | over any run of webhook events, processedContacts rises by the number of events whose update is saved with a terminal status, and completion is never undone |
| ApiRoutes.RepeatedTerminalEventCountsTwice | src/routes/api.routes.js:147-187 | a terminal event delivered twice counts the same call twice when its status is in the schema and no transfer key was pressed, and not at all otherwise |
| ApiRoutes.EndpointsDisagreeOnMissingStatus | src/routes/api.routes.js:96-126 | an event without a status for a completed call: /call/process clears the status and does not count it, the webhook keeps "completed" and counts it again |
| ApiRoutes.CountContact | src/routes/api.routes.js:113-126 | the campaign's tally becomes the tally after one more contact |
| ApiRoutes.Store | src/routes/api.routes.js:96-100 | the call's status, duration, digits and update time become the values given |
| ApiRoutes.ProcessUpdate | src/routes/api.routes.js:96-108 | the status becomes the event's unless the transfer key was pressed; a missing duration or digits keep the call's; the update time is now |
| ApiRoutes.WebhookUpdate | src/routes/api.routes.js:150-161 | the same update as the call endpoint, except that an event without a status keeps the call's status (or marks a transfer) |
| ApiRoutes.ProcessCall | src/routes/api.routes.js:85-139 | 404 exactly for an unknown call id; a 500 exactly when the updated call fails validation, leaving call and campaign unchanged; otherwise the call takes the update, and its campaign counts one contact iff the reported status is terminal |
| ApiRoutes.Webhook | src/routes/api.routes.js:142-195 | for a known call, a 500 with nothing changed when the updated call fails validation; otherwise it takes the update, and the campaign counts one contact iff the call's new status is terminal; without a known call nothing changes |
| ApiRoutes.WebhookApply | src/routes/api.routes.js:147-187 | the webhook's update of the call it found and of its campaign, saved exactly when the schema accepts it; for a call with its required fields it is one step of the run WebhookRunCounts is about |
| ApiRoutes.DebitBalances | src/routes/api.routes.js:270-291 | a debit is calls × rate, split exactly into the provider's share and the platform's profit |
| ApiRoutes.DebitRecord | src/routes/api.routes.js:278-289 | a completed debit of the user, of calls × rate in amount and credits, at that rate, whose profit is calls × rate less calls × provider rate |
| ApiRoutes.PlatformRate | src/routes/api.routes.js:236 | the stored platform rate when it is a non-zero number, else the default 5 cents |
| ApiRoutes.ProviderRate | src/routes/api.routes.js:275 | the stored provider rate when it is a non-zero number, else the default 3 cents |
| ApiRoutes.TestCall | src/routes/api.routes.js:198-314 | checks in order (fields, caller ID, user, credits, provider key), each failure with its own error; once all pass, the call's save fails, so the answer is always an error and the credits and ledger never change |
| ApiRoutes.TestCallRejected | src/routes/api.routes.js:258-268 | a call without a campaign, or with status "initiated", fails the schema's validation |
| ApiRoutes.SettlementHappens | src/routes/api.routes.js:387-481 | when every contact's call is saved, the owner is charged iff the batch size is positive and there is a contact; a positive size walks through every contact in order |
| ApiRoutes.ProcessCampaign | src/routes/api.routes.js:317-503 | checks in order (campaign, active, owner, credits, key, file), each failure with its own error, and succeeds exactly when all pass; the batches it starts stop at the first rejected save, so with "initiated" calls nothing is stored and nothing is charged |
| ApiRoutes.InitiatedStoresNothing | src/routes/api.routes.js:402-413 | calls saved for the contacts with status "initiated" are none at all |
| ApiRoutes.SavedCallsAccepted | src/routes/api.routes.js:402-413 | a call is saved only with a status the schema accepts |
| ApiRoutes.DispatchAndSettle | src/routes/api.routes.js:383-481 | runs the batches, then charges contacts × rate and writes one debit exactly when every contact's call was stored; otherwise the credits and the ledger are untouched |
| ApiRoutes.Settle | src/routes/api.routes.js:453-481 | takes contacts × rate from the owner and appends the campaign's debit |
| ApiRoutes.CallsForAppend | src/routes/api.routes.js:398-413 | a saved call for the next contact keeps the dispatched calls in contact order |
| ApiRoutes.RunBatches | src/routes/api.routes.js:383-455 | the loop stores one new call per contact, in order, and stops either where the batch walk stops or at the first contact whose call the schema rejects, returning how many were stored |
| ApiRoutes.DispatchBatch | src/routes/api.routes.js:398-413 | one batch stores a call for each of its contacts until a save fails, and reports how many; when short, the next contact's save is the one rejected |
| ApiRoutes.DispatchContact | src/routes/api.routes.js:400-413 | the next contact's call is appended exactly when its save passes (caller ID still exists, required fields, status); otherwise nothing changes |
| ApiRoutes.SimulationCountsAnsweredCalls | src/routes/api.routes.js:419-450 | the simulation counts "answered" calls, which the event endpoints do not; the transferred outcome's save fails and every other outcome's passes |
| ApiRoutes.SimulateOutcome | src/routes/api.routes.js:419-450 | saved exactly when the call has its required fields and the outcome's status is in the schema; then its status, duration and digits are stored and the campaign counts one more contact, else nothing changes |
| CampaignRoutes.ContactsFileRecord | src/routes/campaign.routes.js:75-114 | the contacts file saved with a campaign: its type is contacts, it carries the counts, and its description names the campaign |
| CampaignRoutes.CreateCampaign | src/routes/campaign.routes.js:44-140 | CSV-only filter, usable caller ID, no blocked words (which are reported), file present, each failure with its own error; once all pass the file record is stored, and the campaign (name trimmed, pending, total = valid rows) is stored and answered exactly when the campaign schema accepts it; a blank trimmed name or an empty script leaves the file record, no campaign and no response |
| CampaignRoutes.SaveCampaign | src/routes/campaign.routes.js:86-131 | the file record with the counted rows is stored; the campaign is stored exactly when its required fields are set, else nothing more changes and no response follows |
| CampaignRoutes.StartCheckCoversSettlement | src/routes/campaign.routes.js:320-331 | for a campaign created from a file, as many contacts are dispatched as totalContacts counts, and the start credit check (credits at least totalContacts × rate) passes exactly when the charge after the last batch leaves the credits non-negative |
| CampaignRoutes.StartRefusal | src/routes/campaign.routes.js:312-318 | only pending, paused or failed campaigns may start; the refusal is a 400 |
| CampaignRoutes.UpdateCampaign | src/routes/campaign.routes.js:213-262 | refused while active or completed, and for a script with blocked words; otherwise a 500 exactly when the updated campaign misses a required field (a name blank once trimmed), else the given non-empty fields replace the old ones, the name trimmed |
| CampaignRoutes.DeleteCampaign | src/routes/campaign.routes.js:265-296 | refused while active; otherwise exactly that campaign is removed |
| CampaignRoutes.StartCampaign | src/routes/campaign.routes.js:299-351 | status check, then credits ≥ totalContacts × rate (reporting required and available); success makes it active from `now` |
| CampaignRoutes.PauseCampaign | src/routes/campaign.routes.js:354-385 | only an active campaign pauses; nothing else changes |
| BillingRoutes.Pages | src/routes/billing.routes.js:44 | `Math.ceil(total / limit)`: the least page count covering the total; none for a zero limit |
| BillingRoutes.PageOfRecord | src/routes/billing.routes.js:13-44 | record i lies on page i/limit + 1, which skips the records before it and is within the page count |
| BillingRoutes.SecondKey | src/routes/billing.routes.js:21-27 | each listing's second sort key is neither "amount" nor creation time |
| BillingRoutes.SortFor | src/routes/billing.routes.js:21-27 | "amount" sorts by amount descending, the listing's key ascending, anything else by newest first |
| BillingRoutes.NetAppend | src/routes/billing.routes.js:92-111 | a new record changes the user's net by its signed amount, and another user's not at all |
| BillingRoutes.DebitAccountsForCharge | src/routes/api.routes.js:270-291 | a charge's debit lowers the owner's ledger net by exactly what it takes from the credits |
| BillingRoutes.CreditRecord | src/routes/billing.routes.js:92-107 | a completed credit record whose signed amount is the amount |
| BillingRoutes.AddCredits | src/routes/billing.routes.js:77-132 | refuses a non-positive amount and a missing user; otherwise the credits rise by the amount, and one completed credit record keeps the ledger net in step |
| BillingRoutes.UpdateRates | src/routes/billing.routes.js:326-351 | each rate given is stored, each rate left out is kept, no other setting changes, and a non-zero platform rate is the one charged from then on |
| BillingRoutes.LastOf | src/routes/billing.routes.js:231-239 | the last group of a type, or none when no group has it |
| BillingRoutes.FormatSummary | src/routes/billing.routes.js:223-241 | the loop keeps the last group's amount per type, and net = credits − debits + refunds |
| BillingRoutes.FormatStats | src/routes/billing.routes.js:396-420 | the loop keeps the last group's count and amount per type, and adds up the profit of every debit group |
| BillingRoutes.NoRecordsNoSums | src/routes/billing.routes.js:376-392 | a type with no records has zero amount and profit |
| BillingRoutes.SignedSumByType | src/routes/billing.routes.js:241 | the ledger's signed sum is credits − debits + refunds |
| BillingRoutes.LastOfDistinct | src/routes/billing.routes.js:231-239 | the last group of a type is the one with no later group of that type |
| BillingRoutes.GroupProfitDistinct | src/routes/billing.routes.js:403-415 | with one group per type, the profit is that group's |
| BillingRoutes.GroupProfitAbsent | src/routes/billing.routes.js:403-415 | with no group of a type, its profit is 0 |
| BillingRoutes.KeptGroupSums | src/routes/billing.routes.js:376-420 | for groups that sum the records by type, the kept values are the records' count, amount and profit |
| BillingRoutes.SummaryNetIsLedgerNet | src/routes/billing.routes.js:206-241 | the summary's net equals the signed sum of the records |
| BillingRoutes.StatsMatchLedger | src/routes/billing.routes.js:376-420 | the stats equal the count and amount of each type and the profit of the debits |
| UserRoutes.CreateUser | src/routes/user.routes.js:88-131 | refuses a taken email or username; otherwise a new active user, role "user" and 0 credits by default |
| UserRoutes.UpdateAuthorisation | src/routes/user.routes.js:137-159 | only an administrator changes email, role, credits or the active flag, and may set credits to 0 or deactivate; empty text never overwrites |
| UserRoutes.UpdateIdempotent | src/routes/user.routes.js:153-159 | applying the same update twice is applying it once |
| UserRoutes.UpdateUser | src/routes/user.routes.js:134-177 | forbidden to others than the user and administrators; not found for a missing user; otherwise the profile becomes the updated profile |
| UserRoutes.ApplyUpdate | src/routes/user.routes.js:153-159 | the user's profile becomes the updated profile |
| UserRoutes.ApplyContactFields | src/routes/user.routes.js:153-156 | name, phone and address take the non-empty values given; the other fields are kept |
| UserRoutes.ApplyAdminFields | src/routes/user.routes.js:154-159 | email and role take non-empty values, credits and the active flag any value given |
| UserRoutes.DeleteUser | src/routes/user.routes.js:180-212 | refused while the user has an active campaign; otherwise exactly that user is removed |
| UserRoutes.TopUp | src/routes/user.routes.js:291-340 | refuses a non-positive amount and a missing user; otherwise the credits rise by the amount and a completed credit record keeps the ledger net in step |
| BlocklistRoutes.AddWord | src/routes/blocklist.routes.js:63-102 | "Word is required" for an empty word, "already in the blocklist" for one listed in any case; a save the schema refuses (blank once trimmed, or the trimmed word already stored exactly) is a server error; succeeds exactly when none of these holds, appending the trimmed active entry |
| BlocklistRoutes.AddWordKeepsNoDuplicates | src/routes/blocklist.routes.js:67-90 | adding one word keeps the blocklist free of words listed twice exactly when the trimmed word is not listed, which always holds for a word without surrounding white space |
| BlocklistRoutes.ValidWords | src/routes/blocklist.routes.js:113-114 | the words kept are exactly the non-blank ones |
| BlocklistRoutes.ExistingLowerIsListed | src/routes/blocklist.routes.js:120-125 | a word is in the existing set exactly when it is listed, ignoring case |
| BlocklistRoutes.NewWords | src/routes/blocklist.routes.js:127-128 | the words kept are exactly the valid words not in the existing set |
| BlocklistRoutes.BatchNewWordsMembers | src/routes/blocklist.routes.js:113-128 | a word is new in a batch exactly when it is given, not blank, and not listed in any letter case |
| BlocklistRoutes.EntriesFor | src/routes/blocklist.routes.js:135-140 | one active entry per new word, in order, holding the word trimmed (the schema's `trim`) in the category given or custom |
| BlocklistRoutes.InsertMany | src/routes/blocklist.routes.js:142 | an ordered insert under the unique index: the blocklist grows by a prefix of the entries, and the insert is complete exactly when all went in |
| BlocklistRoutes.InsertManyCompleteIff | src/routes/blocklist.routes.js:142 | every entry goes in exactly when none is already stored and no two entries hold the same word |
| BlocklistRoutes.InsertBatch | src/routes/blocklist.routes.js:142-154 | on success added is the number of entries and skipped the other valid words, with every entry stored; a clash is a server error that leaves the entries before it stored |
| BlocklistRoutes.AddWords | src/routes/blocklist.routes.js:105-155 | the three refusals, each with its own message, leave the blocklist alone; otherwise the new words' entries are inserted, and the request succeeds exactly when none clashes, adding exactly the valid unlisted words with added + skipped = valid |
| BlocklistFacts.SpacedWordListedTwice | src/routes/blocklist.routes.js:67-90 | with "SPAM" listed, " spam" passes the existence check and is stored trimmed, so the word is listed twice |
| BlocklistFacts.TrimmedEscapesCheck | src/routes/blocklist.routes.js:67-90 | any word longer than a listed word that trims to it in another letter case is stored beside it |
| BlocklistFacts.BatchMayListWordTwice | src/routes/blocklist.routes.js:109-147 | two words of one batch that trim to the same text in two letter cases are both stored, which adding words one at a time refuses |
| BlocklistFacts.SpamListedTwice | src/routes/blocklist.routes.js:109-147 | a batch with "spam" and "SPAM" stores both |
| BlocklistFacts.BatchRepeatedWordStoresFirstCopy | src/routes/blocklist.routes.js:109-155 | the same word twice in one batch passes every check, stores its first copy, and then fails with a server error |
| SettingRoutes.PublicSettings | src/routes/setting.routes.js:7-25 | exactly the public settings, with their values |
| SettingRoutes.CategoryFor | src/routes/setting.routes.js:190-197 | api for "infobip.", billing for "call_rate.", notification for "notification.", else system; never user |
| SettingRoutes.PublicKeyCategory | src/routes/setting.routes.js:190-206 | a public default is in the billing or system category |
| SettingRoutes.UpdatedSetting | src/routes/setting.routes.js:107-133 | the key, the value and the updater are set; the other fields are kept unless given, and a new record takes the defaults |
| SettingRoutes.UpdateAgreesWithSetByKey | src/routes/setting.routes.js:103-148 | the endpoint and the model's setByKey store the same value under the key |
| SettingRoutes.UpdateSetting | src/routes/setting.routes.js:103-148 | refuses a missing value and changes nothing; otherwise only that key changes |
| SettingRoutes.DefaultRecord | src/routes/setting.routes.js:199-208 | a seeded setting's category, public flag and encrypted flag follow from its key |
| SettingRoutes.KeysOfAppend | src/routes/setting.routes.js:181-212 | one more default adds exactly its key |
| SettingRoutes.SeededEntries | src/routes/setting.routes.js:181-212 | keys already stored are kept as they are; each missing default is created from its key |
| SettingRoutes.Initialize | src/routes/setting.routes.js:175-224 | the loop leaves the seeded store, with one result per default: skipped iff the key was stored |
| SettingRoutes.InitializedPublicAndEncrypted | src/routes/setting.routes.js:205-206 | on an empty store, the rates and system settings are public and only the API key is encrypted |
| SettingRoutes.NotEncrypted | src/routes/setting.routes.js:206 | a key holding no 'w', and missing 'k' or 'p', contains neither "api_key" nor "password" and is not encrypted |
| SettingRoutes.DefaultKeyFlags | src/routes/setting.routes.js:205-206 | the public and encrypted flags of each of the ten defaults |
| SettingRoutes.DefaultKeyPublic | src/routes/setting.routes.js:205 | defaults 3 to 7 (rates and system) are exactly the public ones |
| SettingRoutes.DefaultKeyEncrypted | src/routes/setting.routes.js:206 | the API key is the only encrypted default |
| SettingRoutes.NotPublic | src/routes/setting.routes.js:205 | keys under "infobip." or "notification." are not public |
| SettingRoutes.ApiKeyFlags | src/routes/setting.routes.js:205-206 | the API key is encrypted and not public |
| CallerIdRoutes.AddCallerId | src/routes/callerId.routes.js:41-83 | refuses a number the user already has (400); a blank number, or one any other user registered (the unique index), fails the save with a 500; otherwise a new unverified active caller ID holding the trimmed number, whose code is valid exactly until an hour after `now` |
| CallerIdRoutes.Register | src/routes/callerId.routes.js:57-66 | stores a new unverified, active caller ID under its id, with the number and description given and a 6-digit code valid exactly until an hour after `now` |
| CallerIdRoutes.VerifyCallerId | src/routes/callerId.routes.js:86-129 | not found, already verified, or wrong/expired code leave the record as it was; success verifies it and clears the code, so no code is valid afterwards |
| CallerIdRoutes.ResendVerification | src/routes/callerId.routes.js:204-239 | refused once verified; otherwise a new code for the draw, valid for an hour from `now` |
| CallerIdRoutes.UpdateCallerId | src/routes/callerId.routes.js:132-161 | a non-empty description replaces the old one; nothing else changes |
| CallerIdRoutes.DeleteCallerId | src/routes/callerId.routes.js:164-201 | refused while an active campaign calls from it; otherwise exactly that caller ID is removed |
| FileRoutes.Destination | src/routes/file.routes.js:12-30 | audio mimetypes go to the audio folder, then ".csv" names to contacts, the rest to documents |
| FileRoutes.FileFilter | src/routes/file.routes.js:37-51 | accepts exactly audio, ".csv" names and the four document types; otherwise "Unsupported file type" |
| FileRoutes.ExtName | src/routes/file.routes.js:33 | the extension is empty or a proper suffix starting with '.'; a name without a dot has none |
| FileRoutes.ExtNameIsDotExtension | src/routes/file.routes.js:33 | past a leading character, the path extension is "." plus the model's extension |
| FileRoutes.CsvKeepsExtension | src/routes/file.routes.js:33 | a CSV file is stored with the extension ".csv" |
| FileRoutes.StoredFilename | src/routes/file.routes.js:31-34 | the stored name is field name, "-", the unique suffix, then the extension |
| FileRoutes.FileTypeOf | src/routes/file.routes.js:67-72 | audio first, then contacts by name, then document |
| FileRoutes.DirectoryMatchesType | src/routes/file.routes.js:12-72 | the folder a file goes to matches the type recorded; audio and CSV always pass the filter |
| FileRoutes.UploadFile | src/routes/file.routes.js:60-137 | filter, size limit and missing-file errors; otherwise a record with the upload's fields and type, and the row counts for a contacts file |
| FileRoutes.UpdateFile | src/routes/file.routes.js:238-267 | a non-empty description replaces the old one; nothing else changes |
| FileRoutes.DeleteFile | src/routes/file.routes.js:270-312 | refused while an active campaign uses it; otherwise exactly that record is removed |
| NotificationRoutes.UnreadAll | src/routes/notification.routes.js:179-188 | one unread entry per user, in order |
| NotificationRoutes.CreateNotification | src/routes/notification.routes.js:154-207 | title and message are required, and recipients unless global; past those checks, a 500 exactly when the schema refuses the draft (a title or message blank once trimmed, a recipient without an id); otherwise the draft of DraftOf |
| NotificationRoutes.DraftOf | src/routes/notification.routes.js:164-193 | title and message trimmed, the type or info, one unread entry per addressee (every active user, or the ids listed), and the schema accepts it exactly when trimmed title and message and every id are non-empty |
| NotificationRoutes.NewNotificationUnread | src/routes/notification.routes.js:176-188 | on a new notification a user has an unread entry exactly when the user is a recipient |
| NotificationRoutes.PostNotification | src/routes/notification.routes.js:164-195 | stores the draft under a new id exactly when CreateNotification accepts the request; a request refused before or by the save stores nothing |
| NotificationRoutes.MarkRead | src/routes/notification.routes.js:104-123 | "not found or already read" for a missing notification or when markAsRead's query does not match, and succeeds exactly otherwise; the recipients become MarkedAsWritten of the old ones |
| NotificationRoutes.DeleteNotification | src/routes/notification.routes.js:210-231 | not found for a missing id; otherwise exactly that notification is removed |

## Left out

- CampaignModel.Progress: the percentage is the exact rational processed/total × 100 rounded half up. JavaScript computes `Math.round((processed / total) * 100)` in doubles, whose representation error can fall just below a half: 23 of 40 gives 57 there, not 58 (29 of 200 gives 14, 115 of 200 gives 57). ProgressComplete, ProgressBounds and ProgressMonotone hold either way.
- CampaignRoutes.CreateCampaign: the 10 MB upload limit of the multer middleware is not modelled; an upload is given as its name, type and rows, without a size limit.
- CallerIdRoutes.AddCallerId: the schema's `trim` on the caller ID's `description` is not applied; the description is stored as given.
- FileRoutes.UploadFile: the schema's `trim` on the file's `description` and `originalname` is not applied; both are stored as given.
- NotificationRoutes.CreateNotification: the `link` and `expiresAt` fields of the request are not modelled, so the draft has neither.
- The read-only endpoints are not modelled: lists, single records, statistics, downloads, `/campaign/:id/status` and the unread count. Their Mongo queries, `populate` and the aggregation pipelines are not modelled either. The summary and stats folds take the aggregation's groups as input, and `Describes` states what the groups must hold.
- The dashboard and authentication routes are not part of this model. Neither are sessions, password hashing and the user model file; the user's fields are taken from how the user routes use them.
- Blocklist PUT, DELETE and `/check`, the settings GET and DELETE endpoints, the `/infobip`, `/email` and `/system` shortcuts, notification read-all and the admin listings: their updates are field assignments of the same kind as the modelled ones and were left out to keep the model focused.
- Mongoose validation on save is modelled for calls (the required fields and the status enum, CallModel.Validates), campaigns (the required fields, with the name trimmed, CampaignModel.CampaignSaves), notifications (title and message required and trimmed, and a user on every recipient, NotificationRoutes.DraftSaves), caller IDs (the required and unique phone number) and blocklist words (`trim`, `required`, `unique`). The other models' enums, required fields and unique indexes are not checked, nor is the cast of an id that is not an ObjectId or of a notification `type` outside its enum. The model checks every required field and the enum on every save. Mongoose runs required validators on every save too, but runs the others, the enum among them, only on the paths that were modified. For the records the handlers create or update, the two agree.
- Disk storage, directory creation, file removal and the streaming CSV parser are left out. Rows arrive already parsed as column maps.
- Timers, `Date.now()`, `Math.random()` and the provider's HTTP API are not modelled. The clock and random draws are parameters. The simulated outcomes are an `Outcome` input. Requests to the provider are not modelled; only the check that its key is configured is.
- Concurrency is not modelled. The handlers run one at a time, so lost updates between overlapping requests are not captured.
- Money is integer cents rather than floating-point dollars, so rounding errors of JavaScript numbers are not captured.
- BlocklistModel.FoundWords: blocked words are assumed to hold no regular-expression special characters, and the `\b` word boundary is modelled for ASCII letters, digits and '_'.
- BlocklistRoutes.AddWord: the existence check is modelled as case-insensitive equality. It is the anchored `^word$` regular expression only for words without special characters.
- NotificationModel.Notification.MarkAsRead: MongoDB does not say which entry the positional operator `$` binds to when the query has two separate conditions on the array. The model takes the first unread entry, the element matched by the query's last condition. The update counts one modified document.
- BlocklistModel.FoundWordsMembers: the `i` flag is modelled as ASCII case folding. Letters outside ASCII (É and é) are compared as they are, where JavaScript would fold their case.
- BlocklistModel.ContainsBlockedWords: the same ASCII-only case folding, so a blocked word with letters outside ASCII is found only in the letter case it was stored in.
- Util.EqualsIgnoreCase: case folding covers ASCII letters only, so the blocklist's existence checks (BlocklistRoutes.AddWord, BlocklistRoutes.AddWords) ignore the case of ASCII letters only.
- SettingModel.NumberSetting: a stored value that is truthy but not a number (a string such as "7", or `true`) is what `||` yields (SettingModel.OrElse), and the handlers then use it with JavaScript's coercions; a string batch size would even be concatenated by `i += batchSize`. The model takes the fallback in that case instead.
- ApiRoutes.TestCall: without a caller ID in the request, the handler calls from the first verified caller ID Mongo returns in natural order. The model only requires that one exists; the caller IDs are a map and carry no order.
- FileRoutes.ExtName: names containing '/' are not modelled; original file names from the upload carry no directory.
- ApiRoutes.ProcessCampaign: the dispatch's HTTP response is the summary returned, but the simulated outcomes after it are modelled by ApiRoutes.SimulateOutcome as separate steps.
- The Call schema has no `callId`, `dtmfDigits`, `messageScript`, `isTest` or `contactData` field, so Mongoose's strict mode drops all five on save. The model keeps them as the handlers assign them, so `FindCall` by `callId` finds calls the real collection could not.
- ApiRoutes.TestCall: the debit, the charge and the simulated completion five seconds later are not modelled, because the call's save before them always fails.
- ApiRoutes.ProcessCampaign: the rejected save inside processBatch is an unhandled promise rejection after the 200 has been sent; the model only says that the walk stops there. Batches after a stalled, empty slice are re-scheduled every minute forever in the handler; the model ends the walk at that point, which stores and charges the same.
