# bazacars in Dafny

bazacars is a scraper and Telegram bot for used-car ads. Once a day it reads
the brand index of a car-ads site and walks every brand's result pages. It
fetches each ad, retrying without a cap while the site answers 403, and
stores the cars of each page in a Postgres table keyed by (ad_id, parsed
day). It then announces the new ads and the ads whose price changed to
subscribers, and marks each one as sent. A Telegram bot controls who may use
it: the first user becomes the approved admin, later users wait for an admin,
and admins flip the approve and admin flags of others through inline buttons.

The model covers the following, one module per source file:

- `model.dfy` (module `Model`): the records of `internal/model/model.go`. `Car` gains an `oldPrice` field, because the price-change message reads it.
- `text.dfy` (module `Text`): the pieces of Go's `strings` and `strconv` the parser relies on, with their exact edge cases:
  - `strconv.Atoi`, including the clamped value on a range error and 0 on a syntax error, and `strconv.Itoa`;
  - cut-set trimming (`TrimLeft`, `TrimRight`), `TrimSuffix`, `TrimSpace`, `Contains`, `ReplaceAll` and ASCII `ToLower`.
- `parser.dfy` (module `Parser`): how an HTTP status is classified, the page count, the drive type, the posted-date and label trimming, the price text, the brand index, the ad-link list and the car record. HTTP answers and HTML selections arrive as values.
- `postgres.dfy` (module `Postgres`): the `cars` and `users` tables as a `map` and a `seq` held by a `Repository` class, with insert-if-absent, lookup, the admin filter and update-by-key.
- `service.dfy` (module `Service`): `CarParsingService`, covering the brand map, the 403 retry loop, the link loop of a page, and the page loop of a brand with one insert per page. Every loop is proved against a recursive specification function.
- `outbox.dfy`, `callbacks.dfy`, `commands.dfy`, `bot.dfy` (modules `Outbox`, `Callbacks`, `Commands`, `Bot`): the bot.
  - Each handler is a function from the state before (the users table and the messages sent) to the state after, and the properties are lemmas about those functions.
  - The class `Bot` runs the same handlers step by step against a `Repository`, and each method is proved to end in the state its function gives.
- `app.dfy` (module `App`): the body of the daily job and the price arrow.

Repository faults are modelled as a `bool` per call, or as a `Faults` record per handler, that makes that call fail. Fetch results, cancellation, jitter and the clock are fields of an `Env` or `Host` value.

## Model

| member | source | states |
|---|---|---|
| Parser.UrlBody | internal/parser/parser.go:100-110 | 200 gives the body; 404 gives ErrStatusNotFound and 403 gives ErrStatusForbidden, each if and only if; any other code gives an error carrying that code; a transport failure gives a transport error |
| Parser.TotalPagesReadsPager | internal/parser/parser.go:81-85 | an empty pager text means 1 page, and the decimal text of n reads as n pages |
| Parser.TotalPagesExactly | internal/parser/parser.go:81-85 | a non-empty pager gives a page count if and only if it is an int64 text, and that count is the value it denotes; any other non-empty pager is an error carrying that text |
| Parser.ParseDriveTypeChoice | internal/parser/parser.go:215-223 | AWD if and only if the text contains "AWD"; RWD if and only if it contains "RWD" but not "AWD"; FWD if and only if it contains neither |
| Parser.PriceText | internal/parser/parser.go:203-205 | the price text is the prefix of the content before its first '.', and holds no '.' |
| Parser.BrandIndexKeys | internal/parser/parser.go:232-237 | the brand map's keys are exactly the trimmed anchor texts with "&nbsp;" removed |
| Parser.BrandIndexLastWins | internal/parser/parser.go:232-237 | a brand name maps to the link of its last anchor: a later duplicate overwrites an earlier one |
| Parser.ExtractCarManufacturers | internal/parser/parser.go:225-239 | the fill loop yields the brand index of the anchors, or an error when the document does not load |
| Parser.ParseCarBrands | internal/parser/parser.go:32-39 | a map is returned only for a 200 answer, and it is the brand index of the page |
| Parser.StripQuery | internal/parser/parser.go:251-257 | the link is the URL printed with its query removed, and it starts with the URL's scheme, host and path; a "?" follows them if and only if the href ended in a bare "?" (ForceQuery) |
| Parser.AdLinksAppend | internal/parser/parser.go:248-258 | links keep document order: the links of two runs of hrefs are the first run's links followed by the second's |
| Parser.AdLinksCount | internal/parser/parser.go:248-258 | there is one link per parsable href; unparsable hrefs are skipped |
| Parser.AdLinksStripped | internal/parser/parser.go:248-258 | every link is the query-stripped form of some parsable href |
| Parser.ExtractAdList | internal/parser/parser.go:241-260 | the append loop yields the ad links of the document, or an error when it does not load |
| Parser.ParseAdList | internal/parser/parser.go:42-49 | the ad list of the fetched page, where a non-200 status is an error |
| Parser.PostedTextToday | internal/parser/parser.go:126-135 | "Posted: Today hh:mm" becomes today's date followed by the time |
| Parser.PostedTextYesterday | internal/parser/parser.go:126-135 | "Posted: Yesterday hh:mm" becomes yesterday's date followed by the time |
| Parser.PostedTextDate | internal/parser/parser.go:126-127 | "Posted: " followed by a date starting with a digit leaves just the date |
| Parser.CarData | internal/parser/parser.go:113-140 | the car record fails if and only if the document does not load or the posted date does not parse |
| Parser.CarDataSwallowsBadNumbers | internal/parser/parser.go:148-153 | a year that does not parse leaves year 0, and the record is still returned without error |
| Parser.ReadChars | internal/parser/parser.go:142-190 | the characteristics loop sets each labelled field from the last value under that label, and leaves the other fields unchanged |
| Parser.ReadPrice | internal/parser/parser.go:200-211 | the price comes from the last meta tag whose itemprop is "price", and is 0 when there is none |
| Parser.ExtractCarData | internal/parser/parser.go:113-213 | the field-by-field assignment ends in the record CarData describes |
| Parser.CarPage | internal/parser/parser.go:52-64 | 403 surfaces as ErrStatusForbidden if and only if the site answered 403, and a parsed car's link is the fetched URL |
| Parser.ParseCarPage | internal/parser/parser.go:52-64 | ParseCarPage returns what CarPage describes |
| Text.Atoi | internal/parser/parser.go:206 | the result always lies in the int64 range, and a syntax error gives 0 |
| Text.AtoiItoa | internal/parser/parser.go:85 | every int64 printed in decimal parses back to itself without error |
| Text.AtoiExactly | internal/parser/parser.go:85 | Atoi succeeds if and only if the text is an optional sign followed by one or more digits whose value fits int64, and then returns that value |
| Text.AtoiRejectsTrailingNonDigit | internal/parser/parser.go:85 | text ending in a non-digit is a parse error |
| Text.TrimLeftTrims | internal/parser/parser.go:127-133 | TrimLeft returns a suffix of the text; every removed character is in the cut set, and the first kept one is not |
| Text.TrimLeftStops | internal/parser/parser.go:127-133 | trimming stops at the first character outside the cut set, whatever follows |
| Text.TrimRightTrims | internal/parser/parser.go:161-184 | TrimRight returns a prefix of the text; every removed character is in the cut set, and the last kept one is not |
| Text.TrimSuffix | internal/parser/parser.go:234 | the suffix is removed once when present; otherwise the text is unchanged |
| Text.TrimSpaceTrims | internal/parser/parser.go:196 | the result neither starts nor ends with white space, and occurs within the input |
| Text.TrimSpaceKeepsTrimmed | internal/parser/parser.go:235 | text without white space at either end is left unchanged |
| Text.ContainsOccurs | internal/parser/parser.go:216-219 | Contains is true if and only if the substring occurs at some position |
| Text.ReplaceAllAbsent | internal/parser/parser.go:185 | replacing a pattern that does not occur changes nothing |
| Text.ReplaceAllLeading | internal/parser/parser.go:194-195 | a text that starts with the pattern starts with the replacement afterwards |
| Text.ToLower | internal/parser/parser.go:168 | same length, with each character mapped to lower case |
| Postgres.Repository.SaveCars | internal/repository/postgres/postgres.go:33-46 | a failed insert changes nothing; otherwise every car is inserted under (ad_id, parsed day), unless that key is already present |
| Postgres.InsertAllKeepsRows | internal/repository/postgres/postgres.go:41 | a row whose key already exists is never changed (ON CONFLICT DO NOTHING) |
| Postgres.InsertAllKeys | internal/repository/postgres/postgres.go:33-46 | the keys afterwards are the old keys plus the (ad_id, day) of each car in the batch |
| Postgres.InsertAllPresent | internal/repository/postgres/postgres.go:41 | a batch whose keys all exist leaves the table as it was |
| Postgres.InsertAllIdempotent | internal/repository/postgres/postgres.go:33-46 | saving the same batch twice on the same day leaves the table as after one save |
| Postgres.InsertAllFirstWins | internal/repository/postgres/postgres.go:41 | for a new key, the stored row is the first car of the batch with that ad_id, stamped with the day and a zero old price |
| Postgres.SeparateRowPerDay | internal/repository/postgres/postgres.go:34-41 | the same ad on a later day becomes a row of its own, and the earlier day's row is kept |
| Postgres.Scanned | internal/repository/postgres/postgres.go:58-68 | the scan collects a prefix of the query's rows: all of them when iterating does not fail, otherwise the rows read before the failure, and in both cases without an error |
| Postgres.ScanRows | internal/repository/postgres/postgres.go:58-68 | the `rows.Next` loop builds Scanned |
| Postgres.Repository.Users | internal/repository/postgres/postgres.go:50-69 | a failed query gives the storage error; otherwise the rows Scanned collects from the whole table, which are cut short without an error when iterating fails |
| Postgres.Repository.User | internal/repository/postgres/postgres.go:71-82 | NotFound when no row has the chat id; otherwise the row with that chat id |
| Postgres.Lookup | internal/repository/postgres/postgres.go:71-82 | none if and only if no row has the chat id; otherwise a row of the table with that chat id |
| Postgres.LookupFindsRow | internal/repository/postgres/postgres.go:71-82 | since chat_id is the key, the row found is the row with that id |
| Postgres.Repository.Admins | internal/repository/postgres/postgres.go:84-105 | a failed query gives the storage error; otherwise the rows Scanned collects from the admin rows, which are cut short without an error when iterating fails |
| Postgres.AdminsOfExactly | internal/repository/postgres/postgres.go:85 | a user is among the admins if and only if it is a row whose admin flag is set |
| Postgres.AdminsOfEmpty | internal/repository/postgres/postgres.go:85 | the admin list is empty if and only if no row has the admin flag |
| Postgres.AdminsOfUnique | internal/repository/postgres/postgres.go:85 | the admins of a table keyed by chat_id have distinct chat ids |
| Postgres.Repository.UserAdd | internal/repository/postgres/postgres.go:107-112 | appends the row, or fails with a key violation when the chat id exists; the table stays keyed by chat_id |
| Postgres.Repository.UserSave | internal/repository/postgres/postgres.go:114-130 | the table becomes UpdateRows of the old one; an update that matches no row is not an error |
| Postgres.Saved | internal/repository/postgres/postgres.go:115-122 | chat_id and created_at are kept; the names and flags are overwritten, and updated_at becomes now |
| Postgres.UpdateRowsChangesOnlyMatch | internal/repository/postgres/postgres.go:122 | rows with another chat id are unchanged, and the matching row becomes Saved |
| Postgres.UpdateRowsKeepsIds | internal/repository/postgres/postgres.go:114-122 | no chat id changes |
| Postgres.UpdateRowsThenLookup | internal/repository/postgres/postgres.go:114-122 | after the update, looking up that chat id gives the saved row |
| Service.CarParsingService.LoadCarBrands | internal/service/service.go:38-42 | the brand map is replaced wholesale by the parsed index; a failure leaves no brands and returns the error |
| Service.CarParsingService.CarBrands | internal/service/service.go:45-47 | the brands offered are the keys of the loaded map |
| Service.CarParsingService.FetchCar | internal/service/service.go:89-101 | the retry loop ends in the first answer that is not a 403, which is never ErrStatusForbidden, after the sleeps Resolve records |
| Service.ResolveSettles | internal/service/service.go:89-95 | the result is the answer of the first attempt that was not a 403; every earlier attempt was a 403; every sleep is 1000 + r ms with 0 <= r < 2500 |
| Service.ResolveIgnoresCancel | internal/service/service.go:86-101 | the retry outcome does not depend on cancellation: the context is not consulted inside the loop |
| Service.WaitsInRangeConcat | internal/service/service.go:93 | sleep traces within the bound stay within it when joined |
| Service.CarParsingService.ParsePage | internal/service/service.go:84-102 | the link loop yields RunPage's batch, its sleeps and whether it was cancelled, and the batch is no longer than the links |
| Service.RunPageStops | internal/service/service.go:86-88 | once cancelled before an ad, later links change nothing |
| Service.RunPageBatch | internal/service/service.go:84-101 | at most one car per link, each car's link is the site plus one of the page's links, and all sleeps are within the bound |
| Service.RunPageUncancelled | internal/service/service.go:85-101 | without cancellation the batch is exactly the successful fetches in link order; other errors drop that ad only |
| Service.CarParsingService.ParseAdsByBrand | internal/service/service.go:50-109 | the page loop ends in the table, the error, the visited pages, the saved batches and the sleeps that CrawlBrand gives; the users are unchanged |
| Service.BrandNotFoundFirst | internal/service/service.go:51-54 | an unknown brand fails before any page is fetched, and the table is unchanged |
| Service.NoPagesNoVisits | internal/service/service.go:70 | a page count of 0 or less visits no page and saves nothing |
| Service.CrawlPagesStops | internal/service/service.go:76-83 | after an error or a cancellation, later pages change nothing |
| Service.CrawlPagesVisits | internal/service/service.go:70-107 | pages are visited as 1, 2, 3, ... in order, at most n of them; every visited page was saved except at most the last, when it failed; without an error all n pages are visited |
| Service.PageStepEffect | internal/service/service.go:76-106 | one page either saves nothing or inserts exactly its batch once, and its sleeps are within the bound |
| Service.CrawlPagesTable | internal/service/service.go:103-105 | the table is the start table with the saved batches inserted in order, one insert per page |
| Service.CrawlPagesSleeps | internal/service/service.go:93 | every sleep of the crawl lies in [1000, 3500) ms |
| Service.SaveAllKeepsRows | internal/service/service.go:103-105 | pages already saved stay saved: an earlier row is never removed or changed |
| Service.CrawlBrandFacts | internal/service/service.go:50-109 | a brand crawl keeps every earlier row, visits pages from 1 upwards, and sleeps within the bound |
| Callbacks.ChatIdFromData | internal/bot/callbacks.go:108-114 | a chat id is read if and only if the value is a JSON number; anything else is BadChatId |
| Callbacks.TruncToward0 | internal/bot/callbacks.go:113 | the float-to-int64 conversion rounds toward zero |
| Callbacks.ChatIdRoundTrip | internal/bot/callbacks.go:108-114 | once a button's payload is decoded, the number under the action's key converts back to the chat id it was built from, and no other action's key is present |
| Callbacks.ApproveStep | internal/bot/callbacks.go:46-70 | an error leaves the table and the messages as they were, and messages are only ever added |
| Callbacks.AdminStep | internal/bot/callbacks.go:72-106 | an error leaves the table and the messages as they were, and messages are only ever added |
| Callbacks.CallbackStep | internal/bot/callbacks.go:18-44 | a failed delete or an unparsable payload changes nothing, and messages are only ever added |
| Callbacks.NonNumberChangesNothing | internal/bot/callbacks.go:47-50 | a payload that is not a number fails both actions with BadChatId and changes nothing |
| Callbacks.ApproveToggles | internal/bot/callbacks.go:51-58 | the approve action flips that user's approved flag, keeps its admin flag, and leaves every other row as it was |
| Callbacks.ApproveAnswers | internal/bot/callbacks.go:59-68 | "You are approved!" goes to the user if and only if they become approved, and the last message goes to the admin who pressed the button |
| Callbacks.LastAdminGuard | internal/bot/callbacks.go:84-92 | removing the only admin's rights saves nothing, returns no error, and sends the alert |
| Callbacks.OnlyAdminGuarded | internal/bot/callbacks.go:88 | the guard fires only when the admins are exactly that user's row |
| Callbacks.AdminToggles | internal/bot/callbacks.go:81-96 | past the guard, the admin action flips that user's admin flag and keeps its approved flag |
| Callbacks.ApproveKeepsAdminFlags | internal/bot/callbacks.go:55-58 | the approve action changes no admin flag and no chat id |
| Callbacks.SavedFlipKeepsAnAdmin | internal/bot/callbacks.go:81-96 | an admin flip that passes the guard leaves some admin |
| Callbacks.AdminKeepsAnAdmin | internal/bot/callbacks.go:84-96 | a table with an admin keeps one after the admin action, so the admin count never goes from 1 to 0 |
| Callbacks.CallbackKeepsAnAdmin | internal/bot/callbacks.go:18-44 | a whole callback keeps chat_id a key and keeps an admin in a table that had one |
| Callbacks.ApproveFailureStops | internal/bot/callbacks.go:30-35 | when the approve action fails, the admin action does not run and nothing changes |
| Commands.IsAdminMeansAdminRow | internal/bot/commands.go:126-133 | the admin check is true if and only if the lookup works and the user's row has the admin flag; any error means false |
| Commands.ListingMarks | internal/bot/commands.go:26-36 | one line per user in table order, marked ✅ if and only if approved |
| Commands.ListUsers | internal/bot/commands.go:26-36 | the listing loop builds Listing |
| Commands.ButtonRowsExactly | internal/bot/commands.go:53-76 | every shown user has its button and every button belongs to a shown user, with that user's chat id under the action's key; no rows if and only if no user is shown |
| Commands.ButtonRowsAppend | internal/bot/commands.go:53-76 | buttons keep the order of the Users result |
| Commands.CollectRows | internal/bot/commands.go:53-76 | the button loop builds ButtonRows |
| Commands.UsersStep | internal/bot/commands.go:20-38 | the /users command changes no row; when the read works it sends the asker the listing of the table, and otherwise nothing |
| Commands.UsersListsEveryUser | internal/bot/commands.go:20-38 | the /users reply goes to the asker and has one line per user in table order, marked ✅ if and only if that user is approved |
| Commands.ApproveCommandStep | internal/bot/commands.go:40-83 | the /approve command changes no row |
| Commands.AdminsCommandStep | internal/bot/commands.go:85-124 | the /admins command changes no row |
| Commands.NonAdminRefused | internal/bot/commands.go:42-45 | a non-admin asking for /approve or /admins gets only "You are not admin" |
| Commands.ApproveCommandKeyboard | internal/bot/commands.go:53-83 | with every user an admin the reply is "No users to approve/deny" with no keyboard; otherwise the keyboard holds the non-admins |
| Commands.AdminsCommandKeyboard | internal/bot/commands.go:98-123 | the /admins keyboard is always sent and holds exactly the approved users |
| Bot.UserInfo | internal/bot/bot.go:122-130 | the name shown is never empty; it is the username when there is one, and otherwise "first last" when both names are set |
| Bot.UserInfoFallbackNamesChat | internal/bot/bot.go:129 | the fallback is "id:" followed by digits that read back as the chat id |
| Bot.NewUser | internal/bot/bot.go:155-164 | the inserted row has the chat's id and the requested admin and approved flags |
| Bot.AddStep | internal/bot/bot.go:155-169 | the insert succeeds if and only if there is no fault and no row with that chat id; it sends nothing |
| Bot.NoticesToEachAdmin | internal/bot/bot.go:146-149 | one note per admin, in the order of the admins |
| Bot.ApprovalStep | internal/bot/bot.go:132-153 | messages are only ever added |
| Bot.KnownUserApproval | internal/bot/bot.go:132-152 | a known user's answer is their stored approved flag, and nothing changes |
| Bot.FirstUserBecomesAdmin | internal/bot/bot.go:141-144 | with no admins, an unknown user is added as approved admin and reported approved, even when the insert fails; no one is told |
| Bot.UnknownUserWaits | internal/bot/bot.go:146-150 | with admins, every admin is told in order, and the user is added as neither admin nor approved and reported not approved |
| Bot.AdminsFaultAddsNobody | internal/bot/bot.go:136-139 | when the admins cannot be read the error is returned, no user is added and no one is told |
| Bot.ApprovalKeepsStaffed | internal/bot/bot.go:132-153 | chat_id stays a key, and once anyone is registered there is an admin |
| Bot.CommandStep | internal/bot/bot.go:91-103 | no command changes a row |
| Bot.MessageStep | internal/bot/bot.go:76-104 | messages are only ever added |
| Bot.UnapprovedNotDispatched | internal/bot/bot.go:83-88 | a user who is not approved never reaches a command handler; the only reply is the waiting-list message |
| Bot.UnknownCommandAnswered | internal/bot/bot.go:101-102 | an approved user's unknown command gets "I don't know that command" |
| Bot.CallbackUpdateStep | internal/bot/bot.go:61-69 | messages are only ever added |
| Bot.MessageKeepsStaffed | internal/bot/bot.go:76-104 | a message update keeps chat_id a key and keeps an admin once anyone is registered |
| Bot.CallbackKeepsStaffed | internal/bot/bot.go:61-69 | a callback update keeps chat_id a key and keeps an admin once anyone is registered |
| Bot.CallbackOnEmptyTable | internal/bot/callbacks.go:51-53 | with no users, a callback finds no one and adds no row |
| Bot.Bot.AddUser | internal/bot/bot.go:155-169 | addUser ends in the state AddStep gives |
| Bot.Bot.IsUserApproved | internal/bot/bot.go:132-153 | the lookup, the admins loop and the insert end in the answer, error and state that ApprovalStep gives |
| Bot.Bot.IsUserAdmin | internal/bot/commands.go:126-133 | the answer is IsAdmin of the table |
| Bot.Bot.CommandUsers | internal/bot/commands.go:20-38 | ends in the state UsersStep gives |
| Bot.Bot.CommandApprove | internal/bot/commands.go:40-83 | ends in the state ApproveCommandStep gives |
| Bot.Bot.CommandAdmins | internal/bot/commands.go:85-124 | ends in the state AdminsCommandStep gives |
| Bot.Bot.HandleApproveCallback | internal/bot/callbacks.go:46-70 | ends in the error and state ApproveStep gives |
| Bot.Bot.HandleAdminCallback | internal/bot/callbacks.go:72-106 | ends in the error and state AdminStep gives |
| Bot.Bot.HandleCallback | internal/bot/callbacks.go:18-44 | ends in the error and state CallbackStep gives |
| Bot.Bot.OnCallback | internal/bot/bot.go:61-69 | ends in the state CallbackUpdateStep gives |
| Bot.Bot.OnMessage | internal/bot/bot.go:76-104 | ends in the error and state MessageStep gives |
| App.Arrow | internal/app/app.go:137-140 | the chart goes up if and only if the price is above the old price |
| App.ArrowSwap | internal/app/app.go:137-140 | swapping the old and new price turns the arrow over unless they are equal; an unchanged price shows the chart going down |
| App.NotesPerAd | internal/app/app.go:87-96 | one announcement and one mark per ad, in order, with that car's arrow |
| App.EveryAnnouncedAdMarked | internal/app/app.go:87-117 | every announced ad is marked sent, whether or not the broadcast succeeded |
| App.NoNewAdsNoPriceNotes | internal/app/app.go:78-86 | a NewAds error, or no new ads, ends the job before price changes are announced |
| App.App.Announce | internal/app/app.go:87-96 | the loop records one announcement and one mark per ad |
| App.CrawlEachGrows | internal/app/app.go:71-75 | crawling brands one after another keeps every row the table had |
| App.App.CrawlAll | internal/app/app.go:71-75 | each brand of the map is crawled exactly once, and the table is what crawling them one after another in that order gives, so a brand's error stops no other brand; the cars table only grows |
| App.App.AnnounceAll | internal/app/app.go:77-118 | announcements and marks are those Announced gives |
| App.App.Cycle | internal/app/app.go:64-119 | a brand-load failure ends the job with nothing crawled, sent or marked; otherwise the brands are the loaded map, every brand is crawled once in turn, the table is what those crawls give and only grows, and the announcements follow Announced |

## Left out

- Postgres.Repository.Users: the query has no ORDER BY, so SQL promises no row order. The model returns rows in insertion order, and UserSave updates a row in place. An UPDATE in Postgres may move a row in scan order. Properties about the order of listings, buttons and admin notices hold relative to the order the query returns.
- Postgres.Repository.Admins: the same holds for the order. The bot handlers (`Bot.Bot`, and the Step functions in Callbacks, Commands and Bot) are modelled for scans that run to the end. The cut-short scan that the repository methods model is not propagated to them. A cut-short admin scan would make isUserApproved treat a newcomer as the first user, and could let the last-admin guard of handleAdminCallback pass.
- Service.Env: the fetch oracle is indexed by URL and attempt. The same ad URL listed on two pages therefore gets the same answers, which the real site does not promise; no property depends on it.
- HTTP transport, the user-agent pool and the random X-Forwarded-For address (internal/parser/parser.go:17-29, 88-99): a fetch is a `Fetch` value, either a transport error or a status code with a body.
- goquery HTML selection: the selected texts and attributes arrive as values (`Doc`, `CarDoc`, `Anchor`, `Url`).
- `url.Parse`, `url.JoinPath` and `URL.String`: these are foreign. A parsed href is an `Url` value, or None when parsing fails, and JoinPath is an `Env` function. Both of the brand URL's error checks (service.go:55-62) are modelled as one failure, `BadUrl`.
- Floating point:
  - The engine size goes through `ParseFloat`, which is a `Host` function.
  - A float64 chat id is modelled as a mathematical real; float64 rounding of ids beyond 2^53, and the out-of-range int64 conversion, are not modelled.
- The clock: `time.Now`, `time.Parse` and the date format are `Host` values. The date the repository stamps is the `now` parameter.
- Actual sleeping: only the ghost trace of durations is kept.
- A site that answers 403 for ever: the source then loops for ever. The model requires `Relents` (some attempt at every ad URL is not a 403), because an unbounded loop cannot be verified to end.
- Cancellation: `ctx.Err()` is an `Env` oracle, consulted at the two checkpoints the source has.
- The SQL builder and driver:
  - Each statement's failure is a flag, and an insert fails as a whole.
  - Whether an empty `SaveCars` batch is an error depends on the query builder, so that outcome is left to the fault flag.
  - Error wrapping (`fmt.Errorf`) is not kept; only the underlying error is.
- `NewAds`, `AdsWithNewPrice`, `AdSent` and `UpdateSent`: their queries are not part of this model. The results of the first two are parameters of `Cycle`. `AdSent` is recorded as a mark whose outcome is ignored, as the source ignores it. `UpdateSent` is never called by the job.
- `SendMessageToSubscribers` is not part of this model: an announcement is recorded with its delivery outcome.
- Telegram:
  - The update loop, goroutines and `SendMessage` are out of scope; a message counts as sent whatever Telegram answers, since a send failure is only logged.
  - JSON encoding and decoding are out of scope: a payload arrives decoded. `Decoded` stands for what `json.Unmarshal` makes of the text `ButtonData` prints, so Callbacks.ChatIdRoundTrip covers only the number conversion after decoding.
  - `json.Marshal` of a `map[callbackAction]int64` cannot fail, so its error branch (commands.go:67-70, 112-115) is not modelled.
- Message texts are kept only where a property depends on them. `User.String` is not part of this model, so messages and buttons that print a user keep the `User` value instead of the text. The new-car and price-change message bodies are out of scope, apart from the arrow.
- The cron schedule and the bot goroutine (internal/app/app.go:59-64, 123).
- internal/repository/repository.go, internal/config/config.go and logging.
- Text.ToLower: maps only ASCII letters; Go's `strings.ToLower` also lowers non-ASCII letters.
- Parser.PostedTextYesterday: assumes yesterday's date does not start with "Today ", which any date format satisfies.
- Postgres.Repository.UserSave: the source also maps `sql.ErrNoRows` to NotFound. An UPDATE never reports that error, so the branch is dead and is not modelled.
- Callbacks.YouAreAdmin: the crown emoji is stored mis-encoded in the source, and the text is kept as written.
