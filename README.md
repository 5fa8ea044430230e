# Don't Panic server — a Dafny model of its request handlers

This project models the Rust backend of the Don't Panic error-reporting
server (`src/`): the ingestion endpoint that deduplicates reports by title
and chains their events, the notification dispatcher that fans a new or
regressed report out to email, Pushover, Slack, Teams and webhooks, the
paginated report listing, the organization, member, project and account
handlers with their authorisation rules, the usage statistics and the
scheduled spike and quota-threshold jobs, the authentication flows
(registration, login, password reset, email verification, email change,
TOTP), and the small pure mappings (errors to HTTP responses, API
responses, configuration parsing, the view model's response decision).

The relational database is one `Store.Database` object with a map per
table keyed by primary key and an auto-increment counter per table;
handlers are methods whose `modifies` clauses name the tables they write,
so every other table is unchanged by construction. `Database.Valid` holds
the schema facts the handlers rely on: every key is below its table's
counter, API keys are unique, and the events of each report form one
doubly linked chain in id order. The mailer, HTTP clients, bcrypt, TOTP
verification, random slugs and hashes, cookie decryption, format
validators and time-zone parsing are parameters (the `App.Context`,
`App.Crypto` and `App.Checks` values), so each handler is proved for every
behaviour of those collaborators. Timestamps are integers (seconds).

Modules follow the source files: `Ingress` (ingress.rs), `Notifications`
(notifications.rs), `Reports` with the generic keyset-pagination module
`Ordering` (reports.rs), `Members`, `Organizations`, `Projects`, `Stats`
(handlers/organizations/…), `Cron` (cron.rs), `Account`, `Totp`,
`NotificationSettings`, `SlackWebhook`, `SlackApp`, `TeamsWebhook`,
`Webhook`, `Register`, `Login`, `ResetPassword`,
`ResendVerificationEmail`, `RequestPasswordReset`, `VerifyEmail`,
`ChangeEmail`, `Errors` (error.rs), `ApiResponses` (api_response.rs),
`Configuration` (config.rs), `Views` (view_model.rs), `Server` (main.rs),
with `Store` (tables and entity_extensions.rs), `Sessions` (the cookie
session), `Text` (trimming, decimal and URL encoding) and `Wrappers`.

Several source files disagree with each other; each is modelled as
written. `Notifications.Notification` carries `status: Option<…>` and an
`environment`, as src/notifications.rs declares it; src/handlers/ingress.rs
builds it without an environment, so the model's ingestion queues
notifications whose environment is `None`. src/cron.rs constructs a
`ReportStatus::Spiking` variant that src/notifications.rs lacks; the model
adds `Spiking(percentage)` to `ReportStatus`, and since every status other
than `New` takes the "reappeared" wording in src/notifications.rs, a spike
alert is worded like a regression. src/cron.rs is not declared as a module
in src/main.rs; it is modelled regardless. src/config.rs has no
`organization_requests_limit` and no `pushover_app_token`, which other
files read from the configuration; they are separate `App.Context` fields.

Some behaviour of the source is kept as written although it may surprise a
reader. The spike job of src/cron.rs:67-69 compares each current-hour stat
with the first previous-hour row it fetched, whatever report that row
belongs to (`Cron.Bases`). The Slack webhook `save` of
src/handlers/notifications/slack_webhook.rs:59-70 updates every listed
environment that exists, whichever project it belongs to
(`SlackWebhook.Save`). Email confirmation links of
src/handlers/auth/verify_email.rs never expire (`VerifyEmail.VerifyEmail`).

## Model

| member | source | states |
|---|---|---|
| Store.NextThenPrev | src/handlers/ingress.rs:94-115 | in a valid event table an event's successor exists and points back to it |
| Store.PrevThenNext | src/handlers/ingress.rs:94-115 | in a valid event table an event's predecessor exists and points forward to it |
| Store.CurrentUser | src/identity.rs:21-25 | the signed-in user's row when it exists, otherwise `LoginRequired` |
| Store.Role | src/entity_extensions.rs:10-16 | the user's role in an organization, `None` exactly when there is no membership row |
| Store.CallerRole | src/handlers/organizations/members.rs:121-125 | the caller's role, or `LoginRequired` when the caller is not a member or has no user row |
| Store.ProjectFor | src/handlers/notifications.rs:48-57 | the project when it exists and the caller is a member of its organization; `NotFound` for a missing project, `LoginRequired` for a non-member |
| Store.FindUser | src/handlers/auth/login.rs:36-39 | finds a user satisfying the lookup condition, or `None` exactly when no user does |
| Store.DeleteOrganization | src/entity_extensions.rs:18-32 | an unknown organization is an internal "Organization not found" error that changes nothing; otherwise its memberships, its projects and its row are removed and nothing else |
| Ingress.UpsertStatus | src/handlers/ingress.rs:65-90 | a new title yields `New`, a resolved report `Regressed`, an unresolved one no status, each in both directions |
| Ingress.Seen | src/handlers/ingress.rs:74-77 | a reappearing report keeps project, environment, title and seen flag, takes the new last-seen time and becomes unresolved |
| Ingress.AppendKeepsChain | src/handlers/ingress.rs:94-115 | appending an event after its report's latest event keeps every report's events one doubly linked chain |
| Ingress.FindOrCreateEnvironment | src/handlers/ingress.rs:41-60 | reuses an environment with the given name or inserts one for the project, keeping the store valid |
| Ingress.UpsertReport | src/handlers/ingress.rs:62-92 | inserts a fresh report for an unknown title or refreshes the existing one, and returns the status that title's prior state implies |
| Ingress.AppendEvent | src/handlers/ingress.rs:94-115 | stores the event linked after the report's latest event and links that event forward to it |
| Ingress.NewEventLinked | src/handlers/ingress.rs:94-115 | the new event points back at the report's latest earlier event and forward at nothing |
| Ingress.PrevEventLinked | src/handlers/ingress.rs:94-115 | the report's previous latest event now points forward at the new one |
| Ingress.OtherEventLinked | src/handlers/ingress.rs:94-115 | every other event keeps correct links after the append |
| Ingress.Ingress | src/handlers/ingress.rs:30-122 | an unknown API key is refused and nothing is written; otherwise environment, report and event are upserted as above and a notification is queued exactly when the report is new or regressed |
| Notifications.ReportUrl | src/notifications.rs:39-42 | the report link starts with the configured scheme and `://` |
| Notifications.ReportUrlInjective | src/notifications.rs:39-42 | different reports get different links |
| Notifications.SubjectTellsStatus | src/notifications.rs:213-227 | the subject starts with "New " exactly when the report is new |
| Notifications.SubjectMentions | src/notifications.rs:213-227 | the subject names the project, the report title and, when there is one, the environment |
| Notifications.SlackMessageFor | src/notifications.rs:121-176 | the Slack message links the report and starts with ":boom:" exactly when the report is new |
| Notifications.RecipientDeliveriesArePersonal | src/notifications.rs:44-58 | per-user deliveries are only emails and Pushover messages |
| Notifications.PersonalDeliveriesFollowSettings | src/notifications.rs:44-58 | an email goes only to a recipient with email notifications on and only when a mailer is configured; a Pushover message only to a recipient with a Pushover key and Pushover on, with the configured app token |
| Notifications.PlannedParts | src/notifications.rs:27-77 | a notification's deliveries are exactly the per-user ones and those of the project's Slack app, Slack webhook, Teams and webhook channels |
| Notifications.OptedInRecipientsGetDeliveries | src/notifications.rs:44-58 | every recipient with email notifications on gets the report mail when a mailer is configured; every recipient with Pushover on and a user key gets the push when the app token is configured |
| Notifications.EmailFollowsSettings | src/notifications.rs:44-58 | an email is planned for an address exactly when the report has a status, a mailer is configured and a recipient with that address has email notifications on |
| Notifications.PushoverFollowsSettings | src/notifications.rs:44-58 | a Pushover message is planned for a user key exactly when the report has a status, the app token is configured and a recipient with that key has Pushover on |
| Notifications.SlackAppFollowsProject | src/notifications.rs:79-100 | a Slack app message is sent exactly when the project has both a bot token and a channel |
| Notifications.SlackWebhookFollowsProject | src/notifications.rs:102-119 | a Slack webhook message is sent exactly when the project has a Slack webhook |
| Notifications.TeamsFollowsProject | src/notifications.rs:302-392 | a Teams card is sent exactly when the project has a Teams webhook |
| Notifications.WebhookFollowsProject | src/notifications.rs:178-199 | a webhook payload is sent exactly when the project has a webhook |
| Notifications.Failures | src/notifications.rs:60-74 | the logged failures are exactly the attempted deliveries that do not get through |
| Notifications.FailuresAppend | src/notifications.rs:60-74 | failures of consecutive delivery groups are logged group by group |
| Notifications.Send | src/notifications.rs:27-77 | always succeeds; a notification without status sends nothing; the recipients are exactly the users with a settings row for the project, each once; the attempted deliveries are those planned and the logged ones are their failures |
| Notifications.Queue.Push | src/handlers/ingress.rs:117-121 | appends the notification to an open queue; a closed queue is an internal error and keeps its contents |
| Notifications.Queue.Open | src/main.rs:79 | a new channel is empty and open |
| Notifications.Queue.Pop | src/main.rs:96-100 | takes the oldest queued notification, or `None` when the queue is empty |
| Ordering.LeastExists | src/handlers/reports.rs:82-84 | a non-empty set has a least element under a strict total order |
| Ordering.LeastUnique | src/handlers/reports.rs:82-84 | that least element is unique |
| Ordering.ListingProperties | src/handlers/reports.rs:82-84 | the ORDER BY listing of a set holds each element once and is strictly increasing |
| Ordering.IncreasingIsListing | src/handlers/reports.rs:82-84 | any strictly increasing sequence of a set's elements is its listing |
| Ordering.ListingSuffix | src/handlers/reports.rs:86-102 | the listing of the elements after the i-th one is the listing's suffix after i |
| Ordering.Take | src/handlers/reports.rs:103 | LIMIT n keeps the first n elements, or all when there are fewer |
| Ordering.TakeLeast | src/handlers/reports.rs:82-103 | ORDER BY … LIMIT n returns the first n elements of the listing |
| Ordering.SortIds | src/handlers/account.rs:68-70 | the rows of a query without `ORDER BY`, taken in id order: each id of the set once, ascending |
| Ordering.Enumerate | src/notifications.rs:44-58 | rows fetched without an order: every element of the set exactly once |
| Ordering.TopExists | src/handlers/organizations/stats.rs:80-81 | a non-empty set has an element ranked at least as high as every other |
| Ordering.TakeTop | src/handlers/organizations/stats.rs:80-81 | `ORDER BY rank DESC LIMIT n`: as many elements as the set has, at most n, each once, by descending rank, none left out ranked above one selected |
| Ordering.FewAllTaken | src/handlers/organizations/stats.rs:80-81 | with at most n elements, LIMIT n selects every one of them |
| Reports.PrecedesIsTotal | src/handlers/reports.rs:82-84 | unseen first, then latest last-seen first, then highest id first is a strict total order |
| Reports.AfterCursor | src/handlers/reports.rs:86-102 | the cursor condition holds exactly for the rows that come after the cursor in that order |
| Reports.Page | src/handlers/reports.rs:103-131 | at most ten rows in listing order, each summarised, with a next cursor exactly when more than ten rows matched, pointing at the tenth |
| Reports.List | src/handlers/reports.rs:61-134 | the page of the caller's matching reports that follows the decoded cursor (from the start when there is none or it does not parse); a non-empty term keeps a report whose title or environment name matches `LIKE '%term%'` |
| Reports.NextPageContinues | src/handlers/reports.rs:113-124 | the page after a row's cursor starts right after that row, so paging neither repeats nor skips a report |
| Reports.NextQueryContinues | src/handlers/reports.rs:65-124 | when the JSON cursor of a listed row decodes back to that row, repeating the query with it lists exactly the matching rows after that row |
| Reports.Delete | src/handlers/reports.rs:136-161 | deletes exactly the requested reports in the caller's organizations and counts them |
| Reports.Resolve | src/handlers/reports.rs:163-189 | marks exactly the requested reports in the caller's organizations resolved, changing nothing else, and counts them |
| Members.ValidateRoleChoice | src/handlers/organizations/members.rs:413-427 | a role choice is allowed exactly when an admin gives member or admin, or an owner gives member, admin or owner; a refusal is a "forbidden" error with a message |
| Members.OwnersMakeOwners | src/handlers/organizations/members.rs:413-427 | only owners may make owners; admins and owners may make members and admins |
| Members.RoleErrors | src/handlers/organizations/members.rs:136 | the role field has errors exactly when the role choice is refused |
| Members.InviteErrors | src/handlers/organizations/members.rs:181-191 | the invitation form is valid exactly when the address is valid and at most 320 characters and the role choice is allowed; the email field errs exactly on a bad address |
| Members.Manage | src/handlers/organizations/members.rs:110-151 | a non-member caller gets `LoginRequired`, changing one's own role is refused, an unknown member is `NotFound`, a refused role choice is a validation error; otherwise exactly that member's role changes |
| Members.Delete | src/handlers/organizations/members.rs:153-179 | an admin or owner removes another member's row; an admin cannot remove an owner, nobody removes themself, an unknown member is `NotFound`; other callers get `Ok` and nothing changes |
| Members.Invite | src/handlers/organizations/members.rs:193-325 | after role and form checks, a registered address becomes a member (unless already one) and is mailed; any other address gets one invitation per organization with the given slug, or an error when already invited; every refusal leaves the tables unchanged and attempts no mail |
| Members.DeleteInvite | src/handlers/organizations/members.rs:327-351 | an admin or owner removes one of the organization's invitations; members are refused and an unknown invitation is `NotFound` |
| Members.ResendInvite | src/handlers/organizations/members.rs:353-411 | an unknown organization is `NotFound`, a non-member caller `LoginRequired`; a pending invitation is mailed again, otherwise `NotFound`; nothing is written |
| Organizations.Create | src/handlers/organizations.rs:99-150 | the untrimmed name must be 1 to 80 characters; the trimmed name must not be one of the caller's organizations; the organization is stored with the configured limit and the caller as owner, keeping each user's organization names unique; an existing membership row for the new id fails the insert after the organization is stored |
| Organizations.NewOrganizationKeepsNamesUnique | src/handlers/organizations.rs:111-145 | adding an organization under a name the creator does not use keeps every user's organization names distinct |
| Organizations.EditErrors | src/handlers/organizations.rs:152-158 | the edit form is valid exactly when the name has 1 to 80 characters and the alert threshold is not zero |
| Organizations.Positive | src/handlers/organizations.rs:199 | a threshold is kept exactly when it is positive |
| Organizations.Edit | src/handlers/organizations.rs:160-207 | validation, then membership, then owner role, then existence, then a name unused by any other organization are checked in that order; on success only the name and the alert threshold change |
| Organizations.Delete | src/handlers/organizations.rs:209-223 | only an owner may delete; the organization, its memberships and its projects go, and a failure changes nothing |
| Organizations.MemberViews | src/handlers/organizations.rs:68-76 | one member row per listed user with its address, name and role |
| Organizations.View | src/handlers/organizations.rs:65-93 | one organization's row with its projects and members in id order |
| Organizations.List | src/handlers/organizations.rs:52-97 | `LoginRequired` without a user row; otherwise exactly the caller's organizations in id order, each with its projects and members |
| Projects.Views | src/handlers/organizations/projects.rs:56-63 | one view per listed project, in order |
| Projects.List | src/handlers/organizations/projects.rs:44-66 | `LoginRequired` without a user row, `NotFound` for a non-member; otherwise the organization's projects in id order |
| Projects.Rename | src/handlers/organizations/projects.rs:111-117 | a project of another organization is `NotFound`; otherwise only its name changes, keeping names unique per organization |
| Projects.Create | src/handlers/organizations/projects.rs:118-147 | a new project with the given API key and the creator's settings row; a key already in use is refused by the unique index |
| Projects.Manage | src/handlers/organizations/projects.rs:68-150 | name 1 to 80 characters, then user, then membership, then a name unused by the organization's other projects; then renames or creates as above; a failure changes nothing |
| Projects.GetSingle | src/handlers/organizations/projects.rs:152-172 | the project when the caller is a member and it belongs to the organization; `LoginRequired` without a user row, `NotFound` otherwise |
| Projects.Delete | src/handlers/organizations/projects.rs:174-196 | an admin or owner deletes one of the organization's projects; members are refused, other projects are `NotFound`, nothing else changes |
| Stats.NamesAt | src/handlers/organizations/stats.rs:93-100 | the names that occur in rows under a given date key |
| Stats.Names | src/handlers/organizations/stats.rs:93-95 | every name that occurs in the fetched rows, whatever its date |
| Stats.CountsSameKey | src/handlers/organizations/stats.rs:96-99 | a row under the bucket's date adds its value to the running count of its name |
| Stats.CountsOtherKey | src/handlers/organizations/stats.rs:96 | a row under another date leaves the bucket's counts unchanged |
| Stats.BucketEntries | src/handlers/organizations/stats.rs:93-102 | a bucket has an entry for a name exactly when some row of that date has it, the entry being the name's total, plus the date caption; buckets are not zero-filled |
| Stats.TotalZero | src/handlers/organizations/stats.rs:96-99 | a name's total is zero exactly when each of its rows for the date is zero |
| Stats.FillBucket | src/handlers/organizations/stats.rs:91-103 | the inner loop builds the bucket of one date and collects every row's name |
| Stats.Reverse | src/handlers/organizations/stats.rs:106 | the reversed dataset holds the same buckets in the opposite order |
| Stats.Daily | src/handlers/organizations/stats.rs:63-109 | thirty buckets, oldest first, for the thirty days ending today, and all row names |
| Stats.Monthly | src/handlers/organizations/stats.rs:111-164 | twelve buckets, oldest first, for the days today minus 30·k (k from 11 down to 0) keyed by their month, and all row names |
| Stats.FilteredRows | src/handlers/organizations/stats.rs:76-77 | the rows both queries read belong to the organization and the category |
| Stats.RowsOf | src/handlers/organizations/stats.rs:68-83 | the rows fetched for a list of ids, one per id, in the same order |
| Stats.GroupSum | src/handlers/organizations/stats.rs:72-75 | `SUM(count)` of a group: at least each of its rows' counts, and zero when all are zero |
| Stats.Latest | src/handlers/organizations/stats.rs:80 | the date a group is ordered by: absent exactly for a group without rows, else the date of one of its rows and no earlier than any of them |
| Stats.Fetch | src/handlers/organizations/stats.rs:68-83 | the rows of the organization and the category, grouped by name and date (daily) or name and month (monthly), the newest 30 (12) groups by descending date, ties in any order |
| Stats.GroupKeys | src/handlers/organizations/stats.rs:78-79 | daily groups are keyed by a date and monthly groups by a month |
| Stats.GroupSumSingle | migration/src/m20250204_035650_organization_stats.rs:58-72 | a group of one row sums to its count, so each daily group is one counter row under the unique index |
| Stats.FewGroupsAllFetched | src/handlers/organizations/stats.rs:81 | with at most 30 (12) groups, every row's group is fetched |
| Stats.CutGroupsAreOlder | src/handlers/organizations/stats.rs:80-81 | a group left out by the limit has no row newer than the latest row of any fetched group |
| Stats.GetStats | src/handlers/organizations/stats.rs:31-61 | `LoginRequired` without a user row, `NotFound` for a non-member, "Invalid grouping" exactly for a grouping other than daily or monthly; the category defaults to "event"; the buckets are built from the newest 30 (daily) or 12 (monthly) groups of the organization's counters of the category, each carrying its summed count |
| Cron.RunCommand | src/cron.rs:20-26 | "notify-spiking" changes nothing without a previous-hour row, and otherwise flags exactly the spiking rows of the current hour against one such row and queues their alerts; "notify-limits" without a mailer changes nothing, and otherwise flags and mails the organizations over their threshold in id order until a mail fails, an internal error; each touches only its own tables, and any other command is an "Unknown command" error that changes nothing |
| Cron.HourStart | src/cron.rs:45-49 | the start of the hour holding a time: at or before it, less than an hour before, on an hour boundary |
| Cron.DayStart | src/cron.rs:128 | the start of the day holding a time: at or before it, less than a day before, on a day boundary |
| Cron.SpikeRuleExact | src/cron.rs:75-78 | the floating-point rule "increase over base, times 100, above 50" holds exactly when twice the increase exceeds the base, a zero base included |
| Cron.PercentageRounds | src/cron.rs:104-106 | below saturation the reported percentage is within one half of 100·increase/base |
| Cron.SpikingRows | src/cron.rs:60-78 | the current-hour rows that spike against the base, each exactly when the spike rule holds |
| Cron.AlertableOfMembers | src/cron.rs:83-99 | a flagged row is alerted for exactly when its report, its project and an event of the report exist |
| Cron.LatestEvent | src/cron.rs:91-99 | the report's event with the largest id, or `None` exactly when the report has no event |
| Cron.AlertOne | src/cron.rs:83-116 | queues one `Spiking` notification with the rounded percentage, the report, its project, its environment and its latest event exactly when all of them exist; a closed queue only loses the alert |
| Cron.NotifySpiking | src/cron.rs:44-120 | always `Ok`; without a previous-hour row nothing happens; otherwise every unflagged current-hour row that spikes against a previous-hour row is flagged, and alerted for when it can be, in order |
| Cron.Consider | src/cron.rs:60-118 | one turn of the loop: the stat is flagged and its alert queued exactly when it spikes against the base |
| Cron.Flag | src/cron.rs:78-81 | the stat is marked spiking next to those already flagged |
| Cron.FlaggedNotRefetched | src/cron.rs:55 | a flagged row is never fetched again, so a spike is announced at most once |
| Cron.OverThreshold | src/cron.rs:130-141 | the organizations whose unflagged event total of the day reaches their alert threshold, each with such a stats row |
| Cron.MailsTo | src/cron.rs:164-186 | one mail per owner, to the owner's address, with the threshold subject and the alert template |
| Cron.LimitMailsPrefix | src/cron.rs:143-188 | the mails of the first organizations are a prefix of the mails of all of them |
| Cron.SendAll | src/cron.rs:169-187 | the mails go out in order and the first failure stops the rest with an internal error |
| Cron.MailsOf | src/cron.rs:157-167 | the alert mails of one organization, one per owner in id order |
| Cron.AlertOrganization | src/cron.rs:144-187 | flags the organization's day total and mails its owners in order |
| Cron.AlertAll | src/cron.rs:143-188 | the organizations are handled in order; each flags its row and mails its owners; the first failure stops the job |
| Cron.NotifyLimits | src/cron.rs:122-191 | without a mailer nothing happens; otherwise each organization over its threshold gets its row flagged and its owners mailed, in id order, until a mail fails |
| Account.Get | src/handlers/account.rs:41-45 | the caller's account (id, address, name, time zone), or `LoginRequired` exactly when the user row is missing |
| Account.Update | src/handlers/account.rs:52-61 | replaces only the caller's name and returns the updated account; `LoginRequired` without a user row |
| Account.UpdatePassword | src/handlers/account.rs:91-94 | accepts every request and changes nothing |
| Account.Delete | src/handlers/account.rs:63-89 | the caller's memberships go; each organization the caller was alone in goes with its projects; the user row goes and the session is purged; other organizations keep their other members; a missing sole organization is an internal error |
| Account.LeaveAll | src/handlers/account.rs:68-83 | the loop over the caller's memberships succeeds exactly when each sole organization exists, and leaves the tables as `delete` describes |
| Account.LeaveOrganization | src/handlers/account.rs:71-82 | one turn: counts members before removing the caller's row and deletes the organization when the caller was its only member |
| Account.ProgressDone | src/handlers/account.rs:70-83 | once every membership is handled, only other users' memberships remain and the sole organizations and their projects are gone |
| Account.SoleIsAlone | src/handlers/account.rs:73-81 | a member count of one means the caller's row was the organization's only membership |
| ApiResponses.RespondTo | src/api_response.rs:37-51 | the serialised envelope as JSON, status 200 exactly for data and 400 for a message or field errors |
| App.SendMail | src/handlers/organizations/members.rs:315-321 | with a mailer the result is `Ok` exactly when the mail is delivered, a transport failure being internal; without one the mail is skipped, except that a release build refuses a mail the handler needs |
| App.SendOrRefuse | src/handlers/auth/request_password_reset.rs:105-109 | `Ok` exactly when a mailer delivers the mail; no mailer is refused in every build |
| App.UrlErrors | src/handlers/notifications/webhook.rs:21 | a URL field has errors exactly when the URL check fails |
| App.EmailErrors | src/handlers/auth/login.rs:15-19 | an email field is valid exactly when the address passes the check and has at most 320 characters; errors are reported under that field only |
| App.PasswordErrors | src/handlers/auth/login.rs:21 | a password field is valid exactly when it has at least 8 characters |
| App.CredentialErrors | src/handlers/auth/login.rs:14-23 | the login form is valid exactly when both its address and its password are |
| ChangeEmail.ChangeEmail | src/handlers/auth/change_email.rs:18-54 | a payload that does not open with the cookie key is an "Invalid email change request"; one that does not parse is internal; an address already registered, then a missing account, are refused; otherwise only that account's address changes |
| ChangeEmail.ChangeKeepsAddressesApart | src/handlers/auth/change_email.rs:33-51 | after a change exactly one account holds the new address and the account's other fields are unchanged |
| Configuration.GetVar | src/config.rs:97-100 | the variable's text exactly when it is set and Unicode, otherwise an error naming it |
| Configuration.GetBoolVar | src/config.rs:102-112 | unset is `None`, a non-Unicode value an error, otherwise true exactly when the trimmed value is "yes", "1" or "true" |
| Configuration.BoolVarIgnoresPadding | src/config.rs:105-107 | whitespace around a boolean value does not change how it reads |
| Configuration.FromEnv | src/config.rs:39-95 | loading succeeds exactly when a Slack client id comes with a secret, a configured default password has at least 8 bytes, the bind address and sender parse, DATABASE_URL is set and both boolean variables are Unicode; every field is then its variable or its default ("0.0.0.0:8080", "localhost", "http", "no-rely@dontpanic.rs", registration and verification on), the time zone is the configured one when it parses and UTC otherwise, and the cookie key is derived from COOKIE_SECRET when set |
| Configuration.ShortPasswordRefused | src/config.rs:52-59 | a configured default password shorter than 8 bytes stops start-up, with its own message when the Slack settings are consistent |
| Configuration.Defaults | src/config.rs:62-92 | with only DATABASE_URL set every other setting takes its default and registration and email verification are on |
| Configuration.SecretRequiredWithClientId | src/config.rs:43-50 | a Slack client id without a secret stops start-up with an error naming SLACK_CLIENT_SECRET |
| Configuration.CookieSecretStable | src/config.rs:65-75 | the same COOKIE_SECRET yields the same cookie key whatever the random source |
| Errors.AddError | src/error.rs:46-48 | adding an error appends it to that field's errors and leaves every other field as it was |
| Errors.Messages | src/error.rs:199-202 | the messages kept are exactly those some error of the field carries, and none are kept exactly when no error has one |
| Errors.AddedMessageJoined | src/error.rs:199-203 | adding an error with a message to a field appends ", " and the message to its text, or makes the message the whole text when there was none; an error without a message leaves the text unchanged |
| Errors.NoMessagesEmptyText | src/error.rs:199-210 | a field whose errors carry no message gets a "server"-typed entry with an empty text |
| Errors.FromValidation | src/error.rs:193-217 | validation errors become one "server"-typed message per failing field, and for no other field |
| Errors.Validated | src/error.rs:193-217 | a form passes exactly when no validator complained; otherwise the error names exactly the failing fields |
| Errors.LengthErrors | src/handlers/organizations.rs:101-103 | a length-validated field errs exactly when its character count is outside the bounds, with the one configured message |
| Errors.FieldIsSingleMessage | src/error.rs:45-51 | `Error::field` is a single "server"-typed message for exactly the named field |
| Errors.Display | src/error.rs:56-66 | a user error displays as its own message |
| Errors.StatusCode | src/error.rs:98-106 | 400 exactly for user and field errors, 401 for a missing login, 404 for not found, 500 for internal errors |
| Errors.Respond | src/error.rs:68-96 | the body carries the error's status; internal and not-found errors become typed user messages and are never sent as such; every other error is sent unchanged |
| Errors.NewReachesClient | src/error.rs:31-36 | the message of `Error::new` reaches the client unchanged with status 400 |
| Errors.FieldReachesClient | src/error.rs:45-51 | a field error reaches the client as that field's message with status 400 |
| Errors.InternalHidesCause | src/error.rs:80-86 | an internal error's response is the same whatever its cause, with status 500 |
| Login.TotpCode | src/handlers/auth/login.rs:61 | the code is the trimmed input, absent exactly when the input is missing or blank |
| Login.Check | src/handlers/auth/login.rs:47-75 | password, then address confirmation (when required), then second factor are checked in that order; a wrong password reads exactly like an unknown address; each refusal happens exactly under its condition |
| Login.Login | src/handlers/auth/login.rs:26-115 | an invalid form is a validation error, an unknown address "Login failed"; otherwise the checks decide; on success the session is signed in and the browser marked as seen, a new-device mail going out when the browser had not seen the user and there is a mailer; a refusal leaves the session as it was |
| NotificationSettings.Lines | src/handlers/notifications.rs:59-81 | one line per listed member with its address, name and role, whose email and Pushover flags are each present exactly when the member has a settings row for the project and then mirror that row |
| NotificationSettings.PerUserNotifications | src/handlers/notifications.rs:44-87 | `NotFound` for a missing project, `LoginRequired` for a non-member; otherwise the organization id and exactly one line per member of the organization, in id order, each the member's joined user, membership and settings row |
| NotificationSettings.PerUserSave | src/handlers/notifications.rs:101-147 | after the access checks, the project's settings rows are replaced by the submitted lines of organization members inserted in order, non-members skipped; a repeated member is an internal error |
| NotificationSettings.NoneStaysNone | src/handlers/notifications.rs:126-144 | once an insert has failed, the later lines do not matter |
| NotificationSettings.SaveReplaces | src/handlers/notifications.rs:121-144 | saving lines with distinct users keeps other projects' rows and gives the project exactly one row per submitted member, holding that line's flags (missing counts as off) |
| NotificationSettings.GetProject | src/handlers/notifications.rs:149-170 | after the access checks, the project with exactly its environments |
| Register.NonEmpty | src/handlers/auth/register.rs:69 | an optional text is kept exactly when it is present and non-empty |
| Register.TimezoneFor | src/handlers/auth/register.rs:62-65 | the requested time zone when it parses, otherwise the configured default |
| Register.NewUser | src/handlers/auth/register.rs:67-91 | the account row: the address, the password hash, a non-empty name, the chosen time zone, and a confirmation code with its time exactly when confirmation is required; no reset code, second factor or Pushover key |
| Register.StartingOrganization | src/handlers/auth/register.rs:112-120 | an enabled organization with the configured limit, a counting period starting now exactly when there is a limit, no count and no alert threshold |
| Register.OrganizationName | src/handlers/auth/register.rs:110-115 | the company given with the form, or "Default Organization" when it is missing or empty |
| Register.MatchingInvitations | src/handlers/auth/register.rs:96-106 | exactly the invitations addressed to the new account or carrying the slug it followed |
| Register.AcceptKeeps | src/handlers/auth/register.rs:135-147 | accepting invitations never removes or changes an existing membership and never brings back an invitation |
| Register.AcceptDistinct | src/handlers/auth/register.rs:135-147 | invitations to distinct organizations the account is not in are all accepted: each becomes a membership with its role and is deleted, nothing else changes |
| Register.AcceptRepeatFails | src/handlers/auth/register.rs:136-143 | two matching invitations to one organization make the second membership insert fail |
| Register.AcceptStopsAt | src/handlers/auth/register.rs:136-143 | accepting fails when an invitation is for an organization the account is already in |
| Register.AcceptInvitations | src/handlers/auth/register.rs:135-147 | the acceptance loop leaves exactly the memberships and invitations of accepting in order, failing on a duplicate membership |
| Register.OwnOrganization | src/handlers/auth/register.rs:114-131 | a new organization with the account as its owner; the membership cannot clash while memberships point at handed-out organization ids |
| Register.CreateUser | src/handlers/auth/register.rs:61-175 | the account is inserted; with no matching invitation it owns a new organization, otherwise its invitations are accepted in order, and a duplicate membership stops it with an internal error; then, when confirmation is required, the confirmation mail must go out |
| Register.Reported | src/handlers/auth/register.rs:52-54 | a failure of account creation reaches the client as an untyped user error carrying its text |
| Register.Register | src/handlers/auth/register.rs:35-59 | disabled registration, an invalid form and an already registered address are refused, write nothing and attempt no mail; otherwise the account exists even when a later step fails, it owns a new organization when no invitation matches its address or followed slug and otherwise has those invitations accepted in id order, a duplicate membership fails the request, and success reports whether confirmation is required |
| RequestPasswordReset.RequestErrors | src/handlers/auth/request_password_reset.rs:15-22 | the form is valid exactly when no address is given or the address is valid and at most 320 characters long |
| RequestPasswordReset.Address | src/handlers/auth/request_password_reset.rs:33-39 | the form's address, else the signed-in user's, else an error on the `email` field; a session whose account is gone is refused |
| RequestPasswordReset.WithResetLink | src/handlers/auth/request_password_reset.rs:67-70 | the account gets the new reset code and its time, and nothing else about it changes |
| RequestPasswordReset.RequestInBackground | src/handlers/auth/request_password_reset.rs:53-112 | an unknown address succeeds without writing; otherwise that account alone gets a new reset link and the reset mail must go out, a missing mailer being an error |
| RequestPasswordReset.Request | src/handlers/auth/request_password_reset.rs:24-51 | an invalid form or unknown address source is refused without writing; otherwise the answer is success whether or not the address belongs to an account, and only that account gets a reset link |
| ResendVerificationEmail.IntervalBoundary | src/handlers/auth/resend_verification_email.rs:64-66 | a new link may be made exactly 50 seconds after the last one and not a second earlier |
| ResendVerificationEmail.Refusal | src/handlers/auth/resend_verification_email.rs:52-66 | the work goes on exactly when the account is unconfirmed, confirmation is required, the last link has a time and it is at least 50 seconds old |
| ResendVerificationEmail.Renewed | src/handlers/auth/resend_verification_email.rs:75-78 | the account gets the new confirmation code and its time, and nothing else about it changes |
| ResendVerificationEmail.ResendInBackground | src/handlers/auth/resend_verification_email.rs:41-105 | an unknown address and each refusal fail without writing; otherwise that account alone gets a new link and the confirmation mail goes out when there is a mailer |
| ResendVerificationEmail.Resend | src/handlers/auth/resend_verification_email.rs:25-39 | the answer is always success; an account's link is renewed exactly when no refusal applies, and an unknown address writes nothing |
| ResetPassword.FormErrors | src/handlers/auth/reset_password.rs:13-22 | the form is valid exactly when the new password has at least 8 characters and is repeated exactly; a mismatch is reported on the repeat |
| ResetPassword.ExpiryBoundary | src/handlers/auth/reset_password.rs:50-52 | a link is honoured exactly one hour after it was made and refused a second later |
| ResetPassword.AfterReset | src/handlers/auth/reset_password.rs:56-60 | the account gets the new password and loses its pending reset, and nothing else about it changes |
| ResetPassword.ResetPassword | src/handlers/auth/reset_password.rs:24-63 | an invalid form, an unknown code, a code without a time and an expired code are each refused without writing; otherwise only the account holding the code gets the new password and no reset pending |
| Server.DefaultUser | src/main.rs:316-320 | a new default account has the configured address, the configured time zone and the new password hash, and nothing else set |
| Server.DefaultOrganizationName | src/main.rs:329 | the configured organization name, else "Default Organization" |
| Server.CreateDefaultUser | src/main.rs:291-354 | without a configured address and password nothing changes; an existing account only gets the password; a new account also gets a starting organization that it owns |
| Server.Handle | src/main.rs:102-104 | the notification is sent as `notifications::send` sends it: a notification with no status sends nothing; otherwise the users with a settings row for the project are the recipients, each once, the deliveries planned for them and the project's channels are attempted, and exactly the failed ones are logged in order |
| Server.Consume | src/main.rs:93-106 | the consumer takes every queued notification, oldest first, until none is left, and sends each as `Server.Handle` does, returning each one's recipients, attempted deliveries and logged failures |
| Sessions.Session.Blank | src/handlers/auth/login.rs:77-79 | a browser without a cookie has nobody signed in and no marks |
| Sessions.Session.SignIn | src/handlers/auth/login.rs:77 | the user is the one signed in |
| Sessions.Session.MarkSeen | src/handlers/auth/login.rs:112 | the user's mark is added and the other marks are kept |
| Sessions.Session.Purge | src/handlers/account.rs:86 | every entry of the session is removed |
| SlackApp.MemberChannels | src/handlers/notifications/slack_app.rs:67 | exactly the listed channels the bot is a member of |
| SlackApp.RetainMembers | src/handlers/notifications/slack_app.rs:67 | the loop keeps the member channels in Slack's order |
| SlackApp.RedirectUriInjective | src/handlers/notifications/slack_app.rs:72-75 | distinct projects get distinct redirect addresses |
| SlackApp.Config | src/handlers/notifications/slack_app.rs:35-85 | after the access checks: no channels without a bot token, otherwise the member channels Slack lists, with the project's redirect address and the client id |
| SlackApp.ChannelErrors | src/handlers/notifications/slack_app.rs:166-170 | the channel is valid exactly when it is non-empty |
| SlackApp.ConfigSave | src/handlers/notifications/slack_app.rs:99-164 | a missing client id or secret, a failed exchange and a refusal from Slack write nothing; otherwise the token Slack returns, if any, replaces the project's bot token |
| SlackApp.Save | src/handlers/notifications/slack_app.rs:172-199 | an empty channel or a failed access check writes nothing; otherwise only the project's channel changes |
| SlackApp.Delete | src/handlers/notifications/slack_app.rs:201-221 | after the access checks the bot token and the channel are both cleared, and nothing else changes |
| SlackApp.Test | src/handlers/notifications/slack_app.rs:223-258 | without both a token and a channel nothing is posted; otherwise the greeting is posted to that channel, and the answer is success exactly when the post goes through |
| SlackWebhook.Overridden | src/handlers/notifications/slack_webhook.rs:59-70 | applying the overrides neither adds nor removes an environment |
| SlackWebhook.OverriddenLast | src/handlers/notifications/slack_webhook.rs:59-70 | an environment ends with the webhook of the last entry naming it, or keeps its own; its project and name never change |
| SlackWebhook.Save | src/handlers/notifications/slack_webhook.rs:33-73 | an invalid URL or a failed access check writes nothing; otherwise the project's webhook is set and each listed existing environment takes its override, unknown ids being skipped |
| SlackWebhook.Delete | src/handlers/notifications/slack_webhook.rs:75-94 | after the access checks only the project's webhook is cleared; the environments keep their overrides |
| SlackWebhook.Test | src/handlers/notifications/slack_webhook.rs:96-129 | without a webhook nothing is posted; otherwise the greeting naming the project is posted to it, and the answer is success exactly when the post goes through |
| TeamsWebhook.Save | src/handlers/notifications/teams_webhook.rs:25-52 | an invalid URL or a failed access check writes nothing; otherwise only the project's Teams webhook changes |
| TeamsWebhook.Delete | src/handlers/notifications/teams_webhook.rs:54-73 | after the access checks only the project's Teams webhook is cleared |
| TeamsWebhook.Test | src/handlers/notifications/teams_webhook.rs:75-153 | without a Teams webhook nothing is posted; otherwise the card naming the project is posted to it, and the answer is success exactly when the post goes through |
| Webhook.Save | src/handlers/notifications/webhook.rs:25-52 | an invalid URL or a failed access check writes nothing; otherwise only the project's webhook changes |
| Webhook.Delete | src/handlers/notifications/webhook.rs:54-73 | after the access checks only the project's webhook is cleared |
| Webhook.TestPayload | src/handlers/notifications/webhook.rs:102-110 | the sample payload is a new report under the project's name |
| Webhook.Test | src/handlers/notifications/webhook.rs:75-116 | without a webhook nothing is posted; otherwise the sample new-report payload naming the project is posted to it, and the answer is success exactly when the post goes through |
| Text.TrimStartIndex | src/handlers/organizations.rs:109 | everything before the index is whitespace and the character at it is not |
| Text.TrimEndIndex | src/handlers/organizations.rs:109 | everything from the index on is whitespace and the character before it is not |
| Text.Trim | src/handlers/organizations.rs:109 | the trimmed text neither starts nor ends with whitespace and is no longer than the input |
| Text.TrimKeepsSlice | src/handlers/auth/login.rs:61 | trimming keeps a slice of the input and removes only whitespace around it |
| Text.TrimIdempotent | src/handlers/organizations.rs:109 | trimming twice is trimming once |
| Text.TrimPadded | src/config.rs:105-107 | whitespace around a word is exactly what trimming removes |
| Text.FoldAscii | src/handlers/reports.rs:75-76 | ASCII capitals are folded to lower case and every other character is kept |
| Text.LikeAnything | src/handlers/reports.rs:75-76 | the `%` wildcard matches any text |
| Text.LikeItself | src/handlers/reports.rs:75-76 | a term matches itself at the start of a text, whatever wildcards it holds |
| Text.LikeAfterPrefix | src/handlers/reports.rs:75-76 | a pattern starting with `%` lets any prefix through |
| Text.ContainsIsLike | src/handlers/reports.rs:75-76 | every title containing the term matches the `contains` filter's `LIKE '%term%'` |
| Text.LikeBeyondContains | src/handlers/reports.rs:75-76 | the filter also keeps texts differing in ASCII case or in a `_` position, which a substring test drops |
| Text.ContainsPiece | src/notifications.rs:213-227 | a text built from pieces contains each piece |
| Text.NatToString | src/notifications.rs:39-42 | an id prints as decimal digits without a leading zero |
| Text.DecimalRoundTrip | src/notifications.rs:39-42 | a printed id reads back as the same id |
| Text.NatToStringInjective | src/notifications.rs:39-42 | distinct ids print distinctly |
| Text.Utf8Len | src/config.rs:56 | a text's byte length lies between its character count and four times it |
| Text.Utf8 | src/config.rs:56 | the encoding has as many bytes as the byte length says |
| Text.EncodeByte | src/handlers/account/totp.rs:30-31 | one byte becomes one to three URL-safe characters |
| Text.UrlEncode | src/handlers/notifications/slack_app.rs:140 | the encoded text holds only letters, digits, `-_.~` and `%`, so it never separates URL components |
| Text.Join | src/error.rs:203 | joining one message gives that message, and joining none the empty text |
| Text.JoinAppend | src/error.rs:203 | joining one more part appends the separator and that part |
| Text.JoinLength | src/error.rs:203 | the joined text is as long as all the parts plus one separator between each pair |
| Totp.QueryAfter | src/handlers/account/totp.rs:32 | when the path holds no `?`, the query starts right after it and begins with the secret |
| Totp.PathHasNoQuery | src/handlers/account/totp.rs:30-32 | the scheme and the encoded address hold no `?` |
| Totp.UrlLayout | src/handlers/account/totp.rs:32 | the URL is the path, then `?secret=` and the secret, then the issuer |
| Totp.AddressStaysInPath | src/handlers/account/totp.rs:30-32 | whatever the address, the URL's first `?` is the one that starts `secret=`, followed by the secret |
| Totp.Secret | src/handlers/account/totp.rs:18-38 | an account with two-factor authentication on is refused; otherwise the offered secret and the `otpauth` URL naming the account and the issuer |
| Totp.EnableErrors | src/handlers/account/totp.rs:40-46 | the form is valid exactly when the secret has 32 characters and the code 6 |
| Totp.Enable | src/handlers/account/totp.rs:48-70 | an invalid form, a missing account, two-factor authentication already on and a wrong code write nothing; otherwise only the account's secret is set |
| Totp.Disable | src/handlers/account/totp.rs:72-79 | for a signed-in account only the secret is cleared, whether or not one was set |
| Totp.WithSecret | src/handlers/account/totp.rs:65-76 | setting or clearing one account's secret changes only that account's secret |
| Totp.EnableThenDisable | src/handlers/account/totp.rs:65-76 | the users table after a successful `Totp.Enable` and then `Totp.Disable` is the one before |
| VerifyEmail.Confirmed | src/handlers/auth/verify_email.rs:24-27 | the account loses its confirmation code and its time, and nothing else about it changes |
| VerifyEmail.VerifyEmail | src/handlers/auth/verify_email.rs:10-33 | an unknown code is refused without writing; otherwise the account holding the code, whatever its age, is confirmed and the browser gets that account's mark |
| Views.RenderData | src/view_model.rs:116-124 | the template data gains `version` and, for a request the htmx layer saw, `is_htmx`; every other entry is kept |
| Views.ViewModel.Default | src/view_model.rs:23-34 | no template, redirect or toast, and the layout "layout" |
| Views.ViewModel.WithTemplate | src/view_model.rs:37-46 | the given template, no redirect or toast, and the layout "layout" |
| Views.ViewModel.WithTemplateAndLayout | src/view_model.rs:48-57 | the given template and layout, no redirect or toast |
| Views.ViewModel.Set | src/view_model.rs:59-65 | a value that serialises is stored under its key; one that does not leaves the data as it was |
| Views.ViewModel.Redirect | src/view_model.rs:67-69 | the redirect target and its refresh flag are recorded |
| Views.ViewModel.Message | src/view_model.rs:71-73 | the toast message is recorded |
| Views.ViewModel.RespondTo | src/view_model.rs:79-135 | a redirect has no body, and is a 307 exactly for a request that is not htmx, with the target as its only header (`Location`); no template gives an empty 200; a missing `AppContext` gives a 500 with its message; a page that renders is a 200 with the rendered page as body, one that fails to render a 500 with the JSON `internal_server_error` message |
| Views.ViewModel.ToastDelivery | src/view_model.rs:86-88 | the toast header is on every response except a plain redirect and a render failure |
| Views.ViewModel.HtmxRedirect | src/view_model.rs:90-107 | an htmx request is redirected on a 200 response by a full-page redirect when refresh is set, else by a swap of `main` |

## Left out

- HTTP, SMTP, Slack's and Pushover's web APIs, the OAuth code exchange and Handlebars rendering are parameters: each handler is proved for every answer they may give, and the payload JSON layout is reduced to the fields the handlers choose.
- bcrypt, TOTP code checking, cookie encryption, time-zone and URL/email format checks and every random key, slug and hash are parameters; their lengths and alphabets are not constrained.
- Concurrency is left out: the unbounded channel and its consumer task are a sequential `Notifications.Queue`, background jobs spawned for password reset and resending the confirmation run to completion inside the handler, the cron schedule loop of src/cron.rs:28-42 is not modelled, and the unused project lock of src/main.rs is not part of this model.
- Connection and query failures are not modelled; unique-index violations are, as internal errors: a duplicate API key in `Projects.Create`, a duplicate membership in the `Store` membership insert, a duplicate settings row in `NotificationSettings.PerUserSave` and a slug clash in `Members.Invite`. Foreign-key cascades of the schema are not modelled either, so deleting a row leaves the rows that reference it.
- Floating point is replaced by exact arithmetic: the spike test of src/cron.rs:75-78 is on reals, and the rounded percentage of src/cron.rs:104-106 is computed exactly by integers (rounding half up, saturating), so f64 precision loss on very large counts is not modelled. The `simple_percent`, `date` and `timestamp` template helpers of src/main.rs are not part of this model.
- Chrono date formatting is a parameter of `Stats.GetStats`: times are integer seconds, a day is `Stats.DayOf` (UTC seconds divided by 86400), and the "%b %d", "%b %Y" captions and the "%Y-%m-01" month key are functions of the day number.
- Stats.Fetch: the monthly query orders groups by the bare `date` column, of which SQLite takes the value of some row of the group; the model orders by the group's latest date. All rows of a month group fall in that month, so groups of different months come in the same order either way. MySQL's `ONLY_FULL_GROUP_BY` rejection of that query is not modelled. The order of groups with equal dates is left open.
- Equality in queries is SQLite's exact comparison. MySQL's default collations, which compare text without regard to case or accents, are not modelled: this affects the e-mail lookups of `Members.Registered` (used by `Register.Register`, `ChangeEmail.ChangeEmail` and `Members.Invite`) and of `Store.FindUser` (used by `Login.Login`, `ResetPassword.ResetPassword`, `RequestPasswordReset.RequestInBackground` and `ResendVerificationEmail.ResendInBackground`), and the name-uniqueness checks of `Organizations.Create`, `Organizations.Edit` and `Projects.Manage`.
- Rows a query returns without `ORDER BY` are taken in id order (`Ordering.SortIds`), the order SQLite and MySQL usually return them in but do not promise. This fixes the order of `Account.LeaveAll`, `Cron.NotifySpiking`, `Cron.MailsOf`, `Cron.NotifyLimits`, `NotificationSettings.PerUserNotifications`, `NotificationSettings.GetProject`, `Organizations.List`, `Organizations.View`, `Projects.List` and `Register.CreateUser`; only the recipients of `Notifications.Send` come in an arbitrary order (`Ordering.Enumerate`). A `find().one()` over several matching rows returns any one of them (`Store.FindUser`).
- Server.Consume: drains the notifications queued so far and stops once the queue is empty; waiting on an empty open channel, and ending only when every sender is gone (src/main.rs:96-100), is not modelled, because the model is sequential.
- Reports.List: the term filter folds ASCII case only, as SQLite's `LIKE` does; MySQL collations that also ignore the case of non-ASCII letters or accents are not modelled.
- Composing a mail (parsing the address, rendering the template) cannot fail in the model, and the IP address and user agent written into mails are left out.
- The `created` timestamps and other display-only fields are omitted from the view datatypes.
- The members `list` and `get_member` handlers of src/handlers/organizations/members.rs:43-109 are plain read-only queries and are not modelled.
- Routing, the HTTP server setup, request extraction and logging are left out.
- NotificationSettings.PerUserSave: when a member appears twice in the request, the contract does not state which rows were written before the failure.
- Projects.Manage: the new project's API key is any key not already in use; that it is 32 random alphanumeric characters is not required.
- Members.Invite: the invitation slug is any text; its 64-character length is not required.
- Register.NewUser: the confirmation code is any text; its 64-character length is not required.
