# Boosting-Bot raid planner, modelled in Dafny

Boosting-Bot is a World of Warcraft raid planner. It has an Express back end, a React front end and a Discord bot. Raid leads create raid sessions inside weekly cycles. Each raid gets a Discord channel with an announcement message. Boosters and lootbuddies sign up through buttons, menus and modals in Discord, or through the HTTP routes. The message's roster embed shows who is picked and who is queued.

This project models the core of that system as Dafny modules, one per source file. Each module states and proves what its file promises:

- **Cycles** (`routes/cycles.js`). A cycle opens on Wednesday at 08:00 and lasts 6 days 21 hours. The module builds the current, next and previous cycle and decides which raid dates are allowed. Calendar supplies the time arithmetic.
- **Role eligibility.** `utils/wow.js` maps a normalised class name to its roles and falls back to DPS (module Wow). `discord/modules/classRoleMatrix.js` matches class names exactly (module ClassRoleMatrix).
- **Sign-up.** RaidSignupCodec is the custom-id codec and proves its round trip. SignupFlow is the interaction flow. SignupTable is a class whose methods are the three table mutations. SignupsRoute is the HTTP sign-up routes.
- **Roster embed** (`raidEmbed.js`, module RaidEmbed).
- **Channels and announcements.** Modules RaidAnnounceAdapter, NameFormat, Channels, Bot and DiscordService work over a channel registry class (module Guild). Each file's own channel-name format is modelled separately.
- **Raid routers.** RaidsRoute and Raids2Route share RaidPayload and the JSON fallback store RaidStore.
- **Users and leads.** Modules Roles, UsersRoute and LeadsRoute cover the role flags, the admin guard and the lead list. Order supplies sorting.
- **Characters and presets.** CharsKeys and CharsStore cover characters. PresetsRoute and PresetsPage cover presets. RaidsPage is the raid creation form.
- **Small helpers.** Title, Env, Debug, I18n and Data.

Common and Text hold the JavaScript value shapes, truthiness, and the string, decimal and regular-expression helpers that several files share. Session is the signed cookie payload.

How the model treats the outside world:
- The database, Discord, the clock, the UUID generator, Raider.IO and the environment are parameters or abstract state.
- Instants are integer milliseconds with a fixed local offset.
- A JavaScript value is a small sum type. It covers the cases whose truthiness or type the code tests.
- Where code updates state step by step, the model uses classes with `modifies` frames. This covers the signup table, the guild registry, the JSON raid store, the character store, the member cache and the id counter. Everything else is functions and lemmas.

The cycle lasts 6 days 21 hours (`routes/cycles.js:22`); `within` includes both ends.

## Model

| member | source | states |
|---|---|---|
| Bot.SlugifyForChannel | src/backend/discord/bot.js:45-54 | an empty name gives "unknown"; any other name gives the channels.js slug: at most `max` dash-word characters, never starting with `-` |
| Bot.ResolveLeadDisplaySlug | src/backend/discord/bot.js:56-67 | the member's display name wins, then the user name; when neither is found, the slug of the id as text ("null" for a missing id), each through `slugifyForChannel` |
| Bot.LeadSlugsAgree | src/backend/discord/bot.js:56-67 | bot.js and channels.js give the same lead slug for every lead id except "", which gives "unknown" in bot.js and "" in channels.js |
| Bot.DifficultySlug | src/backend/discord/bot.js:72-78 | myth, hero and norm prefixes in any case give my, hc and nm; an empty difficulty gives "unknown" |
| Bot.DifficultySlugsAgree | src/backend/discord/bot.js:72-78 | bot.js and channels.js agree on every difficulty except the empty one |
| Bot.BuildChannelName | src/backend/discord/bot.js:83-93 | the name is `day-HHmm-diff-loot-lead` with the weekday, local time, difficulty slug, loot slug and lead slug in that order, cut to its first 95 characters when longer; so it has at most 95 characters, starts with `day-HHmm-` and ends with `-lead` whenever the uncut name fits |
| Bot.CommentExample | src/backend/discord/bot.js:91 | a Heroic VIP raid on Wednesday at 20:00 led by "rikuger" is named "wed-2000-hc-vip-rikuger", as the code's comment says |
| Bot.GetOrCreateRaidChannel | src/backend/discord/bot.js:121-155 | a channel is returned exactly when the bot, the guild id and Manage Channels are present and a text channel with the name exists or Discord accepts the create; the returned channel is the first text channel with the name, either the existing one with nothing changed or a new text channel with a fresh id appended under the configured category when that id names one; a failure leaves the channels unchanged |
| Bot.PostRaidAnnouncement | src/backend/discord/bot.js:157-171 | succeeds exactly when the channel is obtained and Discord accepts the send; the channel list changes only by the created channel; a failure appends no message; on success exactly the announcement content is appended to the channel and its id returned |
| Bot.DeleteRaidChannel | src/backend/discord/bot.js:190-221 | the stored id first; the name fallback only when that deletes nothing, and it deletes exactly when a text channel has the name and Discord accepts; without the bot the promise is rejected, without a guild id the answer is false; a deleting path leaves exactly `Without` of the old channel list for that channel's id, so the others keep their order, and removes that channel's messages; nothing changes unless true is returned |
| Channels.Slug | src/backend/discord/channels.js:6-11 | the slug is at most `max` characters of dash-separated lower-case words, never starts with `-`, is a prefix of the uncut slug and equals it when that fits |
| Channels.DiffSlug | src/backend/discord/channels.js:15-21 | difficulties starting with myth, hero or norm in any case give my, hc and nm; anything else gives its slug of at most 100 dash-word characters |
| Channels.LootSlug | src/backend/discord/channels.js:22-24 | the loot slug holds no whitespace and is empty exactly when the loot type is; its run-by-run meaning is `LootSlugSplit` |
| Channels.LootSlugSplit | src/backend/discord/channels.js:22-24 | a whitespace-free word, a maximal whitespace run and the rest give the lowered word, one `-`, then the loot slug of the rest |
| Channels.LootSlugOfWord | src/backend/discord/channels.js:22-24 | a loot type without whitespace is only lowered |
| Channels.ResolveLeadDisplaySlug | src/backend/discord/channels.js:26-37 | the member's display name wins, then the user name, else the slug of the id as text ("null" for a missing lead); the result is at most 100 dash-word characters |
| Channels.LeadSlugFallsBackToId | src/backend/discord/channels.js:36 | a lead id of 1 to 100 digits that no member or user resolves names the channel itself |
| Channels.NullLeadSlug | src/backend/discord/channels.js:36 | a raid without a lead id gets the lead slug "null" |
| Channels.DayPart | src/backend/discord/channels.js:12-14 | the day part has three letters and is "day" for an invalid date |
| Channels.TimePart | src/backend/discord/channels.js:42-43 | the time part is four digits reading the local hours and minutes, "0000" for an invalid date |
| Channels.Cut95 | src/backend/discord/channels.js:46 | the cut is a prefix of the name of at most 95 characters, the whole name when it fits and exactly 95 characters otherwise |
| Channels.CutKeepsPrefix | src/backend/discord/channels.js:46 | the cut keeps every prefix of at most 95 characters |
| Channels.BuildChannelName | src/backend/discord/channels.js:39-47 | the name is `day-HHmm-diff-loot-lead` with the weekday, local time, difficulty slug, loot slug and lead slug in that order, cut to its first 95 characters when longer; so it has at most 95 characters, starts with `day-HHmm-` and ends with `-lead` whenever the uncut name fits |
| Channels.InvalidDatePrefix | src/backend/discord/channels.js:40-43 | an invalid date gives a name starting with "day-0000-" |
| Channels.GetOrCreateNamed | src/backend/discord/channels.js:72-101 | each missing precondition gives its own error and a rejected create gives CreateRejected, all changing nothing; a channel is returned exactly when the guild is reachable and a text channel with the name exists or the create is accepted; it is the first text channel with the name, returned unchanged, or a new text channel with the name under the configured category, appended |
| Channels.GetOrCreateRaidChannel | src/backend/discord/channels.js:72-101 | a channel is returned exactly when the bot, the guild id and Manage Channels are present and a text channel with the raid's name exists or the create is accepted; it is then the first text channel with the raid's name, either the existing one with nothing changed or a new text channel with a fresh id appended under the configured category when that id names one; a failure leaves the channels unchanged |
| Channels.AnnouncementLines | src/backend/discord/channels.js:108-113 | five lines; the difficulty line carries the boss count exactly for a Mythic raid with a truthy count; the lead line is empty exactly without a lead |
| Channels.AnnouncementSplits | src/backend/discord/channels.js:108-113 | of `AnnouncementContent`: when no field holds a line break, the sent content splits back into the five lines |
| Channels.PostRaidAnnouncement | src/backend/discord/channels.js:103-117 | succeeds exactly when the raid's channel is obtained and the send is accepted; the channel list gains at most that created channel; a reachable guild fails only with CreateRejected or SendRejected; a failure appends no message; on success exactly one message, the content, is appended to the raid's channel and its id is returned |
| Channels.PostNamed | src/backend/discord/channels.js:103-117 | the same as postRaidAnnouncement for a given channel name and content: success exactly when the channel is obtained and the send accepted, the channels stated for both the existing and the created case, exactly one message appended on success and none on failure |
| Channels.DeleteChannelById | src/backend/discord/channels.js:119-132 | rejected exactly without the bot; true exactly when the id names an existing channel and Discord accepts the delete, which then leaves exactly `Without` of the old channel list for that channel's id, and removes that channel's messages; otherwise nothing changes |
| Channels.DeleteTextNamed | src/backend/discord/channels.js:147-152 | true exactly when a text channel has the name and Discord accepts the delete; the first such channel is the only one removed: the list is the old one with that position cut out, so the others keep their order, and the name next finds the following text channel of that name; that channel's messages go too; otherwise nothing changes |
| Channels.DeleteRaidChannel | src/backend/discord/channels.js:134-157 | the stored id wins when its delete succeeds; otherwise the name fallback decides, deleting exactly when a text channel has the name and Discord accepts; rejected exactly when an id is stored and the bot is missing; either path leaves exactly `Without` of the old channel list for the id it found, and removes that channel's messages; nothing changes unless true is returned |
| Guild.FindTextIndex | src/backend/discord/channels.js:87 | the index found is the first text channel with the name; none found means no text channel has it |
| Guild.FindText | src/backend/discord/channels.js:87 | the channel found is a text channel with the name; none is found exactly when no channel is one |
| Guild.FindTextAppend | src/backend/discord/channels.js:87-100 | appending a channel does not change which existing channel a name finds |
| Guild.CreatedIsFound | src/backend/discord/channels.js:87-100 | a text channel created under a name no text channel had is what that name finds afterwards |
| Guild.ChannelById | src/backend/discord/channels.js:123 | the channel fetched has the id; none means no channel has it |
| Guild.CategoryById | src/backend/discord/channels.js:56-70 | the parent is the fetched channel's id exactly when the configured id names a category; an id naming no channel, or another kind of channel, gives none |
| Guild.MessageIndex | src/backend/discord/modules/raidAnnounceAdapter.js:255 | the message fetched belongs to the channel and has the id; none means no message of the channel has it |
| Guild.MessagesOutside | src/backend/discord/channels.js:125 | exactly the messages of other channels survive a channel's deletion |
| Guild.Registry.Create | src/backend/discord/channels.js:93-98 | a channel with a fresh id, distinct from every existing one, is appended and nothing else changes |
| Guild.Registry.FindOrCreateText | src/backend/discord/channels.js:86-100 | afterwards the name finds the returned channel: the existing one with nothing changed, or a new one appended |
| Guild.Registry.Send | src/backend/discord/channels.js:115 | exactly one message with a fresh id is appended to the channel |
| Guild.Registry.Edit | src/backend/discord/modules/raidAnnounceAdapter.js:265-267 | only the body of the edited message changes; its id and channel stay |
| Guild.Registry.Delete | src/backend/discord/channels.js:125 | the channel list loses exactly that channel's position, the rest keep their order, and the ids stay unique; that channel's messages go |
| Guild.Without | src/backend/discord/channels.js:125 | exactly the channels with another id remain |
| Guild.WithoutAt | src/backend/discord/channels.js:125 | with unique ids, dropping the id at one position is cutting out that position, the others in their order |
| Guild.FindTextWithout | src/backend/discord/channels.js:147-152 | deleting any channel other than the one a name finds leaves that lookup as it was |
| Guild.FindTextAfterDelete | src/backend/discord/channels.js:147-152 | deleting the channel a name finds makes the name find the next text channel of that name |
| Guild.RemoveAtKeepsUnique | src/backend/discord/channels.js:125 | cutting out one position keeps the channel ids unique |
| DiscordService.MemberCache.FetchMembers | src/backend/services/discord.js:54-63 | a non-empty cache younger than 60 seconds is returned unchanged; otherwise the freshly fetched list is returned and becomes the cache, stamped with the current time |
| DiscordService.ConfiguredIdIgnoresNames | src/backend/services/discord.js:67-76 | with a role id configured, adding a role with another id, whatever its name, never changes who is a raid lead |
| DiscordService.RoleNameAnyCase | src/backend/services/discord.js:74-75 | without a configured id, a role named "raidlead" in any case makes the member a raid lead |
| DiscordService.CollectedMembers | src/backend/services/discord.js:124-134 | a lead is collected exactly when some non-bot member holding the raid-lead role produces it |
| DiscordService.ListRaidleads | src/backend/services/discord.js:119-138 | the leads are sorted by display name, hold each collected lead as often as it was collected, and are exactly the entries of the non-bot raid-lead members; leads with the same display name keep member order, as the stable sort does |
| DiscordService.CollectLeads | src/backend/services/discord.js:123-134 | the loop collects the raid-lead members in member order |
| DiscordService.ByNameTotal | src/backend/services/discord.js:136 | the display-name comparison orders any two leads one way or the other |
| DiscordService.ByNameTransitive | src/backend/services/discord.js:136 | the display-name comparison chains, which makes the sort stable |
| DiscordService.WeekdayAbbr | src/backend/services/discord.js:82-86 | a valid date gives three letters starting with a capital; an invalid one gives "undefined" |
| DiscordService.WeekdayAbbrLowered | src/backend/services/discord.js:82-86 | the service's weekday abbreviation, lowered, is the one nameFormat.js uses |
| DiscordService.Clock | src/backend/services/discord.js:169-170 | a valid date gives four digits reading the local hours and minutes; an invalid one gives "NaNNaN" |
| DiscordService.DiffSlug | src/backend/services/discord.js:88-95 | never empty; normal, heroic and mythic in any case give nhc, hc and m; a missing difficulty gives nhc; anything else is kept lowered |
| DiscordService.LootSlug | src/backend/services/discord.js:97-104 | always saved, unsaved or vip; those three in any case give themselves; anything else gives vip |
| DiscordService.SlugifyName | src/backend/services/discord.js:106-115 | never empty, at most 30 dash-separated lower-case characters; a missing name gives "lead" |
| DiscordService.NameCharsAreDashWords | src/backend/services/discord.js:107-113 | the slug before the cut is dash-separated lower-case words |
| DiscordService.SlugifyNameOfWord | src/backend/services/discord.js:106-115 | a name of up to 30 letters and digits slugs to its lower case |
| DiscordService.ChannelName | src/backend/services/discord.js:155-176 | the name is `Day-HHmm-diff-loot-lead`: weekday abbreviation, clock, difficulty slug, loot slug and lead slug joined by dashes in that order, and is not cut |
| DiscordService.DocumentedName | src/backend/services/discord.js:155 | a Normal VIP raid on Wednesday at 18:00 led by "Syntax" is named "Wed-1800-nhc-vip-syntax", the documented format |
| DiscordService.CreateRaidTextChannel | src/backend/services/discord.js:164-204 | the call fails, changing nothing, exactly when the guild is unreachable, a configured category id names no category, or Discord rejects the create; otherwise exactly one text channel with the composed name is appended, under the configured category or under no parent when none is set, and its id and name are returned |
| NameFormat.Slugify | src/backend/discord/modules/nameFormat.js:4-13 | the result is slug-shaped (lower-case letters and digits in dash-separated words); a falsy input gives "tbd" |
| NameFormat.Hhmm | src/backend/discord/modules/nameFormat.js:60-67 | four digits: a well-formed `HH:mm` time field wins, otherwise the local hours and minutes of the instant |
| NameFormat.Pad2Value | src/backend/discord/modules/nameFormat.js:15-17 | the two padded digits read back the number |
| NameFormat.DiffCode | src/backend/discord/modules/nameFormat.js:69-76 | normal, heroic and mythic in any case give nm, hc and my; a missing difficulty gives "tbd"; the code is always slug-shaped |
| NameFormat.LeadSlug | src/backend/discord/modules/nameFormat.js:81-83 | never empty and slug-shaped; without any lead field it is "tbd" |
| NameFormat.LootCode | src/backend/discord/modules/nameFormat.js:78-79 | slug-shaped; without lootType or loot it is "tbd" |
| NameFormat.DayName | src/backend/discord/modules/nameFormat.js:56-58 | three letters for every weekday |
| NameFormat.Dashed | src/backend/discord/modules/nameFormat.js:85 | the day fills characters 0-2 and the time 4-7, each followed by `-`; the rest is diff, loot and lead joined by `-` |
| NameFormat.FormatRaidChannelName | src/backend/discord/modules/nameFormat.js:32-86 | `dow-hhmm-diff-loot-lead`: the weekday of the raid's date, or of now when there is none; the four-digit time; the difficulty code, loot code and lead slug |
| NameFormat.NoLeadGivesTbd | src/backend/discord/modules/nameFormat.js:82-83 | without any lead field the name ends in `-tbd` |
| NameFormat.DocumentedExample | src/backend/discord/modules/nameFormat.js:19-24 | Saturday, "23:15", Heroic, VIP, lead Syntax gives "sat-2315-hc-vip-syntax", the example in the comment |
| Text.ReplaceRuns | src/backend/discord/modules/nameFormat.js:10-12 | empty exactly for an empty input; every character is the replacement or outside the class; the replacement never appears twice in a row when it is itself in the class; its meaning is `ReplaceRunsSplit` |
| Text.ReplaceRunsPlainPrefix | src/backend/discord/modules/nameFormat.js:10-12 | a class-free prefix is copied unchanged |
| Text.ReplaceRunsRun | src/backend/discord/modules/nameFormat.js:10-12 | a maximal run of the class, of any length, becomes one replacement character |
| Text.ReplaceRunsSplit | src/backend/discord/modules/nameFormat.js:10-12 | word, maximal run, rest: the word, one replacement, then the rest rewritten |
| Text.RemoveClass | src/backend/services/discord.js:112 | no character of the class is left; its meaning is `RemoveClassAppend` with `RemoveClassChar` |
| Text.RemoveClassAppend | src/backend/services/discord.js:112 | the removal works piece by piece over a concatenation |
| Text.RemoveClassChar | src/backend/services/discord.js:112 | one character is deleted exactly when it is in the class, else kept |
| Text.StripChar | src/backend/discord/channels.js:10 | neither end is the stripped character and the result is a contiguous part of the input |
| Text.WordSlug | src/backend/discord/modules/nameFormat.js:4-13 | the word slug is slug-shaped: lower-case letters and digits in words joined by single dashes, no dash at either end |
| Text.WordSlugOfWord | src/backend/discord/modules/nameFormat.js:4-13 | a single word of ASCII letters and digits slugs to its lower case |
| Text.DashSlug | src/backend/discord/channels.js:6-11 | the dash slug before the cut is slug-shaped |
| Text.DashSlugOfWord | src/backend/discord/channels.js:6-11 | a single word of ASCII letters and digits slugs to its lower case |
| Text.TakeOfSlug | src/backend/discord/channels.js:10 | cutting a slug keeps it dash-separated words that do not start with `-` |
| Text.JoinDashed | src/backend/discord/channels.js:46 | the five fields joined by `-`: the length adds up, and each field stands at its own place, between the dashes after the fields before it |
| Text.JoinDashedIs | src/backend/discord/channels.js:46 | the joined name is the five fields with a dash between each two, written out |
| Common.CsvItems | src/backend/routes/users.js:82-85 | every item is non-empty, holds no comma and is already trimmed; an empty list gives no items |
| Common.CsvItemsOfJoin | src/backend/routes/users.js:82-85 | a list of clean role ids written as "a,b,c" reads back as the same list |
| Common.SplitJoin | src/backend/routes/chars.js:113 | of `Split` and `Join`: splitting a join on a separator no part contains gives the parts back |
| Common.NumberOfIntToString | src/backend/discord/modules/raidSignup.js:45-46 | of `NumberOf`: `Number(String(n))` is `n` for every integer |
| Common.StrLeTotal | src/backend/services/discord.js:136 | the code-unit order standing for `localeCompare` orders any two strings one way or the other |
| Common.StrLeTransitive | src/backend/services/discord.js:136 | the code-unit order chains: a before b before c puts a before c |
| Common.ParseIntPrefix | src/backend/routes/chars.js:51 | `parseInt(s, 10)` is NaN exactly when no digit follows the leading whitespace and sign |
| Common.Trim | src/backend/routes/chars.js:48 | `trim()` gives a contiguous slice of the text starting after its leading whitespace, which neither begins nor ends with whitespace |
| Common.Lower | src/backend/routes/chars.js:78 | `toLowerCase()` keeps the length and lowers each character in place |
| Common.Split | src/backend/routes/chars.js:113 | `split(c)` gives at least one piece and no piece contains the separator |
| Common.SplitThree | src/backend/routes/chars.js:80 | a text "a/b/c" whose parts hold no "/" splits back into exactly those three parts |
| Common.NumberOfInnerDash | src/backend/routes/raids.js:358 | `Number` of text with a dash after its first character and no surrounding whitespace is NaN |
| Common.TrimPadded | src/backend/utils/wow.js:23 | whitespace added before and after a string does not change what `trim()` leaves |
| Common.TrimSameShape | src/backend/utils/wow.js:23 | strings with whitespace in the same places are trimmed at the same offset to the same length |
| Common.LowerTrimIgnoresCase | src/backend/utils/wow.js:23 | `trim().toLowerCase()` gives the same text for strings that differ only in letter case |
| RaidSignupCodec.Decode | src/backend/discord/modules/raidSignup.js:40-50 | null exactly when the first `|`-field is not `su` |
| RaidSignupCodec.NaNText | src/backend/discord/modules/raidSignup.js:45-46 | of `NumberOf` and `JsNumber`: the text "NaN" reads back as not a number |
| RaidSignupCodec.NumTextRoundTrip | src/backend/discord/modules/raidSignup.js:34-35 | printing a number field and reading it back with `Number` gives the same value, NaN included; the text holds neither `|` nor `:` |
| RaidSignupCodec.NumFieldRoundTrip | src/backend/discord/modules/raidSignup.js:45-46 | a number field is empty exactly when absent, and otherwise reads back as its value |
| RaidSignupCodec.DecodeEncode | src/backend/discord/modules/raidSignup.js:29-50 | of `Encode` and `Decode`: decoding an encoded id gives back every field, for a type and role without `|` |
| RaidSignupCodec.IndexOf | src/backend/discord/modules/raidSignup.js:295 | a position found is where the marker occurs |
| RaidSignupCodec.SplitOn | src/backend/discord/modules/raidSignup.js:295 | splitting on `:lc:` always gives at least one part |
| RaidSignupCodec.EncodeHasNoColon | src/backend/discord/modules/raidSignup.js:262 | an encoded id whose type and role hold no `:` holds none |
| RaidSignupCodec.SplitAtLc | src/backend/discord/modules/raidSignup.js:295 | two colon-free parts joined by `:lc:` split back into exactly those parts |
| RaidSignupCodec.LootModalIdRoundTrip | src/backend/discord/modules/raidSignup.js:293-296 | the lootbuddy note modal's id gives back the raid id, character 0, role LOOTBUDDY and the picked class, for a class without `:` |
| SignupFlow.CharOption | src/backend/discord/modules/raidSignup.js:88-91 | a character's option carries its id as text |
| SignupFlow.CharOptions | src/backend/discord/modules/raidSignup.js:88-91 | the first 25 characters, at most, each as its option, in order |
| SignupFlow.NonEmptyOnly | src/backend/discord/modules/raidSignup.js:107 | exactly the non-empty roles are kept |
| SignupFlow.AllowedRoles | src/backend/discord/modules/raidSignup.js:107 | a class without an entry allows exactly ["DPS"]; a class with one allows exactly its non-empty roles |
| SignupFlow.OfferedRoles | src/backend/discord/modules/raidSignup.js:112-114 | exactly the role options whose value is allowed |
| SignupFlow.LookupChar | src/backend/discord/modules/raidSignup.js:104 | a character is found exactly for a finite id that is in the table; NaN finds nothing |
| SignupFlow.TakeOptions | src/backend/discord/modules/raidSignup.js:230 | the first `n` options, or all of them when there are fewer |
| SignupFlow.StepRoundTrip | src/backend/discord/modules/raidSignup.js:29-50 | the id of every step, whose name is letters and `_`, decodes back to its fields |
| SignupFlow.StartBoosterStep | src/backend/discord/modules/raidSignup.js:53-100 | the "Anmelden" button opens the character menu carrying the raid, or says there are no characters |
| SignupFlow.StartLootStep | src/backend/discord/modules/raidSignup.js:225-234 | the "Lootbuddy" button opens the class menu with at most 25 classes, carrying the raid |
| SignupFlow.StartUnsubStep | src/backend/discord/modules/raidSignup.js:235-238 | the "Abmelden" button withdraws the user's signups for the raid |
| SignupFlow.PickCharStep | src/backend/discord/modules/raidSignup.js:246-249 | picking a character opens the role step for `Number(value)` |
| SignupFlow.PickRoleMenu | src/backend/discord/modules/raidSignup.js:103-121 | the role menu carries raid and character and offers exactly the options the class allows, only DPS for a class without an entry |
| SignupFlow.PickRoleStep | src/backend/discord/modules/raidSignup.js:124-135 | picking a role opens the saved menu carrying raid, character and role |
| SignupFlow.PickSavedStep | src/backend/discord/modules/raidSignup.js:138-152 | picking saved or unsaved opens the note modal; only "saved" counts as saved |
| SignupFlow.PickLootClassStep | src/backend/discord/modules/raidSignup.js:258-274 | picking a lootbuddy class opens the note modal whose id carries the class after `:lc:` |
| SignupFlow.EncodeStartsWith | src/backend/discord/modules/raidSignup.js:280 | an encoded id starts with `su|`, its type and `|` |
| SignupFlow.FinalModalStep | src/backend/discord/modules/raidSignup.js:280-291 | submitting the note modal saves the booster signup with the carried fields and the trimmed note |
| SignupFlow.LootModalStep | src/backend/discord/modules/raidSignup.js:293-304 | submitting the lootbuddy modal saves a lootbuddy signup for the raid with the picked class and the trimmed note |
| SignupFlow.LootModalRoutes | src/backend/discord/modules/raidSignup.js:278-305 | an id starting with `su|final_loot_modal|` takes the lootbuddy branch |
| SignupFlow.CharClassOf | src/backend/discord/modules/raidSignup.js:166-177 | a class snapshot exists only for a character that is found |
| SignupFlow.Handle | src/backend/discord/modules/raidSignup.js:214-306 | the outcome is the routed one; a withdrawal, booster or lootbuddy outcome makes exactly its table change, every other outcome leaves the table alone |
| SignupTable.FirstPairIndex | src/backend/discord/modules/raidSignup.js:157-160 | the row found is the first of the pair; none found means the pair has no row |
| SignupTable.DeleteId | src/backend/discord/modules/raidSignup.js:163 | exactly the rows with another id remain, in order |
| SignupTable.Owned | src/backend/discord/modules/raidSignup.js:206 | exactly the user's rows for the raid |
| SignupTable.DeleteFirst | src/backend/discord/modules/raidSignup.js:157-164 | rows are only deleted, the rest keep their order |
| SignupTable.WithoutOwn | src/backend/discord/modules/raidSignup.js:204-209 | exactly the rows not owned by the user for the raid remain, in order |
| SignupTable.DeleteFirstCount | src/backend/discord/modules/raidSignup.js:157-164 | deleting the first row of a pair lowers that pair's count by one when it had a row, and no other pair's count |
| SignupTable.DeleteFoundRow | src/backend/discord/modules/raidSignup.js:157-164 | with increasing ids, deleting the found row by its id is deleting the first row of the pair |
| SignupTable.BoosterSignupLeavesOne | src/backend/discord/modules/raidSignup.js:155-180 | when the pair had at most one row before, it has exactly one after a booster signup |
| SignupTable.BoosterSignupKeepsOthers | src/backend/discord/modules/raidSignup.js:155-180 | a booster signup leaves the row count of every other pair as it was |
| SignupTable.BoosterRow | src/backend/discord/modules/raidSignup.js:168-179 | the new row has the role as type, status SIGNUPED and the pair; a note exactly when one was given; a class exactly when the character has one |
| SignupTable.LootbuddyRow | src/backend/discord/modules/raidSignup.js:187-198 | type LOOTBUDDY, status SIGNUPED, no character, never saved; a note and class exactly when given |
| SignupTable.BoosterKeepsWellFormed | src/backend/discord/modules/raidSignup.js:155-180 | a booster signup keeps ids increasing and one row per character and raid |
| SignupTable.AppendLootbuddyKeepsWellFormed | src/backend/discord/modules/raidSignup.js:186-199 | a lootbuddy signup keeps ids increasing and one row per character and raid |
| SignupTable.Table.CreateBoosterSignup | src/backend/discord/modules/raidSignup.js:155-184 | the first row of the pair, if any, is deleted and the new row appended with the next id; the invariant is kept |
| SignupTable.Table.CreateLootbuddySignup | src/backend/discord/modules/raidSignup.js:186-202 | the new row is always appended with the next id |
| SignupTable.Table.DeleteOwnSignup | src/backend/discord/modules/raidSignup.js:204-211 | the loop leaves exactly the rows not owned by the user for the raid; the id counter is unchanged |
| SignupTable.DeletedAllFound | src/backend/discord/modules/raidSignup.js:206-209 | once every found id is deleted, exactly the user's rows for the raid are gone |
| SignupTable.SublistKeepsWellFormed | src/backend/discord/modules/raidSignup.js:204-209 | deleting rows keeps the table invariant |
| SignupsRoute.FindId | src/backend/routes/signups.js:22 | a raid is found only under the id `Number(v)` gives, and only when it exists |
| SignupsRoute.FindChar | src/backend/routes/signups.js:25 | a character is found only under the finite id `Number(v)` gives |
| SignupsRoute.BoosterDecision | src/backend/routes/signups.js:12-37 | the checks in their order: 401 exactly without a user; 400 missing_fields exactly when raidId, charId or role is falsy; past those, raid_not_found exactly when the raid does not exist; past that, char_not_found exactly when the character does not exist; past that, accepted exactly when the class's allowed roles include the role, otherwise role_not_allowed_for_class carrying the class (className, class or wowClass) and exactly those allowed roles |
| SignupsRoute.LootDecision | src/backend/routes/signups.js:59-71 | 401 exactly without a user; missing_fields exactly when raidId or className is falsy; past those, raid_not_found exactly when the raid does not exist and accepted exactly when it does; never a role or character error |
| SignupsRoute.AcceptedRoleIsAllowed | src/backend/routes/signups.js:29-37 | an accepted role is a string that `isRoleAllowedForClass` allows for the character's class, so one of Tank, Healer and DPS |
| SignupsRoute.DpsAlwaysPassesRoleCheck | src/backend/routes/signups.js:29-37 | DPS never fails the role check, whatever the class |
| SignupsRoute.Ledger.PostBooster | src/backend/routes/signups.js:12-56 | the reply is the decision; an accepted request appends exactly one BOOSTER row with the raid, user, character, role, boolean saved and note, with no de-duplication; any other reply changes nothing |
| SignupsRoute.Ledger.PostLootbuddy | src/backend/routes/signups.js:59-88 | the reply is the decision; an accepted request appends exactly one LOOTBUDDY row with the class; any other reply changes nothing |
| RaidEmbed.WithStatusMembers | src/backend/discord/modules/raidEmbed.js:32-33 | the status filter keeps exactly the rows of that status |
| RaidEmbed.WithTypeMembers | src/backend/discord/modules/raidEmbed.js:25-30 | the type filter keeps exactly the rows of that type |
| RaidEmbed.WithTypeAppend | src/backend/discord/modules/raidEmbed.js:25-30 | the type filter keeps input order: it distributes over concatenation |
| RaidEmbed.WithStatusAppend | src/backend/discord/modules/raidEmbed.js:32-33 | the status filter keeps input order: it distributes over concatenation |
| RaidEmbed.ByRole | src/backend/discord/modules/raidEmbed.js:25-30 | four groups, TANK, HEAL, DPS and LOOTBUDDY, each the rows of its type |
| RaidEmbed.ByRolePartition | src/backend/discord/modules/raidEmbed.js:25-30 | the groups hold at most the input rows, and all of them when every row has one of the four types |
| RaidEmbed.RosterAndQueue | src/backend/discord/modules/raidEmbed.js:32-33 | a signup is on the roster exactly when PICKED and in the queue exactly when SIGNUPED; none is in both |
| RaidEmbed.Who | src/backend/discord/modules/raidEmbed.js:38-43 | "name-realm" when the character has both; otherwise the first set of display name, user name and discord id, else an em dash, also without a user; never empty |
| RaidEmbed.Fmt | src/backend/discord/modules/raidEmbed.js:35-47 | the line is the bullet, `who`, the class part, the saved part and the note part in that order; so it starts with the bullet and `who` and ends with the note, else `[S]`, else the class, else is only bullet and `who`, each part present exactly when its field is set |
| RaidEmbed.ClassPart | src/backend/discord/modules/raidEmbed.js:44 | the class part is present iff the signup has a class, and then is " (class)" |
| RaidEmbed.SavedPart | src/backend/discord/modules/raidEmbed.js:45 | the saved part is present iff the signup is saved, and then is " [S]" |
| RaidEmbed.NotePart | src/backend/discord/modules/raidEmbed.js:46 | the note part is present iff the signup has a note, and then is " — note" |
| RaidEmbed.Lines | src/backend/discord/modules/raidEmbed.js:48 | the lines of a non-empty group start with the bullet |
| RaidEmbed.FmtAll | src/backend/discord/modules/raidEmbed.js:48 | the formatted lines, one per row in row order, each that row's `fmt` |
| RaidEmbed.LinesJoin | src/backend/discord/modules/raidEmbed.js:48 | the lines of a non-empty group are its formatted rows joined with line breaks, the code's `arr.map(fmt).join("\n")` |
| RaidEmbed.LinesSplitBack | src/backend/discord/modules/raidEmbed.js:48 | when no formatted row holds a line break, splitting the block at line breaks gives back the formatted rows |
| RaidEmbed.Block | src/backend/discord/modules/raidEmbed.js:48 | never empty; the em dash exactly for an empty group |
| RaidEmbed.LeadText | src/backend/discord/modules/raidEmbed.js:19-22 | a mention `<@id>` for a lead of 16 to 20 digits; otherwise the lead itself, or "-" without one |
| RaidEmbed.LeadMentionIff | src/backend/discord/modules/raidEmbed.js:19-22 | the lead text starts with `<@` exactly when the lead is id-shaped or already starts so |
| RaidEmbed.RoleFields | src/backend/discord/modules/raidEmbed.js:66-83 | four fields, each the block of its group, all inline but the last |
| RaidEmbed.BuildRaidEmbeds | src/backend/discord/modules/raidEmbed.js:12-87 | exactly three embeds: the header titled "<title or Raid> — <difficulty> (<loot type>)" with the lead and date fields and the footer "Raid #<id>"; "Roster" with the PICKED signups and "Signups" with the SIGNUPED signups, each split into the fields Tanks, Heals, DPS (inline) and Lootbuddies (not inline), each field holding exactly that role's block, both with the footer "RID:<id>"; all three purple (0x8b5cf6) for a mythic raid and blue (0x0ea5e9) otherwise |
| RaidEmbed.ShownOnRoster | src/backend/discord/modules/raidEmbed.js:62-72 | a signup shown in a roster group is PICKED and has that group's type |
| RaidEmbed.FooterId | src/backend/discord/modules/raidEmbed.js:60 | the footer id is text that reads back as the raid id, or "undefined" for a raid without one |
| RaidAnnounceAdapter.Slug | src/backend/discord/modules/raidAnnounceAdapter.js:48-52 | the fallback slug is slug-shaped and an absent or empty value gives "" |
| RaidAnnounceAdapter.FallbackHhmm | src/backend/discord/modules/raidAnnounceAdapter.js:58-60 | a well-formed clock time loses its colon; otherwise an invalid date gives "NaNNaN" and a valid one four digits |
| RaidAnnounceAdapter.FallbackDiff | src/backend/discord/modules/raidAnnounceAdapter.js:62-64 | normal, heroic and mythic in any case map to nm, hc and my; anything else to a slug |
| RaidAnnounceAdapter.FallbackLead | src/backend/discord/modules/raidAnnounceAdapter.js:67 | the lead part is never empty: the slug of the first lead field, or "tbd" when that slug is empty |
| RaidAnnounceAdapter.FallbackFormatChannelName | src/backend/discord/modules/raidAnnounceAdapter.js:47-70 | the fallback name is `dow-hhmm-diff-loot-lead`: weekday, clock, difficulty code, the slug of lootType or loot, and the lead slug joined by dashes in that order |
| RaidAnnounceAdapter.FallbackInvalidDate | src/backend/discord/modules/raidAnnounceAdapter.js:54-60 | an invalid date without a time gives a name starting "undefined-NaNNaN-" |
| RaidAnnounceAdapter.TryId | src/backend/discord/modules/raidAnnounceAdapter.js:83-86 | an id tried for lookup always looks like a Discord id (16 to 20 digits) |
| RaidAnnounceAdapter.ResolveLeadDisplay | src/backend/discord/modules/raidAnnounceAdapter.js:80-108 | a trimmed lead name wins, then a lead that is not an id; otherwise the id-shaped field finds the stored user's display name, then user name, then the guild member's display (only when a guild is configured); with no id-shaped field nothing is found; a result is never empty |
| RaidAnnounceAdapter.MemberDisplay | src/backend/discord/modules/raidAnnounceAdapter.js:103 | the member's nickname, else global name, else user name, each only when non-empty; nothing iff all three are empty |
| RaidAnnounceAdapter.NoLeadNoDisplay | src/backend/discord/modules/raidAnnounceAdapter.js:80-108 | a raid with no lead fields at all resolves to no display name |
| RaidAnnounceAdapter.FirstRaidCategory | src/backend/discord/modules/raidAnnounceAdapter.js:124-125 | the category found is in the guild and has "raid" in its name; none found means no such category exists |
| RaidAnnounceAdapter.ParentFor | src/backend/discord/modules/raidAnnounceAdapter.js:117-126 | the parent is the configured category when one is configured, else a raid category of the guild; there is a parent iff the configured id names a category, or, with none configured, iff the guild has a raid category |
| RaidAnnounceAdapter.GetOrCreateChannel | src/backend/discord/modules/raidAnnounceAdapter.js:111-135 | an existing text channel of that name is returned unchanged; otherwise, when creation succeeds, exactly one is appended and the name now finds it; when it fails there is no channel and nothing changes |
| RaidAnnounceAdapter.BasicLines | src/backend/discord/modules/raidAnnounceAdapter.js:143-151 | the plain-text announcement has exactly five lines |
| RaidAnnounceAdapter.BasicTextLines | src/backend/discord/modules/raidAnnounceAdapter.js:143-151 | of `BasicTextForRaid`: when no field holds a line break, splitting the text at line breaks gives back the five lines |
| RaidAnnounceAdapter.AnnounceRaid | src/backend/discord/modules/raidAnnounceAdapter.js:186-206 | unreachable, or no channel of the raid's name and creation fails: three nulls and nothing changes; otherwise the channel list is unchanged when a text channel of the raid's name exists, else gains exactly that channel under the configured or raid category; the embeds are posted iff sending succeeds, the answered message id is the posted message's, and the raid's row gets the channel and message ids |
| RaidAnnounceAdapter.PostAndStore | src/backend/discord/modules/raidAnnounceAdapter.js:154-198 | when the channel is neither found nor created: three nulls and nothing changes; otherwise the channel list is unchanged when a text channel of that name exists, else gains exactly the new channel; one message is appended iff sending succeeds and the answered message id is that message's; only the raid's own row is written |
| RaidAnnounceAdapter.PostIn | src/backend/discord/modules/raidAnnounceAdapter.js:165-180 | the answer carries the channel's id and name, and, when sending succeeds, the id of the message it appends; one message with the body is appended to that channel iff sending succeeds; the channel list is unchanged |
| RaidAnnounceAdapter.RaidTable.Store | src/backend/discord/modules/raidAnnounceAdapter.js:189-195 | the raid's own row, when it exists, gets the ids; every other row, and an absent row, is untouched |
| RaidAnnounceAdapter.FetchRaidFull | src/backend/discord/modules/raidAnnounceAdapter.js:24-44 | a raid is found only for an id whose Number() is finite and stored; a NaN id finds nothing |
| RaidAnnounceAdapter.Merge | src/backend/discord/modules/raidAnnounceAdapter.js:225-227 | keys present on the given object win over the stored row; absent keys come from the row |
| RaidAnnounceAdapter.WithIds | src/backend/discord/modules/raidAnnounceAdapter.js:236-240 | a raid that already has both target ids is used as given |
| RaidAnnounceAdapter.RefreshRaidMessage | src/backend/discord/modules/raidAnnounceAdapter.js:216-271 | never creates a channel or message; it succeeds iff the raid loads with an id, both target ids are truthy after the stored row fills them in, the guild is reachable, the channel id names a text channel, that channel holds the message id and the edit succeeds; on success exactly that message is rewritten, with the raid's embeds when there are any and with its plain text otherwise; otherwise nothing changes |
| RaidAnnounceAdapter.RefreshBody | src/backend/discord/modules/raidAnnounceAdapter.js:263-267 | the edit carries the embeds exactly when there are any, and the plain text otherwise |
| Cycles.CycleFromStart | src/backend/routes/cycles.js:22-40 | a cycle begins at its start and lasts exactly 6 days 21 hours |
| Cycles.Shift | src/backend/routes/cycles.js:24-28 | moving a cycle by whole days moves both ends by that many days |
| Cycles.WednesdayOnOrBefore | src/backend/routes/cycles.js:43-46 | going back `(dow - 3 + 7) % 7` days lands on a Wednesday no more than six days earlier |
| Cycles.PrevWednesdayIsLatestOpening | src/backend/routes/cycles.js:41-51 | of `PrevWednesday0800`: the result is a Wednesday at 08:00, not after the base, and less than a week before it |
| Cycles.CurrentCycle | src/backend/routes/cycles.js:52-63 | the current cycle lasts 6 days 21 hours and has not ended before `now` |
| Cycles.CurrentCycleShape | src/backend/routes/cycles.js:52-63 | the current cycle opens on Wednesday 08:00, has not closed at `now`, and opens less than the three-hour gap after `now` |
| Cycles.NextFollowsCurrent | src/backend/routes/cycles.js:64-67 | the next cycle opens three hours after the current one closes and has the same length |
| Cycles.NextCycle | src/backend/routes/cycles.js:64-67 | the next cycle opens exactly one week after the current one and lasts 6 days 21 hours |
| Cycles.Validate | src/backend/routes/cycles.js:118-137 | a missing or unparseable date is the BAD_DATE error and nothing else is; a valid one is judged against the current and next cycles |
| Cycles.ValidateAllowedWindow | src/backend/routes/cycles.js:134-137 | of `Within` and `Validate`: a date is allowed iff it is not in the past, lies in the window from the current opening to the next close, and not in the gap between them |
| Cycles.CyclesOverview | src/backend/routes/cycles.js:75-81 | an unparseable `at` is the BAD_AT_PARAM error and nothing else is |
| Cycles.OverviewWeeks | src/backend/routes/cycles.js:84-109 | previous, current and next are consecutive weeks and the allowed window spans current start to next end |
| Wow.ClassAllowedRoles | src/backend/utils/wow.js:4-18 | every class in the role table may play DPS |
| Wow.ExactFound | src/backend/utils/wow.js:42-44 | an alias equal to the key anywhere in the table makes the exact search succeed |
| Wow.AliasesNameClasses | src/backend/utils/wow.js:41-48 | when every alias maps to a class of the role table, both searches only ever return such a class |
| Wow.AliasTargetsAreClasses | src/backend/utils/wow.js:24-40 | every alias of the table maps to a key of the role table |
| Wow.NormalizedShape | src/backend/utils/wow.js:21-51 | the result is missing exactly for a missing or empty input; otherwise it is the input itself or a canonical class |
| Wow.NormalizeClassName | src/backend/utils/wow.js:21-51 | the two loops compute the exact-then-contained alias search, with the same missing-iff-empty and input-or-class guarantees |
| Wow.FindExact | src/backend/utils/wow.js:42-44 | the loop returns the class of the first alias equal to the key |
| Wow.FindContained | src/backend/utils/wow.js:46-48 | the loop returns the class of the first alias contained in the key |
| Wow.AllowedRolesForClass | src/backend/utils/wow.js:54-57 | DPS is always allowed and only Tank, Healer and DPS ever are |
| Wow.IsRoleAllowedForClass | src/backend/utils/wow.js:60-62 | DPS passes for every class, and only the three known roles can pass |
| Wow.RolesIgnoreCaseAndSpace | src/backend/utils/wow.js:21-57 | two names that agree after trimming and lower-casing get the same roles when an alias matches; an unknown name gets only DPS |
| Wow.NormalizedOf | src/backend/utils/wow.js:21-51 | a non-empty name normalises to its alias hit, otherwise to itself unchanged |
| Wow.RolesFollowNormalized | src/backend/utils/wow.js:54-57 | the allowed roles depend only on the normalised class name |
| Wow.Abbreviations | src/backend/utils/wow.js:24-44 | a name whose trimmed, lower-cased key is "dk" normalises to Death Knight, and one whose key is "dh" to Demon Hunter |
| Wow.MatchKeyIgnoresCaseAndPadding | src/backend/utils/wow.js:23 | the key a name is matched on is the same for any re-casing of its letters surrounded by any whitespace |
| Wow.NormalizedIgnoresCaseAndPadding | src/backend/utils/wow.js:21-48 | a non-empty name whose key hits an alias normalises to that class however its letters are cased and whatever whitespace surrounds it |
| Wow.ExactWitness | src/backend/utils/wow.js:42-44 | a class found by the exact search belongs to an alias equal to the key |
| Wow.OnlyLastContained | src/backend/utils/wow.js:46-48 | when only the last alias occurs inside the key, the contains search returns its class |
| Wow.OnlyLastMatches | src/backend/utils/wow.js:41-48 | when only the last alias occurs inside the key, both searches can only return its class |
| Wow.ContainedWarrior | src/backend/utils/wow.js:45-48 | a name whose key contains "warrior" and no earlier alias, such as "Highmountain Tauren Warrior", normalises to Warrior |
| ClassRoleMatrix.Matrix | src/backend/discord/modules/classRoleMatrix.js:2-19 | every listed class allows DPS and only TANK, HEAL and DPS ever appear |
| ClassRoleMatrix.IsRoleAllowedForClass | src/backend/discord/modules/classRoleMatrix.js:21-24 | a role passes only for a listed class and only if it is one of the three; DPS passes for every listed class |
| ClassRoleMatrix.TablesAgree | src/backend/discord/modules/classRoleMatrix.js:5-19 | both tables list the same classes, and a role is allowed by one iff its translation (Tank to TANK, Healer to HEAL) is allowed by the other |
| ClassRoleMatrix.UnknownClassAllowsNothing | src/backend/discord/modules/classRoleMatrix.js:21-24 | lookup is exact: an unknown or differently cased class, or no class, allows no role at all |
| ClassRoleMatrix.TankClasses | src/backend/discord/modules/classRoleMatrix.js:6-11 | the tank-capable classes are exactly Druid, Paladin, Warrior, Death Knight, Demon Hunter and Monk |
| Roles.FirstSet | src/backend/utils/roles.js:7-16 | `ENV.a \|\| ENV.b \|\| ""` is "" exactly when every variable is unset or empty, and otherwise the value of the first one set |
| Roles.RoleIdsFromEnv | src/backend/utils/roles.js:7-16 | the raidlead id is unset exactly when RAIDLEAD_ROLE_ID, DISCORD_ROLE_RAIDLEAD_ID and DISCORD_ROLE_RAIDLEAD all are; the admin id likewise from DISCORD_ROLE_ADMIN_ID and ADMIN_ROLE_ID; the first variable wins when set |
| Roles.FlagsFromMember | src/backend/utils/roles.js:30-59 | each role flag holds iff its configured id is non-empty and among the roles; roles is [] unless an array was given; isOwner is false without a user id, guild_owner when that is set, and false when guild_owner is null or absent; highestRole is the highest rank the flags grant |
| Roles.LiveRoleFlags | src/backend/utils/roles.js:64-110 | without a guild id or on a failed member fetch the flags are empty; otherwise they are those of the fetched member |
| Roles.PoliciesNest | src/backend/utils/roles.js:113-122 | of `CanCreateRaid`, `CanSetRaidLead` and `IsAdminLevel`: setting the lead implies creating raids, admin level equals setting the lead, and no flags create nothing |
| Roles.PoliciesFollowRank | src/backend/utils/roles.js:41-47 | of `CanCreateRaid` and `IsAdminLevel`: on a member's flags, creating raids means rank raidlead or above and admin level means rank admin or above |
| Roles.NoFlagsGrantNothing | src/backend/utils/roles.js:65-77 | the empty flags allow nothing and rank as plain user |
| UsersRoute.RequireAdminAsWritten | src/backend/routes/users.js:42-57 | as written: no cookie user is 401, and the guard passes exactly when the payload's own isOwner or isAdmin holds; the live result is never used |
| UsersRoute.RequireAdmin | src/backend/routes/users.js:42-57 | corrected: no cookie user is 401; it passes on the payload's owner or admin flag or on the live flags' admin level, and on nothing else |
| UsersRoute.LiveCheckNeverAdmits | src/backend/routes/users.js:52-53 | a user whose cookie carries no admin flag is refused as written even when the live flags make them an admin, and admitted by the corrected guard |
| UsersRoute.MemberFetchStatus | src/backend/utils/roles.js:77-80 | the member endpoint answers a success status exactly when the bearer credential is an access token it issued |
| UsersRoute.LiveLookupByIdFindsNothing | src/backend/routes/users.js:52 | the guard hands `u.discordId \|\| u.id` to getLiveRoleFlags as the Bearer token; when that is not an access token the live flags are the empty flags and the corrected guard decides exactly as the written one |
| UsersRoute.GuardsAgreeWithoutLiveAdmin | src/backend/routes/users.js:42-57 | both guards decide alike whenever the live check finds no admin |
| UsersRoute.RolesFromCsv | src/backend/routes/users.js:82-85 | the parsed roles are non-empty, comma-free and trimmed; no list or "" parses to no roles |
| UsersRoute.RolesFromCsvOfJoin | src/backend/routes/users.js:82-85 | a non-empty list of trimmed, comma-free, non-empty roles joined with "," parses back to the same list |
| UsersRoute.FlagsFromCsv | src/backend/routes/users.js:86-91 | the listed user is never owner, and with a configured id each flag holds iff that id is in the parsed roles |
| UsersRoute.RoleTest | src/backend/routes/users.js:163-165 | the role test is truthy iff the configured id is non-empty and held; an unset id yields the falsy "" |
| UsersRoute.FlagsFromMember | src/backend/routes/users.js:160-174 | roles are the member's cached role ids; isOwner iff the guild has an owner id equal to the user's; each role flag iff a non-empty configured id is held |
| UsersRoute.AsJs | src/backend/routes/users.js:162 | the role ids keep their order and length as JavaScript strings |
| UsersRoute.FlagCopiesAgree | src/backend/routes/users.js:160-174 | the users.js copy of flagsFromMember agrees with roles.js on the admin, raidlead and booster flags of the same member when both are given the same role ids |
| UsersRoute.RoleIdsFromEnv | src/backend/routes/users.js:163-164 | the raidlead id users.js reads is unset exactly when RAIDLEAD_ROLE_ID and DISCORD_ROLE_RAIDLEAD_ID both are; it reads no lootbuddy id |
| UsersRoute.EnvIdsAgree | src/backend/routes/users.js:163-165 | users.js and roles.js read the same admin and booster ids from any environment, and the same raidlead id exactly when DISCORD_ROLE_RAIDLEAD is unset or one of the two variables before it is set |
| UsersRoute.EnvFlagCopiesAgree | src/backend/routes/users.js:160-174 | under that condition, the flags each file derives from a member with the ids it reads itself agree on admin, raidlead and booster |
| UsersRoute.LegacyRaidleadVarIgnored | src/backend/routes/users.js:164 | whenever DISCORD_ROLE_RAIDLEAD is set and RAIDLEAD_ROLE_ID and DISCORD_ROLE_RAIDLEAD_ID are not, a member holding that role is raidlead for roles.js but not for users.js |
| LeadsRoute.DisplayNameFor | src/backend/routes/leads.js:37-40 | the name is never empty: nick, then global name, then username, then user id, then "Unknown" |
| LeadsRoute.HasRole | src/backend/routes/leads.js:41-44 | true iff the role id is non-empty and in the member's role array; an unset id matches nobody |
| LeadsRoute.IsOwner | src/backend/routes/leads.js:68-70 | true iff the cached owner id is known and equals the member's non-empty user id |
| LeadsRoute.OwnerCache.constructor | src/backend/routes/leads.js:49 | the owner id starts unknown |
| LeadsRoute.OwnerCache.Load | src/backend/routes/leads.js:50-67 | a known owner id is kept; otherwise a successful fetch stores the returned id (an empty one as unknown) and a failed fetch stores nothing |
| LeadsRoute.JsRem | src/backend/routes/leads.js:34 | JavaScript's remainder: Euclidean for a non-negative dividend, never positive for a negative one |
| LeadsRoute.DefaultAvatarIndex | src/backend/routes/leads.js:34 | no discriminator gives "0", a non-negative one its remainder by 5, and a non-number "NaN" |
| LeadsRoute.DefaultAvatarInRange | src/backend/routes/leads.js:34-35 | a non-negative discriminator picks one of the five default avatars "0" to "4" |
| LeadsRoute.AvatarFormat | src/backend/routes/leads.js:31 | the format is "gif" exactly for an "a_" hash, else "png" |
| LeadsRoute.AvatarUrlFor | src/backend/routes/leads.js:29-36 | a user with an avatar hash gets its CDN avatar URL at size 128; otherwise the default avatar image |
| LeadsRoute.FilterMembers | src/backend/routes/leads.js:133-140 | the kept members are exactly the human members who are owner, admin or raid lead |
| LeadsRoute.ToLead | src/backend/routes/leads.js:141-150 | the entry's id and name are the member's; owner implies admin and admin implies raid lead |
| LeadsRoute.MapLeads | src/backend/routes/leads.js:141-150 | one entry per member, in order |
| LeadsRoute.FirstWithId | src/backend/routes/leads.js:153 | the entry found is the first with that id; none exactly when no entry has it |
| LeadsRoute.DedupInto | src/backend/routes/leads.js:152-155 | the accumulated prefix stays, ids stay unique, the ids are the union, and each added entry is the first with its id |
| LeadsRoute.Dedup | src/backend/routes/leads.js:152-155 | the result has unique ids, the same id set as the input, and keeps the first entry of each id |
| LeadsRoute.AnyWithId | src/backend/routes/leads.js:153 | the loop answers whether some accumulated entry has the id |
| LeadsRoute.DedupLoop | src/backend/routes/leads.js:152-155 | the reduce computes exactly the first-occurrence de-duplication |
| LeadsRoute.LeadLeTotal | src/backend/routes/leads.js:157-162 | the comparison (rank descending, then name) is total, so the sort orders every pair |
| LeadsRoute.LeadLeTransitive | src/backend/routes/leads.js:157-162 | the rank-then-name comparison chains, which makes the sort stable |
| LeadsRoute.LeadList | src/backend/routes/leads.js:125-165 | the list is exactly the qualified members mapped to leads, the first entry of each id kept, sorted by rank then name; so it is sorted, has no repeated id, every entry is a qualified member's, every qualified member's id is listed, and owner implies admin implies raid lead |
| LeadsRoute.Listed | src/backend/routes/leads.js:125-165 | the GET / list is sorted by rank then name and is a permutation of the qualified members' leads with repeated ids removed; leads of equal rank and name keep their order, as the stable sort does |
| LeadsRoute.PermutationKeepsUniqueIds | src/backend/routes/leads.js:157-162 | sorting a list without repeated ids leaves none |
| LeadsRoute.SortedByRankThenName | src/backend/routes/leads.js:157-162 | in the sorted list rank never rises and equal ranks are in name order |
| CharsKeys.CleanStr | src/backend/routes/chars.js:49 | null and undefined give null, blank text gives null, anything else its trimmed, non-empty text |
| CharsKeys.CleanStrIdempotent | src/backend/routes/chars.js:49 | cleaning an already cleaned value gives it back |
| CharsKeys.ToIntOrNull | src/backend/routes/chars.js:51 | null, undefined and "" give null; a number gives itself; a digit string gives its decimal value |
| CharsKeys.ParseIntOfInt | src/backend/routes/chars.js:51 | parseInt of an integer's decimal text gives the integer back |
| CharsKeys.Slugify | src/backend/routes/chars.js:84-92 | the raid slug holds only lower-case letters, digits, `_` and `-`, with no doubled `-` |
| CharsKeys.SlugifyOfSlug | src/backend/routes/chars.js:84-92 | a slug is its own slug |
| CharsKeys.SlugifyIdempotent | src/backend/routes/chars.js:84-92 | slugifying twice is slugifying once |
| CharsKeys.RealmSlug | src/backend/routes/chars.js:78 | the realm part has no whitespace and no upper-case letter, and a realm without whitespace is just lower-cased |
| CharsKeys.MakeWclUrl | src/backend/routes/chars.js:77-81 | the link is the Warcraft Logs character prefix followed by the region, the realm slug and the lower-cased name joined by "/" |
| CharsKeys.WclPathSegments | src/backend/routes/chars.js:77-81 | for a region, realm and name free of "/", the path after the prefix splits into exactly the region, the realm slug and the lower-cased name |
| CharsKeys.AliasPair | src/backend/routes/chars.js:113-115 | an alias item yields a pair only of two non-empty slugs |
| CharsKeys.AliasPairOfSlugs | src/backend/routes/chars.js:113-115 | an item "a:b" of two non-empty colon-free slugs yields exactly (a, b) |
| CharsKeys.ParsePairs | src/backend/routes/chars.js:113-114 | one parse result per comma-separated item |
| CharsKeys.ParsePairsGood | src/backend/routes/chars.js:113-115 | every item is either skipped or a pair of non-empty slugs |
| CharsKeys.AddPairs | src/backend/routes/chars.js:113-116 | the starting keys stay, every pair's key is set, every entry comes from the start or a pair, and the last pair for a key wins |
| CharsKeys.AddPairsKeepSlugs | src/backend/routes/chars.js:109-118 | adding slug pairs to a map of slugs keeps every key and value a non-empty slug |
| CharsKeys.EnvAliasMap | src/backend/routes/chars.js:109-118 | the environment's alias map only holds non-empty slugs |
| CharsKeys.EnvAliases | src/backend/routes/chars.js:109-118 | the loop computes the alias map of the environment's list |
| CharsKeys.AddAliases | src/backend/routes/chars.js:113-116 | the loop adds each well-formed pair in order, as AddPairs specifies |
| CharsKeys.KeySlugs | src/backend/routes/chars.js:123 | one slug per progress key |
| CharsKeys.ExactIndex | src/backend/routes/chars.js:131 | the index found is the first slug equal to the target; none when no slug is |
| CharsKeys.FuzzyIndex | src/backend/routes/chars.js:134 | the index found is the first slug that contains or is contained in the target; none when there is no such slug |
| CharsKeys.MapOne | src/backend/routes/chars.js:126-137 | empty input maps to nothing; a result is always a progress key; an exact slug match wins over a partial one; nothing only when no key overlaps the target |
| CharsKeys.AddMatch | src/backend/routes/chars.js:157-164 | a present match is added once at the end, keeping the list free of repeats |
| CharsKeys.Matches | src/backend/routes/chars.js:158-164 | one match per input, each a progress key |
| CharsKeys.Collect | src/backend/routes/chars.js:158-165 | the list keeps its prefix, stays free of repeats, contains every present match and nothing else new |
| CharsKeys.Wanted | src/backend/routes/chars.js:156-166 | no repeats; a forced match comes first; every environment and default match is listed and nothing else is |
| CharsKeys.DesiredKeys | src/backend/routes/chars.js:121-167 | the wanted keys are distinct, non-empty keys of the progress object |
| CharsKeys.WantedWithin | src/backend/routes/chars.js:121-167 | matches inside the progress keys give a wanted list inside them |
| CharsKeys.ResolveDesiredKeys | src/backend/routes/chars.js:121-167 | the forced key and the two loops compute DesiredKeys of the alias table and the environment list |
| CharsKeys.CollectLoop | src/backend/routes/chars.js:158-165 | each loop computes Collect of the inputs' matches |
| CharsKeys.TallySuffix | src/backend/routes/chars.js:183-186 | the tally ends in " M", " H" or " N" exactly for the hardest difficulty with a kill, and is "0/total" without kills |
| CharsKeys.Format | src/backend/routes/chars.js:176-187 | a falsy value gives null and nothing else does; a record's own summary wins; a result is never empty |
| CharsKeys.MythicOutranks | src/backend/routes/chars.js:203-204 | with heroic and normal counts below 100, one more mythic kill always replaces the best |
| CharsKeys.Lookup | src/backend/routes/chars.js:190 | a value found belongs to the key; a missing key reads as falsy |
| CharsKeys.Keys | src/backend/routes/chars.js:122 | the keys in entry order |
| CharsKeys.Values | src/backend/routes/chars.js:197 | the values in entry order |
| CharsKeys.FirstDesired | src/backend/routes/chars.js:189-193 | nothing exactly when no wanted key has a value; otherwise the text of the first wanted key with one |
| CharsKeys.Scan | src/backend/routes/chars.js:196-207 | the record kept is a record, no later record beats it, and none is kept only when there is no record |
| CharsKeys.SummaryChoice | src/backend/routes/chars.js:170-209 | the summary is the first wanted raid's text; failing that, the text of a record no later record beats; none only when neither exists |
| CharsKeys.NoSummaryWithoutValues | src/backend/routes/chars.js:171 | a progress value that is not an object, or an empty object, gives no summary |
| CharsKeys.PickCurrentRaidSummary | src/backend/routes/chars.js:170-209 | the method computes CurrentRaidSummary |
| CharsKeys.SummaryOf | src/backend/routes/chars.js:189-208 | the two loops compute Summary |
| CharsKeys.FirstWanted | src/backend/routes/chars.js:189-193 | the loop computes FirstDesired |
| CharsKeys.BestRecord | src/backend/routes/chars.js:196-207 | the loop computes Scan from the start |
| CharsStore.FirstPresent | src/backend/routes/chars.js:270-274 | the `??` chain yields the first present value, and nothing only when every value is absent |
| CharsStore.Fill | src/backend/routes/chars.js:281-286 | each text detail and the item level keep a truthy payload value, else take the lookup's; the score keeps a present payload value, else the lookup's |
| CharsStore.Region | src/backend/routes/chars.js:268 | the region is the cleaned payload region, or "eu" when there is none |
| CharsStore.Settled | src/backend/routes/chars.js:279-287 | a payload with every detail is written as is; otherwise the details are filled from one lookup of region, realm and name |
| CharsStore.ZeroLevelReplaced | src/backend/routes/chars.js:279-282 | an item level of 0 counts as missing: the lookup's value replaces it, even a null one |
| CharsStore.CompletePayloadKept | src/backend/routes/chars.js:279 | a payload carrying every detail is written without depending on the lookup |
| CharsStore.NewRow | src/backend/routes/chars.js:289-306 | a created row holds the key and exactly the settled details |
| CharsStore.Keep | src/backend/routes/chars.js:291-296 | a null detail in an update leaves the stored one; a present one replaces it |
| CharsStore.Merge | src/backend/routes/chars.js:289-301 | an update keeps id, user, name and realm and writes each present detail |
| CharsStore.KeyIndex | src/backend/routes/chars.js:72-74 | the index found is the first row with the (user, name, realm) key; none exactly when no row has it |
| CharsStore.SaveRows | src/backend/routes/chars.js:299-306 | created iff no row had the key; a creation appends one row with the next id; an update rewrites the keyed row in place keeping its id |
| CharsStore.SaveKeepsStoreValid | src/backend/routes/chars.js:299-306 | saving keeps one row per key and distinct ids below the next id |
| CharsStore.SaveTwiceUpdates | src/backend/routes/chars.js:299-306 | saving the same key twice updates the second time and adds no row |
| CharsStore.UpsertRows | src/backend/routes/chars.js:263-307 | a missing or blank name or realm is the 400 error "name_and_realm_required" and changes nothing; otherwise the settled details are saved |
| CharsStore.UpsertKeepsStoreValid | src/backend/routes/chars.js:263-307 | an upsert keeps one row per key and fresh ids |
| CharsStore.UpsertTwiceUpdates | src/backend/routes/chars.js:263-307 | upserting the same character twice updates the second time and adds no row |
| CharsStore.UpsertGrows | src/backend/routes/chars.js:263-307 | a successful upsert answers the caller's row and adds a row to the table exactly when it created one |
| CharsStore.Counted | src/backend/routes/chars.js:379-380 | a rejected item leaves the import as it was; a saved one takes the upsert's table, counts as imported when created and as updated otherwise, and is appended to the answer |
| CharsStore.ImportAll | src/backend/routes/chars.js:377-382 | imported plus updated is the number of answered rows, at most one per item, and the table grows by exactly the imported count |
| CharsStore.ImportAllSnoc | src/backend/routes/chars.js:378-381 | importing one more item is one more counted upsert on the import so far, which is what the loop does |
| CharsStore.ImportAnswersOwnRows | src/backend/routes/chars.js:368-380 | every row an import answers belongs to the caller |
| CharsStore.ImportKeepsStoreValid | src/backend/routes/chars.js:377-382 | a whole import keeps one row per key and fresh ids |
| CharsStore.ApplyPatch | src/backend/routes/chars.js:349-352 | a patch never changes the row's id, user, name or realm, and an empty patch changes nothing |
| CharsStore.RefreshRule | src/backend/routes/chars.js:338-347 | the progress follows the lookup whenever it has one; every other detail is only filled in where the row has none |
| CharsStore.RefreshSettles | src/backend/routes/chars.js:335-355 | a second pass with the same lookup finds nothing to patch and changes nothing |
| CharsStore.MineRows | src/backend/routes/chars.js:328-355 | the user's rows are refreshed, every other row is untouched |
| CharsStore.UserRows | src/backend/routes/chars.js:328-331 | the listed rows are exactly the user's rows |
| CharsStore.MineKeepsStore | src/backend/routes/chars.js:323-357 | the patch pass keeps the store valid, and running it again changes nothing |
| CharsStore.CharStore.FindChar | src/backend/routes/chars.js:72-74 | the loop finds the first row with the key, as KeyIndex |
| CharsStore.CharStore.Upsert | src/backend/routes/chars.js:263-307 | the new table is UpsertRows of the old; a rejection changes nothing; a success adds a row iff it created one |
| CharsStore.CharStore.Save | src/backend/routes/chars.js:299-306 | the new table is SaveRows of the old |
| CharsStore.CharStore.Import | src/backend/routes/chars.js:377-382 | the new table, the counts and the answered rows are exactly ImportAll of the old table over the items, the upserts taken left to right; imported plus updated is the number answered, at most one per item; every row answered is the user's |
| CharsStore.CharStore.ImportItem | src/backend/routes/chars.js:379-380 | the new table, counts and answer are Counted applied to UpsertRows of the old table: a rejected item is skipped, a saved one bumps imported or updated and is appended to the answer |
| CharsStore.CharStore.RefreshAt | src/backend/routes/chars.js:336-354 | row `i` becomes its refreshed form; nothing else changes |
| CharsStore.CharStore.Mine | src/backend/routes/chars.js:323-357 | the table becomes MineRows of the old and the answer is the user's rows afterwards |
| CharsStore.CharStore.RefreshMine | src/backend/routes/chars.js:335-355 | the loop leaves exactly MineRows of the old table |
| CharsStore.CharStore.OwnedBy | src/backend/routes/chars.js:328-331 | the loop collects the user's rows in store order |
| PresetsRoute.RequireRaidLead | src/backend/routes/presets.js:14-20 | no session is 401, a session without a truthy raid-lead flag is 403, and only the raid-lead flag lets the request through |
| PresetsRoute.OnlyLeadFlagCounts | src/backend/routes/presets.js:17 | an owner or admin whose session lacks the raid-lead flag is refused |
| PresetsRoute.GuardReply | src/backend/routes/presets.js:16-17 | the refusals are 401 "unauthorized" and 403 "forbidden" |
| PresetsRoute.Default0 | src/backend/routes/presets.js:38 | the destructuring default 0 replaces undefined only |
| PresetsRoute.PostPreset | src/backend/routes/presets.js:36-43 | guard refusals pass through; a falsy name is 400 "missing_name"; otherwise the preset is created with that name and the counts' `+` values, absent counts being 0 |
| PresetsRoute.MissingCountsAreZero | src/backend/routes/presets.js:38-41 | absent counts and null counts are both stored as 0 |
| PresetsRoute.FiniteOpt | src/backend/routes/presets.js:60-63 | a count is written iff its `+` value is finite, and then as that value |
| PresetsRoute.PatchOf | src/backend/routes/presets.js:55-64 | the name is written iff it is not undefined; each count iff its number is finite |
| PresetsRoute.PutPreset | src/backend/routes/presets.js:51-66 | guard refusals pass through; a non-numeric id is 400 "bad_id"; otherwise the update targets that id with the body's patch |
| PresetsRoute.DeletePreset | src/backend/routes/presets.js:74-80 | guard refusals pass through; a non-numeric id is 400 "bad_id"; otherwise that id is deleted |
| PresetsRoute.Keep | src/backend/routes/presets.js:59-63 | a written field takes the new value, an unwritten one keeps the stored value |
| PresetsRoute.Apply | src/backend/routes/presets.js:56-65 | an update keeps the id and changes exactly the written fields |
| PresetsRoute.EmptyBodyChangesNothing | src/backend/routes/presets.js:55-65 | a body with no name and no usable count leaves the preset as it was |
| PresetsRoute.UpdateIsPartial | src/backend/routes/presets.js:55-65 | each field changes only when the body carries a usable value for it |
| PresetsPage.ClampInt | src/frontend/app/pages/Presets.jsx:56-60 | a non-finite value gives the minimum; otherwise the floor clamped into [min, max] |
| PresetsPage.ClampMonotone | src/frontend/app/pages/Presets.jsx:56-60 | on finite inputs the clamp never decreases as the input grows |
| PresetsPage.ClampKeepsInRange | src/frontend/app/pages/Presets.jsx:56-60 | an integer already in range comes back unchanged |
| PresetsPage.InfinityGivesMinimum | src/frontend/app/pages/Presets.jsx:58 | infinity gives 0 while a large finite value gives 40 |
| PresetsPage.Clamp40 | src/frontend/app/pages/Presets.jsx:56 | the page's counts always lie between 0 and 40 |
| PresetsPage.BodyOf | src/frontend/app/pages/Presets.jsx:113-119 | the body carries the trimmed name and the four clamped counts |
| PresetsPage.OnCreate | src/frontend/app/pages/Presets.jsx:105-129 | a blank name is refused with "Bitte Name angeben." before any request; otherwise the body is sent, with a non-empty name |
| PresetsPage.CreateAccepted | src/frontend/app/pages/Presets.jsx:105-119 | whatever the create form sends passes the router's name check and stores the clamped counts |
| PresetsPage.EditRewritesAll | src/frontend/app/pages/Presets.jsx:141-150 | the edit form's update rewrites every field of the preset, a blank name included |
| RaidsPage.LootByDiff | src/frontend/app/pages/Raids.jsx:6-10 | Mythic offers only VIP, Normal and Heroic offer Unsaved, VIP and Saved, anything else nothing |
| RaidsPage.LootPolicy | src/frontend/app/pages/Raids.jsx:6-10 | every offered difficulty allows VIP, and Saved and Unsaved are allowed exactly off Mythic |
| RaidsPage.ChangeDifficulty | src/frontend/app/pages/Raids.jsx:119-123 | changing the difficulty resets the loot type to the first one it allows (VIP for an unknown one) and changes nothing else |
| RaidsPage.Step | src/frontend/app/pages/Raids.jsx:89-171 | a difficulty change behaves as ChangeDifficulty, and other inputs leave difficulty and loot type alone unless they set the loot |
| RaidsPage.StepKeepsLootAllowed | src/frontend/app/pages/Raids.jsx:15-22 | the initial form's loot type is allowed, and every input the page offers keeps it allowed |
| RaidsPage.RunKeepsLootAllowed | src/frontend/app/pages/Raids.jsx:119-145 | any run of offered inputs keeps the loot type allowed by the difficulty |
| RaidsPage.Run | src/frontend/app/pages/Raids.jsx:89-171 | no input leaves the form as it is |
| RaidsPage.TitleOf | src/frontend/app/pages/Raids.jsx:62 | the trimmed title, or "<difficulty> <loot type>" when blank; never empty |
| RaidsPage.Submit | src/frontend/app/pages/Raids.jsx:56-78 | nothing while disabled; an invalid date gives the error "Invalid time value"; otherwise the body carries lead, title, difficulty, loot, bosses (absent for 0) and a date exactly when one was entered |
| RaidsPage.AsRequest | src/frontend/app/pages/Raids.jsx:61-69 | the router reads the title and lead as strings and a missing date as null |
| RaidsPage.SubmissionValidates | src/frontend/app/pages/Raids.jsx:56-69 | a submission from the offered selects passes the router's checks exactly when a date was entered |
| Title.JoinText | src/backend/utils/title.js:5 | join prints null and undefined as nothing and every other value as its String form |
| Title.TitleParts | src/backend/utils/title.js:1-6 | three or four parts: "Manaforge", the difficulty, the boss count only for a Mythic raid with a truthy count, then the loot type |
| Title.BuildTitle | src/backend/utils/title.js:1-6 | the title is the parts joined by single spaces |
| Title.TitleFrame | src/backend/utils/title.js:1-6 | the title starts with "Manaforge <difficulty> " and ends with " <lootType>" |
| Title.TitleReadsBack | src/backend/utils/title.js:1-6 | when no part holds a space, splitting the title on spaces gives back its parts |
| Env.DropBom | src/backend/config/env.js:8 | no byte-order mark survives, and text without one is unchanged |
| Env.Unquote | src/backend/config/env.js:11 | `slice(1, -1)` drops the first and last character; a single character gives "" |
| Env.TrimKeepsNoBom | src/backend/config/env.js:8-11 | trimming text without a byte-order mark keeps it free of one and is idempotent |
| Env.UnquoteKeepsNoBom | src/backend/config/env.js:11 | removing the quotes adds no byte-order mark |
| Env.Clean | src/backend/config/env.js:6-14 | unset stays unset; a cleaned value has no byte-order mark and no outer whitespace |
| Env.CleanKeepsPlain | src/backend/config/env.js:6-14 | an already clean, unquoted value comes back as it is |
| Env.CleanUnquotesOnce | src/backend/config/env.js:10-12 | a value wrapped in one matching pair of quotes loses them and is trimmed inside |
| Env.CleanKeepsMismatched | src/backend/config/env.js:10 | mismatched quotes are not removed |
| Env.Lookup | src/backend/config/env.js:48 | a variable is found iff it is set, with its value |
| Env.Required | src/backend/config/env.js:47-51 | a set, non-blank variable gives its cleaned value; otherwise the error is exactly "[ENV] Missing required variable: " and the name, followed by a line break and the hint when the hint is non-empty |
| Env.Optional | src/backend/config/env.js:53-56 | an unset variable gives the default; a set one its cleaned value, even "" |
| Env.BlankVariable | src/backend/config/env.js:47-56 | a variable set to blanks is refused by required but kept as "" by optional |
| Env.GuildId | src/backend/config/env.js:59-61 | the guild id comes from GUILD_ID, else DISCORD_GUILD_ID, else VITE_GUILD_ID, else "" |
| Debug.DebugAuthExact | src/backend/utils/debug.js:4-5 | of `IsDebugAuth`: the switch is on only for exactly "1", "true" or "yes": case-sensitive and off when unset |
| Debug.SliceFromEnd | src/backend/utils/debug.js:17 | a positive count takes that many characters from the end; a zero count, as -0 is 0, takes the whole string |
| Debug.MaskAsWritten | src/backend/utils/debug.js:13-19 | as written: non-strings and "" pass through, a short string becomes all stars, a longer one starts with its first `keep` characters and ends with `slice(-keep)` |
| Debug.MaskZeroKeepDoubles | src/backend/utils/debug.js:17-18 | as written, with nothing to keep the string comes back behind a row of stars, twice as long |
| Debug.Mask | src/backend/utils/debug.js:13-19 | corrected: the masked string has the input's length; a short one is all stars; otherwise exactly the middle characters become stars |
| Debug.MaskAgrees | src/backend/utils/debug.js:13-19 | the two agree whenever at least one character is kept at each end |
| Debug.PickHeaders | src/backend/utils/debug.js:21-28 | exactly the whitelisted headers with a truthy value are picked, with their values unchanged |
| I18n.WordRun | src/frontend/app/i118n/I18nProvider.jsx:14 | the longest prefix of word characters |
| I18n.PlaceholderAt | src/frontend/app/i118n/I18nProvider.jsx:14 | a placeholder found is "{key}" at the start with a non-empty word key; text not starting with "{" has none |
| I18n.Replacement | src/frontend/app/i118n/I18nProvider.jsx:14 | an unset or nullish variable is replaced by "", any other by its String form |
| I18n.Format | src/frontend/app/i118n/I18nProvider.jsx:13-15 | text without "{" is returned unchanged |
| I18n.FormatPlainPrefix | src/frontend/app/i118n/I18nProvider.jsx:13-15 | text without "{" is copied as is and scanning resumes after it |
| I18n.FormatPlaceholder | src/frontend/app/i118n/I18nProvider.jsx:14 | a placeholder is replaced by its variable's text and scanning resumes after it |
| I18n.NoRescan | src/frontend/app/i118n/I18nProvider.jsx:14 | a substituted value is not scanned again, even when it looks like a placeholder |
| I18n.Child | src/frontend/app/i118n/I18nProvider.jsx:18 | a step succeeds iff the current value is an object with that key |
| I18n.Walk | src/frontend/app/i118n/I18nProvider.jsx:18 | once a step fails, the walk stays failed |
| I18n.WalkAppend | src/frontend/app/i118n/I18nProvider.jsx:18 | walking a path in two pieces is walking it whole |
| I18n.GetNested | src/frontend/app/i118n/I18nProvider.jsx:17-19 | no root finds nothing; a key without dots is a single step from the root |
| I18n.GetNestedFlat | src/frontend/app/i118n/I18nProvider.jsx:17-19 | a key without dots is a lookup in the top level |
| I18n.GetNestedTwoLevels | src/frontend/app/i118n/I18nProvider.jsx:17-19 | "a.b" looks up b inside a |
| I18n.Dictionary | src/frontend/app/i118n/I18nProvider.jsx:36 | the language's messages when present, else the English ones |
| I18n.T | src/frontend/app/i118n/I18nProvider.jsx:34-40 | a text found is formatted with the variables; a sub-tree is returned as it is |
| I18n.FallbackChain | src/frontend/app/i118n/I18nProvider.jsx:36-37 | of `Found`, the lookup behind `T`: the current language wins; a key it lacks comes from English; a key neither has is itself |
| I18n.MissingKeyIsItself | src/frontend/app/i118n/I18nProvider.jsx:37-38 | a key found nowhere and free of braces translates to itself |
| Data.CounterId | src/backend/data.js:8-10 | the identifier is the prefix ("r" by default) followed by the counter's decimal digits |
| Data.IdsDistinct | src/backend/data.js:8-10 | identifiers with digit-free prefixes coincide only for the same counter value and prefix |
| Data.Db.constructor | src/backend/data.js:2-6 | the store starts with no raids, no characters and counter 1 |
| Data.Db.NewId | src/backend/data.js:8-10 | the identifier carries the current counter, which was never handed out before; the counter moves on by one and nothing else changes |
| Data.Db.NewIdTwice | src/backend/data.js:8-10 | two calls in a row give different identifiers |
| RaidPayload.Name | src/backend/routes/raids_2.js:92-101 | each failed check pushes its own non-empty error name, which holds no comma (so the joined message splits back) |
| RaidPayload.MissingFields | src/backend/routes/raids_2.js:92-101 | a field check is reported exactly when its field is falsy; with the lead check, lead_required exactly when leadId, lead and leadName are all falsy; the payload check never fires on the always-present body; no check is reported twice; nothing is reported exactly when the payload is complete |
| RaidPayload.NothingFailsWhenComplete | src/backend/routes/raids.js:104-112 | the ordered field checks report nothing exactly when title, difficulty, lootType and date (and, with the lead check, some lead) are given |
| RaidPayload.Validate | src/backend/routes/raids.js:104-112 | the payload is accepted exactly when no field is missing; a rejection has status 400 and a message starting with "invalid_payload: " |
| RaidPayload.ValidateNamesEveryMissingField | src/backend/routes/raids.js:111 | splitting a rejection message after the prefix at commas gives back exactly the names of the missing fields, in check order |
| RaidPayload.LeadCheckOnlyAdds | src/backend/routes/raids_2.js:98 | every payload the lead-checking validator accepts is accepted by the plain one, and a payload the plain one accepts that names some lead passes both |
| RaidPayload.DefaultsLookup | src/backend/routes/raids.js:21 | indexing the per-difficulty table gives 8 for Normal, Heroic and Mythic, an object for a name inherited from Object.prototype, and undefined otherwise |
| RaidPayload.ToBossesAsWritten | src/backend/routes/raids.js:113-117 | a numeric bosses value in the body is kept unchanged |
| RaidPayload.ToBossesInheritedKey | src/backend/routes/raids_2.js:102-106 | with no boss count and difficulty "constructor", the code as written yields an object instead of a number, while the corrected version yields 8 |
| RaidPayload.ToBosses | src/backend/routes/raids.js:113-117 | the boss count is always a number: the body's number when it is one, otherwise 8 |
| RaidPayload.ToBossesAgree | src/backend/routes/raids_2.js:102-106 | for every difficulty that is not an inherited member name, the code as written and the corrected version agree |
| RaidPayload.WithPreset | src/backend/routes/raids.js:232-236 | the create data always carries title, difficulty, lootType, date, lead and bosses, and carries preset exactly when a preset id is given |
| RaidPayload.LooksLikeDiscordIdBounds | src/backend/routes/raids.js:118-120 | only a string of 16 to 20 decimal digits looks like a Discord id: a non-string, a shorter or longer string, or one with another character does not |
| RaidStore.IndexById | src/backend/routes/raids.js:292-293 | the first row whose id is strictly equal to the created id; none when no row's id is, and never a row whose id is NaN or an object |
| RaidStore.IndexOfAppended | src/backend/routes/raids.js:262-266 | a row pushed with a fresh UUID that no earlier row carries is found again at the end of the list |
| RaidStore.IndexByText | src/backend/routes/raids.js:366-368 | the first row whose id, converted to a string, equals the route parameter; none (the 404 case) when no row's id does |
| RaidStore.JsonRaids.constructor | src/backend/routes/raids.js:78-81 | a missing or unreadable file reads as the empty list |
| RaidStore.JsonRaids.Push | src/backend/routes/raids.js:263-265 | the file afterwards holds the old rows followed by the new row |
| RaidStore.JsonRaids.Put | src/backend/routes/raids.js:294-298 | the file afterwards holds the old rows with only the row at the index replaced |
| RaidStore.JsonRaids.Splice | src/backend/routes/raids.js:369-370 | the removed row is the old row at the index; the file afterwards holds the rows before and after it, in order, and nothing is lost (the remaining rows plus the removed one are the old rows as a multiset) |
| RaidsRoute.LevelsNest | src/backend/routes/raids.js:48-70 | of `IsAdminLevel`, `IsRaidleadLevel` and `UserCanCreate`: every admin-level user is raidlead-level; creating is allowed exactly at raidlead level; nobody without a session may create; a user's isAdmin flag changes neither the admin level nor the right to create |
| RaidsRoute.FirstTruthy | src/backend/routes/raids.js:89 | an `a or b or null` chain yields the first truthy value, and null when none is truthy |
| RaidsRoute.NormalizeRaid | src/backend/routes/raids.js:87-103 | the client row takes id, title, difficulty, lootType and date from the first truthy alias, else null or ""; lead is kept unless nullish; bosses is kept only when it is a number; channel and message ids are kept when truthy, else null |
| RaidsRoute.NormalizeIdempotent | src/backend/routes/raids.js:87-103 | normalising a row that was already normalised and stored under the primary keys changes nothing |
| RaidsRoute.ShapeForResponse | src/backend/routes/raids.js:136-143 | the response carries the normalised row, and a detail link "/raids/<id>" exactly when the normalised id is present |
| RaidsRoute.SelfId | src/backend/routes/raids.js:166-170 | the caller's own id is their discordId when truthy, else their id, else none; it is never empty |
| RaidsRoute.ServerDisplay | src/backend/routes/raids.js:123-133 | a server display name is either null or the non-empty name the guild holds for that member id |
| RaidsRoute.ResolveLeadForCreate | src/backend/routes/raids.js:150-184 | a non-admin always leads their own raid; an admin's lead is an id-shaped leadId, else an id-shaped lead, else themselves; an admin's leadName wins as display, otherwise the server name of the chosen lead when it has one, and failing that the caller's display name, then user name, then null; a null display means no server name was found |
| RaidsRoute.NonAdminIgnoresPayload | src/backend/routes/raids.js:164-180 | for a non-admin the lead and its display do not depend on the request body at all |
| RaidsRoute.CreateAttempts | src/backend/routes/raids.js:231-256 | the first create sends the base data with the preset when one is given; exactly when it fails, one retry sends the same data without the preset; the outcome is the last attempt's reply |
| RaidsRoute.CreateAttemptsTolerateMissingPreset | src/backend/routes/raids.js:231-256 | against a table that lacks only the preset relation the raid is still created; when a base column is missing no raid is created |
| RaidsRoute.NewRow | src/backend/routes/raids.js:258-262 | the appended row has the fresh UUID as id, the body's title and date, the resolved display as lead, a numeric boss count, the body's preset id when given, and no channel or message id yet |
| RaidsRoute.CreatedRow | src/backend/routes/raids.js:231-256 | the row the database returns has the new id, the body's title and date, the resolved display as lead, and the body's preset id exactly when the successful attempt sent the preset, null otherwise |
| RaidsRoute.CreatedReplyPreset | src/backend/routes/raids.js:231-256 | the created raid in the reply shows the body's preset id when the first attempt succeeded, and null after the retry without the preset |
| RaidsRoute.WithIds | src/backend/routes/raids.js:295-296 | only the produced (truthy) channel and message ids replace the row's ones; every other key is unchanged |
| RaidsRoute.WriteBackIds | src/backend/routes/raids.js:291-299 | when a row with the created id exists, exactly that row gets the new ids; otherwise the file is unchanged |
| RaidsRoute.CreateCore | src/backend/routes/raids.js:205-306 | without the right to create the reply is 403 and with an invalid body it is the validation error (400), both leaving the file unchanged; with a database the reply is the shaped row the successful attempt created, carrying the preset id only when that attempt sent it, exactly when the create attempts succeed, else the last attempt's error; without one, the shaped new row is returned and the file gains exactly that row, carrying any announced ids |
| RaidsRoute.AppendAnnounced | src/backend/routes/raids.js:263-299 | the file gains one row; with a fresh UUID it is the new row, with the announced ids written back when the announcement produced any |
| RaidsRoute.DeleteRaid | src/backend/routes/raids.js:351-371 | without the right to create the reply is 403; a non-numeric id gives 400; with a database the numeric id is reported deleted; otherwise the first row whose printed id matches is spliced out and its id reported, no match gives 404, and the file changes only on success |
| RaidsRoute.SpliceByText | src/backend/routes/raids.js:366-371 | the first row whose printed id is the parameter is spliced out and its id reported; without one the reply is 404 and the file is unchanged |
| RaidsRoute.DeleteKeepsOthers | src/backend/routes/raids.js:367-370 | deleting removes exactly one row and keeps every other row; the remaining rows plus the removed one are the old rows as a multiset |
| RaidsRoute.RemoveAt | src/backend/routes/raids.js:369 | cutting one element out of a list shortens it by one, keeps every other element, and loses nothing as a multiset |
| RaidsRoute.UuidIsBadId | src/backend/routes/raids.js:358-359 | the UUID id a JSON-created raid carries reads as NaN, so DELETE answers BAD_ID for it and such a raid cannot be deleted |
| Raids2Route.CreatorsCompared | src/backend/routes/raids_2.js:49-56 | of `UserCanCreate` of both routers: everyone who may create with the first router may create here; the isAdmin flag alone suffices here; nobody without a session may create; the only extra creators are users with the isAdmin flag who are not owners |
| Raids2Route.NormalizeRaid | src/backend/routes/raids_2.js:73-91 | the same client row as the first router except that lead, leadId and leadName are each kept when truthy and null otherwise |
| Raids2Route.ResolveLead | src/backend/routes/raids_2.js:180-186 | the lead id is the body's leadId when truthy, else an id-shaped lead, else none; the display is the body's leadName, else the server name of that id, else a lead that is not id-shaped; any display comes from one of those three |
| Raids2Route.StoredLead | src/backend/routes/raids_2.js:197 | the lead column holds the body's leadId when truthy, else an id-shaped lead, else null |
| Raids2Route.CreateChainAsWritten | src/backend/routes/raids_2.js:215-273 | the chain as written: the first attempt is the base data with the preset; a retry happens only after an unknown-argument error on preset, bosses or lead; a third attempt only after a second unknown-argument error; every attempt keeps the four base keys; the outcome is the last reply |
| Raids2Route.CreateChain | src/backend/routes/raids_2.js:215-273 | the corrected chain: each retry drops from the previous attempt exactly the key the previous error named, so a refused key is never sent again; every attempt keeps the four base keys; the outcome is the last reply |
| Raids2Route.RetryResendsPreset | src/backend/routes/raids_2.js:229-236 | on a table lacking the preset relation and the bosses column that reports the preset first, the chain as written sends the preset again in its third attempt and fails with the preset error, while the corrected chain creates the raid |
| Raids2Route.NoneMissing | src/backend/routes/raids_2.js:213 | a database that knows every key sent creates the row |
| Raids2Route.OneMissing | src/backend/routes/raids_2.js:222 | with exactly one unknown key the database names that key, and dropping it leaves no unknown key |
| Raids2Route.TwoMissing | src/backend/routes/raids_2.js:222 | with two unknown keys the database names one of them, and dropping it leaves exactly the other |
| Raids2Route.CreateChainTolerates | src/backend/routes/raids_2.js:215-273 | the corrected chain creates the raid whenever the table lacks at most one of preset, bosses and lead, or lacks bosses and lead, or lacks the preset and one more key and reports the preset first |
| Raids2Route.ChainsNeedBaseColumns | src/backend/routes/raids_2.js:190-201 | neither chain creates a raid on a table lacking title, difficulty, lootType or date |
| Raids2Route.KeepIds | src/backend/routes/raids_2.js:314-318 | a new (truthy) id wins, else the stored one stays, else null; every other key is unchanged |
| Raids2Route.KeepIdsNeverClears | src/backend/routes/raids_2.js:316-317 | the write-back never turns a stored channel or message id into null |
| Raids2Route.WriteBackIds | src/backend/routes/raids_2.js:312-320 | when a row with the created id exists, exactly that row has its ids merged; otherwise the file is unchanged |
| Raids2Route.DisplayForLead | src/backend/routes/raids_2.js:122-135 | no lead id gives null; a lead known to the user table gives its display name when set, else its user name when set, else null; an unknown lead gives the server's name; the result is truthy or null |
| Raids2Route.LeadIdOf | src/backend/routes/raids_2.js:139 | the stored lead id is truthy or null |
| Raids2Route.ShapeForResponse | src/backend/routes/raids_2.js:137-150 | lead and leadName are the same; they are the display found for the stored lead id, else the legacy leadName, else the lead id; leadId is the stored lead id; a detail link exists exactly when the id does; every other field is the normalised row's |
| Raids2Route.NewRow | src/backend/routes/raids_2.js:280-284 | the appended row has the fresh UUID as id, the body's title and date, the stored lead id, a numeric boss count, the body's preset id when given, and no channel or message id yet |
| Raids2Route.CreatedRow | src/backend/routes/raids_2.js:215-273 | the row the database returns has the new id, the body's title and date, and the stored lead, the boss count and the preset id each exactly when the successful attempt sent that key; a dropped lead or boss count is absent and a dropped preset null |
| Raids2Route.CreatedReplyKeys | src/backend/routes/raids_2.js:215-273 | the created raid in the reply shows the preset id and the boss count exactly when the successful attempt sent them; a dropped boss count or lead shows as null |
| Raids2Route.CreateCore | src/backend/routes/raids_2.js:174-328 | without the right to create the reply is 403 and a body failing the lead-requiring check gives its validation error, both leaving the file unchanged; with a database the reply is the shaped row the successful attempt of the corrected chain created, exactly when that chain succeeds, else the chain's last error; without one the shaped new row is returned and the file gains exactly that row with any announced ids merged |
| Raids2Route.CreateInJson | src/backend/routes/raids_2.js:278-320 | the file gains one row; with a fresh UUID it is the new row with any announced ids merged, and the reply is that row shaped for the client |
| Calendar.TimeOfDay | src/backend/routes/cycles.js:43 | the local time of day lies within one day |
| Calendar.Weekday | src/backend/routes/cycles.js:43 | the local weekday number lies in 0..6, 0 being Sunday |
| Calendar.Hours | src/backend/discord/modules/nameFormat.js:66 | the local hour lies in 0..23 |
| Calendar.Minutes | src/backend/discord/modules/nameFormat.js:66 | the local minute lies in 0..59 |
| Calendar.AtLocalFields | src/backend/routes/cycles.js:43 | the instant built from a local day and a time of day reads back as that day and that time |
| Calendar.AddDays | src/backend/routes/cycles.js:24-28 | adding n days moves an instant by exactly n whole days |
| Calendar.AddDaysFields | src/backend/routes/cycles.js:24-28 | adding n days advances the local day by n, keeps the local time of day, and advances the weekday by n modulo 7 |
| Order.Insert | src/backend/routes/leads.js:157-162 | inserting into an ordered list keeps it ordered, adds exactly the one element, and puts it first or leaves the old head first |
| Order.SortBy | src/backend/routes/leads.js:157-162 | sorting with a total comparison yields an ordered list holding exactly the input's elements (a permutation) |
| Order.SameElements | src/backend/routes/leads.js:157-162 | lists holding the same multiset hold the same elements |
| Order.InsertPeers | src/backend/routes/leads.js:157-162 | under a total, transitive comparison, inserting an element puts it ahead of the elements that compare equal to it and keeps their order |
| Order.SortByStable | src/backend/routes/leads.js:157-162 | under a total, transitive comparison the sort is stable: the elements comparing equal to any given one appear in the same order as in the input |

## Left out

- I/O and the runtime: HTTP plumbing, 500 replies for database errors, console and debug output (`dbg`, `dbgAuth`), loading the `.env` file (`loadDotenvOnce`) and the Discord login are not modelled. Whether the bot is ready, whether a guild is configured and whether the bot may manage channels are booleans.
- The database: reads and writes are parameters (a reply function, or abstract outcomes), except for the JSON fallback store and the in-memory classes named above. After a database create, the write-back of channel and message ids in raids.js and raids_2.js is not modelled. The JSON write-back is modelled.
- Date parsing, ISO formatting and locale formatting (`toLocaleString`, `toLocaleDateString`) are parameters. Time zones are a fixed offset, with no daylight-saving transitions.
- `Number(...)`: the model reads optionally signed decimal integers. Fractions, exponents, hexadecimal and `Infinity` read as not-a-number, except in PresetsPage.ClampInt, whose input type covers finite reals and both infinities.
- `toLowerCase` and `localeCompare`: only ASCII letters are lowered. `localeCompare` (with or without the "de" locale) is code-unit lexicographic order.
- Slugs: the Unicode NFKD normalisation and diacritic stripping in the slug functions are not modelled. For ASCII input the result is exact.
- Object keys: lookups of a name inherited from `Object.prototype` in object literals (CLASS_ALLOWED_ROLES, the difficulty maps, the i18n variables) are not modelled. The only exception is `toBosses`, listed under Findings. `Object.keys` order is not modelled either: the Wow alias table is an ordered sequence in the order it is written.
- Imports of names that are not exported:
  - raidSignup.js imports `CLASS_OPTIONS`, `ROLE_OPTIONS`, `CLASS_ROLE_MATRIX` and `ROLE_LABELS`, which classRoleMatrix.js does not export.
  - users.js imports `highestRoleFromFlags`, which roles.js does not export.
  - An ES module that imports a name its source does not export fails to link with a SyntaxError. So raidSignup.js, users.js and raidAnnounceAdapter.js, which imports raidSignup.js, do not load as written. The model describes what each would do once the names exist: they are parameters, and so is the `highestPermission` that users.js `GET /` reports.
- `getSignupComponents` has no member of its own. The SignupFlow lemmas about the start ids state what its buttons carry.
- SignupsRoute.Ledger.PostLootbuddy: the appended row's `isSaved` is false. The route does not set it, and false is the table's default.
- roles.js `upsertUser` (a database write) is not modelled.
- `getLiveRoleFlags` fetches from Discord. Its outcome is a parameter: the member record, or the status that yields the empty flags.
- users.js guild synchronisation (lines 106-157) is not modelled. It copies Discord member data into the database.
- leads.js member pagination is not modelled. The member list is given whole.
- chars.js: the Raider.IO request is a parameter. `cleanUrl` and `toFloatOrNull` run before values reach the model. The `GET /`, `POST /:id/refresh` and `DELETE /:id` routes are not modelled. Neither are `normalizeChar`, `ensureUserExists` or the `updatedAt` ordering. The refresh rule they share with `/mine` is modelled.
- presets.js `GET /` returns the rows in database order. The order is not modelled.
- raids.js and raids_2.js `GET /` (list) and `GET /:id` (detail) are not modelled. They are reads shaped by ShapeForResponse. The `DELETE /:id` handler of raids_2.js is written identically to that of raids.js, which RaidsRoute.DeleteRaid models.
- Raids.jsx: rendering, the list of existing raids and the race between lead-list requests are not modelled.
- I18nProvider.jsx: `getInitialLang` (browser and local storage) is not modelled. The message tables are a parameter.
- Debug.Mask: `keep` is a natural number. A negative `keep` is not modelled.
- UsersRoute.RequireAdmin: `live` stands for the flags `getLiveRoleFlags` returns for the user's own OAuth access token. As written the guard passes the user's id instead, and UsersRoute.LiveLookupByIdFindsNothing shows that this yields the empty flags (see Findings).
- RaidEmbed.BuildRaidEmbeds: the limits discord.js's EmbedBuilder enforces are not modelled. A field value over 1024 characters or a title over 256 makes the builder throw, so a roster long enough, or a long raid title, fails there. JavaScript counts UTF-16 code units where the model counts characters.
- DiscordService.CreateRaidTextChannel: the permission overwrites set for a lead (discord.js:186-197, the everyone role denied sending and the lead allowed to view and send) are not modelled. Channels carry no permissions in the model.
- I18n.Child: a step into a text value always fails. JavaScript would index the string (`"abc"["0"]` is "a", `"abc"["length"]` is 3), and a step may also reach inherited properties. Neither is modelled.
- SignupTable.Table.CreateBoosterSignup, CreateLootbuddySignup and DeleteOwnSignup: each handler runs as one atomic step. In raidSignup.js:157-168 the lookup, the delete and the create are separate awaits, so two submits for the same character that interleave can both find no row and both create one. OneRowPerChar and Valid hold only for handlers that do not interleave. Each handler also ends with `refreshRaidMessage(raidId).catch(() => {})` (raidSignup.js:183, 201, 210). That step is not part of these methods: the embeds it writes are rendered from the raid's signups as the database returns them, and the model keeps that rendering a parameter of RaidAnnounceAdapter.RefreshRaidMessage. Because every error of the refresh is swallowed, the handler's table change and its reply do not depend on it.
- Channels.Raid: title, difficulty and loot type are strings. A missing field, which channels.js:109-111 would print as `undefined` or `null` in the announcement, is not modelled.
- RaidAnnounceAdapter.RefreshRaidMessage: the raid it loads carries its signups as an opaque value. So what the edit writes, `buildEmbeds(r)` and `basicTextForRaid(r)`, comes in as the parameters `render` and `basicText`. BuildRaidEmbeds and BasicTextForRaid model those two functions on typed raids.
- Session: verifying the cookie signature is not modelled. A cookie yields a payload or nothing.
- RaidsRoute.CreateCore and Raids2Route.CreateCore: of the row the database returns, the model states the id, title, date, lead, boss count and preset id. Columns the database fills itself (defaults, timestamps) are null or absent in the model.
- Discord calls (create, send, edit, delete): success or rejection is a boolean parameter of each operation. Rate limits and the reason for a rejection are not modelled.

## Findings

| source | as written | input that shows it | evidently intended | confidence | as-written member | corrected member |
|---|---|---|---|---|---|---|
| src/backend/routes/raids_2.js:229-236 | after an unknown `preset`, a second unknown `bosses` or `lead` makes the third attempt drop that key from `withPreset(baseDataBoth)`, so the preset is sent again | a table lacking the preset relation and the bosses column, with a preset id in the body: the third attempt fails on `preset` again (Raids2Route.RetryResendsPreset) | drop the second key from the data without the preset; then any table lacking the preset and one more optional key accepts the raid (Raids2Route.CreateChainTolerates) | high, not executed | Raids2Route.CreateChainAsWritten | Raids2Route.CreateChain |
| src/backend/routes/users.js:51-52 | destructures `{ ok, flags }` from `getLiveRoleFlags`, which returns the flags object itself, so `ok` and `flags` are undefined and the live check never admits anyone; the call also passes `u.discordId || u.id` where `getLiveRoleFlags` expects the user's access token | a cookie without owner or admin flags for a user whom the live flags make an admin: the guard answers 403 (UsersRoute.LiveCheckNeverAdmits); and a user id is no access token, so even with the destructuring repaired the lookup yields the empty flags (UsersRoute.LiveLookupByIdFindsNothing) | call with the user's access token and admit when the live flags are admin-level | high, not executed | UsersRoute.RequireAdminAsWritten | UsersRoute.RequireAdmin |
| src/backend/routes/raids.js:113-117 | `DEFAULT_BOSSES_BY_DIFF[d] ?? 8` reads inherited members of the object literal (the same code is at raids_2.js:102-106) | difficulty "constructor" and no boss count: the boss count is a function object, not a number (RaidPayload.ToBossesInheritedKey) | the boss count is always a number, 8 unless the body gives one; the two agree off inherited names (RaidPayload.ToBossesAgree) | medium, not executed | RaidPayload.ToBossesAsWritten | RaidPayload.ToBosses |
| src/backend/utils/debug.js:17 | `str.slice(-keep)` with `keep` 0 is `slice(0)`, the whole string | `mask("abc", 0)` gives "***abc", twice the input's length (Debug.MaskZeroKeepDoubles) | with nothing kept, every character is masked; the two agree when `keep` is at least 1 (Debug.MaskAgrees) | medium, not executed | Debug.MaskAsWritten | Debug.Mask |
| src/backend/routes/users.js:163-164 | the copy of `flagsFromMember` in users.js reads the raidlead role id from RAIDLEAD_ROLE_ID or DISCORD_ROLE_RAIDLEAD_ID only, while roles.js also reads DISCORD_ROLE_RAIDLEAD | DISCORD_ROLE_RAIDLEAD set to "42", the other two raidlead variables unset, and a member holding role "42": roles.js makes the member a raidlead, users.js does not (UsersRoute.LegacyRaidleadVarIgnored) | the copy reads the same ids as roles.js; with the same ids the two copies agree on the admin, raidlead and booster flags (UsersRoute.FlagCopiesAgree) | medium, not executed | UsersRoute.RoleIdsFromEnv | Roles.RoleIdsFromEnv |
