# Thunderbird for Android: message list, notification registry and general settings, in Dafny

This project models the decision logic of the Thunderbird for Android client
as immutable Dafny datatypes and pure functions, and proves what that logic
promises. It covers:

- **Notification registry** (`NotificationRegistry`, `Notifications`). The
  `DefaultNotificationRegistry` is a map from notification to identifier plus
  a counter that only grows. It offers registration, unregistration by value
  and by identifier, the two lookups, the two `contains` checks and the
  inverted `registrar` view. Every operation keeps an invariant: identifiers
  are injective and never exceed the counter.
- **Notification send policy** (`NotificationSender`). Sending registers the
  notification, then builds the system and in-app display commands it
  qualifies for and executes them in order. Each command produces one
  notifier call and one outcome. The model is fixed by the three sender
  tests.
- **General settings** (`GeneralSettingsStore`). `writeSettings` and
  `loadGeneralSettings` of `RealGeneralSettingsManager` form a key-value codec
  over a `Storage` map. The model also covers the defaults, the enum-by-name
  fallback, the quiet-time guard, the legacy background-mode mapping and the
  24 single-field setters.
- **Message list view model** (`MessageModel`, `MessageGroups`,
  `MessageListViewModel`, `PreviewResults`). It covers:
  - `createMessageGroups`: a sort, newest first, then `groupBy` date,
    then `associate` of the accounts.
  - The profile-colour merge, and the header account name.
  - Routing when an account is opened, and the loading state updates.
  - `UiMessageMapper.map` with its memoised per-address colours.
  - `PreviewResult` and its factories.
- **Message list screen** (`MessageListView`). It covers the toolbar state,
  the title, the lazy column's rows (header rows, spacer, empty state,
  per-group rows, loading row) and the corner shape of each item.
- **Message item** (`MessageItem`). It covers the chips, the overflow label,
  the icons, the important and star decorations, and the avatar.
- **Swipe to reveal** (`SwipeToReveal`). It covers the direction multiplier,
  the alignment of the actions, drag normalisation, the clamped offset and
  the settle decision. Offsets are real numbers.

`Wrappers` provides `Option`.

## Model

| member | source | states |
|---|---|---|
| NotificationRegistry.InitialValid | feature/notification/impl/src/commonMain/kotlin/net/thunderbird/feature/notification/impl/DefaultNotificationRegistry.kt:31-32 | The registry starts with no entries and counter 0, and that state satisfies the invariant: identifiers are injective and each lies between 1 and the counter. |
| NotificationRegistry.Get | feature/notification/impl/src/commonMain/kotlin/net/thunderbird/feature/notification/impl/DefaultNotificationRegistry.kt:47-49 | Forward lookup finds an identifier exactly when the notification is a key, and then it is the stored one. |
| NotificationRegistry.Contains | feature/notification/impl/src/commonMain/kotlin/net/thunderbird/feature/notification/impl/DefaultNotificationRegistry.kt:77-79 | `contains(notification)` holds iff the forward lookup is non-null. |
| NotificationRegistry.ContainsId | feature/notification/impl/src/commonMain/kotlin/net/thunderbird/feature/notification/impl/DefaultNotificationRegistry.kt:81-83 | `contains(notificationId)` holds iff some entry maps to that identifier. |
| NotificationRegistry.Register | feature/notification/impl/src/commonMain/kotlin/net/thunderbird/feature/notification/impl/DefaultNotificationRegistry.kt:51-63 | A known notification gets its existing identifier, and the registry is unchanged. A new one increments the counter, gets the new value and adds exactly that entry. The counter never decreases, and the invariant is preserved. |
| NotificationRegistry.Unregister | feature/notification/impl/src/commonMain/kotlin/net/thunderbird/feature/notification/impl/DefaultNotificationRegistry.kt:73-75 | Removes exactly that key, keeps every other entry and the counter, is a no-op for an absent key, and preserves the invariant. |
| NotificationRegistry.GetById | feature/notification/impl/src/commonMain/kotlin/net/thunderbird/feature/notification/impl/DefaultNotificationRegistry.kt:39-45 | The reverse scan returns a notification that maps to the identifier, or nothing iff no entry does. Under the invariant the result is the only such notification. |
| NotificationRegistry.UnregisterById | feature/notification/impl/src/commonMain/kotlin/net/thunderbird/feature/notification/impl/DefaultNotificationRegistry.kt:66-71 | An unknown identifier changes nothing. A known one removes the entry it belongs to and nothing else. The counter stays, and the identifier is no longer present. |
| NotificationRegistry.Registrar | feature/notification/impl/src/commonMain/kotlin/net/thunderbird/feature/notification/impl/DefaultNotificationRegistry.kt:34-37 | The `registrar` view has exactly the stored identifiers as keys, and each maps back to its notification; with injective identifiers it is the exact inverse of the forward map. |
| NotificationRegistry.RegisterIdempotent | feature/notification/impl/src/commonMain/kotlin/net/thunderbird/feature/notification/impl/DefaultNotificationRegistry.kt:51-56 | Registering the same notification twice in a row gives the same registry and identifier as once. |
| NotificationRegistry.RegisterThenGet | feature/notification/impl/src/commonMain/kotlin/net/thunderbird/feature/notification/impl/DefaultNotificationRegistry.kt:39-62 | Round trip: after `register(n) = id`, `get(n) == id`, `contains(id)` holds, and `n` is the only notification with `id`. |
| NotificationRegistry.FreshIdExceedsEarlier | feature/notification/impl/src/commonMain/kotlin/net/thunderbird/feature/notification/impl/DefaultNotificationRegistry.kt:51-63 | Identifiers are never reused: a registration after any later state whose counter did not go back gets an identifier above every earlier one. |
| NotificationRegistry.RegisterAll | feature/notification/impl/src/commonMain/kotlin/net/thunderbird/feature/notification/impl/DefaultNotificationRegistry.kt:51-63 | Registering a batch keeps the invariant. Equal notifications share one identifier and distinct ones get distinct identifiers. New ones get identifiers above the old counter, and old entries are kept. |
| NotificationRegistry.Scenario | feature/notification/impl/src/commonMain/kotlin/net/thunderbird/feature/notification/impl/DefaultNotificationRegistry.kt:51-75 | From the initial state: A gets 1, A again gets 1, B gets 2. After unregistering 1, A is gone and re-registers as 3. |
| NotificationSender.BuildCommands | feature/notification/impl/src/commonTest/kotlin/net/thunderbird/feature/notification/impl/sender/DefaultNotificationSenderTest.kt:46-122 | At most two commands, each for this notification and identifier. The system command is present iff the notification is a system one and not held back; the in-app command iff it is an in-app one. System comes first. |
| NotificationSender.CallOf | feature/notification/impl/src/commonTest/kotlin/net/thunderbird/feature/notification/impl/sender/DefaultNotificationSenderTest.kt:58-60 | Each command calls the notifier of its own channel with its identifier and notification. |
| NotificationSender.Execute | feature/notification/impl/src/commonTest/kotlin/net/thunderbird/feature/notification/impl/sender/DefaultNotificationSenderTest.kt:52-60 | One `Success` outcome and one notifier call per command, in command order. |
| NotificationSender.Send | feature/notification/impl/src/commonTest/kotlin/net/thunderbird/feature/notification/impl/sender/DefaultNotificationSenderTest.kt:49-60 | Sending registers the notification, and every outcome carries the registered identifier, paired with its notifier call. |
| NotificationSender.SendSystemOnly | feature/notification/impl/src/commonTest/kotlin/net/thunderbird/feature/notification/impl/sender/DefaultNotificationSenderTest.kt:46-60 | A system-only notification yields exactly one Success wrapping a system display command; the system notifier is shown once, the in-app notifier never. |
| NotificationSender.SendBothCritical | feature/notification/impl/src/commonTest/kotlin/net/thunderbird/feature/notification/impl/sender/DefaultNotificationSenderTest.kt:74-95 | A Critical notification for both channels yields two Successes, system then in-app, whatever the foreground verdict; each notifier is shown exactly once with this notification. |
| NotificationSender.SendInAppOnly | feature/notification/impl/src/commonTest/kotlin/net/thunderbird/feature/notification/impl/sender/DefaultNotificationSenderTest.kt:109-122 | An in-app-only notification yields exactly one Success wrapping an in-app display command; the system notifier is never shown. |
| NotificationSender.CriticalNeverSuppressed | feature/notification/impl/src/commonTest/kotlin/net/thunderbird/feature/notification/impl/sender/DefaultNotificationSenderTest.kt:65-77 | For a Critical notification the foreground verdict makes no difference to whether the system command is built. |
| GeneralSettingsStore.ParseAppTheme | legacy/core/src/main/java/com/fsck/k9/preferences/RealGeneralSettingsManager.kt:361-368 | A parsed theme name is the name of the value parsed. |
| GeneralSettingsStore.ParseSubTheme | legacy/core/src/main/java/com/fsck/k9/preferences/RealGeneralSettingsManager.kt:361-368 | A parsed sub-theme name is the name of the value parsed. |
| GeneralSettingsStore.EnumNamesRoundTrip | legacy/core/src/main/java/com/fsck/k9/preferences/RealGeneralSettingsManager.kt:361-368 | Parsing the name `writeSettings` stores for an enum gives the enum value back. |
| GeneralSettingsStore.ToBackgroundSyncBijective | legacy/core/src/main/java/com/fsck/k9/preferences/RealGeneralSettingsManager.kt:353-359 | The mapping from the legacy mode is total and has a two-sided inverse, so it is one-to-one and onto. |
| GeneralSettingsStore.ToBackgroundSync | legacy/core/src/main/java/com/fsck/k9/preferences/RealGeneralSettingsManager.kt:353-359 | No two legacy modes map to the same setting: the inverse mapping gives the legacy mode back. |
| GeneralSettingsStore.GetBoolean | legacy/core/src/main/java/com/fsck/k9/preferences/RealGeneralSettingsManager.kt:298-335 | A stored boolean is read as is. A missing key, or a key holding a string, gives the default. |
| GeneralSettingsStore.GetStringOrDefault | legacy/core/src/main/java/com/fsck/k9/preferences/RealGeneralSettingsManager.kt:296-297 | A stored string is read as is. A missing key, or a key holding a boolean, gives the default. |
| GeneralSettingsStore.GetAppTheme | legacy/core/src/main/java/com/fsck/k9/preferences/RealGeneralSettingsManager.kt:361-368 | A stored readable name yields its theme. A missing key, a non-string value or an unknown name yields the default. |
| GeneralSettingsStore.GetSubTheme | legacy/core/src/main/java/com/fsck/k9/preferences/RealGeneralSettingsManager.kt:361-368 | A stored readable name yields its sub-theme. A missing key, a non-string value or an unknown name yields the default. |
| GeneralSettingsStore.SettingKeysDistinct | legacy/core/src/main/java/com/fsck/k9/preferences/RealGeneralSettingsManager.kt:266-291 | `writeSettings` writes 24 keys, pairwise distinct. |
| GeneralSettingsStore.Puts | legacy/core/src/main/java/com/fsck/k9/preferences/RealGeneralSettingsManager.kt:266-291 | The editor calls come in the key order of `writeSettings`, one per key. |
| GeneralSettingsStore.PutAll | legacy/core/src/main/java/com/fsck/k9/preferences/RealGeneralSettingsManager.kt:266-291 | After the puts, the storage keys are the old keys plus every written key. |
| GeneralSettingsStore.Write | legacy/core/src/main/java/com/fsck/k9/preferences/RealGeneralSettingsManager.kt:266-291 | After `writeSettings`, the storage keys are the old keys plus the 24 setting keys. |
| GeneralSettingsStore.WriteKeepsOtherKeys | legacy/core/src/main/java/com/fsck/k9/preferences/RealGeneralSettingsManager.kt:266-291 | Writing the settings leaves every key it does not write as it was. |
| GeneralSettingsStore.WriteAt | legacy/core/src/main/java/com/fsck/k9/preferences/RealGeneralSettingsManager.kt:266-291 | After the write, each setting key holds the value written for it. |
| GeneralSettingsStore.GetIsQuietTime | legacy/core/src/main/java/com/fsck/k9/preferences/RealGeneralSettingsManager.kt:340-349 | Quiet time is false whenever it is disabled, whatever the start and end strings. When enabled, it is the clock's verdict on them. |
| GeneralSettingsStore.LoadGeneralSettings | legacy/core/src/main/java/com/fsck/k9/preferences/RealGeneralSettingsManager.kt:293-338 | The background mode follows the legacy mode. The quiet-time verdict is computed from the quiet-time fields just loaded, so it is never set while quiet time is disabled. |
| GeneralSettingsStore.LoadDefaults | legacy/core/src/main/java/com/fsck/k9/preferences/RealGeneralSettingsManager.kt:293-338 | Empty storage loads the documented defaults. Quiet time runs from "21:00" to "7:00" and is disabled. The theme follows the system, recent changes are shown, and each boolean has its stated default. |
| GeneralSettingsStore.UnreadableThemeFallsBack | legacy/core/src/main/java/com/fsck/k9/preferences/RealGeneralSettingsManager.kt:361-368 | A missing or unreadable theme value loads as FOLLOW_SYSTEM. |
| GeneralSettingsStore.WrittenFieldsReadBack | legacy/core/src/main/java/com/fsck/k9/preferences/RealGeneralSettingsManager.kt:266-338 | Every persisted field reads back from the written storage as it was written. |
| GeneralSettingsStore.LoadFromReadBack | legacy/core/src/main/java/com/fsck/k9/preferences/RealGeneralSettingsManager.kt:293-338 | Loading a storage from which every persisted field reads back returns those fields. Only background sync and the quiet-time verdict come from outside the storage. |
| GeneralSettingsStore.WriteThenLoad | legacy/core/src/main/java/com/fsck/k9/preferences/RealGeneralSettingsManager.kt:266-338 | Round trip: loading what `writeSettings` wrote returns the written settings, with background sync and the quiet-time verdict computed. |
| GeneralSettingsStore.SetShowRecentChanges | legacy/core/src/main/java/com/fsck/k9/preferences/RealGeneralSettingsManager.kt:164-167 | The entry written for this setter's key carries the new value, and every other field, persisted or not, is unchanged. |
| GeneralSettingsStore.SetAppTheme | legacy/core/src/main/java/com/fsck/k9/preferences/RealGeneralSettingsManager.kt:169-172 | The entry written for this setter's key carries the new value, and every other field, persisted or not, is unchanged. |
| GeneralSettingsStore.SetMessageViewTheme | legacy/core/src/main/java/com/fsck/k9/preferences/RealGeneralSettingsManager.kt:174-177 | The entry written for this setter's key carries the new value, and every other field, persisted or not, is unchanged. |
| GeneralSettingsStore.SetMessageComposeTheme | legacy/core/src/main/java/com/fsck/k9/preferences/RealGeneralSettingsManager.kt:179-182 | The entry written for this setter's key carries the new value, and every other field, persisted or not, is unchanged. |
| GeneralSettingsStore.SetFixedMessageViewTheme | legacy/core/src/main/java/com/fsck/k9/preferences/RealGeneralSettingsManager.kt:184-187 | The entry written for this setter's key carries the new value, and every other field, persisted or not, is unchanged. |
| GeneralSettingsStore.SetIsShowUnifiedInbox | legacy/core/src/main/java/com/fsck/k9/preferences/RealGeneralSettingsManager.kt:189-191 | The entry written for this setter's key carries the new value, and every other field, persisted or not, is unchanged. |
| GeneralSettingsStore.SetIsShowStarredCount | legacy/core/src/main/java/com/fsck/k9/preferences/RealGeneralSettingsManager.kt:193-195 | The entry written for this setter's key carries the new value, and every other field, persisted or not, is unchanged. |
| GeneralSettingsStore.SetIsShowMessageListStars | legacy/core/src/main/java/com/fsck/k9/preferences/RealGeneralSettingsManager.kt:197-199 | The entry written for this setter's key carries the new value, and every other field, persisted or not, is unchanged. |
| GeneralSettingsStore.SetIsShowAnimations | legacy/core/src/main/java/com/fsck/k9/preferences/RealGeneralSettingsManager.kt:201-203 | The entry written for this setter's key carries the new value, and every other field, persisted or not, is unchanged. |
| GeneralSettingsStore.SetIsShowCorrespondentNames | legacy/core/src/main/java/com/fsck/k9/preferences/RealGeneralSettingsManager.kt:205-207 | The entry written for this setter's key carries the new value, and every other field, persisted or not, is unchanged. |
| GeneralSettingsStore.SetSetupArchiveShouldNotShowAgain | legacy/core/src/main/java/com/fsck/k9/preferences/RealGeneralSettingsManager.kt:209-212 | The entry written for this setter's key carries the new value, and every other field, persisted or not, is unchanged. |
| GeneralSettingsStore.SetIsMessageListSenderAboveSubject | legacy/core/src/main/java/com/fsck/k9/preferences/RealGeneralSettingsManager.kt:214-216 | The entry written for this setter's key carries the new value, and every other field, persisted or not, is unchanged. |
| GeneralSettingsStore.SetIsShowContactName | legacy/core/src/main/java/com/fsck/k9/preferences/RealGeneralSettingsManager.kt:218-220 | The entry written for this setter's key carries the new value, and every other field, persisted or not, is unchanged. |
| GeneralSettingsStore.SetIsShowContactPicture | legacy/core/src/main/java/com/fsck/k9/preferences/RealGeneralSettingsManager.kt:222-224 | The entry written for this setter's key carries the new value, and every other field, persisted or not, is unchanged. |
| GeneralSettingsStore.SetIsChangeContactNameColor | legacy/core/src/main/java/com/fsck/k9/preferences/RealGeneralSettingsManager.kt:226-228 | The entry written for this setter's key carries the new value, and every other field, persisted or not, is unchanged. |
| GeneralSettingsStore.SetIsColorizeMissingContactPictures | legacy/core/src/main/java/com/fsck/k9/preferences/RealGeneralSettingsManager.kt:230-232 | The entry written for this setter's key carries the new value, and every other field, persisted or not, is unchanged. |
| GeneralSettingsStore.SetIsUseBackgroundAsUnreadIndicator | legacy/core/src/main/java/com/fsck/k9/preferences/RealGeneralSettingsManager.kt:234-236 | The entry written for this setter's key carries the new value, and every other field, persisted or not, is unchanged. |
| GeneralSettingsStore.SetIsShowComposeButtonOnMessageList | legacy/core/src/main/java/com/fsck/k9/preferences/RealGeneralSettingsManager.kt:238-240 | The entry written for this setter's key carries the new value, and every other field, persisted or not, is unchanged. |
| GeneralSettingsStore.SetIsThreadedViewEnabled | legacy/core/src/main/java/com/fsck/k9/preferences/RealGeneralSettingsManager.kt:242-244 | The entry written for this setter's key carries the new value, and every other field, persisted or not, is unchanged. |
| GeneralSettingsStore.SetIsUseMessageViewFixedWidthFont | legacy/core/src/main/java/com/fsck/k9/preferences/RealGeneralSettingsManager.kt:246-248 | The entry written for this setter's key carries the new value, and every other field, persisted or not, is unchanged. |
| GeneralSettingsStore.SetIsAutoFitWidth | legacy/core/src/main/java/com/fsck/k9/preferences/RealGeneralSettingsManager.kt:250-252 | The entry written for this setter's key carries the new value, and every other field, persisted or not, is unchanged. |
| GeneralSettingsStore.SetQuietTimeEnds | legacy/core/src/main/java/com/fsck/k9/preferences/RealGeneralSettingsManager.kt:254-256 | The entry written for this setter's key carries the new value, and every other field, persisted or not, is unchanged. |
| GeneralSettingsStore.SetQuietTimeStarts | legacy/core/src/main/java/com/fsck/k9/preferences/RealGeneralSettingsManager.kt:258-260 | The entry written for this setter's key carries the new value, and every other field, persisted or not, is unchanged. |
| GeneralSettingsStore.SetIsQuietTimeEnabled | legacy/core/src/main/java/com/fsck/k9/preferences/RealGeneralSettingsManager.kt:262-264 | The entry written for this setter's key carries the new value, and every other field, persisted or not, is unchanged. |
| PreviewResults.PreviewResult.PreviewText | legacy/message/src/main/java/app/k9mail/legacy/message/extractors/PreviewResult.kt:10-16 | Reading the text requires availability and presence, and returns the stored text. |
| PreviewResults.Text | legacy/message/src/main/java/app/k9mail/legacy/message/extractors/PreviewResult.kt:27-29 | `text(s)` has type TEXT, is available and well formed, and reads back `s`. |
| PreviewResults.Encrypted | legacy/message/src/main/java/app/k9mail/legacy/message/extractors/PreviewResult.kt:31-33 | `encrypted()` has type ENCRYPTED, text unavailable, well formed. |
| PreviewResults.NoPreview | legacy/message/src/main/java/app/k9mail/legacy/message/extractors/PreviewResult.kt:35-38 | `none()` has type NONE, text unavailable, well formed. |
| PreviewResults.Error | legacy/message/src/main/java/app/k9mail/legacy/message/extractors/PreviewResult.kt:40-43 | `error()` has type ERROR, text unavailable, well formed. |
| PreviewResults.FactoryValuesAreWellFormed | legacy/message/src/main/java/app/k9mail/legacy/message/extractors/PreviewResult.kt:3-43 | The factories produce exactly the well-formed values, whose text is present iff the type is TEXT. So for them availability alone suffices to read the text. |
| MessageGroups.Insert | feature/mail/message/list/src/main/kotlin/net/thunderbird/feature/mail/message/list/ui/MessageListViewModel.kt:269 | Insertion adds exactly the one message: same multiset plus it. |
| MessageGroups.InsertKeepsSorted | feature/mail/message/list/src/main/kotlin/net/thunderbird/feature/mail/message/list/ui/MessageListViewModel.kt:269 | Inserting into a newest-first sequence keeps it newest first. |
| MessageGroups.SortDescending | feature/mail/message/list/src/main/kotlin/net/thunderbird/feature/mail/message/list/ui/MessageListViewModel.kt:269 | `sortedByDescending { dateTime }` returns a permutation of its input that is newest first. |
| MessageGroups.OnDate | feature/mail/message/list/src/main/kotlin/net/thunderbird/feature/mail/message/list/ui/MessageListViewModel.kt:270 | The messages kept for a date all have that date. The first message is kept when its date is the key. |
| MessageGroups.NotOnDate | feature/mail/message/list/src/main/kotlin/net/thunderbird/feature/mail/message/list/ui/MessageListViewModel.kt:270 | The remaining messages all have another date, and the sequence shrinks when the first message has the key date. |
| MessageGroups.GroupByDate | feature/mail/message/list/src/main/kotlin/net/thunderbird/feature/mail/message/list/ui/MessageListViewModel.kt:270 | Never more groups than messages, and none iff there are no messages. The first key is the first message's date, and that group starts with the first message. |
| MessageGroups.GroupsHoldTheirDate | feature/mail/message/list/src/main/kotlin/net/thunderbird/feature/mail/message/list/ui/MessageListViewModel.kt:270-274 | Every group from `groupBy` is non-empty, and all its messages have the group's date. |
| MessageGroups.SplitByDatePartitions | feature/mail/message/list/src/main/kotlin/net/thunderbird/feature/mail/message/list/ui/MessageListViewModel.kt:270 | Splitting by one date loses and duplicates nothing. |
| MessageGroups.GroupsPartitionInput | feature/mail/message/list/src/main/kotlin/net/thunderbird/feature/mail/message/list/ui/MessageListViewModel.kt:270 | The groups together hold every input message exactly as often as it occurs. |
| MessageGroups.GroupKeysDistinct | feature/mail/message/list/src/main/kotlin/net/thunderbird/feature/mail/message/list/ui/MessageListViewModel.kt:270 | No date keys two groups. |
| MessageGroups.SplitAtFirstDate | feature/mail/message/list/src/main/kotlin/net/thunderbird/feature/mail/message/list/ui/MessageListViewModel.kt:269-270 | For date-ordered input, the first date's messages form a prefix, and the rest are strictly earlier. |
| MessageGroups.GroupsOfSortedConcatenate | feature/mail/message/list/src/main/kotlin/net/thunderbird/feature/mail/message/list/ui/MessageListViewModel.kt:269-274 | For date-ordered input, concatenating the groups gives the input back. |
| MessageGroups.GroupDatesOfSortedDecrease | feature/mail/message/list/src/main/kotlin/net/thunderbird/feature/mail/message/list/ui/MessageListViewModel.kt:269-274 | For date-ordered input, group dates strictly decrease. |
| MessageGroups.AccountsById | feature/mail/message/list/src/main/kotlin/net/thunderbird/feature/mail/message/list/ui/MessageListViewModel.kt:275-277 | The account map's keys are exactly the messages' account ids, each key maps to an account with that id, and each value is some message's account. |
| MessageGroups.AccountsByIdLastWins | feature/mail/message/list/src/main/kotlin/net/thunderbird/feature/mail/message/list/ui/MessageListViewModel.kt:275-277 | Under `associate`, the value for an id is the account of the last message with that id. |
| MessageGroups.ToMessageGroups | feature/mail/message/list/src/main/kotlin/net/thunderbird/feature/mail/message/list/ui/MessageListViewModel.kt:271-279 | One group per entry, in order, with the entry's date and messages. Its account map is keyed by exactly the messages' account ids, and each entry is the account of one of those messages. |
| MessageGroups.MessagesOfGroups | feature/mail/message/list/src/main/kotlin/net/thunderbird/feature/mail/message/list/ui/MessageListViewModel.kt:271-279 | Building groups keeps the messages in entry order. |
| MessageGroups.CreateMessageGroups | feature/mail/message/list/src/main/kotlin/net/thunderbird/feature/mail/message/list/ui/MessageListViewModel.kt:266-281 | Never more groups than messages, and none iff there are no messages. |
| MessageGroups.CreateMessageGroupsFlatten | feature/mail/message/list/src/main/kotlin/net/thunderbird/feature/mail/message/list/ui/MessageListViewModel.kt:266-281 | Reading the groups in order gives the input sorted newest first. That is a permutation of the input, and newest first. |
| MessageGroups.CreateMessageGroupsShape | feature/mail/message/list/src/main/kotlin/net/thunderbird/feature/mail/message/list/ui/MessageListViewModel.kt:266-281 | Every group is non-empty, and its messages all have its date. Its account keys are exactly its messages' account ids, and each value is one of those accounts. Group dates strictly decrease. |
| MessageListViewModel.TransparentAccountIds | feature/mail/message/list/src/main/kotlin/net/thunderbird/feature/mail/message/list/ui/MessageListViewModel.kt:137-144 | The queried ids are exactly the keys, over all groups, whose account colour is Transparent. |
| MessageListViewModel.ProfiledAccounts | feature/mail/message/list/src/main/kotlin/net/thunderbird/feature/mail/message/list/ui/MessageListViewModel.kt:155-159 | The recoloured accounts are empty iff no profile id is a key of the group. |
| MessageListViewModel.PutAccounts | feature/mail/message/list/src/main/kotlin/net/thunderbird/feature/mail/message/list/ui/MessageListViewModel.kt:164-167 | `putAll` of the recoloured accounts: the keys afterwards are the old keys plus the ids put. |
| MessageListViewModel.MergeProfiles | feature/mail/message/list/src/main/kotlin/net/thunderbird/feature/mail/message/list/ui/MessageListViewModel.kt:154-169 | Date and messages are kept. A group with no matching profile is returned unchanged. |
| MessageListViewModel.PutAccountsAt | feature/mail/message/list/src/main/kotlin/net/thunderbird/feature/mail/message/list/ui/MessageListViewModel.kt:164-167 | After `putAll`, an existing key holds the last entry put for it, or its old value. |
| MessageListViewModel.PutAccountsKeys | feature/mail/message/list/src/main/kotlin/net/thunderbird/feature/mail/message/list/ui/MessageListViewModel.kt:164-167 | When every id put is already a key, as for the recoloured accounts of a group, `putAll` keeps the key set unchanged. |
| MessageListViewModel.ProfiledAccountsLast | feature/mail/message/list/src/main/kotlin/net/thunderbird/feature/mail/message/list/ui/MessageListViewModel.kt:155-159 | The last recoloured entry for an account is that account in the colour of the last profile for it. |
| MessageListViewModel.MergeOnlyRecolours | feature/mail/message/list/src/main/kotlin/net/thunderbird/feature/mail/message/list/ui/MessageListViewModel.kt:154-169 | The merge of one group keeps its date, messages and account keys, and keys remain ids. Each account takes the colour of the last profile for it, if any, and is otherwise kept as it was. |
| MessageListViewModel.MergeAllProfiles | feature/mail/message/list/src/main/kotlin/net/thunderbird/feature/mail/message/list/ui/MessageListViewModel.kt:150-172 | One merged group per group, with its date and messages kept. When a group's keys are its accounts' ids, the merged group keeps the keys, and each account takes the colour of the last profile for it, or stays as it was. |
| MessageListViewModel.QueriedProfilesSpareColouredAccounts | feature/mail/message/list/src/main/kotlin/net/thunderbird/feature/mail/message/list/ui/MessageListViewModel.kt:137-169 | Profiles are fetched only for Transparent accounts. So an account that is coloured in every group it appears in keeps its entry. |
| MessageListViewModel.OnAccountsLoaded | feature/mail/message/list/src/main/kotlin/net/thunderbird/feature/mail/message/list/ui/MessageListViewModel.kt:113-124 | With one account, the header shows `name ?: email` and hides the colour indicator. With any other count it shows "Unified Account" and keeps the indicator. Nothing else changes. |
| MessageListViewModel.OnOpenAccountClick | feature/mail/message/list/src/main/kotlin/net/thunderbird/feature/mail/message/list/ui/MessageListViewModel.kt:90-105 | The account becomes selected. The unified id reloads the unified inbox. Any other id fetches folder 2 of that account. |
| MessageListViewModel.OnUnifiedInboxRequested | feature/mail/message/list/src/main/kotlin/net/thunderbird/feature/mail/message/list/ui/MessageListViewModel.kt:107-109 | Requesting the unified inbox marks the list loading and changes nothing else. |
| MessageListViewModel.OnGroupsLoaded | feature/mail/message/list/src/main/kotlin/net/thunderbird/feature/mail/message/list/ui/MessageListViewModel.kt:129-133 | Loaded messages replace the groups with `createMessageGroups` of them, and loading ends. Nothing else changes. |
| MessageListViewModel.GroupsLoadedShowEveryMessage | feature/mail/message/list/src/main/kotlin/net/thunderbird/feature/mail/message/list/ui/MessageListViewModel.kt:129-133 | After loading, the list holds every fetched message exactly once and newest first, in well-formed day groups of strictly decreasing date. |
| MessageListViewModel.OnFolderLoaded | feature/mail/message/list/src/main/kotlin/net/thunderbird/feature/mail/message/list/ui/MessageListViewModel.kt:248-261 | A loaded folder shows the account's own name and the folder's name, rebuilds the groups and hides the colour indicator. Loading and selection are kept. |
| MessageListViewModel.OpaqueIsNotTransparent | feature/mail/message/list/src/main/kotlin/net/thunderbird/feature/mail/message/list/ui/MessageListViewModel.kt:348 | A randomly drawn colour is never Transparent. |
| MessageListViewModel.AddressColor | feature/mail/message/list/src/main/kotlin/net/thunderbird/feature/mail/message/list/ui/MessageListViewModel.kt:346-350 | `getOrPut`: a known address keeps its colour and the palette. A new one takes the next draw, and that becomes its entry. Existing entries and opacity are kept. |
| MessageListViewModel.Identities | feature/mail/message/list/src/main/kotlin/net/thunderbird/feature/mail/message/list/ui/MessageListViewModel.kt:318-331 | Each address becomes an identity with that email and no avatar, coloured with its final palette colour. Earlier palette entries are kept. |
| MessageListViewModel.IdentitiesAddTheirAddresses | feature/mail/message/list/src/main/kotlin/net/thunderbird/feature/mail/message/list/ui/MessageListViewModel.kt:346-350 | Colouring a list of addresses adds exactly those addresses to the palette. |
| MessageListViewModel.NewMapper | feature/mail/message/list/src/main/kotlin/net/thunderbird/feature/mail/message/list/ui/MessageListViewModel.kt:352-361 | A new mapper has no address colours yet. |
| MessageListViewModel.ColourAddresses | feature/mail/message/list/src/main/kotlin/net/thunderbird/feature/mail/message/list/ui/MessageListViewModel.kt:318-331 | Senders and recipients keep their addresses in order, have no avatar, and carry their addresses' palette colours. |
| MessageListViewModel.MapMessage | feature/mail/message/list/src/main/kotlin/net/thunderbird/feature/mail/message/list/ui/MessageListViewModel.kt:304-344 | The account name falls back to the email, and the colour to Transparent without a profile. A missing subject reads "No subject", and the preview is the stored text. Addresses are coloured from the memo, which only grows. |
| MessageListViewModel.MapAll | feature/mail/message/list/src/main/kotlin/net/thunderbird/feature/mail/message/list/ui/MessageListViewModel.kt:304-350 | Mapping many messages with one mapper maps each message from the details at its index, as `map` promises for one message. Every sender and recipient carries the final palette colour of its address, and the account and profile are kept. |
| MessageListViewModel.MapperColoursConsistent | feature/mail/message/list/src/main/kotlin/net/thunderbird/feature/mail/message/list/ui/MessageListViewModel.kt:346-350 | Within one mapper, an address gets the same colour in every message and role. With opaque draws, no address is Transparent. |
| MessageListView.ToolbarStateAsWritten | feature/mail/message/list/src/main/kotlin/net/thunderbird/feature/mail/message/list/ui/MessageList.kt:148-156 | The name flags hold iff the names are non-null and non-blank. Account-name visibility always equals folder-name visibility, as written. |
| MessageListView.AccountRowVisibilityMisreported | feature/mail/message/list/src/main/kotlin/net/thunderbird/feature/mail/message/list/ui/MessageList.kt:154-155 | With only the account-name row on screen, the derivation as written reports it hidden, and the corrected one reports it visible. |
| MessageListView.ToolbarStateFor | feature/mail/message/list/src/main/kotlin/net/thunderbird/feature/mail/message/list/ui/MessageList.kt:148-156 | Each visibility flag holds iff its own row's key is among the visible keys. |
| MessageListView.ToolbarStatesAgreeUnlessOneRowShows | feature/mail/message/list/src/main/kotlin/net/thunderbird/feature/mail/message/list/ui/MessageList.kt:154-155 | The two derivations agree iff both rows are visible or neither is. |
| MessageListView.TitleOf | feature/mail/message/list/src/main/kotlin/net/thunderbird/feature/mail/message/list/ui/MessageList.kt:210-237 | The app title shows iff not loading and a name row is visible. Otherwise the folder name shows, with the account name below it iff the account row is not visible. |
| MessageListView.TitleKeepsAccountOnScreen | feature/mail/message/list/src/main/kotlin/net/thunderbird/feature/mail/message/list/ui/MessageList.kt:148-237 | With each flag read from its own row, the folder title shows iff loading or neither name row is visible. The account name is then in the label or its row is on screen. |
| MessageListView.CornerShape | feature/mail/message/list/src/main/kotlin/net/thunderbird/feature/mail/message/list/ui/MessageList.kt:330-347 | Uniform large for a single item. Large top at the first index, large bottom at the last, uniform small in between. |
| MessageListView.GroupReadsAsOneCard | feature/mail/message/list/src/main/kotlin/net/thunderbird/feature/mail/message/list/ui/MessageList.kt:330-347 | The top corners are large exactly on the first item and the bottom corners exactly on the last; start and end always match. |
| MessageListView.CreatedGroupsAreResolvable | feature/mail/message/list/src/main/kotlin/net/thunderbird/feature/mail/message/list/ui/MessageList.kt:325 | In groups built by `createMessageGroups`, every message's account is in its group's map, so `getValue` succeeds. |
| MessageListView.ItemRows | feature/mail/message/list/src/main/kotlin/net/thunderbird/feature/mail/message/list/ui/MessageList.kt:322-353 | One item per message, in order. Each item carries its message and the group's entry for the message's account (`getValue`). Its top corners are large exactly for the first item, its bottom corners exactly for the last, and start and end corners match. |
| MessageListView.GroupRows | feature/mail/message/list/src/main/kotlin/net/thunderbird/feature/mail/message/list/ui/MessageList.kt:302-358 | Per group, one date label, its items and a spacer. The labels show the groups' dates and the items their messages, both in group order. Read top to bottom, every message is shown under its own group's date label (`Labelled` against `GroupPairs`), so no message can sit under another day's label. The row count is the message count plus two per group. |
| MessageListView.Rows | feature/mail/message/list/src/main/kotlin/net/thunderbird/feature/mail/message/list/ui/MessageList.kt:257-366 | The spacer is present iff the folder or account name is non-blank. The empty state iff not loading and there are no groups. The two header rows come first, and the loading row last. |
| MessageListView.HeaderRows | feature/mail/message/list/src/main/kotlin/net/thunderbird/feature/mail/message/list/ui/MessageList.kt:257-300 | The folder-name row, then the account-name row, each with its name or "". A spacer iff the folder or account name is non-blank. The empty state iff not loading and there are no groups. No message items. |
| MessageListView.GroupRowsHaveNoHeaders | feature/mail/message/list/src/main/kotlin/net/thunderbird/feature/mail/message/list/ui/MessageList.kt:302-358 | Group rows contain no spacer and no empty state. |
| MessageListView.ItemMessagesConcat | feature/mail/message/list/src/main/kotlin/net/thunderbird/feature/mail/message/list/ui/MessageList.kt:302-358 | The items of concatenated rows are the concatenated items. |
| MessageListView.ItemRowsShowGroup | feature/mail/message/list/src/main/kotlin/net/thunderbird/feature/mail/message/list/ui/MessageList.kt:322-353 | A group's item rows show its messages in order. |
| MessageListView.GroupBlockShowsGroup | feature/mail/message/list/src/main/kotlin/net/thunderbird/feature/mail/message/list/ui/MessageList.kt:302-358 | A group's block of rows (date label, items, spacer) shows exactly its messages. |
| MessageListView.LabelledBlock | feature/mail/message/list/src/main/kotlin/net/thunderbird/feature/mail/message/list/ui/MessageList.kt:302-358 | A group's block shows all its messages, in order, under its own date label, and leaves that label current for the rows after it. |
| MessageListView.RowsShowMessagesUnderTheirDay | feature/mail/message/list/src/main/kotlin/net/thunderbird/feature/mail/message/list/ui/MessageList.kt:257-366 | On the whole rendered list, header and loading rows included, each message appears under its own day's date label, group by group in order. |
| MessageListView.RowsShowEveryMessageInOrder | feature/mail/message/list/src/main/kotlin/net/thunderbird/feature/mail/message/list/ui/MessageList.kt:257-366 | The rendered list, header rows and loading row included, shows every message of every group exactly once, in group order. |
| MessageListView.LoadedListShowsMessagesNewestFirst | feature/mail/message/list/src/main/kotlin/net/thunderbird/feature/mail/message/list/ui/MessageList.kt:257-366 | After the messages are loaded, the rendered list shows each of them exactly once, newest first. |
| MessageItem.DigitChar | feature/mail/message/list/src/main/kotlin/net/thunderbird/feature/mail/message/list/ui/MessageItem.kt:209 | A digit value becomes its decimal digit character. |
| MessageItem.DecimalString | feature/mail/message/list/src/main/kotlin/net/thunderbird/feature/mail/message/list/ui/MessageItem.kt:209 | A count prints as a non-empty digit string without leading zero. |
| MessageItem.DecimalRoundTrip | feature/mail/message/list/src/main/kotlin/net/thunderbird/feature/mail/message/list/ui/MessageItem.kt:209 | Reading the printed count gives the count back. |
| MessageItem.IconFor | feature/mail/message/list/src/main/kotlin/net/thunderbird/feature/mail/message/list/ui/MessageItem.kt:188-193 | The generic attachment icon is used exactly for the types without an icon of their own. |
| MessageItem.IconForInjective | feature/mail/message/list/src/main/kotlin/net/thunderbird/feature/mail/message/list/ui/MessageItem.kt:188-193 | The icon mapping is total and gives each attachment type its own icon. |
| MessageItem.DisplayableAttachments | feature/mail/message/list/src/main/kotlin/net/thunderbird/feature/mail/message/list/ui/MessageItem.kt:167-169 | At most 2 chips, and they are the first attachments in order. All attachments when there are at most 2. |
| MessageItem.OverflowLabel | feature/mail/message/list/src/main/kotlin/net/thunderbird/feature/mail/message/list/ui/MessageItem.kt:205-210 | A label appears iff there are more than 2 attachments. It reads "+ >1K" when the extra count is at least 1000. Otherwise it is "+" followed by the extra count in decimal, with no leading zero. |
| MessageItem.ChipsAndOverflowCoverAll | feature/mail/message/list/src/main/kotlin/net/thunderbird/feature/mail/message/list/ui/MessageItem.kt:167-210 | Chips plus the overflow count account for every attachment. |
| MessageItem.Decorations | feature/mail/message/list/src/main/kotlin/net/thunderbird/feature/mail/message/list/ui/MessageItem.kt:105-212 | The important label shows iff important, and the star is filled iff favourite. The attachment row shows iff there are attachments, with one chip per shown attachment (its icon and name) and the overflow label. |
| MessageItem.UppercaseChar | feature/mail/message/list/src/main/kotlin/net/thunderbird/feature/mail/message/list/ui/MessageItem.kt:243 | ASCII lower-case letters map to their upper case, and other characters are kept. |
| MessageItem.Avatar | feature/mail/message/list/src/main/kotlin/net/thunderbird/feature/mail/message/list/ui/MessageItem.kt:233-248 | Check icon iff selected. Otherwise the remote image iff the URL is non-blank, and the upper-cased first email character iff it is null or blank. |
| SwipeToReveal.DirectionMultiplier | feature/mail/message/list/src/main/kotlin/net/thunderbird/feature/mail/message/list/ui/SwipeToRevealItem.kt:69-76 | The multiplier is ±1. It is −1 exactly for Left/LTR and Right/RTL. |
| SwipeToReveal.ActionsAlignment | feature/mail/message/list/src/main/kotlin/net/thunderbird/feature/mail/message/list/ui/SwipeToRevealItem.kt:59-66 | The actions sit at CenterEnd exactly for Left/LTR and Right/RTL. |
| SwipeToReveal.AlignmentFollowsMultiplier | feature/mail/message/list/src/main/kotlin/net/thunderbird/feature/mail/message/list/ui/SwipeToRevealItem.kt:59-76 | The actions sit at CenterEnd exactly when the multiplier is −1. |
| SwipeToReveal.OppositeSwipesOppose | feature/mail/message/list/src/main/kotlin/net/thunderbird/feature/mail/message/list/ui/SwipeToRevealItem.kt:69-76 | Opposite swipe directions get opposite multipliers, and mirroring both swipe and layout keeps the multiplier. |
| SwipeToReveal.NormalizeDragAmount | feature/mail/message/list/src/main/kotlin/net/thunderbird/feature/mail/message/list/ui/SwipeToRevealItem.kt:176-180 | The drag is the identity in LTR and negated in RTL. |
| SwipeToReveal.NormalizeIsInvolution | feature/mail/message/list/src/main/kotlin/net/thunderbird/feature/mail/message/list/ui/SwipeToRevealItem.kt:176-180 | Normalising twice gives the drag back. |
| SwipeToReveal.CoerceIn | feature/mail/message/list/src/main/kotlin/net/thunderbird/feature/mail/message/list/ui/SwipeToRevealItem.kt:189-210 | `coerceIn` lands in the range, keeps an in-range value and clamps to the nearer bound. |
| SwipeToReveal.CalculateNewOffset | feature/mail/message/list/src/main/kotlin/net/thunderbird/feature/mail/message/list/ui/SwipeToRevealItem.kt:182-211 | The new offset lies within the branch's bounds. |
| SwipeToReveal.NewOffsetStaysInRange | feature/mail/message/list/src/main/kotlin/net/thunderbird/feature/mail/message/list/ui/SwipeToRevealItem.kt:182-211 | With a non-negative width the offset lies between 0 and `actionsSize * multiplier`. An in-range `offset + 2*drag` is returned as is, and a settled offset with zero drag stays put. |
| SwipeToReveal.OnDragEnd | feature/mail/message/list/src/main/kotlin/net/thunderbird/feature/mail/message/list/ui/SwipeToRevealItem.kt:143-155 | Revealed iff `|offset| >= actionsSize / 2`. The target is then `actionsSize * multiplier`, otherwise 0, and the reported flag is that same boolean. |
| SwipeToReveal.RevealTarget | feature/mail/message/list/src/main/kotlin/net/thunderbird/feature/mail/message/list/ui/SwipeToRevealItem.kt:79-85 | An external `revealed` targets `actionsSize * multiplier`, and false targets 0. |
| SwipeToReveal.DragEndAgreesWithReveal | feature/mail/message/list/src/main/kotlin/net/thunderbird/feature/mail/message/list/ui/SwipeToRevealItem.kt:79-155 | Settling after a drag and then applying the reported flag targets the same offset. |
| SwipeToReveal.SettledTargetInRange | feature/mail/message/list/src/main/kotlin/net/thunderbird/feature/mail/message/list/ui/SwipeToRevealItem.kt:143-155 | The settled target lies between 0 and fully revealed. |

## Left out

- Concurrency: the registry's mutex, `MutableStateFlow`/`stateIn` and `AtomicInt`, and the settings manager's coroutine launches and `@Synchronized`. Every operation is modelled as one sequential step.
- The sender's implementation is not part of this model; only what its tests fix is stated. The foreground rule enters as the boolean `systemSuppressed`, and the tests pin only that Critical overrides it. Feature flags are two booleans. Notifiers always succeed, as the fakes in the tests do, so failure outcomes and failure isolation are not modelled.
- NotificationRegistry.Register: the counter is an unbounded integer. The source's `AtomicInt` wraps to negative values after `Int.MAX_VALUE` increments; the model does not represent that, so its invariant that identifiers lie in 1..counter holds only below that bound.
- NotificationRegistry.FreshIdExceedsEarlier: "identifiers are never reused" holds only before the 32-bit counter wraps, for the same reason.
- NotificationSender.Send: that sending registers the notification and reports its registered identifier in every outcome is an assumption about the sender's implementation. The tests match the identifier with `any()`.
- MessageListViewModel.TransparentAccountIds: account ids are compared as raw strings. The source turns each key into a typed id with `AccountIdFactory.of`, which throws on a string that is not a UUID; that throw is not modelled.
- MessageListViewModel.ProfiledAccounts: a profile is matched by its id string as is. The source looks up `profile.id.value.toString()`, so the model assumes that converting an account id to a typed id and back gives the same string. A key in a non-canonical UUID spelling, such as upper case, may not survive that round trip in the source.
- Legacy `K9` static state (`K9.save`, `K9.loadPrefs`, `K9.backgroundOps`), `DI.get<Clock>` and `QuietTimeChecker`. The legacy mode and the quiet-time check are parameters of `LoadGeneralSettings`.
- `PrivacySettingsPreferenceManager`, the `privacy` field and `changePublisher`.
- The storage's own typing. A value is a boolean or a string, and `getBoolean` on a string value yields the default. The real `Storage` class is not part of this model.
- GeneralSettingsStore.GetAppTheme: `getEnumOrDefault` and its exception path are collapsed into "unknown name or wrong type gives the default", because the storage library is not part of this model.
- `fetchAccounts`, `fetchMessages` (both overloads), `fetchProfiles`, the repositories, the SQL clauses and the accounts' profile lookups. They are I/O; their results are parameters of the state updates.
- The epoch-milliseconds to local-date-time conversion and the time zone. A date-time is an abstract pair (date, time of day) ordered lexicographically.
- The random colour source. `Random.nextLong` draws are a parameter (`Palette.draws`), one per new address.
- `UnifiedDisplayAccount.UNIFIED_ACCOUNT_ID` is not part of this model. It is a parameter of `OnOpenAccountClick`.
- `selectedFolderId` of the drawer state, which `fetchMessages(accountUuid, folderId)` also sets. The drawer is not part of this model.
- The `LoadMore`, `OnFavoriteClick` and swipe events, which are `TODO()` in the source.
- Compose rendering and animation (`Animatable`, `LaunchedEffect`, `AnimatedVisibility`, `Crossfade`), `roundToInt`, dp sizes, colours and alpha. The date label's text format is left out too; only the label's date is kept.
- MessageGroups.SortDescending: no contract states stability. Insertion puts each message before the equal-dated ones already sorted, so ties keep their input order by construction, but only the permutation and the order are proved.
- MessageItem.UppercaseChar: upper-cases ASCII letters only, because Unicode case mapping is a library table.
- MessageModel.IsWhitespace: follows the JDK whitespace and space-separator code points listed in the definition, as `isBlank` uses them.
- MessageItem.OverflowLabel: requires at most `Int.MAX_VALUE` attachments, the bound of a Kotlin list's size.
- MessageItem.Avatar: requires a non-empty email when the avatar falls back to the initial, because `first()` throws on an empty string. A Dafny string holds Unicode scalar values, while Kotlin's `first()` returns one UTF-16 code unit. So for an email starting with a character outside the Basic Multilingual Plane, the source shows a lone high surrogate and the model shows the whole character.
- MessageListViewModel.MapMessage: requires a TEXT preview with stored text, because `previewText` throws otherwise, and enough random draws for the message's addresses.
- SwipeToReveal: floating-point rounding is not modelled; offsets are reals.
- DisplayHtml.kt, MessageWebView.kt, the drawer files, navigation, Koin modules and build files are not part of this model: they are configuration and UI wiring.

## Findings

| source | as written | input that shows it | evidently intended | confidence | as-written member | corrected member |
|---|---|---|---|---|---|---|
| feature/mail/message/list/src/main/kotlin/net/thunderbird/feature/mail/message/list/ui/MessageList.kt:155 | `isAccountNameVisible` tests the folder-name row's key | visible row keys = {account-name row} only, e.g. after scrolling the folder-name row off screen | test the account-name row's key, as `isFolderNameVisible` does with its own | medium, not executed | MessageListView.ToolbarStateAsWritten, MessageListView.AccountRowVisibilityMisreported | MessageListView.ToolbarStateFor |
