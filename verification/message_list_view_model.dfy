/**
 * The decisions of the message-list view model other than grouping: the
 * profile-colour merge after the unified inbox is shown, the header account
 * name, routing when an account is opened, and the message mapper with its
 * memoised per-address colours.
 */
module MessageListViewModel {
  import opened Wrappers
  import opened MessageModel
  import PreviewResults
  import MessageGroups

  /* ---------------- profile colours ---------------- */

  datatype AccountProfile = AccountProfile(id: string, color: int)

  /** Every key names the account stored under it, as in a group built from messages. */
  ghost predicate KeysAreIds(accounts: map<string, UserAccount>) {
    forall k :: k in accounts ==> accounts[k].id == k
  }

  /** The account ids whose colour is still Transparent, over all groups. */
  function TransparentAccountIds(groups: seq<MessageGroup>): (ids: set<string>)
    ensures forall i, k :: 0 <= i < |groups| && k in groups[i].accounts && groups[i].accounts[k].color == Transparent ==> k in ids
    ensures forall k :: k in ids ==> exists i :: 0 <= i < |groups| && k in groups[i].accounts && groups[i].accounts[k].color == Transparent
  {
    if groups == [] then {}
    else
      var g := groups[0];
      var rest := TransparentAccountIds(groups[1..]);
      assert forall i :: 1 <= i < |groups| ==> groups[i] == groups[1..][i - 1];
      (set k | k in g.accounts && g.accounts[k].color == Transparent) + rest
  }

  /** `profiles.mapNotNull`: the group's accounts that have a profile, recoloured. */
  function ProfiledAccounts(accounts: map<string, UserAccount>, profiles: seq<AccountProfile>): (r: seq<UserAccount>)
    ensures |r| <= |profiles|
    ensures r == [] <==> forall j :: 0 <= j < |profiles| ==> profiles[j].id !in accounts
  {
    if profiles == [] then []
    else
      var p := profiles[0];
      var tail := ProfiledAccounts(accounts, profiles[1..]);
      assert forall j :: 1 <= j < |profiles| ==> profiles[j] == profiles[1..][j - 1];
      if p.id in accounts then [accounts[p.id].(color := Color(p.color))] + tail else tail
  }

  /** `putAll(userAccounts.map { it.id to it })`: later entries overwrite earlier ones. */
  function PutAccounts(m: map<string, UserAccount>, uas: seq<UserAccount>): (r: map<string, UserAccount>)
    ensures r.Keys == m.Keys + (set i | 0 <= i < |uas| :: uas[i].id)
    decreases |uas|
  {
    if uas == [] then m else PutAccounts(m[uas[0].id := uas[0]], uas[1..])
  }

  /** The merge applied to one group. */
  function MergeProfiles(g: MessageGroup, profiles: seq<AccountProfile>): (r: MessageGroup)
    ensures r.date == g.date && r.messages == g.messages
    ensures (forall j :: 0 <= j < |profiles| ==> profiles[j].id !in g.accounts) ==> r == g
  {
    var uas := ProfiledAccounts(g.accounts, profiles);
    if uas == [] then g else g.(accounts := PutAccounts(g.accounts, uas))
  }

  /** Reference definition: the colour of the last profile for `k`, if any. */
  function LastProfileColor(profiles: seq<AccountProfile>, k: string): Option<Color> {
    if profiles == [] then None
    else
      match LastProfileColor(profiles[1..], k)
      case Some(c) => Some(c)
      case None => if profiles[0].id == k then Some(Color(profiles[0].color)) else None
  }

  /** Reference definition of the merged entry for an account already in the map. */
  function Recoloured(a: UserAccount, profiles: seq<AccountProfile>): UserAccount {
    match LastProfileColor(profiles, a.id)
    case None => a
    case Some(c) => a.(color := c)
  }

  /** The last account in `uas` with id `k`, if any. */
  function LastWithId(uas: seq<UserAccount>, k: string): (r: Option<UserAccount>)
    ensures r.Some? ==> r.value.id == k
  {
    if uas == [] then None
    else
      match LastWithId(uas[1..], k)
      case Some(u) => Some(u)
      case None => if uas[0].id == k then Some(uas[0]) else None
  }

  /** `putAll` leaves each existing key holding the last entry put for it, or its old value. */
  lemma {:induction false} PutAccountsAt(m: map<string, UserAccount>, uas: seq<UserAccount>, k: string)
    requires k in m
    ensures k in PutAccounts(m, uas)
    ensures PutAccounts(m, uas)[k] == LastWithId(uas, k).GetOr(m[k])
    decreases |uas|
  {
    if uas != [] {
      PutAccountsAt(m[uas[0].id := uas[0]], uas[1..], k);
    }
  }

  lemma {:induction false} PutAccountsKeys(m: map<string, UserAccount>, uas: seq<UserAccount>)
    requires forall i :: 0 <= i < |uas| ==> uas[i].id in m
    ensures PutAccounts(m, uas).Keys == m.Keys
    decreases |uas|
  {
    if uas != [] {
      PutAccountsKeys(m[uas[0].id := uas[0]], uas[1..]);
    }
  }

  /** Profile-sourced entries are existing accounts, recoloured by the last profile for them. */
  lemma {:induction false} ProfiledAccountsLast(accounts: map<string, UserAccount>, profiles: seq<AccountProfile>, k: string)
    requires KeysAreIds(accounts) && k in accounts
    ensures LastWithId(ProfiledAccounts(accounts, profiles), k) ==
      match LastProfileColor(profiles, k)
      case None => None
      case Some(c) => Some(accounts[k].(color := c))
  {
    if profiles != [] {
      ProfiledAccountsLast(accounts, profiles[1..], k);
    }
  }

  lemma {:induction false} ProfiledAccountsExist(accounts: map<string, UserAccount>, profiles: seq<AccountProfile>)
    requires KeysAreIds(accounts)
    ensures forall i :: 0 <= i < |ProfiledAccounts(accounts, profiles)| ==> ProfiledAccounts(accounts, profiles)[i].id in accounts
  {
    if profiles != [] {
      ProfiledAccountsExist(accounts, profiles[1..]);
    }
  }

  /**
   * `r` is `g` after the merge: same date, messages and account keys, each
   * account in the colour of the last profile for it, if there is one.
   */
  ghost predicate RecolouredFrom(r: MessageGroup, g: MessageGroup, profiles: seq<AccountProfile>) {
    && r.date == g.date && r.messages == g.messages
    && r.accounts.Keys == g.accounts.Keys
    && forall k :: k in g.accounts ==> r.accounts[k] == Recoloured(g.accounts[k], profiles)
  }

  lemma MergeOnlyRecolours(g: MessageGroup, profiles: seq<AccountProfile>)
    requires KeysAreIds(g.accounts)
    ensures RecolouredFrom(MergeProfiles(g, profiles), g, profiles)
    ensures KeysAreIds(MergeProfiles(g, profiles).accounts)
  {
    var uas := ProfiledAccounts(g.accounts, profiles);
    ProfiledAccountsExist(g.accounts, profiles);
    PutAccountsKeys(g.accounts, uas);
    var r := MergeProfiles(g, profiles);
    forall k | k in g.accounts
      ensures r.accounts[k] == Recoloured(g.accounts[k], profiles)
    {
      ProfiledAccountsLast(g.accounts, profiles, k);
      PutAccountsAt(g.accounts, uas, k);
    }
  }

  /** The merge applied to every group of the state. */
  function MergeAllProfiles(groups: seq<MessageGroup>, profiles: seq<AccountProfile>): (r: seq<MessageGroup>)
    ensures |r| == |groups|
    ensures forall i :: 0 <= i < |r| ==> r[i].date == groups[i].date && r[i].messages == groups[i].messages
    ensures forall i :: 0 <= i < |r| && KeysAreIds(groups[i].accounts) ==> RecolouredFrom(r[i], groups[i], profiles)
  {
    var r := seq(|groups|, i requires 0 <= i < |groups| => MergeProfiles(groups[i], profiles));
    assert forall i :: 0 <= i < |r| && KeysAreIds(groups[i].accounts) ==> RecolouredFrom(r[i], groups[i], profiles) by {
      forall i | 0 <= i < |r| && KeysAreIds(groups[i].accounts)
        ensures RecolouredFrom(r[i], groups[i], profiles)
      {
        MergeOnlyRecolours(groups[i], profiles);
      }
    }
    r
  }

  /**
   * Profiles are fetched only for the Transparent accounts, so an account
   * coloured in every group it appears in keeps its entry unchanged.
   */
  lemma QueriedProfilesSpareColouredAccounts(groups: seq<MessageGroup>, profiles: seq<AccountProfile>, i: int, k: string)
    requires forall j :: 0 <= j < |groups| ==> KeysAreIds(groups[j].accounts)
    requires forall j :: 0 <= j < |profiles| ==> profiles[j].id in TransparentAccountIds(groups)
    requires 0 <= i < |groups| && k in groups[i].accounts
    requires forall j :: 0 <= j < |groups| && k in groups[j].accounts ==> groups[j].accounts[k].color != Transparent
    ensures k in MergeAllProfiles(groups, profiles)[i].accounts && MergeAllProfiles(groups, profiles)[i].accounts[k] == groups[i].accounts[k]
  {
    NoProfileNoColour(profiles, k);
  }

  lemma {:induction false} NoProfileNoColour(profiles: seq<AccountProfile>, k: string)
    requires forall j :: 0 <= j < |profiles| ==> profiles[j].id != k
    ensures LastProfileColor(profiles, k).None?
  {
    if profiles != [] {
      NoProfileNoColour(profiles[1..], k);
    }
  }

  /* ---------------- header and routing ---------------- */

  datatype BaseAccount = BaseAccount(uuid: string, name: Option<string>, email: string)

  /**
   * The header update once the accounts are known: one account shows its
   * name, or its email when it has none, and hides the colour indicator;
   * any other number of accounts shows "Unified Account" and leaves the
   * indicator as it was.
   */
  function OnAccountsLoaded(state: ListState, accounts: seq<BaseAccount>): (r: ListState)
    ensures r.accountName.Some?
    ensures |accounts| == 1 ==> r.accountName.value == accounts[0].name.GetOr(accounts[0].email) && !r.showAccountColorIndicator
    ensures |accounts| != 1 ==> r.accountName.value == "Unified Account" && r.showAccountColorIndicator == state.showAccountColorIndicator
    ensures r.(accountName := state.accountName, showAccountColorIndicator := state.showAccountColorIndicator) == state
  {
    if |accounts| == 1 then
      var account := accounts[0];
      state.(accountName := Some(account.name.GetOr(account.email)), showAccountColorIndicator := false)
    else
      state.(accountName := Some("Unified Account"))
  }

  /** What the view model loads next. */
  datatype Fetch = FetchUnifiedInbox | FetchFolder(accountUuid: string, folderId: int)

  /** The folder id opened for a single account. */
  const InboxFolderId: int := 2

  /**
   * Opening an account selects it in the drawer, then reloads the unified
   * inbox for the unified pseudo-account or fetches the account's inbox.
   */
  function OnOpenAccountClick(state: ListState, accountUuid: string, unifiedAccountId: string): (r: (ListState, Fetch))
    ensures r.0 == state.(selectedAccountUuid := Some(accountUuid))
    ensures r.1 == FetchUnifiedInbox <==> accountUuid == unifiedAccountId
    ensures r.1.FetchFolder? ==> r.1.accountUuid == accountUuid && r.1.folderId == InboxFolderId
  {
    var selected := state.(selectedAccountUuid := Some(accountUuid));
    if accountUuid == unifiedAccountId then (selected, FetchUnifiedInbox)
    else (selected, FetchFolder(accountUuid, InboxFolderId))
  }

  /* ---------------- loading ---------------- */

  /** Reloading the unified inbox first marks the list as loading. */
  function OnUnifiedInboxRequested(state: ListState): (r: ListState)
    ensures r.isLoading
    ensures r.(isLoading := state.isLoading) == state
  {
    state.(isLoading := true)
  }

  /** The unified inbox's messages arrive: they are grouped and loading ends. */
  function OnGroupsLoaded(state: ListState, messages: seq<Message>): (r: ListState)
    ensures !r.isLoading
    ensures r.(isLoading := state.isLoading, groups := state.groups) == state
    ensures r.groups == MessageGroups.CreateMessageGroups(messages)
  {
    state.(groups := MessageGroups.CreateMessageGroups(messages), isLoading := false)
  }

  /**
   * Once the unified inbox has loaded, the list holds every fetched message
   * exactly once, newest first, in non-empty day groups of strictly
   * decreasing date.
   */
  lemma GroupsLoadedShowEveryMessage(state: ListState, messages: seq<Message>)
    ensures var r := OnGroupsLoaded(state, messages);
      && !r.isLoading
      && multiset(MessageGroups.Messages(r.groups)) == multiset(messages)
      && MessageGroups.SortedDescending(MessageGroups.Messages(r.groups))
      && (forall i :: 0 <= i < |r.groups| ==> MessageGroups.GroupWellFormed(r.groups[i]))
      && (forall i, j :: 0 <= i < j < |r.groups| ==> r.groups[i].date > r.groups[j].date)
  {
    MessageGroups.CreateMessageGroupsFlatten(messages);
    MessageGroups.CreateMessageGroupsShape(messages);
  }

  /**
   * One account's folder has loaded: the header shows the account's own name
   * (possibly none) and the folder's name, the groups are rebuilt and the
   * colour indicator is hidden. Loading is left as it was.
   */
  function OnFolderLoaded(state: ListState, account: BaseAccount, folderName: Option<string>, messages: seq<Message>): (r: ListState)
    ensures r.accountName == account.name && r.folderName == folderName
    ensures !r.showAccountColorIndicator
    ensures r.groups == MessageGroups.CreateMessageGroups(messages)
    ensures r.isLoading == state.isLoading && r.selectedAccountUuid == state.selectedAccountUuid
  {
    state.(accountName := account.name, folderName := folderName,
           groups := MessageGroups.CreateMessageGroups(messages), showAccountColorIndicator := false)
  }

  /* ---------------- the message mapper ---------------- */

  /** The fields of a stored message the mapper reads. */
  datatype MessageDetails = MessageDetails(
    subject: Option<string>,
    preview: PreviewResults.PreviewResult,
    dateTime: DateTime,
    fromAddresses: seq<string>,
    toAddresses: seq<string>,
    isRead: bool,
    threadCount: int,
    isStarred: bool
  )

  /** Bounds of the random ARGB colour: `Random.nextLong(from, until)`, `until` excluded. */
  const ColorDrawFrom: int := 0xFF00_0000
  const ColorDrawUntil: int := 0xFFFF_FFFF

  /** A colour the random draw can produce: fully opaque. */
  predicate Opaque(c: Color) {
    ColorDrawFrom <= c.argb < ColorDrawUntil
  }

  lemma OpaqueIsNotTransparent(c: Color)
    requires Opaque(c)
    ensures c != Transparent
  {
  }

  /**
   * The per-mapper address colours and the random numbers still to be drawn;
   * the random source is a parameter of the model.
   */
  datatype Palette = Palette(colors: map<string, Color>, draws: seq<int>)

  ghost predicate PaletteOpaque(p: Palette) {
    && (forall a :: a in p.colors ==> Opaque(p.colors[a]))
    && (forall i :: 0 <= i < |p.draws| ==> ColorDrawFrom <= p.draws[i] < ColorDrawUntil)
  }

  /** The palette entries of `p` are still there, unchanged, in `q`. */
  ghost predicate Extends(q: Palette, p: Palette) {
    forall a :: a in p.colors ==> a in q.colors && q.colors[a] == p.colors[a]
  }

  /** `addressColors.getOrPut(address) { random colour }`. */
  function AddressColor(p: Palette, address: string): (r: (Color, Palette))
    requires address in p.colors || p.draws != []
    ensures address in r.1.colors && r.1.colors[address] == r.0
    ensures Extends(r.1, p)
    ensures r.1.colors.Keys == p.colors.Keys + {address}
    ensures address in p.colors ==> r.1 == p
    ensures address !in p.colors ==> r.0 == Color(p.draws[0]) && r.1.draws == p.draws[1..]
    ensures PaletteOpaque(p) ==> PaletteOpaque(r.1)
  {
    if address in p.colors then (p.colors[address], p)
    else
      var c := Color(p.draws[0]);
      (c, Palette(p.colors[address := c], p.draws[1..]))
  }

  /** `ids` are the identities of `addresses`, in order, without avatars. */
  ghost predicate AddressedTo(ids: seq<MessageIdentity>, addresses: seq<string>) {
    && |ids| == |addresses|
    && forall i :: 0 <= i < |addresses| ==> ids[i].email == addresses[i] && ids[i].avatarUrl.None?
  }

  /** Every identity of `ids` carries the palette colour of its address. */
  ghost predicate ColouredFrom(ids: seq<MessageIdentity>, colors: map<string, Color>) {
    forall i :: 0 <= i < |ids| ==> ids[i].email in colors && ids[i].color == colors[ids[i].email]
  }

  /** The identities of a list of addresses, coloured from the palette. */
  function Identities(p: Palette, addresses: seq<string>): (r: (seq<MessageIdentity>, Palette))
    requires |addresses| <= |p.draws|
    ensures AddressedTo(r.0, addresses)
    ensures ColouredFrom(r.0, r.1.colors)
    ensures Extends(r.1, p)
    ensures |r.1.draws| >= |p.draws| - |addresses|
    ensures PaletteOpaque(p) ==> PaletteOpaque(r.1)
    decreases |addresses|
  {
    if addresses == [] then ([], p)
    else
      var first := AddressColor(p, addresses[0]);
      var rest := Identities(first.1, addresses[1..]);
      var id := MessageIdentity(addresses[0], first.0, None);
      assert forall i :: 1 <= i < |addresses| ==> addresses[i] == addresses[1..][i - 1];
      assert forall i :: 1 <= i <= |rest.0| ==> ([id] + rest.0)[i] == rest.0[i - 1];
      ([id] + rest.0, rest.1)
  }

  /** Colouring a list of addresses adds exactly those addresses to the palette. */
  lemma {:induction false} IdentitiesAddTheirAddresses(p: Palette, addresses: seq<string>)
    requires |addresses| <= |p.draws|
    ensures Identities(p, addresses).1.colors.Keys == p.colors.Keys + (set a | a in addresses)
    decreases |addresses|
  {
    if addresses != [] {
      var first := AddressColor(p, addresses[0]);
      IdentitiesAddTheirAddresses(first.1, addresses[1..]);
      assert addresses == [addresses[0]] + addresses[1..];
      assert (set a | a in addresses) == {addresses[0]} + (set a | a in addresses[1..]);
    }
  }

  /** A mapper for one account, as `UiMessageMapper.Factory.create` builds it: no colours yet. */
  datatype Mapper = Mapper(account: BaseAccount, profile: Option<AccountProfile>, palette: Palette)

  function NewMapper(account: BaseAccount, profile: Option<AccountProfile>, draws: seq<int>): (m: Mapper)
    ensures m.palette.colors == map[] && m.palette.draws == draws
    ensures m.account == account && m.profile == profile
  {
    Mapper(account, profile, Palette(map[], draws))
  }

  /** Random numbers one message may consume: one per address at most. */
  function AddressCount(d: MessageDetails): nat {
    |d.fromAddresses| + |d.toAddresses|
  }

  /**
   * What `UiMessageMapper.map` promises about one mapped message: the
   * account's name falls back to its email and its colour to Transparent
   * without a profile, a missing subject reads "No subject", the preview is
   * the stored text, and every sender and recipient keeps its address, has
   * no avatar and carries the palette colour of its address.
   */
  ghost predicate MappedFrom(m: Message, mapper: Mapper, d: MessageDetails, colors: map<string, Color>) {
    && m.account.id == mapper.account.uuid
    && m.account.name == mapper.account.name.GetOr(mapper.account.email)
    && m.account.email == mapper.account.email
    && m.account.color == (if mapper.profile.Some? then Color(mapper.profile.value.color) else Transparent)
    && (d.subject.Some? ==> m.subject == d.subject.value)
    && (d.subject.None? ==> m.subject == "No subject")
    && d.preview.storedText == Some(m.contentPreview)
    && m.dateTime == d.dateTime
    && m.read == d.isRead && m.threadCount == d.threadCount && m.starred == d.isStarred
    && AddressedTo(m.from, d.fromAddresses) && AddressedTo(m.recipients, d.toAddresses)
    && ColouredFrom(m.from, colors) && ColouredFrom(m.recipients, colors)
  }

  /** The senders, recipients and palette after colouring one message's addresses. */
  function ColourAddresses(p: Palette, d: MessageDetails): (r: (seq<MessageIdentity>, seq<MessageIdentity>, Palette))
    requires AddressCount(d) <= |p.draws|
    ensures AddressedTo(r.0, d.fromAddresses) && AddressedTo(r.1, d.toAddresses)
    ensures ColouredFrom(r.0, r.2.colors) && ColouredFrom(r.1, r.2.colors)
    ensures Extends(r.2, p)
    ensures |r.2.draws| >= |p.draws| - AddressCount(d)
    ensures PaletteOpaque(p) ==> PaletteOpaque(r.2)
  {
    var f := Identities(p, d.fromAddresses);
    var t := Identities(f.1, d.toAddresses);
    ColouredFromExtends(f.0, f.1, t.1);
    (f.0, t.0, t.1)
  }

  /**
   * `UiMessageMapper.map`. Reading the preview text requires it to be
   * available, so a message whose preview is not TEXT is not mappable.
   */
  function MapMessage(mapper: Mapper, d: MessageDetails): (r: (Message, Mapper))
    requires d.preview.IsPreviewTextAvailable() && d.preview.storedText.Some?
    requires AddressCount(d) <= |mapper.palette.draws|
    ensures MappedFrom(r.0, mapper, d, r.1.palette.colors)
    ensures r.1.account == mapper.account && r.1.profile == mapper.profile
    ensures Extends(r.1.palette, mapper.palette)
    ensures |r.1.palette.draws| >= |mapper.palette.draws| - AddressCount(d)
    ensures PaletteOpaque(mapper.palette) ==> PaletteOpaque(r.1.palette)
  {
    var account := mapper.account;
    var color := match mapper.profile case Some(p) => Color(p.color) case None => Transparent;
    var c := ColourAddresses(mapper.palette, d);
    var m := Message(
      UserAccount(account.uuid, account.name.GetOr(account.email), account.email, color),
      d.subject.GetOr("No subject"),
      d.preview.PreviewText(),
      d.dateTime,
      c.0,
      c.1,
      d.isRead,
      d.threadCount,
      d.isStarred);
    (m, mapper.(palette := c.2))
  }

  /** The messages one mapper can map, with random numbers to spare. */
  ghost predicate Mappable(ds: seq<MessageDetails>, draws: nat) {
    && (forall i :: 0 <= i < |ds| ==> ds[i].preview.IsPreviewTextAvailable() && ds[i].preview.storedText.Some?)
    && TotalAddresses(ds) <= draws
  }

  function TotalAddresses(ds: seq<MessageDetails>): nat {
    if ds == [] then 0 else AddressCount(ds[0]) + TotalAddresses(ds[1..])
  }

  lemma MappableTail(ds: seq<MessageDetails>, draws: nat, left: nat)
    requires ds != [] && Mappable(ds, draws) && left >= draws - AddressCount(ds[0])
    ensures Mappable(ds[1..], left)
  {
    assert forall i :: 1 <= i < |ds| ==> ds[i] == ds[1..][i - 1];
  }

  lemma ColouredFromExtends(ids: seq<MessageIdentity>, p: Palette, q: Palette)
    requires ColouredFrom(ids, p.colors) && Extends(q, p)
    ensures ColouredFrom(ids, q.colors)
  {
  }

  /** Every sender and recipient of every message carries the palette colour of its address. */
  ghost predicate AllColouredFrom(ms: seq<Message>, colors: map<string, Color>) {
    forall i :: 0 <= i < |ms| ==> ColouredFrom(ms[i].from, colors) && ColouredFrom(ms[i].recipients, colors)
  }

  lemma AllColouredCons(m: Message, ms: seq<Message>, colors: map<string, Color>)
    requires ColouredFrom(m.from, colors) && ColouredFrom(m.recipients, colors)
    requires AllColouredFrom(ms, colors)
    ensures AllColouredFrom([m] + ms, colors)
  {
    forall i | 0 <= i < |[m] + ms|
      ensures ColouredFrom(([m] + ms)[i].from, colors) && ColouredFrom(([m] + ms)[i].recipients, colors)
    {
      if i > 0 {
        assert ([m] + ms)[i] == ms[i - 1];
      }
    }
  }

  /** Each message of `ms` is the mapping of the details at its index, coloured from `colors`. */
  ghost predicate AllMappedFrom(ms: seq<Message>, mapper: Mapper, ds: seq<MessageDetails>, colors: map<string, Color>) {
    && |ms| == |ds|
    && forall k :: 0 <= k < |ds| ==> MappedFrom(ms[k], mapper, ds[k], colors)
  }

  /** Mapping depends on the mapper only through its account and profile, and colours carry over to a larger palette. */
  lemma MappedFromExtends(m: Message, mapper: Mapper, other: Mapper, d: MessageDetails, p: Palette, q: Palette)
    requires MappedFrom(m, mapper, d, p.colors) && Extends(q, p)
    requires other.account == mapper.account && other.profile == mapper.profile
    ensures MappedFrom(m, other, d, q.colors)
  {
    ColouredFromExtends(m.from, p, q);
    ColouredFromExtends(m.recipients, p, q);
  }

  lemma AllMappedCons(m: Message, ms: seq<Message>, mapper: Mapper, ds: seq<MessageDetails>, colors: map<string, Color>)
    requires ds != [] && MappedFrom(m, mapper, ds[0], colors)
    requires AllMappedFrom(ms, mapper, ds[1..], colors)
    ensures AllMappedFrom([m] + ms, mapper, ds, colors)
  {
    forall k | 0 <= k < |ds|
      ensures MappedFrom(([m] + ms)[k], mapper, ds[k], colors)
    {
      if k > 0 {
        assert ([m] + ms)[k] == ms[k - 1] && ds[k] == ds[1..][k - 1];
      }
    }
  }

  /** Maps the messages of one query in order with a single mapper. */
  function MapAll(mapper: Mapper, ds: seq<MessageDetails>): (r: (seq<Message>, Mapper))
    requires Mappable(ds, |mapper.palette.draws|)
    ensures |r.0| == |ds|
    ensures r.1.account == mapper.account && r.1.profile == mapper.profile
    ensures Extends(r.1.palette, mapper.palette)
    ensures AllColouredFrom(r.0, r.1.palette.colors)
    ensures AllMappedFrom(r.0, mapper, ds, r.1.palette.colors)
    ensures PaletteOpaque(mapper.palette) ==> PaletteOpaque(r.1.palette)
    decreases |ds|
  {
    if ds == [] then ([], mapper)
    else
      var first := MapMessage(mapper, ds[0]);
      MappableTail(ds, |mapper.palette.draws|, |first.1.palette.draws|);
      var rest := MapAll(first.1, ds[1..]);
      ColouredFromExtends(first.0.from, first.1.palette, rest.1.palette);
      ColouredFromExtends(first.0.recipients, first.1.palette, rest.1.palette);
      AllColouredCons(first.0, rest.0, rest.1.palette.colors);
      MappedFromExtends(first.0, mapper, mapper, ds[0], first.1.palette, rest.1.palette);
      assert AllMappedFrom(rest.0, mapper, ds[1..], rest.1.palette.colors) by {
        forall k | 0 <= k < |ds[1..]|
          ensures MappedFrom(rest.0[k], mapper, ds[1..][k], rest.1.palette.colors)
        {
          MappedFromExtends(rest.0[k], first.1, mapper, ds[1..][k], rest.1.palette, rest.1.palette);
        }
      }
      AllMappedCons(first.0, rest.0, mapper, ds, rest.1.palette.colors);
      ([first.0] + rest.0, rest.1)
  }

  /** Senders and recipients of a mapped message. */
  function Participants(m: Message): seq<MessageIdentity> {
    m.from + m.recipients
  }

  /**
   * Within one mapper an address always gets the same colour, whichever
   * message and whichever role it appears in; and when the random draws are
   * opaque, no address is ever Transparent.
   */
  lemma MapperColoursConsistent(mapper: Mapper, ds: seq<MessageDetails>, i: int, j: int, a: MessageIdentity, b: MessageIdentity)
    requires Mappable(ds, |mapper.palette.draws|)
    requires 0 <= i < |ds| && 0 <= j < |ds|
    requires a in Participants(MapAll(mapper, ds).0[i]) && b in Participants(MapAll(mapper, ds).0[j])
    requires a.email == b.email
    ensures a.color == b.color
    ensures PaletteOpaque(mapper.palette) ==> a.color != Transparent
  {
    var ms := MapAll(mapper, ds).0;
    assert a in ms[i].from || a in ms[i].recipients;
    assert b in ms[j].from || b in ms[j].recipients;
  }
}
