/**
 * The decisions the message-list screen makes from its state: the toolbar
 * state, the title, which rows the list holds and the corner shape of each
 * message item within its day group.
 */
module MessageListView {
  import opened Wrappers
  import opened MessageModel
  import MessageGroups
  import MessageListViewModel

  /* ---------------- toolbar ---------------- */

  /** Keys of the list rows the layout reports as visible; only the two header rows carry one. */
  datatype RowKey = FolderNameKey | AccountNameKey

  datatype ToolbarState = ToolbarState(
    shouldShowFolderName: bool,
    shouldShowAccountName: bool,
    isFolderNameVisible: bool,
    isAccountNameVisible: bool
  )

  /**
   * The toolbar state as the screen derives it, where account-name
   * visibility is looked up under the folder-name key.
   */
  function ToolbarStateAsWritten(state: ListState, visibleKeys: set<RowKey>): (t: ToolbarState)
    ensures t.shouldShowFolderName <==> !IsNullOrBlank(state.folderName)
    ensures t.shouldShowAccountName <==> !IsNullOrBlank(state.accountName)
    ensures t.isFolderNameVisible <==> FolderNameKey in visibleKeys
    ensures t.isAccountNameVisible == t.isFolderNameVisible
  {
    ToolbarState(
      !IsNullOrBlank(state.folderName),
      !IsNullOrBlank(state.accountName),
      FolderNameKey in visibleKeys,
      FolderNameKey in visibleKeys)
  }

  /** The account-name row on screen without the folder-name row is reported hidden. */
  lemma AccountRowVisibilityMisreported(state: ListState, visibleKeys: set<RowKey>)
    requires AccountNameKey in visibleKeys && FolderNameKey !in visibleKeys
    ensures !ToolbarStateAsWritten(state, visibleKeys).isAccountNameVisible
    ensures ToolbarStateFor(state, visibleKeys).isAccountNameVisible
  {
  }

  /** The toolbar state with each flag read from its own row's key. */
  function ToolbarStateFor(state: ListState, visibleKeys: set<RowKey>): (t: ToolbarState)
    ensures t.shouldShowFolderName <==> !IsNullOrBlank(state.folderName)
    ensures t.shouldShowAccountName <==> !IsNullOrBlank(state.accountName)
    ensures t.isFolderNameVisible <==> FolderNameKey in visibleKeys
    ensures t.isAccountNameVisible <==> AccountNameKey in visibleKeys
  {
    ToolbarState(
      !IsNullOrBlank(state.folderName),
      !IsNullOrBlank(state.accountName),
      FolderNameKey in visibleKeys,
      AccountNameKey in visibleKeys)
  }

  /** The two derivations agree exactly when the rows are on screen together or not at all. */
  lemma ToolbarStatesAgreeUnlessOneRowShows(state: ListState, visibleKeys: set<RowKey>)
    ensures ToolbarStateAsWritten(state, visibleKeys) == ToolbarStateFor(state, visibleKeys)
      <==> (FolderNameKey in visibleKeys <==> AccountNameKey in visibleKeys)
  {
  }

  /* ---------------- title ---------------- */

  /** The app name, or the folder name with the account name as a label below it. */
  datatype Title = AppTitle | FolderTitle(folderName: string, accountLabel: Option<string>)

  function TitleOf(state: ListState, t: ToolbarState): (title: Title)
    ensures title == AppTitle <==> !state.isLoading && (t.isFolderNameVisible || t.isAccountNameVisible)
    ensures title.FolderTitle? ==> title.folderName == state.folderName.GetOr("")
    ensures title.FolderTitle? ==> (title.accountLabel.Some? <==> !t.isAccountNameVisible)
    ensures title.FolderTitle? && title.accountLabel.Some? ==> title.accountLabel.value == state.accountName.GetOr("")
  {
    if !state.isLoading && (t.isFolderNameVisible || t.isAccountNameVisible) then AppTitle
    else FolderTitle(state.folderName.GetOr(""), if !t.isAccountNameVisible then Some(state.accountName.GetOr("")) else None)
  }

  /**
   * With each flag read from its own row, the title falls back to the folder
   * name only while loading or when neither name row is on screen, and the
   * account name is then never lost: it is in the label or its row is shown.
   */
  lemma TitleKeepsAccountOnScreen(state: ListState, visibleKeys: set<RowKey>)
    ensures var title := TitleOf(state, ToolbarStateFor(state, visibleKeys));
      && (title.FolderTitle? <==> state.isLoading || (FolderNameKey !in visibleKeys && AccountNameKey !in visibleKeys))
      && (title.FolderTitle? ==> title.accountLabel.Some? || AccountNameKey in visibleKeys)
  {
  }

  /* ---------------- item shapes ---------------- */

  /** `MainTheme.sizes.smaller` is the large radius, 4 dp the small one. */
  datatype Corner = Large | Small

  datatype Shape = Shape(topStart: Corner, topEnd: Corner, bottomStart: Corner, bottomEnd: Corner)

  /** The shape of the item at `index` in a group of `size` messages. */
  function CornerShape(index: int, size: int): (s: Shape)
    requires 0 <= index < size
    ensures size == 1 ==> s == Shape(Large, Large, Large, Large)
    ensures size > 1 && index == 0 ==> s == Shape(Large, Large, Small, Small)
    ensures size > 1 && index == size - 1 ==> s == Shape(Small, Small, Large, Large)
    ensures 0 < index < size - 1 ==> s == Shape(Small, Small, Small, Small)
  {
    if index == 0 && size == 1 then Shape(Large, Large, Large, Large)
    else if index == 0 then Shape(Large, Large, Small, Small)
    else if index == size - 1 then Shape(Small, Small, Large, Large)
    else Shape(Small, Small, Small, Small)
  }

  /**
   * A group reads as one rounded card: the top corners are large exactly on
   * the first item, the bottom corners exactly on the last, and the start
   * and end corners always match.
   */
  ghost predicate CardCorners(s: Shape, index: int, size: int) {
    && (s.topStart == Large <==> index == 0)
    && (s.bottomStart == Large <==> index == size - 1)
    && s.topStart == s.topEnd && s.bottomStart == s.bottomEnd
  }

  lemma GroupReadsAsOneCard(index: int, size: int)
    requires 0 <= index < size
    ensures CardCorners(CornerShape(index, size), index, size)
  {
  }

  /* ---------------- rows ---------------- */

  datatype Row =
    | FolderNameRow(visible: bool, text: string)
    | AccountNameRow(visible: bool, text: string)
    | HeaderSpacer
    | EmptyState
    | DateLabel(date: Date)
    | Item(account: UserAccount, message: Message, shape: Shape)
    | GroupSpacer
    | LoadingRow(showsIndicator: bool)

  /** Every message's account is in its group's map, so `getValue` succeeds. */
  ghost predicate AccountsResolvable(groups: seq<MessageGroup>) {
    forall i, j :: 0 <= i < |groups| && 0 <= j < |groups[i].messages| ==>
      groups[i].messages[j].account.id in groups[i].accounts
  }

  lemma CreatedGroupsAreResolvable(ms: seq<Message>)
    ensures AccountsResolvable(MessageGroups.CreateMessageGroups(ms))
  {
    MessageGroups.CreateMessageGroupsShape(ms);
    var gs := MessageGroups.CreateMessageGroups(ms);
    forall i, j | 0 <= i < |gs| && 0 <= j < |gs[i].messages|
      ensures gs[i].messages[j].account.id in gs[i].accounts
    {
      assert MessageGroups.GroupWellFormed(gs[i]);
      assert gs[i].messages[j] in gs[i].messages;
    }
  }

  /**
   * One item per message, in order, each with its group's entry for its
   * account (`getValue`) and the corners of its place in the card.
   */
  function ItemRows(g: MessageGroup): (rows: seq<Row>)
    requires forall j :: 0 <= j < |g.messages| ==> g.messages[j].account.id in g.accounts
    ensures |rows| == |g.messages|
    ensures forall j :: 0 <= j < |rows| ==>
      && rows[j].Item? && rows[j].message == g.messages[j]
      && rows[j].account == g.accounts[g.messages[j].account.id]
    ensures forall j :: 0 <= j < |rows| ==> rows[j].Item? && CardCorners(rows[j].shape, j, |rows|)
  {
    seq(|g.messages|, j requires 0 <= j < |g.messages| =>
      Item(g.accounts[g.messages[j].account.id], g.messages[j], CornerShape(j, |g.messages|)))
  }

  /**
   * Per group a date label, its items and a spacer: the labels carry the
   * groups' dates and the items their messages, both in group order, and
   * each message is shown under its own group's date label.
   */
  function GroupRows(groups: seq<MessageGroup>): (rows: seq<Row>)
    requires AccountsResolvable(groups)
    ensures ItemMessages(rows) == MessageGroups.Messages(groups)
    ensures DateLabels(rows) == GroupDates(groups)
    ensures forall cur :: Labelled(rows, cur) == GroupPairs(groups)
    ensures |rows| == |MessageGroups.Messages(groups)| + 2 * |groups|
  {
    if groups == [] then []
    else
      var g := groups[0];
      assert forall i :: 1 <= i < |groups| ==> groups[i] == groups[1..][i - 1];
      var block := [DateLabel(g.date)] + ItemRows(g) + [GroupSpacer];
      var rest := GroupRows(groups[1..]);
      GroupBlockShowsGroup(g);
      ItemMessagesConcat(block, rest);
      GroupBlockLabel(g);
      DateLabelsConcat(block, rest);
      assert forall cur :: Labelled(block + rest, cur) == GroupPairs(groups) by {
        forall cur ensures Labelled(block + rest, cur) == GroupPairs(groups) {
          LabelledBlock(g, rest, cur);
        }
      }
      block + rest
  }

  /**
   * The messages shown by message-item rows, each paired with the date of
   * the last date label above it (`cur` before any label).
   */
  function Labelled(rows: seq<Row>, cur: Option<Date>): seq<(Option<Date>, Message)> {
    if rows == [] then []
    else if rows[0].DateLabel? then Labelled(rows[1..], Some(rows[0].date))
    else (if rows[0].Item? then [(cur, rows[0].message)] else []) + Labelled(rows[1..], cur)
  }

  /** Each message paired with the given date label. */
  function Under(d: Option<Date>, ms: seq<Message>): seq<(Option<Date>, Message)> {
    if ms == [] then [] else [(d, ms[0])] + Under(d, ms[1..])
  }

  /** Each message of each group paired with its group's date, in group order. */
  function GroupPairs(groups: seq<MessageGroup>): seq<(Option<Date>, Message)> {
    if groups == [] then []
    else Under(Some(groups[0].date), groups[0].messages) + GroupPairs(groups[1..])
  }

  /** Item rows show their messages under whichever label is current. */
  lemma {:induction false} LabelledItems(g: MessageGroup, k: nat, tail: seq<Row>, cur: Option<Date>)
    requires forall j :: 0 <= j < |g.messages| ==> g.messages[j].account.id in g.accounts
    requires k <= |g.messages|
    ensures Labelled(ItemRows(g)[k..] + tail, cur) == Under(cur, g.messages[k..]) + Labelled(tail, cur)
    decreases |g.messages| - k
  {
    var items := ItemRows(g);
    if k == |g.messages| {
      assert items[k..] + tail == tail;
      assert g.messages[k..] == [];
    } else {
      var rows := items[k..] + tail;
      assert rows[0] == items[k];
      assert rows[1..] == items[k + 1..] + tail;
      LabelledItems(g, k + 1, tail, cur);
      assert g.messages[k..][1..] == g.messages[k + 1..];
      assert Under(cur, g.messages[k..]) == [(cur, g.messages[k])] + Under(cur, g.messages[k + 1..]);
    }
  }

  /** A group's block shows its messages under its own date, then hands that date on. */
  lemma LabelledBlock(g: MessageGroup, rest: seq<Row>, cur: Option<Date>)
    requires forall j :: 0 <= j < |g.messages| ==> g.messages[j].account.id in g.accounts
    ensures Labelled([DateLabel(g.date)] + ItemRows(g) + [GroupSpacer] + rest, cur)
      == Under(Some(g.date), g.messages) + Labelled(rest, Some(g.date))
  {
    var items := ItemRows(g);
    var after := [GroupSpacer] + rest;
    var rows := [DateLabel(g.date)] + items + [GroupSpacer] + rest;
    assert rows[0] == DateLabel(g.date);
    assert rows[1..] == items[0..] + after;
    LabelledItems(g, 0, after, Some(g.date));
    assert g.messages[0..] == g.messages;
    assert after[0] == GroupSpacer;
    assert after[1..] == rest;
  }

  /** The dates of the groups, in order. */
  function GroupDates(groups: seq<MessageGroup>): (dates: seq<Date>)
    ensures |dates| == |groups|
    ensures forall i :: 0 <= i < |groups| ==> dates[i] == groups[i].date
  {
    if groups == [] then []
    else
      assert forall i :: 1 <= i < |groups| ==> groups[i] == groups[1..][i - 1];
      [groups[0].date] + GroupDates(groups[1..])
  }

  /** The dates shown by date-label rows, in order. */
  function DateLabels(rows: seq<Row>): seq<Date> {
    if rows == [] then []
    else (if rows[0].DateLabel? then [rows[0].date] else []) + DateLabels(rows[1..])
  }

  lemma {:induction false} DateLabelsConcat(a: seq<Row>, b: seq<Row>)
    ensures DateLabels(a + b) == DateLabels(a) + DateLabels(b)
  {
    if a == [] {
      assert a + b == b;
    } else {
      var head := if a[0].DateLabel? then [a[0].date] else [];
      assert (a + b)[0] == a[0];
      assert (a + b)[1..] == a[1..] + b;
      assert DateLabels(a + b) == head + DateLabels(a[1..] + b);
      DateLabelsConcat(a[1..], b);
      assert DateLabels(a) == head + DateLabels(a[1..]);
    }
  }

  /** Rows that are not date labels show no date. */
  lemma {:induction false} NoLabels(rows: seq<Row>)
    requires forall i :: 0 <= i < |rows| ==> !rows[i].DateLabel?
    ensures DateLabels(rows) == []
  {
    if rows != [] {
      assert forall i :: 1 <= i < |rows| ==> rows[i] == rows[1..][i - 1];
      NoLabels(rows[1..]);
    }
  }

  /** One group's block of rows shows exactly one date, the group's. */
  lemma GroupBlockLabel(g: MessageGroup)
    requires forall j :: 0 <= j < |g.messages| ==> g.messages[j].account.id in g.accounts
    ensures DateLabels([DateLabel(g.date)] + ItemRows(g) + [GroupSpacer]) == [g.date]
  {
    var items := ItemRows(g);
    NoLabels(items);
    NoLabels([GroupSpacer]);
    DateLabelsConcat([DateLabel(g.date)] + items, [GroupSpacer]);
    DateLabelsConcat([DateLabel(g.date)], items);
    assert DateLabels([DateLabel(g.date)]) == [g.date] + DateLabels([]);
  }

  /** The lazy column's rows, in order. */
  function Rows(state: ListState, t: ToolbarState): (rows: seq<Row>)
    requires AccountsResolvable(state.groups)
    ensures HeaderSpacer in rows <==> !IsNullOrBlank(state.folderName) || !IsNullOrBlank(state.accountName)
    ensures EmptyState in rows <==> !state.isLoading && state.groups == []
    ensures |rows| >= 3
    ensures rows[0] == FolderNameRow(t.shouldShowFolderName, state.folderName.GetOr(""))
    ensures rows[1] == AccountNameRow(t.shouldShowAccountName, state.accountName.GetOr(""))
    ensures rows[|rows| - 1] == LoadingRow(state.isLoading)
  {
    GroupRowsHaveNoHeaders(state.groups);
    HeaderRows(state, t) + GroupRows(state.groups) + [LoadingRow(state.isLoading)]
  }

  /** The two name rows, the spacer when a name is shown, and the empty state when nothing is loading. */
  function HeaderRows(state: ListState, t: ToolbarState): (rows: seq<Row>)
    ensures forall i :: 0 <= i < |rows| ==> !rows[i].Item?
    ensures HeaderSpacer in rows <==> !IsNullOrBlank(state.folderName) || !IsNullOrBlank(state.accountName)
    ensures EmptyState in rows <==> !state.isLoading && state.groups == []
    ensures |rows| >= 2
    ensures rows[0] == FolderNameRow(t.shouldShowFolderName, state.folderName.GetOr(""))
    ensures rows[1] == AccountNameRow(t.shouldShowAccountName, state.accountName.GetOr(""))
  {
    var spacer := if !IsNullOrBlank(state.folderName) || !IsNullOrBlank(state.accountName) then [HeaderSpacer] else [];
    var empty := if !state.isLoading && state.groups == [] then [EmptyState] else [];
    [FolderNameRow(t.shouldShowFolderName, state.folderName.GetOr("")),
     AccountNameRow(t.shouldShowAccountName, state.accountName.GetOr(""))]
    + spacer + empty
  }

  lemma {:induction false} GroupRowsHaveNoHeaders(groups: seq<MessageGroup>)
    requires AccountsResolvable(groups)
    ensures HeaderSpacer !in GroupRows(groups) && EmptyState !in GroupRows(groups)
  {
    if groups != [] {
      assert forall i :: 1 <= i < |groups| ==> groups[i] == groups[1..][i - 1];
      GroupRowsHaveNoHeaders(groups[1..]);
    }
  }

  /** The messages shown by message-item rows, in order. */
  function ItemMessages(rows: seq<Row>): seq<Message> {
    if rows == [] then []
    else (if rows[0].Item? then [rows[0].message] else []) + ItemMessages(rows[1..])
  }

  lemma {:induction false} ItemMessagesConcat(a: seq<Row>, b: seq<Row>)
    ensures ItemMessages(a + b) == ItemMessages(a) + ItemMessages(b)
  {
    if a == [] {
      assert a + b == b;
    } else {
      var head := if a[0].Item? then [a[0].message] else [];
      assert (a + b)[0] == a[0];
      assert (a + b)[1..] == a[1..] + b;
      assert ItemMessages(a + b) == head + ItemMessages(a[1..] + b);
      ItemMessagesConcat(a[1..], b);
      assert ItemMessages(a) == head + ItemMessages(a[1..]);
    }
  }

  lemma {:induction false} ItemRowsShowGroup(g: MessageGroup, k: nat)
    requires forall j :: 0 <= j < |g.messages| ==> g.messages[j].account.id in g.accounts
    requires k <= |g.messages|
    ensures ItemMessages(ItemRows(g)[k..]) == g.messages[k..]
    decreases |g.messages| - k
  {
    if k < |g.messages| {
      ItemRowsShowGroup(g, k + 1);
      assert ItemRows(g)[k..][1..] == ItemRows(g)[k + 1..];
      assert g.messages[k..] == [g.messages[k]] + g.messages[k + 1..];
    }
  }

  /** One group's block of rows shows the group's messages, in order. */
  lemma GroupBlockShowsGroup(g: MessageGroup)
    requires forall j :: 0 <= j < |g.messages| ==> g.messages[j].account.id in g.accounts
    ensures ItemMessages([DateLabel(g.date)] + ItemRows(g) + [GroupSpacer]) == g.messages
  {
    ItemRowsShowGroup(g, 0);
    assert ItemRows(g)[0..] == ItemRows(g);
    ItemMessagesConcat([DateLabel(g.date)] + ItemRows(g), [GroupSpacer]);
    ItemMessagesConcat([DateLabel(g.date)], ItemRows(g));
  }

  /** Rows that are not message items contribute no messages. */
  lemma {:induction false} NoItems(rows: seq<Row>)
    requires forall i :: 0 <= i < |rows| ==> !rows[i].Item?
    ensures ItemMessages(rows) == []
  {
    if rows != [] {
      assert forall i :: 1 <= i < |rows| ==> rows[i] == rows[1..][i - 1];
      NoItems(rows[1..]);
    }
  }

  /**
   * The rendered list shows every message of every group exactly once, in
   * group order; the header rows and the loading row show none.
   */
  lemma RowsShowEveryMessageInOrder(state: ListState, t: ToolbarState)
    requires AccountsResolvable(state.groups)
    ensures ItemMessages(Rows(state, t)) == MessageGroups.Messages(state.groups)
  {
    var head := HeaderRows(state, t);
    var body := GroupRows(state.groups);
    var tail := [LoadingRow(state.isLoading)];
    NoItems(head);
    NoItems(tail);
    ItemMessagesConcat(head + body, tail);
    ItemMessagesConcat(head, body);
  }

  /** Rows without message items pair no message with any label. */
  lemma {:induction false} NoLabelledItems(rows: seq<Row>, cur: Option<Date>)
    requires forall i :: 0 <= i < |rows| ==> !rows[i].Item?
    ensures Labelled(rows, cur) == []
  {
    if rows != [] {
      assert forall i :: 1 <= i < |rows| ==> rows[i] == rows[1..][i - 1];
      NoLabelledItems(rows[1..], if rows[0].DateLabel? then Some(rows[0].date) else cur);
    }
  }

  /** Rows that are neither labels nor items leave the labelling of what follows alone. */
  lemma {:induction false} LabelledSkipsPlainRows(a: seq<Row>, b: seq<Row>, cur: Option<Date>)
    requires forall i :: 0 <= i < |a| ==> !a[i].Item? && !a[i].DateLabel?
    ensures Labelled(a + b, cur) == Labelled(b, cur)
  {
    if a == [] {
      assert a + b == b;
    } else {
      assert (a + b)[0] == a[0];
      assert (a + b)[1..] == a[1..] + b;
      assert forall i :: 1 <= i < |a| ==> a[i] == a[1..][i - 1];
      LabelledSkipsPlainRows(a[1..], b, cur);
    }
  }

  /** Trailing rows without items add nothing to the labelling. */
  lemma {:induction false} LabelledIgnoresTrailer(a: seq<Row>, b: seq<Row>, cur: Option<Date>)
    requires forall i :: 0 <= i < |b| ==> !b[i].Item?
    ensures Labelled(a + b, cur) == Labelled(a, cur)
  {
    if a == [] {
      assert a + b == b;
      NoLabelledItems(b, cur);
    } else {
      var next := if a[0].DateLabel? then Some(a[0].date) else cur;
      assert (a + b)[0] == a[0];
      assert (a + b)[1..] == a[1..] + b;
      LabelledIgnoresTrailer(a[1..], b, next);
    }
  }

  /**
   * On the rendered screen every message sits under its own day's date
   * label, group by group; the header and loading rows show no message.
   */
  lemma RowsShowMessagesUnderTheirDay(state: ListState, t: ToolbarState, cur: Option<Date>)
    requires AccountsResolvable(state.groups)
    ensures Labelled(Rows(state, t), cur) == GroupPairs(state.groups)
  {
    var head := HeaderRows(state, t);
    var body := GroupRows(state.groups);
    var tail := [LoadingRow(state.isLoading)];
    assert Rows(state, t) == head + (body + tail);
    LabelledSkipsPlainRows(head, body + tail, cur);
    LabelledIgnoresTrailer(body, tail, cur);
  }

  /**
   * After the messages are loaded, the screen lists them exactly once each,
   * newest first.
   */
  lemma LoadedListShowsMessagesNewestFirst(state: ListState, messages: seq<Message>, t: ToolbarState)
    ensures AccountsResolvable(MessageListViewModel.OnGroupsLoaded(state, messages).groups)
    ensures ItemMessages(Rows(MessageListViewModel.OnGroupsLoaded(state, messages), t)) == MessageGroups.SortDescending(messages)
  {
    var loaded := MessageListViewModel.OnGroupsLoaded(state, messages);
    CreatedGroupsAreResolvable(messages);
    RowsShowEveryMessageInOrder(loaded, t);
    MessageGroups.CreateMessageGroupsFlatten(messages);
  }
}
