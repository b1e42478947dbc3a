/**
 * `createMessageGroups`: the messages sorted by date-time, newest first,
 * grouped by local date, each group carrying the accounts of its messages.
 *
 * The sort is stable (Kotlin's `sortedByDescending`), grouping follows
 * `groupBy` into a `LinkedHashMap` (keys in order of first occurrence, each
 * group in input order), and the account map follows `associate`, where a
 * later pair overwrites an earlier one with the same key.
 */
module MessageGroups {
  import opened MessageModel

  /* ---------------- sorting ---------------- */

  /** Newest first: no message is later than one before it. */
  ghost predicate SortedDescending(ms: seq<Message>) {
    forall i, j :: 0 <= i < j < |ms| ==> !Later(ms[j].dateTime, ms[i].dateTime)
  }

  /**
   * Inserts `x` into a newest-first sequence, before every message that is
   * not later than it; that keeps the sort stable.
   */
  function Insert(x: Message, ms: seq<Message>): (r: seq<Message>)
    ensures |r| == |ms| + 1
    ensures multiset(r) == multiset(ms) + multiset{x}
  {
    if ms == [] || !Later(ms[0].dateTime, x.dateTime) then
      [x] + ms
    else
      assert ms == [ms[0]] + ms[1..];
      [ms[0]] + Insert(x, ms[1..])
  }

  /** Inserting keeps a newest-first sequence newest first. */
  lemma {:induction false} InsertKeepsSorted(x: Message, ms: seq<Message>)
    requires SortedDescending(ms)
    ensures SortedDescending(Insert(x, ms))
  {
    if ms == [] || !Later(ms[0].dateTime, x.dateTime) {
      var r := [x] + ms;
      forall j | 0 < j < |r|
        ensures !Later(r[j].dateTime, r[0].dateTime)
      {
        assert r[j] == ms[j - 1];
        assert !Later(ms[j - 1].dateTime, ms[0].dateTime);
      }
    } else {
      var tail := Insert(x, ms[1..]);
      InsertKeepsSorted(x, ms[1..]);
      var r := [ms[0]] + tail;
      forall j | 0 < j < |r|
        ensures !Later(r[j].dateTime, r[0].dateTime)
      {
        var y := r[j];
        assert y in multiset(tail);
        assert y == x || y in multiset(ms[1..]);
        if y != x {
          var k :| 1 <= k < |ms| && ms[k] == y;
          assert ms[1..][k - 1] == y;
        }
      }
    }
  }

  /** `sortedByDescending { it.dateTime }`, as a stable insertion sort. */
  function SortDescending(ms: seq<Message>): (r: seq<Message>)
    ensures multiset(r) == multiset(ms)
    ensures SortedDescending(r)
  {
    if ms == [] then []
    else
      assert ms == [ms[0]] + ms[1..];
      InsertKeepsSorted(ms[0], SortDescending(ms[1..]));
      Insert(ms[0], SortDescending(ms[1..]))
  }

  /* ---------------- grouping ---------------- */

  /** Every message of `ms` is dated `d`. */
  ghost predicate AllOn(ms: seq<Message>, d: Date) {
    forall i :: 0 <= i < |ms| ==> ms[i].dateTime.date == d
  }

  /** No message of `ms` is dated `d`. */
  ghost predicate NoneOn(ms: seq<Message>, d: Date) {
    forall i :: 0 <= i < |ms| ==> ms[i].dateTime.date != d
  }

  /** The messages of date `d`, in order. */
  function OnDate(ms: seq<Message>, d: Date): (r: seq<Message>)
    ensures AllOn(r, d)
    ensures |r| <= |ms|
    ensures ms != [] && ms[0].dateTime.date == d ==> r != [] && r[0] == ms[0]
  {
    if ms == [] then []
    else if ms[0].dateTime.date == d then [ms[0]] + OnDate(ms[1..], d)
    else OnDate(ms[1..], d)
  }

  /** The messages of any other date, in order. */
  function NotOnDate(ms: seq<Message>, d: Date): (r: seq<Message>)
    ensures NoneOn(r, d)
    ensures |r| <= |ms|
    ensures ms != [] && ms[0].dateTime.date == d ==> |r| < |ms|
  {
    if ms == [] then []
    else if ms[0].dateTime.date == d then NotOnDate(ms[1..], d)
    else [ms[0]] + NotOnDate(ms[1..], d)
  }

  function Concat(gs: seq<(Date, seq<Message>)>): seq<Message> {
    if gs == [] then [] else gs[0].1 + Concat(gs[1..])
  }

  /**
   * `groupBy { it.dateTime.date }` as an ordered list of entries: the first
   * key is the date of the first message and its group holds every message
   * of that date; the remaining keys come from the remaining messages.
   */
  function GroupByDate(ms: seq<Message>): (r: seq<(Date, seq<Message>)>)
    decreases |ms|
    ensures |r| <= |ms|
    ensures r == [] <==> ms == []
    ensures r != [] ==> r[0].0 == ms[0].dateTime.date && r[0].1 != [] && r[0].1[0] == ms[0]
  {
    if ms == [] then []
    else
      var d := ms[0].dateTime.date;
      [(d, OnDate(ms, d))] + GroupByDate(NotOnDate(ms, d))
  }

  /** Every group is non-empty and holds only messages of its own date. */
  lemma {:induction false} GroupsHoldTheirDate(ms: seq<Message>)
    decreases |ms|
    ensures forall i :: 0 <= i < |GroupByDate(ms)| ==> GroupByDate(ms)[i].1 != []
    ensures forall i :: 0 <= i < |GroupByDate(ms)| ==> AllOn(GroupByDate(ms)[i].1, GroupByDate(ms)[i].0)
  {
    if ms != [] {
      var d := ms[0].dateTime.date;
      var rest := NotOnDate(ms, d);
      GroupsHoldTheirDate(rest);
      var r := GroupByDate(ms);
      assert r == [(d, OnDate(ms, d))] + GroupByDate(rest);
      assert forall i :: 1 <= i < |r| ==> r[i] == GroupByDate(rest)[i - 1];
    }
  }

  /** Splitting by a date loses and duplicates nothing. */
  lemma {:induction false} SplitByDatePartitions(ms: seq<Message>, d: Date)
    ensures multiset(OnDate(ms, d)) + multiset(NotOnDate(ms, d)) == multiset(ms)
  {
    if ms != [] {
      SplitByDatePartitions(ms[1..], d);
      assert ms == [ms[0]] + ms[1..];
    }
  }

  /** Every input message lands in exactly one group, as often as it occurs. */
  lemma {:induction false} GroupsPartitionInput(ms: seq<Message>)
    decreases |ms|
    ensures multiset(Concat(GroupByDate(ms))) == multiset(ms)
  {
    if ms != [] {
      var d := ms[0].dateTime.date;
      GroupsPartitionInput(NotOnDate(ms, d));
      SplitByDatePartitions(ms, d);
      assert GroupByDate(ms) == [(d, OnDate(ms, d))] + GroupByDate(NotOnDate(ms, d));
    }
  }

  lemma {:induction false} NotOnDateKeepsAbsence(ms: seq<Message>, d: Date, e: Date)
    requires NoneOn(ms, e)
    ensures NoneOn(NotOnDate(ms, d), e)
  {
    if ms != [] {
      NotOnDateKeepsAbsence(ms[1..], d, e);
    }
  }

  /** A date no message carries keys no group. */
  lemma {:induction false} GroupKeysAvoid(ms: seq<Message>, e: Date)
    requires NoneOn(ms, e)
    decreases |ms|
    ensures forall j :: 0 <= j < |GroupByDate(ms)| ==> GroupByDate(ms)[j].0 != e
  {
    if ms != [] {
      var d := ms[0].dateTime.date;
      NotOnDateKeepsAbsence(ms, d, e);
      GroupKeysAvoid(NotOnDate(ms, d), e);
      assert GroupByDate(ms) == [(d, OnDate(ms, d))] + GroupByDate(NotOnDate(ms, d));
    }
  }

  /** No date keys two groups. */
  lemma {:induction false} GroupKeysDistinct(ms: seq<Message>)
    decreases |ms|
    ensures forall i, j :: 0 <= i < j < |GroupByDate(ms)| ==> GroupByDate(ms)[i].0 != GroupByDate(ms)[j].0
  {
    if ms != [] {
      var d := ms[0].dateTime.date;
      var rest := NotOnDate(ms, d);
      GroupKeysDistinct(rest);
      GroupKeysAvoid(rest, d);
      var r := GroupByDate(ms);
      assert r == [(d, OnDate(ms, d))] + GroupByDate(rest);
      assert forall j :: 1 <= j < |r| ==> r[j] == GroupByDate(rest)[j - 1];
    }
  }

  /** Dates never increase along `ms`. */
  ghost predicate DatesNonIncreasing(ms: seq<Message>) {
    forall i, j :: 0 <= i < j < |ms| ==> ms[j].dateTime.date <= ms[i].dateTime.date
  }

  lemma SortedHasNonIncreasingDates(ms: seq<Message>)
    requires SortedDescending(ms)
    ensures DatesNonIncreasing(ms)
  {
    forall i, j | 0 <= i < j < |ms|
      ensures ms[j].dateTime.date <= ms[i].dateTime.date
    {
      assert !Later(ms[j].dateTime, ms[i].dateTime);
    }
  }

  /** Every message of `ms` is dated before `d`. */
  ghost predicate AllBefore(ms: seq<Message>, d: Date) {
    forall i :: 0 <= i < |ms| ==> ms[i].dateTime.date < d
  }

  /** No message of `ms` is dated after `d`. */
  ghost predicate NoneAfter(ms: seq<Message>, d: Date) {
    forall i :: 0 <= i < |ms| ==> ms[i].dateTime.date <= d
  }

  lemma {:induction false} NoneOnDate(ms: seq<Message>, d: Date)
    requires AllBefore(ms, d)
    ensures OnDate(ms, d) == [] && NotOnDate(ms, d) == ms
  {
    if ms != [] {
      assert AllBefore(ms[1..], d) by {
        assert forall i :: 1 <= i < |ms| ==> ms[i] == ms[1..][i - 1];
      }
      NoneOnDate(ms[1..], d);
      assert ms == [ms[0]] + ms[1..];
    }
  }

  lemma SuffixKeepsOrder(ms: seq<Message>, k: nat)
    requires DatesNonIncreasing(ms) && k <= |ms|
    ensures DatesNonIncreasing(ms[k..])
  {
    assert forall i :: 0 <= i < |ms| - k ==> ms[k..][i] == ms[k + i];
  }

  /**
   * In a sequence with non-increasing dates, the messages of the first date
   * form a prefix, so splitting by that date cuts the sequence in two.
   */
  lemma {:induction false} SplitAtFirstDate(ms: seq<Message>, d: Date)
    requires DatesNonIncreasing(ms)
    requires NoneAfter(ms, d)
    ensures OnDate(ms, d) + NotOnDate(ms, d) == ms
    ensures AllBefore(NotOnDate(ms, d), d)
  {
    if ms == [] {
    } else if ms[0].dateTime.date == d {
      var tail := ms[1..];
      SuffixKeepsOrder(ms, 1);
      assert NoneAfter(tail, d) by {
        assert forall i :: 1 <= i < |ms| ==> ms[i] == tail[i - 1];
      }
      SplitAtFirstDate(tail, d);
      assert OnDate(ms, d) == [ms[0]] + OnDate(tail, d);
      assert ms == [ms[0]] + tail;
    } else {
      assert AllBefore(ms, d);
      NoneOnDate(ms, d);
    }
  }

  /** After the first date's messages, the rest of a date-ordered sequence is still date-ordered. */
  lemma RestAfterFirstDateOrdered(ms: seq<Message>, d: Date)
    requires DatesNonIncreasing(ms)
    requires NoneAfter(ms, d)
    ensures AllBefore(NotOnDate(ms, d), d)
    ensures DatesNonIncreasing(NotOnDate(ms, d))
  {
    SplitAtFirstDate(ms, d);
    var k := |OnDate(ms, d)|;
    assert NotOnDate(ms, d) == ms[k..];
    SuffixKeepsOrder(ms, k);
  }

  /**
   * For newest-first input the groups are the maximal runs of one date:
   * concatenating them gives the input back.
   */
  lemma {:induction false} GroupsOfSortedConcatenate(ms: seq<Message>)
    requires DatesNonIncreasing(ms)
    decreases |ms|
    ensures Concat(GroupByDate(ms)) == ms
  {
    if ms != [] {
      var d := ms[0].dateTime.date;
      SplitAtFirstDate(ms, d);
      RestAfterFirstDateOrdered(ms, d);
      var tail := NotOnDate(ms, d);
      GroupsOfSortedConcatenate(tail);
      assert GroupByDate(ms) == [(d, OnDate(ms, d))] + GroupByDate(tail);
    }
  }

  lemma {:induction false} NotOnDateKeepsBound(ms: seq<Message>, d: Date, e: Date)
    requires AllBefore(ms, e)
    ensures AllBefore(NotOnDate(ms, d), e)
  {
    if ms != [] {
      NotOnDateKeepsBound(ms[1..], d, e);
    }
  }

  /** Groups of messages all dated before `e` have keys before `e`. */
  lemma {:induction false} GroupKeysBefore(ms: seq<Message>, e: Date)
    requires AllBefore(ms, e)
    decreases |ms|
    ensures forall j :: 0 <= j < |GroupByDate(ms)| ==> GroupByDate(ms)[j].0 < e
  {
    if ms != [] {
      var d := ms[0].dateTime.date;
      NotOnDateKeepsBound(ms, d, e);
      GroupKeysBefore(NotOnDate(ms, d), e);
      assert GroupByDate(ms) == [(d, OnDate(ms, d))] + GroupByDate(NotOnDate(ms, d));
    }
  }

  /** For newest-first input the group dates strictly decrease. */
  lemma {:induction false} GroupDatesOfSortedDecrease(ms: seq<Message>)
    requires DatesNonIncreasing(ms)
    decreases |ms|
    ensures forall i, j :: 0 <= i < j < |GroupByDate(ms)| ==> GroupByDate(ms)[i].0 > GroupByDate(ms)[j].0
  {
    if ms != [] {
      var d := ms[0].dateTime.date;
      RestAfterFirstDateOrdered(ms, d);
      var tail := NotOnDate(ms, d);
      GroupDatesOfSortedDecrease(tail);
      GroupKeysBefore(tail, d);
      assert GroupByDate(ms) == [(d, OnDate(ms, d))] + GroupByDate(tail);
    }
  }

  /* ---------------- account map ---------------- */

  /** `associate { it.account.id to it.account }`: a later message's account wins. */
  function AccountsById(ms: seq<Message>): (r: map<string, UserAccount>)
    ensures r.Keys == set m | m in ms :: m.account.id
    ensures forall k :: k in r ==> r[k].id == k
    ensures forall k :: k in r ==> exists m :: m in ms && m.account == r[k]
  {
    if ms == [] then map[]
    else
      var last := ms[|ms| - 1];
      var init := ms[..|ms| - 1];
      assert ms == init + [last];
      AccountsById(init)[last.account.id := last.account]
  }

  /** The value for an id is the account of the last message with that id. */
  lemma {:induction false} AccountsByIdLastWins(ms: seq<Message>, i: int)
    requires 0 <= i < |ms|
    requires forall j :: i < j < |ms| ==> ms[j].account.id != ms[i].account.id
    ensures AccountsById(ms)[ms[i].account.id] == ms[i].account
  {
    if i < |ms| - 1 {
      AccountsByIdLastWins(ms[..|ms| - 1], i);
    }
  }

  /* ---------------- the groups ---------------- */

  /** `accounts` is an account map of `ms`: keyed by account id, each entry one of their accounts. */
  ghost predicate AccountsOf(accounts: map<string, UserAccount>, ms: seq<Message>) {
    && accounts.Keys == (set m | m in ms :: m.account.id)
    && (forall k :: k in accounts ==> accounts[k].id == k)
    && (forall k :: k in accounts ==> exists m :: m in ms && m.account == accounts[k])
  }

  /** One group per entry, with the entry's date and messages and an account map of those messages. */
  function ToMessageGroups(entries: seq<(Date, seq<Message>)>): (gs: seq<MessageGroup>)
    ensures |gs| == |entries|
    ensures forall i :: 0 <= i < |gs| ==> gs[i].date == entries[i].0 && gs[i].messages == entries[i].1
    ensures forall i :: 0 <= i < |gs| ==> AccountsOf(gs[i].accounts, entries[i].1)
  {
    seq(|entries|, i requires 0 <= i < |entries| => MessageGroup(entries[i].0, entries[i].1, AccountsById(entries[i].1)))
  }

  function Messages(gs: seq<MessageGroup>): seq<Message> {
    if gs == [] then [] else gs[0].messages + Messages(gs[1..])
  }

  lemma {:induction false} MessagesOfGroups(entries: seq<(Date, seq<Message>)>)
    ensures Messages(ToMessageGroups(entries)) == Concat(entries)
  {
    if entries != [] {
      MessagesOfGroups(entries[1..]);
      assert ToMessageGroups(entries)[1..] == ToMessageGroups(entries[1..]);
    }
  }

  /** A group as the view expects it. */
  ghost predicate GroupWellFormed(g: MessageGroup) {
    && g.messages != []
    && AllOn(g.messages, g.date)
    && AccountsOf(g.accounts, g.messages)
  }

  /** `createMessageGroups`: no more groups than messages, and none exactly when there are no messages. */
  function CreateMessageGroups(ms: seq<Message>): (gs: seq<MessageGroup>)
    ensures |gs| <= |ms|
    ensures gs == [] <==> ms == []
  {
    var sorted := SortDescending(ms);
    assert |sorted| == |multiset(sorted)| == |multiset(ms)| == |ms|;
    ToMessageGroups(GroupByDate(sorted))
  }

  /**
   * Reading the groups in order gives the input sorted newest first, hence a
   * permutation of it.
   */
  lemma CreateMessageGroupsFlatten(ms: seq<Message>)
    ensures Messages(CreateMessageGroups(ms)) == SortDescending(ms)
    ensures multiset(Messages(CreateMessageGroups(ms))) == multiset(ms)
    ensures SortedDescending(Messages(CreateMessageGroups(ms)))
  {
    var sorted := SortDescending(ms);
    SortedHasNonIncreasingDates(sorted);
    GroupsOfSortedConcatenate(sorted);
    MessagesOfGroups(GroupByDate(sorted));
  }

  /**
   * Every group is well formed (non-empty, one date, accounts of its own
   * messages) and group dates strictly decrease, so they are distinct.
   */
  lemma CreateMessageGroupsShape(ms: seq<Message>)
    ensures forall i :: 0 <= i < |CreateMessageGroups(ms)| ==> GroupWellFormed(CreateMessageGroups(ms)[i])
    ensures forall i, j :: 0 <= i < j < |CreateMessageGroups(ms)| ==>
      CreateMessageGroups(ms)[i].date > CreateMessageGroups(ms)[j].date
  {
    var sorted := SortDescending(ms);
    SortedHasNonIncreasingDates(sorted);
    GroupDatesOfSortedDecrease(sorted);
    GroupsHoldTheirDate(sorted);
    var entries := GroupByDate(sorted);
    var gs := CreateMessageGroups(ms);
    forall i | 0 <= i < |gs|
      ensures GroupWellFormed(gs[i])
    {
      assert gs[i].date == entries[i].0 && gs[i].messages == entries[i].1;
    }
  }
}
