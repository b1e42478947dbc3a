/**
 * The message-list domain records and the text predicates the views use.
 *
 * A message's local date-time is abstracted to a pair (date, time of day)
 * compared lexicographically, which is how a local date-time orders; the
 * conversion from epoch milliseconds in the system time zone is not modelled.
 */
module MessageModel {
  import opened Wrappers

  /** An ARGB colour; `Transparent` is the all-zero value. */
  datatype Color = Color(argb: int)

  const Transparent: Color := Color(0)

  /** A local date, as a day number. */
  type Date = int

  datatype DateTime = DateTime(date: Date, timeOfDay: int)

  /** Strictly later in local time. */
  predicate Later(a: DateTime, b: DateTime) {
    a.date > b.date || (a.date == b.date && a.timeOfDay > b.timeOfDay)
  }

  datatype UserAccount = UserAccount(id: string, name: string, email: string, color: Color)

  datatype MessageIdentity = MessageIdentity(email: string, color: Color, avatarUrl: Option<string>)

  datatype Message = Message(
    account: UserAccount,
    subject: string,
    contentPreview: string,
    dateTime: DateTime,
    from: seq<MessageIdentity>,
    recipients: seq<MessageIdentity>,
    read: bool,
    threadCount: int,
    starred: bool
  )

  /** The messages of one day, with the accounts they belong to keyed by account id. */
  datatype MessageGroup = MessageGroup(date: Date, messages: seq<Message>, accounts: map<string, UserAccount>)

  /**
   * Kotlin's `Char.isWhitespace`: the JDK's `isWhitespace` or `isSpaceChar`,
   * i.e. the ASCII controls TAB to CR and FS to US, and the Unicode space,
   * line and paragraph separators.
   */
  predicate IsWhitespace(c: char) {
    var n := c as int;
    || 0x09 <= n <= 0x0D
    || 0x1C <= n <= 0x20
    || n == 0xA0 || n == 0x1680
    || 0x2000 <= n <= 0x200A
    || n == 0x2028 || n == 0x2029 || n == 0x202F || n == 0x205F || n == 0x3000
  }

  /** `isBlank`: empty or whitespace only. */
  predicate IsBlank(s: string) {
    forall i :: 0 <= i < |s| ==> IsWhitespace(s[i])
  }

  /** `isNullOrBlank`, which is also `orEmpty().isBlank()`. */
  predicate IsNullOrBlank(s: Option<string>) {
    s.None? || IsBlank(s.value)
  }

  /**
   * The message-list screen state: the fields the view model writes and the
   * view reads (the drawer's selection is flattened into it).
   */
  datatype ListState = ListState(
    isLoading: bool,
    folderName: Option<string>,
    accountName: Option<string>,
    showAccountColorIndicator: bool,
    groups: seq<MessageGroup>,
    selectedAccountUuid: Option<string>
  )
}
