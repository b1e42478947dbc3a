/**
 * The display rules of one message item: the important label and star, the
 * attachment chips with their icons and the overflow label, and the avatar.
 */
module MessageItem {
  import opened Wrappers
  import opened MessageModel

  /* ---------------- decimal text ---------------- */

  /** `Int.MAX_VALUE`; a Kotlin list's size never exceeds it. */
  const IntMax: int := 0x7FFF_FFFF

  predicate IsDigit(c: char) {
    '0' <= c <= '9'
  }

  function DigitChar(d: int): (c: char)
    requires 0 <= d < 10
    ensures IsDigit(c) && c as int - '0' as int == d
  {
    (d + '0' as int) as char
  }

  /** The decimal text of `n`, as string templates print an `Int`. */
  function DecimalString(n: nat): (s: string)
    ensures |s| >= 1 && forall i :: 0 <= i < |s| ==> IsDigit(s[i])
    ensures n > 0 ==> s[0] != '0'
  {
    if n < 10 then [DigitChar(n)] else DecimalString(n / 10) + [DigitChar(n % 10)]
  }

  /** Reference reading of a digit string. */
  function DecimalValue(s: string): nat
    requires forall i :: 0 <= i < |s| ==> IsDigit(s[i])
  {
    if s == [] then 0
    else
      assert IsDigit(s[|s| - 1]);
      DecimalValue(s[..|s| - 1]) * 10 + (s[|s| - 1] as int - '0' as int)
  }

  /** Printing then reading a count gives the count back. */
  lemma {:induction false} DecimalRoundTrip(n: nat)
    ensures DecimalValue(DecimalString(n)) == n
  {
    if n >= 10 {
      DecimalRoundTrip(n / 10);
      var s := DecimalString(n);
      assert s[..|s| - 1] == DecimalString(n / 10);
    }
  }

  /* ---------------- attachments ---------------- */

  datatype AttachmentType = Document | Image | Pdf | Other

  datatype Attachment = Attachment(name: string, attachmentType: AttachmentType)

  datatype Icon = DocumentIcon | ImageIcon | PdfIcon | AttachmentIcon

  /** The chip icon; the generic attachment icon is kept for types without one of their own. */
  function IconFor(t: AttachmentType): (icon: Icon)
    ensures icon == AttachmentIcon <==> t == Other
  {
    match t
    case Document => DocumentIcon
    case Image => ImageIcon
    case Pdf => PdfIcon
    case Other => AttachmentIcon
  }

  /** Each attachment type has an icon of its own. */
  lemma IconForInjective(a: AttachmentType, b: AttachmentType)
    ensures IconFor(a) == IconFor(b) <==> a == b
  {
  }

  const MaxDisplayableAttachments: int := 2

  /** `attachments.take(MAX_DISPLAYABLE_ATTACHMENTS)`. */
  function DisplayableAttachments(attachments: seq<Attachment>): (shown: seq<Attachment>)
    ensures |shown| <= MaxDisplayableAttachments && |shown| <= |attachments|
    ensures shown == attachments[..|shown|]
    ensures |attachments| <= MaxDisplayableAttachments ==> shown == attachments
  {
    if |attachments| <= MaxDisplayableAttachments then attachments else attachments[..MaxDisplayableAttachments]
  }

  /** The label after the chips: the number of attachments not shown, capped at "+ >1K". */
  function OverflowLabel(attachments: seq<Attachment>): (text: Option<string>)
    requires |attachments| <= IntMax
    ensures text.Some? <==> |attachments| > MaxDisplayableAttachments
    ensures text.Some? && |attachments| - MaxDisplayableAttachments >= 1000 ==> text.value == "+ >1K"
    ensures text.Some? && |attachments| - MaxDisplayableAttachments < 1000 ==>
      && |text.value| >= 2 && text.value[0] == '+'
      && (forall i :: 1 <= i < |text.value| ==> IsDigit(text.value[i]))
      && DecimalValue(text.value[1..]) == |attachments| - MaxDisplayableAttachments
      && text.value[1] != '0'
  {
    if |attachments| > MaxDisplayableAttachments then
      var extra := |attachments| - MaxDisplayableAttachments;
      if 1000 <= extra <= IntMax then Some("+ >1K")
      else
        DecimalRoundTrip(extra);
        var s := "+" + DecimalString(extra);
        assert s[1..] == DecimalString(extra);
        Some(s)
    else None
  }

  /** The chips and the overflow count together account for every attachment. */
  lemma ChipsAndOverflowCoverAll(attachments: seq<Attachment>)
    requires |attachments| <= IntMax
    ensures var shown := DisplayableAttachments(attachments);
      |shown| + (if OverflowLabel(attachments).Some? then |attachments| - MaxDisplayableAttachments else 0) == |attachments|
  {
  }

  /* ---------------- the item ---------------- */

  datatype Chip = Chip(icon: Icon, name: string)

  datatype AttachmentRow = AttachmentRow(chips: seq<Chip>, overflow: Option<string>)

  /** What the item shows besides its texts. */
  datatype ItemDecorations = ItemDecorations(importantLabel: bool, starFilled: bool, attachmentRow: Option<AttachmentRow>)

  function Decorations(favourite: bool, important: bool, attachments: seq<Attachment>): (d: ItemDecorations)
    requires |attachments| <= IntMax
    ensures d.importantLabel <==> important
    ensures d.starFilled <==> favourite
    ensures d.attachmentRow.Some? <==> attachments != []
    ensures d.attachmentRow.Some? ==>
      && |d.attachmentRow.value.chips| == |DisplayableAttachments(attachments)|
      && (forall i :: 0 <= i < |d.attachmentRow.value.chips| ==>
            d.attachmentRow.value.chips[i] == Chip(IconFor(attachments[i].attachmentType), attachments[i].name))
      && d.attachmentRow.value.overflow == OverflowLabel(attachments)
  {
    var row :=
      if attachments == [] then None
      else
        var shown := DisplayableAttachments(attachments);
        var chips := seq(|shown|, i requires 0 <= i < |shown| => Chip(IconFor(shown[i].attachmentType), shown[i].name));
        Some(AttachmentRow(chips, OverflowLabel(attachments)));
    ItemDecorations(important, favourite, row)
  }

  /* ---------------- avatar ---------------- */

  datatype MessageAccount = MessageAccount(email: string, color: Color, avatarUrl: Option<string>)

  datatype AvatarContent = CheckIcon | Initial(text: string) | RemoteImage(url: string)

  /** `Char.uppercase()` for ASCII letters; other characters are kept. */
  function UppercaseChar(c: char): (s: string)
    ensures |s| == 1
    ensures 'a' <= c <= 'z' ==> 'A' <= s[0] <= 'Z' && s[0] as int - 'A' as int == c as int - 'a' as int
    ensures !('a' <= c <= 'z') ==> s == [c]
  {
    if 'a' <= c <= 'z' then [(c as int - 32) as char] else [c]
  }

  /**
   * The avatar: a check mark when selected, otherwise the remote image when
   * there is a non-blank URL, otherwise the email's first character in upper
   * case, which needs a non-empty email.
   */
  function Avatar(account: MessageAccount, selected: bool): (a: AvatarContent)
    requires selected || !IsNullOrBlank(account.avatarUrl) || |account.email| > 0
    ensures a == CheckIcon <==> selected
    ensures a.RemoteImage? <==> !selected && !IsNullOrBlank(account.avatarUrl)
    ensures a.Initial? <==> !selected && IsNullOrBlank(account.avatarUrl)
    ensures a.RemoteImage? ==> Some(a.url) == account.avatarUrl
    ensures a.Initial? ==> a.text == UppercaseChar(account.email[0])
  {
    if selected then CheckIcon
    else if IsNullOrBlank(account.avatarUrl) then Initial(UppercaseChar(account.email[0]))
    else RemoteImage(account.avatarUrl.value)
  }
}
