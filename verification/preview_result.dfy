/**
 * PreviewResult: a tagged preview of a message body. Only the four factories
 * build values (the constructor is private), so the stored text is present
 * exactly when the tag is TEXT.
 */
module PreviewResults {
  import opened Wrappers

  datatype PreviewType = NONE | TEXT | ENCRYPTED | ERROR

  datatype PreviewResult = PreviewResult(previewType: PreviewType, storedText: Option<string>)
  {
    /** The invariant the factories establish. */
    predicate WellFormed() {
      storedText.Some? <==> previewType == TEXT
    }

    predicate IsPreviewTextAvailable() {
      previewType == TEXT
    }

    /** Reading the text checks availability and presence, failing otherwise. */
    function PreviewText(): (s: string)
      requires IsPreviewTextAvailable() && storedText.Some?
      ensures storedText == Some(s)
    {
      storedText.value
    }
  }

  function Text(previewText: string): (p: PreviewResult)
    ensures p.previewType == TEXT && p.IsPreviewTextAvailable() && p.WellFormed()
    ensures p.PreviewText() == previewText
  {
    PreviewResult(TEXT, Some(previewText))
  }

  function Encrypted(): (p: PreviewResult)
    ensures p.previewType == ENCRYPTED && !p.IsPreviewTextAvailable() && p.WellFormed()
  {
    PreviewResult(ENCRYPTED, None)
  }

  function NoPreview(): (p: PreviewResult)
    ensures p.previewType == NONE && !p.IsPreviewTextAvailable() && p.WellFormed()
  {
    PreviewResult(NONE, None)
  }

  function Error(): (p: PreviewResult)
    ensures p.previewType == ERROR && !p.IsPreviewTextAvailable() && p.WellFormed()
  {
    PreviewResult(ERROR, None)
  }

  /** The values the factories can produce. */
  ghost predicate FromFactory(p: PreviewResult) {
    (exists s :: p == Text(s)) || p == Encrypted() || p == NoPreview() || p == Error()
  }

  /**
   * Every factory-made value is well formed and, conversely, every
   * well-formed value is factory-made; so for such values availability alone
   * suffices to read the text.
   */
  lemma FactoryValuesAreWellFormed(p: PreviewResult)
    ensures FromFactory(p) <==> p.WellFormed()
    ensures FromFactory(p) && p.IsPreviewTextAvailable() ==> p.storedText.Some?
  {
    if p.WellFormed() {
      match p.previewType
      case TEXT => assert p == Text(p.storedText.value);
      case NONE => assert p == NoPreview();
      case ENCRYPTED => assert p == Encrypted();
      case ERROR => assert p == Error();
    }
  }
}
