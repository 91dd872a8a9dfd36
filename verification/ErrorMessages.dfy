/** backend/app/utils/error_messages.py: the text stored on a failed job. */
module ErrorMessages {
  import opened PythonText

  const MAX_ERROR_MESSAGE_LEN := 500

  const MOOV_MARKER := "moov atom not found"
  const INPUT_MARKER := "invalid data found when processing input"
  const INVALID_VIDEO := "Invalid video file:"
  const MOOV_MESSAGE := INVALID_VIDEO + " moov atom not found"
  const INPUT_MESSAGE := INVALID_VIDEO + " FFmpeg could not parse input"

  /** An exception as the sanitiser sees it: is it a ProcessingError, and what is its `str()`? */
  datatype Failure = ProcessingError(text: string) | OtherError(text: string)

  predicate HasMarker(text: string) {
    Contains(Lower(text), MOOV_MARKER) || Contains(Lower(text), INPUT_MARKER)
  }

  function TruncateSafe(text: string): string {
    var single := Join(Split(text));
    if single == "" then "Processing failed"
    else if |single| <= MAX_ERROR_MESSAGE_LEN then single
    else single[..MAX_ERROR_MESSAGE_LEN - 3] + "..."
  }

  function SanitizeProcessingErrorMessage(text: string): string {
    if Contains(Lower(text), MOOV_MARKER) then MOOV_MESSAGE
    else if Contains(Lower(text), INPUT_MARKER) then INPUT_MESSAGE
    else TruncateSafe(text)
  }

  function SanitizeErrorMessage(failure: Failure): string {
    match failure
    case ProcessingError(text) => SanitizeProcessingErrorMessage(text)
    case OtherError(text) => TruncateSafe(text)
  }

  /** What the API promises of a stored message. */
  predicate Presentable(message: string) {
    0 < |message| <= MAX_ERROR_MESSAGE_LEN && Collapsed(message)
  }

  lemma EmptyMessageIsPresentable()
    ensures Presentable("Processing failed")
  {
    assert forall i | 0 <= i < 17 :: IsSpace("Processing failed"[i]) ==> i == 10;
  }

  lemma MoovMessageIsPresentable()
    ensures Presentable(MOOV_MESSAGE)
  {
    var tail := " moov atom not found";
    assert MOOV_MESSAGE == INVALID_VIDEO + tail;
    assert forall i | 0 <= i < 19 :: IsSpace(INVALID_VIDEO[i]) ==> i == 7 || i == 13;
    assert forall i | 0 <= i < 20 :: IsSpace(tail[i]) ==> i == 0 || i == 5 || i == 10 || i == 14;
  }

  lemma InputMessageIsPresentable()
    ensures Presentable(INPUT_MESSAGE)
  {
    var tail := " FFmpeg could not parse input";
    assert INPUT_MESSAGE == INVALID_VIDEO + tail;
    assert forall i | 0 <= i < 19 :: IsSpace(INVALID_VIDEO[i]) ==> i == 7 || i == 13;
    assert forall i | 0 <= i < 29 :: IsSpace(tail[i]) ==> i == 0 || i == 7 || i == 13 || i == 17 || i == 23;
  }

  lemma FixedMessagesArePresentable()
    ensures Presentable("Processing failed") && Presentable(MOOV_MESSAGE) && Presentable(INPUT_MESSAGE)
  {
    EmptyMessageIsPresentable();
    MoovMessageIsPresentable();
    InputMessageIsPresentable();
  }

  /** Cutting a collapsed text and appending dots leaves it collapsed, even when the cut lands after a blank. */
  lemma TruncatedIsCollapsed(text: string, n: nat)
    requires Collapsed(text) && n < |text|
    ensures Collapsed(text[..n] + "...")
  {
    var cut := text[..n] + "...";
    forall i | 0 <= i < |cut| && IsSpace(cut[i])
      ensures cut[i] == ' ' && 0 < i < |cut| - 1 && !IsSpace(cut[i + 1])
    {
      assert i < n && cut[i] == text[i];
      if i + 1 < n {
        assert cut[i + 1] == text[i + 1];
      }
    }
  }

  lemma TruncateSafeIsPresentable(text: string)
    ensures Presentable(TruncateSafe(text))
  {
    FixedMessagesArePresentable();
    var single := Join(Split(text));
    JoinIsCollapsed(Split(text));
    if |single| > MAX_ERROR_MESSAGE_LEN {
      TruncatedIsCollapsed(single, MAX_ERROR_MESSAGE_LEN - 3);
    }
  }

  /** A text that fits keeps all its words in order; a longer one is cut at exactly the limit. */
  lemma TruncateSafeKeepsText(text: string)
    ensures var single := Join(Split(text));
            && (single == "" ==> Split(text) == [] && TruncateSafe(text) == "Processing failed")
            && (0 < |single| <= 500 ==> Split(TruncateSafe(text)) == Split(text))
            && (|single| > 500 ==>
                  && |TruncateSafe(text)| == 500
                  && exists kept :: kept < single && TruncateSafe(text) == kept + "...")
  {
    var single := Join(Split(text));
    SplitOfJoin(Split(text));
    if |single| > MAX_ERROR_MESSAGE_LEN {
      assert single[..MAX_ERROR_MESSAGE_LEN - 3] < single;
    }
  }

  /** What is stored for which failure: a known FFmpeg message, in capitals or not, becomes its fixed text; any other
      text is normalised. */
  lemma StoredTextDependsOnMarker(failure: Failure)
    ensures failure.ProcessingError? && Contains(Lower(failure.text), "moov atom not found") ==>
      SanitizeErrorMessage(failure) == "Invalid video file:" + " moov atom not found"
    ensures failure.ProcessingError? && !Contains(Lower(failure.text), "moov atom not found")
            && Contains(Lower(failure.text), "invalid data found when processing input") ==>
      SanitizeErrorMessage(failure) == "Invalid video file:" + " FFmpeg could not parse input"
    ensures failure.OtherError?
            || (!Contains(Lower(failure.text), "moov atom not found")
                && !Contains(Lower(failure.text), "invalid data found when processing input")) ==>
      SanitizeErrorMessage(failure) == TruncateSafe(failure.text)
  {
  }

  lemma PresentableIsFixed(message: string)
    requires Presentable(message)
    ensures TruncateSafe(message) == message
  {
    CollapsedIsFixed(message);
  }

  /** Every stored message is presentable, and storing it again as an ordinary error changes nothing. */
  lemma StoredMessageIsNormalForm(failure: Failure)
    ensures Presentable(SanitizeErrorMessage(failure))
    ensures SanitizeErrorMessage(OtherError(SanitizeErrorMessage(failure))) == SanitizeErrorMessage(failure)
  {
    FixedMessagesArePresentable();
    TruncateSafeIsPresentable(failure.text);
    PresentableIsFixed(SanitizeErrorMessage(failure));
  }

  lemma MoovMessageHasMoovMarker()
    ensures Contains(Lower(MOOV_MESSAGE), MOOV_MARKER)
  {
    var tail := " moov atom not found";
    assert Lower(tail)[1..] == MOOV_MARKER;
    assert Lower(MOOV_MESSAGE)[20..] == Lower(tail)[1..];
  }

  lemma InputMessageLetters()
    ensures forall i | 0 <= i < |INPUT_MESSAGE| :: LowerChar(INPUT_MESSAGE[i]) == 'm' ==> i == 22
    ensures forall i | 0 <= i < |INPUT_MESSAGE| :: LowerChar(INPUT_MESSAGE[i]) != 'w'
    ensures |INPUT_MESSAGE| == 48 && LowerChar(INPUT_MESSAGE[23]) == 'p'
  {
    var tail := " FFmpeg could not parse input";
    assert INPUT_MESSAGE == INVALID_VIDEO + tail;
    assert forall i | 0 <= i < 19 :: LowerChar(INVALID_VIDEO[i]) != 'm' && LowerChar(INVALID_VIDEO[i]) != 'w';
    assert forall i | 0 <= i < 29 :: (LowerChar(tail[i]) == 'm' ==> i == 3) && LowerChar(tail[i]) != 'w';
    assert tail[4] == 'p';
  }

  lemma NotContained(text: string, needle: string, k: nat)
    requires k < |needle| && needle[k] !in text
    ensures !Contains(text, needle)
  {
    forall i | 0 <= i <= |text| ensures !(needle <= text[i..]) {
      if k < |text[i..]| {
        assert text[i..][k] == text[i + k];
      }
    }
  }

  lemma InputMessageHasNoMarker()
    ensures !HasMarker(INPUT_MESSAGE)
  {
    InputMessageLetters();
    var lowered := Lower(INPUT_MESSAGE);
    assert INPUT_MARKER[19] == 'w';
    NotContained(lowered, INPUT_MARKER, 19);
    assert MOOV_MARKER[0] == 'm' && MOOV_MARKER[1] == 'o';
    forall i | 0 <= i <= |lowered| ensures !(MOOV_MARKER <= lowered[i..]) {
      if i == 22 {
        assert lowered[i..][1] == 'p';
      } else if i < |lowered| {
        assert lowered[i..][0] == lowered[i] != 'm';
      }
    }
  }

  /** Storing the message again as a ProcessingError changes nothing exactly when collapsing the white space of the
      raw text does not uncover a marker that the raw text did not show. */
  lemma ProcessingErrorFixedPoint(text: string)
    ensures SanitizeProcessingErrorMessage(SanitizeProcessingErrorMessage(text)) == SanitizeProcessingErrorMessage(text)
       <==> HasMarker(text) || !HasMarker(TruncateSafe(text)) || TruncateSafe(text) == MOOV_MESSAGE
  {
    FixedMessagesArePresentable();
    TruncateSafeIsPresentable(text);
    PresentableIsFixed(TruncateSafe(text));
    PresentableIsFixed(INPUT_MESSAGE);
    MoovMessageHasMoovMarker();
    InputMessageHasNoMarker();
  }

  lemma DoubledBlankHidesMarker()
    ensures !HasMarker("moov  atom not found") && Contains(Lower("moov atom not found"), MOOV_MARKER)
  {
    var raw, once := "moov  atom not found", "moov atom not found";
    assert Lower(raw) == raw && Lower(once) == once;
    forall i | 0 <= i <= |raw| ensures !(MOOV_MARKER <= raw[i..]) {
      if i == 0 {
        assert raw[i..][5] == ' ' && MOOV_MARKER[5] == 'a';
      } else if i == 1 {
        assert raw[i..][0] == 'o' && MOOV_MARKER[0] == 'm';
      }
    }
    assert once[0..] == MOOV_MARKER;
  }

  lemma BrokenMarkerIsPresentable()
    ensures Presentable("moov" + " " + "atom not found")
  {
    var rest := "atom not found";
    assert forall i | 0 <= i < 14 :: IsSpace(rest[i]) ==> i == 4 || i == 8;
  }

  lemma BrokenMarkerIsCollapsed()
    ensures TruncateSafe("moov  atom not found") == "moov atom not found"
  {
    var word, rest := "moov", "atom not found";
    assert word + "  " + rest == "moov  atom not found";
    assert word + " " + rest == "moov atom not found";
    BrokenMarkerIsPresentable();
    BlanksAreCollapsed(word, rest);
  }

  /** A doubled blank inside the marker: the first pass stores the text, a second pass would replace it. */
  lemma ProcessingErrorNotAlwaysFixed()
    ensures var once := SanitizeProcessingErrorMessage("moov  atom not found");
            once == "moov atom not found" && SanitizeProcessingErrorMessage(once) == MOOV_MESSAGE
  {
    DoubledBlankHidesMarker();
    BrokenMarkerIsCollapsed();
  }

  lemma BlanksAreCollapsed(word: string, rest: string)
    requires IsWord(word) && Presentable(word + " " + rest)
    ensures TruncateSafe(word + "  " + rest) == word + " " + rest
  {
    SplitIgnoresExtraBlank(word, rest);
    PresentableIsFixed(word + " " + rest);
  }
}
