/**
 * How _handle_transcription reads the text the speech-to-text engine
 * returned: strip it, decide whether it is a blank-audio marker, and choose
 * what is appended to the transcription box and what is typed.
 */
module Transcription {
  import opened Wrappers
  import opened PyStr

  /** `any(indicator in lowered for indicator in blank_indicators)`. */
  predicate HasBlankIndicator(lowered: string) {
    || Contains(lowered, "[blank_audio]")
    || Contains(lowered, "(blank)")
    || Contains(lowered, "(silence)")
    || Contains(lowered, "[silence]")
  }

  /** `is_blank`, for the already stripped text. */
  predicate IsBlank(cleaned: string) {
    HasBlankIndicator(Lower(cleaned)) || cleaned == "[BLANK_AUDIO]"
  }

  /** The exact comparison with "[BLANK_AUDIO]" adds nothing to the case-insensitive test. */
  lemma ExactMatchSubsumed(cleaned: string)
    ensures IsBlank(cleaned) <==> HasBlankIndicator(Lower(cleaned))
  {
    if cleaned == "[BLANK_AUDIO]" {
      var w := Lower(cleaned);
      assert w == "[blank_audio]" by {
        assert |w| == 13;
        forall k | 0 <= k < 13
          ensures w[k] == "[blank_audio]"[k]
        {
          assert w[k] == LowerChar(cleaned[k]);
        }
      }
      assert "[blank_audio]" <= w;
    }
  }

  /** The three ways a delivered transcription is handled. */
  datatype Classification =
    | NoSpeech              // None, empty or whitespace only
    | Blank                 // a blank-audio marker: nothing appended, nothing typed
    | Speech(text: string)  // the stripped text, appended and typed

  function Classify(transcription: Option<string>): Classification {
    if transcription.Some? && Strip(transcription.value) != [] then
      var cleaned := Strip(transcription.value);
      if IsBlank(cleaned) then Blank else Speech(cleaned)
    else NoSpeech
  }

  /** Each outcome of Classify, stated in terms of the raw text. */
  lemma ClassifySpec(transcription: Option<string>)
    ensures Classify(transcription) == NoSpeech <==>
      transcription.None? || forall k :: 0 <= k < |transcription.value| ==> IsSpace(transcription.value[k])
    ensures Classify(transcription) == Blank <==>
      transcription.Some? && Strip(transcription.value) != [] && HasBlankIndicator(Lower(Strip(transcription.value)))
    ensures Classify(transcription).Speech? ==>
      var text := Classify(transcription).text;
      && text == Strip(transcription.value)
      && text != [] && !IsSpace(text[0]) && !IsSpace(text[|text| - 1])
      && !HasBlankIndicator(Lower(text))
  {
    if transcription.Some? {
      StripSpec(transcription.value);
      ExactMatchSubsumed(Strip(transcription.value));
    }
  }

  /** What is appended to the transcription box. */
  function AppendedText(c: Classification): string {
    match c
    case Speech(text) => text + "\n"
    case Blank => ""
    case NoSpeech => "[No speech detected]\n"
  }

  /** What is handed to inject_text: one call, with the stripped text, for speech only. */
  function Injected(c: Classification): seq<string> {
    if c.Speech? then [c.text] else []
  }

  /** Speech appends exactly the stripped text and a newline; the other outcomes type nothing. */
  lemma HandlingSpec(transcription: Option<string>)
    ensures var c := Classify(transcription);
      && (c.Speech? ==> AppendedText(c) == Strip(transcription.value) + "\n" && Injected(c) == [Strip(transcription.value)])
      && (!c.Speech? ==> Injected(c) == [])
      && (c == Blank ==> AppendedText(c) == [])
      && (c == NoSpeech ==> AppendedText(c) == "[No speech detected]\n")
  {
  }

  /** The silence marker whisper.cpp prints is blank. */
  lemma BlankAudioMarkerIsBlank()
    ensures Classify(Some("[BLANK_AUDIO]")) == Blank
  {
    StripUnpadded("[BLANK_AUDIO]");
  }

  /** `strip` removes the blanks around a marker. */
  lemma StripPaddedSilence()
    ensures Strip(" (Silence) ") == "(Silence)"
  {
    var t := " (Silence) ";
    assert SkipSpaces(t, 1) == 1;
    assert StripStart(t) == 1;
    assert TrimEnd(t, 1, 10) == 10;
    assert StripEnd(t) == 10;
  }

  /** `lower` maps a capitalised marker to the marker. */
  lemma LowerCapitalisedSilence()
    ensures Lower("(Silence)") == "(silence)"
  {
    var v := "(Silence)";
    var w := Lower(v);
    assert |w| == 9;
    forall k | 0 <= k < 9
      ensures w[k] == "(silence)"[k]
    {
      assert w[k] == LowerChar(v[k]);
    }
  }

  /** Case and surrounding blanks do not hide a marker. */
  lemma SilenceInAnyCaseIsBlank()
    ensures Classify(Some(" (Silence) ")) == Blank
  {
    StripPaddedSilence();
    LowerCapitalisedSilence();
    assert Contains("(silence)", "(silence)");
  }

  /**
   * Text that needs no stripping and holds no capital letter and no opening
   * bracket or parenthesis is typed as it is.
   */
  lemma PlainTextIsSpeech(t: string)
    requires t != [] && !IsSpace(t[0]) && !IsSpace(t[|t| - 1])
    requires forall k :: 0 <= k < |t| ==> !('A' <= t[k] <= 'Z') && t[k] != '(' && t[k] != '['
    ensures Classify(Some(t)) == Speech(t)
  {
    StripUnpadded(t);
    LowerWithoutCapitals(t);
    NoBracketNoMarker(t);
  }

  /** Ordinary speech is kept. */
  lemma OrdinaryTextIsSpeech()
    ensures Classify(Some("hello world")) == Speech("hello world")
  {
    PlainTextIsSpeech("hello world");
  }

  /** A text without an opening bracket or parenthesis holds no marker. */
  lemma NoBracketNoMarker(t: string)
    requires forall k :: 0 <= k < |t| ==> t[k] != '(' && t[k] != '['
    ensures !HasBlankIndicator(t)
  {
    ContainsFirstChar(t, "[blank_audio]");
    ContainsFirstChar(t, "(blank)");
    ContainsFirstChar(t, "(silence)");
    ContainsFirstChar(t, "[silence]");
  }

  /** Whitespace only counts as no speech. */
  lemma WhitespaceIsNoSpeech()
    ensures Classify(Some(" \n\t ")) == NoSpeech
    ensures Classify(None) == NoSpeech
  {
    ClassifySpec(Some(" \n\t "));
  }
}
