/**
 * What `getToken` of src/FileTokenizer.ts does in each section, stated as
 * whole calls: which synthesised section tokens come out, in which order,
 * around the line token that caused them, and which diagnostics are
 * written.
 */
module EarlyFileFacts {
  import opened Tokens
  import opened Errors
  import opened Lines
  import opened LineFacts
  import opened Sections
  import opened EarlyFileTokens

  /** The token has a value that starts with `prefix`. */
  predicate ValueStarts(t: Token, prefix: string)
  {
    t.value.Some? && StartsWith(t.value.value, prefix)
  }

  /** The fields once the incoming token has been taken. */
  function Taken(m: FileModel): FileModel
    requires m.lt.Valid()
  {
    m.(lt := Incoming(m).next, saved := None)
  }

  /** With nothing queued, a step hands the incoming token to the section
      switch, and the switch sees the fields it relies on. */
  lemma Pulled(m: FileModel)
    requires m.Valid() && m.queue == []
    ensures Ready(Taken(m)) && Admissible(m.state, Incoming(m).token)
    ensures Step(m) == Dispatch(Taken(m), Incoming(m).token)
  {
    IncomingAdmissible(m);
  }

  /** The sources of a step, in the same order as the later tokenizer:
      the queue, then the saved token, then the line tokenizer. */
  lemma StepOrder(m: FileModel)
    requires m.Valid()
    ensures m.queue != [] ==>
      Step(m) == Stepped(Some(m.queue[0]), m.(queue := []), [])
    ensures m.queue == [] && m.saved.Some? ==>
      && Admissible(m.state, m.saved.value)
      && Step(m) == Dispatch(m.(saved := None), m.saved.value)
    ensures m.queue == [] && m.saved.None? ==>
      && Admissible(m.state, Scan(m.lt, m.state.IsInTune()).token)
      && Step(m) == Dispatch(m.(lt := Scan(m.lt, m.state.IsInTune()).next), Scan(m.lt, m.state.IsInTune()).token)
  {
    if m.queue == [] {
      Pulled(m);
    }
  }

  /** Comments and EOF pass through unchanged in every section: unlike the
      later tokenizer, nothing closes the file header at the end. */
  lemma CommentAndEofPass(m: FileModel)
    requires m.Valid() && m.queue == []
    requires Incoming(m).token.tokenType.Comment? || Incoming(m).token.tokenType.EOF?
    ensures NextToken(m) == Fetched(Incoming(m).token, Taken(m), [])
  {
    Pulled(m);
    NextTokenUnfold(m);
  }

  // ---------------------------------------------------------------------
  // Initial

  /** The declaration comes out first and the file header start after it,
      at its position with no value; a diagnostic is written if and only if
      the version is not 2.1. */
  lemma DeclarationThenHeaderStart(m: FileModel)
    requires m.Valid() && m.queue == [] && m.state.Initial? && Incoming(m).token.tokenType.AbcDeclaration?
    ensures var t := Incoming(m).token;
      var f := NextToken(m);
      var g := NextToken(f.next);
      && f.token == t
      && (f.errors == [] <==> t.value == Some(SupportedVersion))
      && (f.errors != [] ==> f.errors == [ErrorToken(t, UnsupportedVersion(t))])
      && g.token == Retyped(t, FileHeaderStart) && g.errors == []
      && g.next == Taken(m).(state := FileHeader)
  {
    var t := Incoming(m).token;
    Pulled(m);
    NextTokenUnfold(m);
    var m1 := Step(m).next;
    assert m1 == Taken(m).(state := FileHeader, queue := [Retyped(t, FileHeaderStart)]);
    NextTokenUnfold(m1);
  }

  /** The step of `HeaderStartFirst` that opens the file header. */
  lemma OpeningStep(m: FileModel)
    requires m.Valid() && m.queue == [] && m.state.Initial?
    requires var k := Incoming(m).token.tokenType; !k.AbcDeclaration? && !k.Comment? && !k.EOF?
    ensures var t := Incoming(m).token;
      Step(m) == Stepped(Some(Retyped(t, FileHeaderStart)), Taken(m).(state := FileHeader, saved := Some(t)), [])
  {
    Pulled(m);
  }

  /** Any other first line: a file header start at its position with no
      value, then the line reprocessed in the file header, where a blank
      line ends the header at once and free text is reported. */
  lemma HeaderStartFirst(m: FileModel)
    requires m.Valid() && m.queue == [] && m.state.Initial?
    requires var k := Incoming(m).token.tokenType; !k.AbcDeclaration? && !k.Comment? && !k.EOF?
    ensures var t := Incoming(m).token;
      var f := NextToken(m);
      var g := NextToken(f.next);
      && f.token == Retyped(t, FileHeaderStart) && f.errors == []
      && (t.tokenType.BlankLine? ==> g.token == Retyped(t, FileHeaderEnd) && g.next == Taken(m).(state := InterTune))
      && (!t.tokenType.BlankLine? ==> g.token == t && g.next == Taken(m).(state := FileHeader))
      && (g.errors != [] <==> t.tokenType.FreeText?)
  {
    var t := Incoming(m).token;
    OpeningStep(m);
    NextTokenUnfold(m);
    var m1 := Taken(m).(state := FileHeader, saved := Some(t));
    assert Incoming(m1).token == t && Taken(m1) == Taken(m).(state := FileHeader);
    InHeader(m1);
  }

  // ---------------------------------------------------------------------
  // FileHeader

  /** In the file header a blank line becomes the file header end and ends
      it; free text is reported but passes through and the header goes
      on; anything else passes through. */
  lemma InHeader(m: FileModel)
    requires m.Valid() && m.queue == [] && m.state.FileHeader?
    requires !Incoming(m).token.tokenType.Comment? && !Incoming(m).token.tokenType.EOF?
    ensures var t := Incoming(m).token;
      var f := NextToken(m);
      && (t.tokenType.BlankLine? ==> f.token == Retyped(t, FileHeaderEnd) && f.next == Taken(m).(state := InterTune))
      && (!t.tokenType.BlankLine? ==> f.token == t && f.next == Taken(m))
      && (f.errors != [] <==> t.tokenType.FreeText?)
      && (f.errors != [] ==> f.errors == [ErrorToken(t, UnrecognizedHeaderText)])
  {
    Pulled(m);
    NextTokenUnfold(m);
  }

  // ---------------------------------------------------------------------
  // InterTune, FreeText

  /** The step of `FieldOpensTune` that starts the tune. */
  lemma FieldBetweenTunesStep(m: FileModel)
    requires m.Valid() && m.queue == [] && m.state.InterTune? && Incoming(m).token.tokenType.InformationField?
    ensures var t := Incoming(m).token;
      Step(m) == Stepped(Some(Retyped(t, TuneHeaderStart)), Taken(m).(state := TuneHeader, saved := Some(t)),
                         if ValueStarts(t, TuneStart) then [] else [ErrorToken(t, NotATuneStart(t))])
  {
    Pulled(m);
  }

  /** A field between tunes starts a tune: a tune header start at its
      position with no value (with a diagnostic if and only if the field is
      not `X:`), then the field, reprocessed in the tune header. */
  lemma FieldOpensTune(m: FileModel)
    requires m.Valid() && m.queue == [] && m.state.InterTune? && Incoming(m).token.tokenType.InformationField?
    ensures var t := Incoming(m).token;
      var f := NextToken(m);
      && f.token == Retyped(t, TuneHeaderStart)
      && f.next == Taken(m).(state := TuneHeader, saved := Some(t))
      && (f.errors == [] <==> ValueStarts(t, TuneStart))
      && (f.errors != [] ==> f.errors == [ErrorToken(t, NotATuneStart(t))])
      && NextToken(f.next).token == t
  {
    var t := Incoming(m).token;
    FieldBetweenTunesStep(m);
    NextTokenUnfold(m);
    var m1 := Taken(m).(state := TuneHeader, saved := Some(t));
    assert Incoming(m1).token == t;
    FieldInTuneHeader(m1);
  }

  /** Between tunes a blank line is swallowed, free text passes through
      and opens its section, and anything else passes through. */
  lemma BetweenTunes(m: FileModel)
    requires m.Valid() && m.queue == [] && m.state.InterTune? && !Incoming(m).token.tokenType.InformationField?
    ensures var t := Incoming(m).token;
      var r := Step(m);
      && (t.tokenType.BlankLine? ==> r == Stepped(None, Taken(m), []))
      && (t.tokenType.FreeText? ==> r == Stepped(Some(t), Taken(m).(state := FileState.FreeText), []))
      && (!t.tokenType.BlankLine? && !t.tokenType.FreeText? ==> r == Stepped(Some(t), Taken(m), []))
  {
    Pulled(m);
  }

  /** In free text a blank line is swallowed and ends it; a field or style
      sheet line is reported but passes through and the free text goes on;
      anything else passes through. */
  lemma InFreeTextSection(m: FileModel)
    requires m.Valid() && m.queue == [] && m.state.FreeText?
    ensures var t := Incoming(m).token;
      var r := Step(m);
      && (t.tokenType.BlankLine? ==> r == Stepped(None, Taken(m).(state := InterTune), []))
      && (t.tokenType.InformationField? || t.tokenType.StyleSheet? ==>
            r == Stepped(Some(t), Taken(m), [ErrorToken(t, UnseparatedFreeText)]))
      && (!t.tokenType.BlankLine? && !t.tokenType.InformationField? && !t.tokenType.StyleSheet? ==>
            r == Stepped(Some(t), Taken(m), []))
  {
    Pulled(m);
  }

  // ---------------------------------------------------------------------
  // TuneHeader, TuneBody

  /** A field in the tune header passes through; `K:` sets the flag, and
      any other field after it is reported. */
  lemma FieldInTuneHeader(m: FileModel)
    requires m.Valid() && m.queue == [] && m.state.TuneHeader? && Incoming(m).token.tokenType.InformationField?
    ensures var t := Incoming(m).token;
      var isKey := ValueStarts(t, KeyField);
      var f := NextToken(m);
      && f.token == t
      && f.next == Taken(m).(gotK := m.gotK || isKey)
      && (f.errors != [] <==> m.gotK && !isKey)
      && (f.errors != [] ==> f.errors == [ErrorToken(t, FieldAfterKey)])
  {
    Pulled(m);
    NextTokenUnfold(m);
  }

  /** Music code ends the tune header: a tune header end, then a tune body
      start, both at its position with no value, then the music code. A
      diagnostic is written if and only if no `K:` field came first, and
      the flag is cleared for the next tune. */
  lemma MusicOpensBody(m: FileModel)
    requires m.Valid() && m.queue == [] && m.state.TuneHeader? && Incoming(m).token.tokenType.MusicCode?
    ensures var t := Incoming(m).token;
      var f := NextToken(m);
      var g := NextToken(f.next);
      var h := NextToken(g.next);
      && f.token == Retyped(t, TuneHeaderEnd)
      && g.token == Retyped(t, TuneBodyStart)
      && h.token == t
      && (f.errors == [] <==> m.gotK)
      && (f.errors != [] ==> f.errors == [ErrorToken(t, MissingKey)])
      && g.errors == [] && h.errors == []
      && h.next == Taken(m).(state := TuneBody, gotK := false)
  {
    var t := Incoming(m).token;
    MusicStep(m);
    NextTokenUnfold(m);
    var m1 := Taken(m).(gotK := false, state := TuneBody, saved := Some(t), queue := [Retyped(t, TuneBodyStart)]);
    NextTokenUnfold(m1);
    var m2 := Taken(m).(gotK := false, state := TuneBody, saved := Some(t));
    assert Step(m1).next == m2;
    assert Incoming(m2).token == t && Taken(m2) == Taken(m).(state := TuneBody, gotK := false);
    MusicInBody(m2);
  }

  /** The step of `MusicOpensBody` that ends the tune header. */
  lemma MusicStep(m: FileModel)
    requires m.Valid() && m.queue == [] && m.state.TuneHeader? && Incoming(m).token.tokenType.MusicCode?
    ensures var t := Incoming(m).token;
      Step(m) == Stepped(Some(Retyped(t, TuneHeaderEnd)),
                         Taken(m).(gotK := false, state := TuneBody, saved := Some(t), queue := [Retyped(t, TuneBodyStart)]),
                         if m.gotK then [] else [ErrorToken(t, MissingKey)])
  {
    Pulled(m);
  }

  /** Music code in the tune body passes through unchanged. */
  lemma MusicInBody(m: FileModel)
    requires m.Valid() && m.queue == [] && m.state.TuneBody? && Incoming(m).token.tokenType.MusicCode?
    ensures NextToken(m) == Fetched(Incoming(m).token, Taken(m), [])
  {
    Pulled(m);
    NextTokenUnfold(m);
  }

  /** Typeset text and style sheet lines in the tune header pass through
      and change nothing. */
  lemma PassesInTuneHeader(m: FileModel)
    requires m.Valid() && m.queue == [] && m.state.TuneHeader?
    requires Incoming(m).token.tokenType.Text? || Incoming(m).token.tokenType.StyleSheet?
    ensures NextToken(m) == Fetched(Incoming(m).token, Taken(m), [])
  {
    Pulled(m);
    NextTokenUnfold(m);
  }

  /** In the tune body every line but a blank one (fields, style sheet
      lines, typeset text and music code alike) passes through and changes
      nothing. */
  lemma PassesInTuneBody(m: FileModel)
    requires m.Valid() && m.queue == [] && m.state.TuneBody? && !Incoming(m).token.tokenType.BlankLine?
    ensures NextToken(m) == Fetched(Incoming(m).token, Taken(m), [])
  {
    Pulled(m);
    NextTokenUnfold(m);
  }

  /** A blank line ends a tune header that has no body, as a tune header
      end, and leaves the `K:` flag as it was; a blank line ends a tune
      body as a tune body end. */
  lemma BlankEndsTune(m: FileModel)
    requires m.Valid() && m.queue == [] && m.state.IsInTune() && Incoming(m).token.tokenType.BlankLine?
    ensures var t := Incoming(m).token;
      var end := if m.state.TuneHeader? then TuneHeaderEnd else TuneBodyEnd;
      Step(m) == Stepped(Some(Retyped(t, end)), Taken(m).(state := InterTune), [])
  {
    Pulled(m);
  }
}
