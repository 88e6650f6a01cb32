/**
 * What `getToken` of old/FileTokenizer.ts does in each section, stated as
 * whole calls: which synthesised section tokens come out, in which order,
 * around the line token that caused them, and which errors are reported.
 */
module FileFacts {
  import opened Tokens
  import opened Errors
  import opened Lines
  import opened LineFacts
  import opened Sections
  import opened FileTokens

  /** The token has a value that starts with `prefix`. */
  predicate ValueStarts(t: Token, prefix: string)
  {
    t.value.Some? && StartsWith(t.value.value, prefix)
  }

  /** The fields once the incoming token has been taken. */
  function Taken(m: FileModel): FileModel
    requires m.lt.Valid()
  {
    m.(lt := Incoming(m).next, saved := None)
  }

  /** With nothing queued, a step hands the incoming token to the section
      switch, and the switch sees the fields it relies on. */
  lemma Pulled(m: FileModel)
    requires m.Valid() && m.queue == []
    ensures Ready(Taken(m)) && Admissible(m.state, Incoming(m).token)
    ensures Step(m) == Dispatch(Taken(m), Incoming(m).token)
  {
    IncomingAdmissible(m);
  }

  /** The sources of a step, in order: the queue, then the saved token,
      then the line tokenizer asked with `inTune` for the two tune
      sections. Dequeuing touches nothing else and reports nothing. */
  lemma StepOrder(m: FileModel)
    requires m.Valid()
    ensures m.queue != [] ==>
      Step(m) == Stepped(Some(m.queue[0]), m.(queue := []), [])
    ensures m.queue == [] && m.saved.Some? ==>
      && Admissible(m.state, m.saved.value)
      && Step(m) == Dispatch(m.(saved := None), m.saved.value)
    ensures m.queue == [] && m.saved.None? ==>
      && Admissible(m.state, Scan(m.lt, m.state.IsInTune()).token)
      && Step(m) == Dispatch(m.(lt := Scan(m.lt, m.state.IsInTune()).next), Scan(m.lt, m.state.IsInTune()).token)
  {
    if m.queue == [] {
      Pulled(m);
    }
  }

  /** A comment passes through unchanged and nothing but the line
      tokenizer moves. */
  lemma CommentPasses(m: FileModel)
    requires m.Valid() && m.queue == [] && Incoming(m).token.tokenType.Comment?
    ensures NextToken(m) == Fetched(Incoming(m).token, Taken(m), [])
  {
    Pulled(m);
    NextTokenUnfold(m);
  }

  /** EOF passes through unchanged while no file header is open. */
  lemma EofPasses(m: FileModel)
    requires m.Valid() && m.queue == [] && !m.started && Incoming(m).token.tokenType.EOF?
    ensures NextToken(m) == Fetched(Incoming(m).token, Taken(m), [])
  {
    Pulled(m);
    NextTokenUnfold(m);
  }

  /** EOF in an open file header: a file header end at the EOF's position
      with no value, then the EOF itself. The flag stays set, so at the
      end of the document the two alternate for ever. */
  lemma EofClosesHeader(m: FileModel)
    requires m.Valid() && m.queue == [] && m.started && Incoming(m).token.tokenType.EOF?
    ensures var t := Incoming(m).token;
      var f := NextToken(m);
      var g := NextToken(f.next);
      && f.token == Retyped(t, FileHeaderEnd) && f.errors == []
      && g.token == t && g.errors == []
      && g.next == Taken(m)
  {
    var t := Incoming(m).token;
    Pulled(m);
    NextTokenUnfold(m);
    var m1 := Step(m).next;
    assert m1 == Taken(m).(queue := [t]);
    NextTokenUnfold(m1);
  }

  /** The tokenizer past the last line, with nothing pending. */
  predicate Exhausted(m: FileModel)
  {
    m.lt.Valid() && m.lt.AtEnd() && !m.lt.HasPendingComment() && m.saved.None? && m.queue == []
  }

  lemma EofRepeats(m: FileModel)
    requires m.Valid() && Exhausted(m) && m.started
    ensures var f := NextToken(m);
      var g := NextToken(f.next);
      && f.token.tokenType.FileHeaderEnd? && g.token.tokenType.EOF?
      && g.next == m
  {
    ScanAtEnd(m.lt, m.state.IsInTune(), m.state.IsInTune());
    assert Taken(m) == m;
    EofClosesHeader(m);
  }

  // ---------------------------------------------------------------------
  // Initial

  /** The declaration passes through and opens the file header, with an
      error if and only if the version is not 2.1. */
  lemma DeclarationOpensHeader(m: FileModel)
    requires m.Valid() && m.queue == [] && m.state.Initial? && Incoming(m).token.tokenType.AbcDeclaration?
    ensures var t := Incoming(m).token;
      var f := NextToken(m);
      && f.token == t
      && f.next == Taken(m).(state := FileHeader)
      && (f.errors == [] <==> t.value == Some(SupportedVersion))
      && (f.errors != [] ==> f.errors == [ErrorToken(t, UnsupportedVersion(t))])
  {
    Pulled(m);
    NextTokenUnfold(m);
  }

  /** A field or style sheet line with no declaration before it: an error,
      then the file header is opened as if the declaration had been there
      (a file header start at the line's position, then the line). */
  lemma FieldWithoutDeclaration(m: FileModel)
    requires m.Valid() && m.queue == [] && m.state.Initial?
    requires Incoming(m).token.tokenType.InformationField? || Incoming(m).token.tokenType.StyleSheet?
    ensures var t := Incoming(m).token;
      var f := NextToken(m);
      var g := NextToken(f.next);
      && f.token == Retyped(t, FileHeaderStart) && f.errors == [ErrorToken(t, MissingDeclaration)]
      && g.token == t && g.errors == []
      && g.next == Taken(m).(state := FileHeader, started := true)
  {
    var t := Incoming(m).token;
    Pulled(m);
    NextTokenUnfold(m);
    var m1 := Step(m).next;
    assert m1 == Taken(m).(state := FileHeader, saved := Some(t));
    NextTokenUnfold(m1);
    var m2 := Step(m1).next;
    assert m2 == Taken(m).(state := FileHeader, started := true, queue := [t]);
    NextTokenUnfold(m2);
  }

  /** A blank line with no declaration before it: an error, the blank line
      is swallowed and the file has no header. */
  lemma BlankWithoutDeclaration(m: FileModel)
    requires m.Valid() && m.queue == [] && m.state.Initial? && Incoming(m).token.tokenType.BlankLine?
    ensures Step(m) == Stepped(None, Taken(m).(state := InterTune), [ErrorToken(Incoming(m).token, MissingDeclarationAndHeader)])
  {
    Pulled(m);
  }

  /** Free text or typeset text before any declaration: an error, the line
      passes through and opens the matching section. */
  lemma ProseWithoutDeclaration(m: FileModel)
    requires m.Valid() && m.queue == [] && m.state.Initial?
    requires Incoming(m).token.tokenType.FreeText? || Incoming(m).token.tokenType.Text?
    ensures var t := Incoming(m).token;
      var f := NextToken(m);
      && f.token == t
      && f.next == Taken(m).(state := if t.tokenType.FreeText? then FileState.FreeText else TypesetText)
      && f.errors == [ErrorToken(t, if t.tokenType.FreeText? then FreeTextAtStart else TypesetTextAtStart)]
  {
    Pulled(m);
    NextTokenUnfold(m);
  }

  // ---------------------------------------------------------------------
  // FileHeader

  /** The first field or style sheet line of the file header: a file
      header start at its position with no value, then the line. */
  lemma FieldOpensHeader(m: FileModel)
    requires m.Valid() && m.queue == [] && m.state.FileHeader? && !m.started
    requires Incoming(m).token.tokenType.InformationField? || Incoming(m).token.tokenType.StyleSheet?
    ensures var t := Incoming(m).token;
      var f := NextToken(m);
      var g := NextToken(f.next);
      && f.token == Retyped(t, FileHeaderStart) && f.errors == []
      && g.token == t && g.errors == []
      && g.next == Taken(m).(started := true)
  {
    var t := Incoming(m).token;
    Pulled(m);
    NextTokenUnfold(m);
    var m1 := Step(m).next;
    assert m1 == Taken(m).(started := true, queue := [t]);
    NextTokenUnfold(m1);
  }

  /** Later field and style sheet lines of the header pass through. */
  lemma FieldInOpenHeader(m: FileModel)
    requires m.Valid() && m.queue == [] && m.state.FileHeader? && m.started
    requires Incoming(m).token.tokenType.InformationField? || Incoming(m).token.tokenType.StyleSheet?
    ensures NextToken(m) == Fetched(Incoming(m).token, Taken(m), [])
  {
    Pulled(m);
    NextTokenUnfold(m);
  }

  /** A blank line ends the file header: it becomes the file header end if
      the header was opened, and is swallowed otherwise. */
  lemma BlankClosesHeader(m: FileModel)
    requires m.Valid() && m.queue == [] && m.state.FileHeader? && Incoming(m).token.tokenType.BlankLine?
    ensures var t := Incoming(m).token;
      && Step(m).next == Taken(m).(state := InterTune, started := false)
      && Step(m).out == (if m.started then Some(Retyped(t, FileHeaderEnd)) else None)
      && Step(m).errors == []
  {
    Pulled(m);
  }

  /** Free text or typeset text in the file header: an error; if the header
      was opened, a file header end comes first and the line follows it,
      reprocessed in its own section. */
  lemma ProseEndsHeader(m: FileModel)
    requires m.Valid() && m.queue == [] && m.state.FileHeader?
    requires Incoming(m).token.tokenType.FreeText? || Incoming(m).token.tokenType.Text?
    ensures var t := Incoming(m).token;
      var section := if t.tokenType.FreeText? then FileState.FreeText else TypesetText;
      var message := if t.tokenType.FreeText? then FreeTextInHeader else TypesetTextInHeader;
      var f := NextToken(m);
      && f.errors == [ErrorToken(t, message)]
      && (!m.started ==> f.token == t && f.next == Taken(m).(state := section))
      && (m.started ==>
            && f.token == Retyped(t, FileHeaderEnd)
            && NextToken(f.next) == Fetched(t, Taken(m).(state := section, started := false), []))
  {
    var t := Incoming(m).token;
    Pulled(m);
    NextTokenUnfold(m);
    if m.started {
      var m1 := Step(m).next;
      assert m1 == Taken(m).(state := if t.tokenType.FreeText? then FileState.FreeText else TypesetText,
                             started := false, saved := Some(t));
      NextTokenUnfold(m1);
    }
  }

  // ---------------------------------------------------------------------
  // InterTune, FreeText, TypesetText

  /** A field between tunes starts a tune: a tune header start at its
      position with no value (with an error if and only if the field is not
      `X:`), then the field, reprocessed in the tune header. */
  lemma FieldOpensTune(m: FileModel)
    requires m.Valid() && m.queue == [] && m.state.InterTune? && Incoming(m).token.tokenType.InformationField?
    ensures var t := Incoming(m).token;
      var f := NextToken(m);
      && f.token == Retyped(t, TuneHeaderStart)
      && f.next == Taken(m).(state := TuneHeader, saved := Some(t))
      && (f.errors == [] <==> ValueStarts(t, TuneStart))
      && (f.errors != [] ==> f.errors == [ErrorToken(t, NotATuneStart(t))])
      && NextToken(f.next).token == t
  {
    var t := Incoming(m).token;
    FieldBetweenTunesStep(m);
    NextTokenUnfold(m);
    var m1 := Taken(m).(state := TuneHeader, saved := Some(t));
    assert Incoming(m1).token == t;
    FieldInTuneHeader(m1);
  }

  /** The step of `FieldOpensTune` that starts the tune. */
  lemma FieldBetweenTunesStep(m: FileModel)
    requires m.Valid() && m.queue == [] && m.state.InterTune? && Incoming(m).token.tokenType.InformationField?
    ensures var t := Incoming(m).token;
      Step(m) == Stepped(Some(Retyped(t, TuneHeaderStart)), Taken(m).(state := TuneHeader, saved := Some(t)),
                         if ValueStarts(t, TuneStart) then [] else [ErrorToken(t, NotATuneStart(t))])
  {
    Pulled(m);
  }

  /** Between tunes a blank line is swallowed; free text and typeset text
      pass through and open their sections; a style sheet line passes
      through with an error. */
  lemma BetweenTunes(m: FileModel)
    requires m.Valid() && m.queue == [] && m.state.InterTune? && !Incoming(m).token.tokenType.InformationField?
    requires !Incoming(m).token.tokenType.Comment? && !Incoming(m).token.tokenType.EOF?
    ensures var t := Incoming(m).token;
      var r := Step(m);
      && (t.tokenType.BlankLine? ==> r == Stepped(None, Taken(m), []))
      && (t.tokenType.FreeText? ==> r == Stepped(Some(t), Taken(m).(state := FileState.FreeText), []))
      && (t.tokenType.Text? ==> r == Stepped(Some(t), Taken(m).(state := TypesetText), []))
      && (t.tokenType.StyleSheet? ==> r == Stepped(Some(t), Taken(m), [ErrorToken(t, StyleSheetBetweenTunes)]))
  {
    Pulled(m);
  }

  /** A field in free text or typeset text: an error, then the field is
      reprocessed between tunes, so a tune header start and the field
      follow. */
  lemma FieldLeavesProse(m: FileModel)
    requires m.Valid() && m.queue == [] && (m.state.FreeText? || m.state.TypesetText?)
    requires Incoming(m).token.tokenType.InformationField?
    ensures var t := Incoming(m).token;
      var f := NextToken(m);
      var message := if m.state.FreeText? then FieldInFreeText else FieldInTypesetText;
      && f.token == Retyped(t, TuneHeaderStart)
      && f.errors == [ErrorToken(t, message)] + (if ValueStarts(t, TuneStart) then [] else [ErrorToken(t, NotATuneStart(t))])
      && f.next == Taken(m).(state := TuneHeader, saved := Some(t))
      && NextToken(f.next).token == t
  {
    var t := Incoming(m).token;
    FieldInProseStep(m);
    NextTokenUnfold(m);
    var m1 := Taken(m).(state := InterTune, saved := Some(t));
    assert Incoming(m1).token == t && Taken(m1) == Taken(m).(state := InterTune);
    FieldOpensTune(m1);
  }

  /** The step of `FieldLeavesProse` that reports the field and puts it
      back. */
  lemma FieldInProseStep(m: FileModel)
    requires m.Valid() && m.queue == [] && (m.state.FreeText? || m.state.TypesetText?)
    requires Incoming(m).token.tokenType.InformationField?
    ensures var t := Incoming(m).token;
      var message := if m.state.FreeText? then FieldInFreeText else FieldInTypesetText;
      Step(m) == Stepped(None, Taken(m).(state := InterTune, saved := Some(t)), [ErrorToken(t, message)])
  {
    Pulled(m);
  }

  /** Any other line in free text or typeset text: a line of the section's
      own kind passes through; a blank line is swallowed and ends the
      section; a style sheet line is reported, passes through and ends the
      section; a line of the other prose kind is reported, passes through
      and switches to that section. */
  lemma ProseSections(m: FileModel)
    requires m.Valid() && m.queue == [] && (m.state.FreeText? || m.state.TypesetText?)
    requires var k := Incoming(m).token.tokenType; !k.InformationField? && !k.Comment? && !k.EOF?
    ensures var t := Incoming(m).token;
      var inFree := m.state.FreeText?;
      var own := if inFree then t.tokenType.FreeText? else t.tokenType.Text?;
      var other := if inFree then t.tokenType.Text? else t.tokenType.FreeText?;
      var r := Step(m);
      && (own ==> r == Stepped(Some(t), Taken(m), []))
      && (t.tokenType.BlankLine? ==> r == Stepped(None, Taken(m).(state := InterTune), []))
      && (t.tokenType.StyleSheet? ==>
            r == Stepped(Some(t), Taken(m).(state := InterTune),
                         [ErrorToken(t, if inFree then StyleSheetBetweenTunes else StyleSheetInTypesetText)]))
      && (other ==>
            r == Stepped(Some(t), Taken(m).(state := if inFree then TypesetText else FileState.FreeText),
                         [ErrorToken(t, if inFree then TextInFreeText else FreeTextInTypesetText)]))
  {
    Pulled(m);
  }

  // ---------------------------------------------------------------------
  // TuneHeader, TuneBody

  /** A field in the tune header passes through; `K:` sets the flag, and
      any other field after it is reported. */
  lemma FieldInTuneHeader(m: FileModel)
    requires m.Valid() && m.queue == [] && m.state.TuneHeader? && Incoming(m).token.tokenType.InformationField?
    ensures var t := Incoming(m).token;
      var isKey := ValueStarts(t, KeyField);
      var f := NextToken(m);
      && f.token == t
      && f.next == Taken(m).(gotK := m.gotK || isKey)
      && (f.errors != [] <==> m.gotK && !isKey)
      && (f.errors != [] ==> f.errors == [ErrorToken(t, FieldAfterKey)])
  {
    Pulled(m);
    NextTokenUnfold(m);
  }

  /** Typeset text and style sheet lines in the tune header pass through
      and change nothing. */
  lemma PassesInTuneHeader(m: FileModel)
    requires m.Valid() && m.queue == [] && m.state.TuneHeader?
    requires Incoming(m).token.tokenType.Text? || Incoming(m).token.tokenType.StyleSheet?
    ensures NextToken(m) == Fetched(Incoming(m).token, Taken(m), [])
  {
    Pulled(m);
    NextTokenUnfold(m);
  }

  /** Music code ends the tune header: a tune header end, then a tune body
      start, both at its position with no value, then the music code. An
      error is reported if and only if no `K:` field came first, and the
      flag is cleared for the next tune. */
  lemma MusicOpensBody(m: FileModel)
    requires m.Valid() && m.queue == [] && m.state.TuneHeader? && Incoming(m).token.tokenType.MusicCode?
    ensures var t := Incoming(m).token;
      var f := NextToken(m);
      var g := NextToken(f.next);
      var h := NextToken(g.next);
      && f.token == Retyped(t, TuneHeaderEnd)
      && g.token == Retyped(t, TuneBodyStart)
      && h.token == t
      && (f.errors == [] <==> m.gotK)
      && (f.errors != [] ==> f.errors == [ErrorToken(t, MissingKey)])
      && g.errors == [] && h.errors == []
      && h.next == Taken(m).(state := TuneBody, gotK := false)
  {
    var t := Incoming(m).token;
    Pulled(m);
    NextTokenUnfold(m);
    var m1 := Step(m).next;
    assert m1 == Taken(m).(gotK := false, state := TuneBody, saved := Some(t), queue := [Retyped(t, TuneBodyStart)]);
    NextTokenUnfold(m1);
    var m2 := Step(m1).next;
    assert m2 == Taken(m).(gotK := false, state := TuneBody, saved := Some(t));
    NextTokenUnfold(m2);
  }

  /** A blank line ends a tune header that has no body, as a tune header
      end; the `K:` flag is NOT cleared, so a `K:` in a body-less tune makes
      every non-`K:` field of the next tune header an error. */
  lemma GotKSurvivesBlank(m: FileModel)
    requires m.Valid() && m.queue == [] && m.state.TuneHeader? && Incoming(m).token.tokenType.BlankLine?
    ensures Step(m) == Stepped(Some(Retyped(Incoming(m).token, TuneHeaderEnd)), Taken(m).(state := InterTune), [])
    ensures Step(m).next.gotK == m.gotK
  {
    Pulled(m);
  }

  /** A blank line ends the tune body as a tune body end; anything else in
      the body passes through. */
  lemma BlankEndsBody(m: FileModel)
    requires m.Valid() && m.queue == [] && m.state.TuneBody?
    requires !Incoming(m).token.tokenType.EOF?
    ensures var t := Incoming(m).token;
      && (t.tokenType.BlankLine? ==> Step(m) == Stepped(Some(Retyped(t, TuneBodyEnd)), Taken(m).(state := InterTune), []))
      && (!t.tokenType.BlankLine? ==> Step(m) == Stepped(Some(t), Taken(m), []))
  {
    Pulled(m);
  }
}
