/**
 * Properties of the line tokenizer (src/LineTokenizer.ts), stated about the
 * specification functions `Classify` and `Scan`.
 */
module LineFacts {
  import opened Tokens
  import opened Errors
  import opened Lines

  // ---------------------------------------------------------------------
  // The string tests behind the classification chain

  /** `trimStart` removes exactly the leading white space, and leaves
      nothing exactly when the string is blank. */
  lemma {:induction false} TrimStartFacts(s: string)
    ensures |TrimStart(s)| <= |s| && TrimStart(s) == s[|s| - |TrimStart(s)|..]
    ensures IsBlank(s[..|s| - |TrimStart(s)|])
    ensures TrimStart(s) != [] ==> !IsWs(TrimStart(s)[0])
    ensures TrimStart(s) == [] <==> IsBlank(s)
  {
    if s != [] && IsWs(s[0]) {
      TrimStartFacts(s[1..]);
      assert s[1..][|s[1..]| - |TrimStart(s)|..] == s[|s| - |TrimStart(s)|..];
      assert s[..|s| - |TrimStart(s)|][1..] == s[1..][..|s[1..]| - |TrimStart(s[1..])|];
    }
  }

  /** `/^\s*$/` holds exactly when every character is white space. */
  lemma {:induction false} BlankIsAllWhitespace(s: string)
    ensures IsBlank(s) <==> forall i | 0 <= i < |s| :: IsWs(s[i])
  {
    if s != [] {
      BlankIsAllWhitespace(s[1..]);
      assert forall i | 1 <= i < |s| :: s[i] == s[1..][i - 1];
    }
  }

  /** The field test is unanchored: it holds exactly when a letter directly
      followed by a colon occurs at some position of the line. */
  lemma {:induction false} FieldPatternAnywhere(line: string)
    ensures HasFieldPattern(line) <==> exists i :: FieldMarkAt(line, i)
  {
    if |line| >= 2 {
      FieldPatternAnywhere(line[1..]);
      if HasFieldPattern(line[1..]) {
        var i :| FieldMarkAt(line[1..], i);
        assert FieldMarkAt(line, i + 1);
      }
      if exists i :: FieldMarkAt(line, i) {
        var i :| FieldMarkAt(line, i);
        if i > 0 {
          assert FieldMarkAt(line[1..], i - 1);
        }
      }
    }
  }

  /** `indexOf` finds the first occurrence, and -1 means there is none. */
  lemma {:induction false} IndexOfIsFirst(s: string, c: char)
    ensures forall j | 0 <= j < |s| && (IndexOf(s, c) < 0 || j < IndexOf(s, c)) :: s[j] != c
  {
    if s != [] && s[0] != c {
      IndexOfIsFirst(s[1..], c);
      assert forall j | 1 <= j < |s| :: s[j] == s[1..][j - 1];
    }
  }

  /** The comment split point is the first `%` of the line, and there is
      none exactly when the line has no `%` or its first `%` is escaped. */
  lemma CommentStartIsFirst(line: string)
    ensures var k := CommentStart(line);
      && (0 <= k ==> k == IndexOf(line, '%') && '%' !in line[..k])
      && (k == -1 <==> '%' !in line || (var j := IndexOf(line, '%'); 0 < j && line[j - 1] == '\\'))
  {
    IndexOfIsFirst(line, '%');
    var j := IndexOf(line, '%');
    if 0 <= j {
      assert forall i | 0 <= i < j :: line[..j][i] == line[i];
    }
  }

  /** A prefix of a prefix is a prefix. */
  lemma StartsWithShorter(s: string, longer: string, shorter: string)
    requires StartsWith(s, longer) && shorter <= longer
    ensures StartsWith(s, shorter)
  {
    StartsWithIsPrefix(s, longer);
    StartsWithIsPrefix(s, shorter);
  }

  // ---------------------------------------------------------------------
  // The classification chain (src/LineTokenizer.ts:47-110)

  /** Only line 1 can be the declaration, exactly when it starts with
      `%abc`; its value is the version after `%abc-`, or else the line. */
  lemma ClassifyDeclaration(lineNumber: nat, inTextBlock: bool, inTune: bool, line: string)
    ensures var c := Classify(lineNumber, inTextBlock, inTune, line);
      && (c.tokenType.AbcDeclaration? <==> lineNumber == 1 && StartsWith(line, DeclarationPrefix))
      && (c.tokenType.AbcDeclaration? ==>
            && c.error.None? && c.inTextBlock == inTextBlock && c.value.Some?
            && (if StartsWith(line, VersionPrefix) then VersionPrefix + c.value.value == line
                else c.value.value == line))
  {
    if lineNumber == 1 && StartsWith(line, VersionPrefix) {
      AfterSplits(line, VersionPrefix);
    }
  }

  /** Inside a text block every line is Text: `%%endtext` ends the block
      (and warns when more than one character follows, ignoring surrounding
      white space), another `%%` line carries the text after `%%`, and any
      other line is reported and kept whole. */
  lemma TextBlockLines(line: string)
    ensures var c := ClassifyInTextBlock(line);
      && c.tokenType.Text? && c.value.Some?
      && (StartsWith(line, EndTextDirective) ==>
            && c.subType == Some(EndText) && EndTextDirective + c.value.value == line
            && !c.inTextBlock
            && (c.error.Some? <==> |Trim(c.value.value)| > 1)
            && (c.error.Some? ==> c.error.value == EndTextWarning))
      && (StartsWith(line, DirectivePrefix) && !StartsWith(line, EndTextDirective) ==>
            && c.subType == Some(TokenSubType.Text) && DirectivePrefix + c.value.value == line
            && c.inTextBlock && c.error.None?)
      && (!StartsWith(line, DirectivePrefix) ==>
            && c.subType == Some(TokenSubType.Text) && c.value.value == line
            && c.inTextBlock && c.error == Some(OutsideDirectiveWarning))
  {
    if StartsWith(line, EndTextDirective) {
      StartsWithShorter(line, EndTextDirective, DirectivePrefix);
      AfterSplits(line, EndTextDirective);
    } else if StartsWith(line, DirectivePrefix) {
      AfterSplits(line, DirectivePrefix);
    }
  }

  /** The order of the tests: after the declaration, a text block takes every
      line; outside one, a letter followed by a colon anywhere in the line
      makes it an information field, before any `%%` or comment test; then
      come the `%%` directives, then everything else. */
  lemma ClassifyOrder(lineNumber: nat, inTextBlock: bool, inTune: bool, line: string)
    requires !(lineNumber == 1 && StartsWith(line, DeclarationPrefix))
    ensures var c := Classify(lineNumber, inTextBlock, inTune, line);
      && (inTextBlock ==> c == ClassifyInTextBlock(line))
      && (!inTextBlock && (exists i :: FieldMarkAt(line, i)) ==>
            c == Classified(InformationField, None, Some(line), false, None))
      && (!inTextBlock && (forall i :: !FieldMarkAt(line, i)) && StartsWith(line, DirectivePrefix) ==>
            c == ClassifyDirective(line))
      && (!inTextBlock && (forall i :: !FieldMarkAt(line, i)) && !StartsWith(line, DirectivePrefix) ==>
            c == ClassifyOther(inTune, line))
  {
    FieldPatternAnywhere(line);
  }

  /** The directive a `%%` line was recognised as: its kind, sub-kind and
      the prefix that was cut off to give the value. */
  function DirectiveOf(c: Classified): string
  {
    if c.subType == Some(TokenSubType.Text) then TextDirective
    else if c.subType == Some(Center) then CenterDirective
    else if c.subType == Some(BeginText) then BeginTextDirective
    else DirectivePrefix
  }

  /** A `%%` line: `%%text`, `%%center` and `%%begintext` are tried in that
      order, anything else is a style sheet directive; the value is what
      follows the directive, only `%%begintext` opens a text block, and it
      warns when non-blank text follows. */
  lemma DirectiveLines(line: string)
    requires StartsWith(line, DirectivePrefix)
    ensures var c := ClassifyDirective(line);
      && (c.tokenType.Text? || c.tokenType.StyleSheet?)
      && c.value.Some? && DirectiveOf(c) + c.value.value == line
      && (c.subType == Some(TokenSubType.Text) <==> StartsWith(line, TextDirective))
      && (c.subType == Some(Center) <==> !StartsWith(line, TextDirective) && StartsWith(line, CenterDirective))
      && (c.subType == Some(BeginText) <==>
            !StartsWith(line, TextDirective) && !StartsWith(line, CenterDirective)
            && StartsWith(line, BeginTextDirective))
      && (c.tokenType.Text? <==> c.subType.Some?)
      && (c.tokenType.StyleSheet? <==>
            !StartsWith(line, TextDirective) && !StartsWith(line, CenterDirective)
            && !StartsWith(line, BeginTextDirective))
      && (c.inTextBlock <==> c.subType == Some(BeginText))
      && (c.error.Some? <==> c.subType == Some(BeginText) && |Trim(c.value.value)| > 0)
  {
    if StartsWith(line, TextDirective) {
      AfterSplits(line, TextDirective);
    } else if StartsWith(line, CenterDirective) {
      AfterSplits(line, CenterDirective);
    } else if StartsWith(line, BeginTextDirective) {
      AfterSplits(line, BeginTextDirective);
    } else {
      AfterSplits(line, DirectivePrefix);
    }
  }

  /** Any other line: a comment when its first `%` has only white space
      before it (the value is what follows that `%`), a blank line when it
      is all white space, and otherwise music code inside a tune and free
      text outside one, kept whole. */
  lemma OtherLines(inTune: bool, line: string)
    ensures var c := ClassifyOther(inTune, line);
      var k := IndexOf(line, '%');
      && !c.inTextBlock
      && (c.tokenType.Comment? <==> 0 <= k && IsBlank(line[..k]))
      && (c.tokenType.Comment? ==> c.value == Some(line[k + 1..]))
      && (c.tokenType.BlankLine? <==> forall i | 0 <= i < |line| :: IsWs(line[i]))
      && (c.tokenType.MusicCode? <==> inTune && !c.tokenType.Comment? && !c.tokenType.BlankLine?)
      && (c.tokenType.FreeText? <==> !inTune && !c.tokenType.Comment? && !c.tokenType.BlankLine?)
      && (c.tokenType.MusicCode? || c.tokenType.FreeText? ==> c.value == Some(line))
  {
    CommentLineIff(line);
    BlankIsAllWhitespace(line);
    TrimStartFacts(line);
  }

  /** `/^\s*%/` holds exactly when the first `%` of the line has only white
      space before it. */
  lemma CommentLineIff(line: string)
    ensures IsCommentLine(line) <==>
      0 <= IndexOf(line, '%') && IsBlank(line[..IndexOf(line, '%')])
  {
    var k := IndexOf(line, '%');
    if IsCommentLine(line) {
      TrimStartFacts(line);
      var t := |line| - |TrimStart(line)|;
      assert line[t] == '%';
      IndexOfIsFirst(line, '%');
      BlankIsAllWhitespace(line[..t]);
      assert forall j | 0 <= j < t :: line[..t][j] == line[j];
      assert k == t;
    } else if 0 <= k && IsBlank(line[..k]) {
      BlankIsAllWhitespace(line[..k]);
      assert forall i | 0 <= i < k :: line[..k][i] == line[i];
      SkipsWhitespace(line, k);
      assert false;
    }
  }

  /** `trimStart` skips a run of white space. */
  lemma {:induction false} SkipsWhitespace(s: string, j: int)
    requires 0 <= j < |s| && !IsWs(s[j])
    requires forall i | 0 <= i < j :: IsWs(s[i])
    ensures TrimStart(s) == s[j..]
  {
    if j > 0 {
      assert forall i | 0 <= i < j - 1 :: IsWs(s[1..][i]) by {
        assert forall i | 0 <= i < j - 1 :: s[1..][i] == s[i + 1];
      }
      SkipsWhitespace(s[1..], j - 1);
      assert s[1..][j - 1..] == s[j..];
    }
  }

  // ---------------------------------------------------------------------
  // One call of getToken (src/LineTokenizer.ts:22-129)

  /** What every call returns: a line token or EOF at the cursor, at most
      one error, music code only in a tune, free text only outside one, the
      declaration exactly when line 1 is read and starts with `%abc` (and
      never again afterwards), and a value on every line token but a blank
      line. */
  lemma ScanKinds(s: LineState, inTune: bool)
    requires s.Valid()
    ensures var r := Scan(s, inTune);
      && (r.token.tokenType.EOF? || IsLineKind(r.token.tokenType))
      && r.token.lineNumber == s.lineNumber && r.token.charNumber == s.charNumber
      && |r.raised| <= 1
      && (r.token.tokenType.MusicCode? ==> inTune)
      && (r.token.tokenType.FreeText? ==> !inTune)
      && (r.token.tokenType.AbcDeclaration? <==> !s.HasPendingComment() && s.DeclarationNext())
      && (r.token.tokenType.EOF? || r.token.tokenType.BlankLine? || r.token.value.Some?)
      && !r.next.DeclarationNext()
  {
    if !s.HasPendingComment() && !s.AtEnd() {
      ScanLineShape(s, inTune);
    }
  }

  /** A non-empty deferred comment comes first, as a Comment at the stored
      position; the slot is cleared and the cursor moves to the next line. */
  lemma ScanPendingComment(s: LineState, inTune: bool)
    requires s.Valid() && s.HasPendingComment()
    ensures var r := Scan(s, inTune);
      && r.token == Token(Comment, None, s.savedComment, s.lineNumber, s.charNumber)
      && r.next == s.(lineNumber := s.lineNumber + 1, charNumber := 1, savedComment := None)
      && r.raised == []
  {
  }

  /** Past the last line every call returns EOF at the cursor and changes
      nothing, so all later calls return the same EOF. */
  lemma ScanAtEnd(s: LineState, inTune: bool, inTune': bool)
    requires s.Valid() && s.AtEnd() && !s.HasPendingComment()
    ensures Scan(s, inTune) == Scanned(Token(EOF, None, None, s.lineNumber, s.charNumber), s, [])
    ensures Scan(Scan(s, inTune).next, inTune') == Scan(s, inTune)
  {
  }

  /** Reading a line: the token takes the classification's kind, sub-kind,
      errors and text-block mode. A music or field line whose first `%` is
      not escaped keeps the text before it, defers the rest, and leaves the
      cursor on the line at the `%`; any other line moves to the next line. */
  lemma ScanLineShape(s: LineState, inTune: bool)
    requires s.Valid() && !s.HasPendingComment() && !s.AtEnd()
    ensures var line := s.lines[s.lineNumber - 1];
      var c := Classify(s.lineNumber, s.inTextBlock, inTune, line);
      var k := CommentStart(line);
      var r := Scan(s, inTune);
      && r.token.tokenType == c.tokenType && r.token.subType == c.subType
      && r.token.lineNumber == s.lineNumber && r.token.charNumber == s.charNumber
      && r.raised == (if c.error.Some? then [ErrorToken(r.token, c.error.value)] else [])
      && r.next.lines == s.lines && r.next.inTextBlock == c.inTextBlock
      && if (c.tokenType.MusicCode? || c.tokenType.InformationField?) && 0 <= k then
           && r.token.value == Some(line[..k])
           && r.next.lineNumber == s.lineNumber && r.next.charNumber == k + 1
           && r.next.savedComment == Some(line[k + 1..])
         else
           && r.token.value == c.value
           && r.next.lineNumber == s.lineNumber + 1 && r.next.charNumber == 1
           && r.next.savedComment == s.savedComment
  {
    var line := s.lines[s.lineNumber - 1];
    var c := Classify(s.lineNumber, s.inTextBlock, inTune, line);
    if (c.tokenType.MusicCode? || c.tokenType.InformationField?) && 0 <= CommentStart(line) {
      ScanSplitsLine(s, inTune);
    } else {
      ScanKeepsLine(s, inTune);
    }
  }

  /** Reading a line that carries no comment to split off, exactly. */
  lemma ScanKeepsLine(s: LineState, inTune: bool)
    requires s.Valid() && !s.HasPendingComment() && !s.AtEnd()
    requires var line := s.lines[s.lineNumber - 1];
      var c := Classify(s.lineNumber, s.inTextBlock, inTune, line);
      !((c.tokenType.MusicCode? || c.tokenType.InformationField?) && 0 <= CommentStart(line))
    ensures var line := s.lines[s.lineNumber - 1];
      var c := Classify(s.lineNumber, s.inTextBlock, inTune, line);
      var t := Token(c.tokenType, c.subType, c.value, s.lineNumber, s.charNumber);
      Scan(s, inTune) == Scanned(t, s.(inTextBlock := c.inTextBlock, lineNumber := s.lineNumber + 1, charNumber := 1),
                                 Raised(t, c))
  {
    var line := s.lines[s.lineNumber - 1];
    var c := Classify(s.lineNumber, s.inTextBlock, inTune, line);
    assert Scan(s, inTune) == Finish(s, line, c);
    FinishKeeps(s, line, c);
  }

  lemma FinishKeeps(s: LineState, line: string, c: Classified)
    requires 1 <= s.lineNumber <= |s.lines| && 1 <= s.charNumber && !s.HasPendingComment()
    requires c.tokenType.AbcDeclaration? <==> s.DeclarationNext()
    requires !((c.tokenType.MusicCode? || c.tokenType.InformationField?) && 0 <= CommentStart(line))
    ensures var t := Token(c.tokenType, c.subType, c.value, s.lineNumber, s.charNumber);
      Finish(s, line, c) == Scanned(t, s.(inTextBlock := c.inTextBlock, lineNumber := s.lineNumber + 1, charNumber := 1),
                                    Raised(t, c))
  {
  }

  /** Splitting loses nothing: the kept text, the `%` and the deferred
      comment put back together give the line, and the next call returns
      the comment at the column of the `%` before moving to the next line. */
  lemma SplitRoundTrip(s: LineState, inTune: bool, inTune': bool)
    requires s.Valid() && !s.HasPendingComment() && !s.AtEnd()
    requires Scan(s, inTune).next.savedComment.Some?
    requires Scan(s, inTune).next.savedComment.value != ""
    ensures var line := s.lines[s.lineNumber - 1];
      var r := Scan(s, inTune);
      var r' := Scan(r.next, inTune');
      && r.token.value.Some?
      && r.token.value.value + "%" + r.next.savedComment.value == line
      && r'.token == Token(Comment, None, r.next.savedComment, s.lineNumber, r.next.charNumber)
      && r.next.charNumber == |r.token.value.value| + 1
      && r'.next.lineNumber == s.lineNumber + 1 && r'.next.charNumber == 1
  {
    ScanLineShape(s, inTune);
    var line := s.lines[s.lineNumber - 1];
    var k := CommentStart(line);
    var c := Classify(s.lineNumber, s.inTextBlock, inTune, line);
    if (c.tokenType.MusicCode? || c.tokenType.InformationField?) && 0 <= k {
      assert line[..k] + "%" + line[k + 1..] == line by {
        assert line == line[..k] + [line[k]] + line[k + 1..];
      }
    }
    else {
      assert false;
    }
  }

  /** Every call lowers the measure, except EOF, which changes nothing, and
      a split whose deferred comment is empty: an empty comment is not
      returned, so the same line is read again. */
  lemma ScanProgress(s: LineState, inTune: bool)
    requires s.Valid()
    ensures var r := Scan(s, inTune);
      || r.next.Measure() < s.Measure()
      || (r.token.tokenType.EOF? && r.next == s)
      || (&& (r.token.tokenType.MusicCode? || r.token.tokenType.InformationField?)
          && r.next.lineNumber == s.lineNumber && r.next.savedComment == Some("")
          && r.next.Measure() == s.Measure())
  {
    if !s.HasPendingComment() && !s.AtEnd() {
      ScanLineShape(s, inTune);
    }
  }

  /** Reading a music or field line that carries a comment, exactly. */
  lemma ScanSplitsLine(s: LineState, inTune: bool)
    requires s.Valid() && !s.HasPendingComment() && !s.AtEnd()
    requires var line := s.lines[s.lineNumber - 1];
      var c := Classify(s.lineNumber, s.inTextBlock, inTune, line);
      (c.tokenType.MusicCode? || c.tokenType.InformationField?) && 0 <= CommentStart(line)
    ensures var line := s.lines[s.lineNumber - 1];
      var c := Classify(s.lineNumber, s.inTextBlock, inTune, line);
      var k := CommentStart(line);
      && !s.inTextBlock
      && Scan(s, inTune) == Scanned(Token(c.tokenType, None, Some(line[..k]), s.lineNumber, s.charNumber),
                                    s.(charNumber := k + 1, savedComment := Some(line[k + 1..])), [])
  {
    var line := s.lines[s.lineNumber - 1];
    var c := Classify(s.lineNumber, s.inTextBlock, inTune, line);
    assert !s.inTextBlock && !c.inTextBlock && c.subType.None? && c.error.None?;
    assert Scan(s, inTune) == Finish(s, line, c);
    FinishSplits(s, line, c);
  }

  lemma FinishSplits(s: LineState, line: string, c: Classified)
    requires 1 <= s.lineNumber <= |s.lines| && 1 <= s.charNumber && !s.HasPendingComment()
    requires c.tokenType.AbcDeclaration? <==> s.DeclarationNext()
    requires (c.tokenType.MusicCode? || c.tokenType.InformationField?) && 0 <= CommentStart(line)
    requires c.subType.None? && c.error.None?
    ensures var k := CommentStart(line);
      Finish(s, line, c) == Scanned(Token(c.tokenType, None, Some(line[..k]), s.lineNumber, s.charNumber),
                                    s.(inTextBlock := c.inTextBlock, charNumber := k + 1, savedComment := Some(line[k + 1..])), [])
  {
  }

  /** The stall, in general: when the first unescaped `%` of a music or
      field line is its last character, the state after reading it reads
      the same line again, returning the same token and state forever. */
  lemma EmptyCommentStalls(s: LineState, inTune: bool)
    requires s.Valid() && !s.HasPendingComment() && !s.AtEnd()
    requires var line := s.lines[s.lineNumber - 1];
      var c := Classify(s.lineNumber, s.inTextBlock, inTune, line);
      (c.tokenType.MusicCode? || c.tokenType.InformationField?) && CommentStart(line) == |line| - 1
    ensures var r := Scan(s, inTune);
      && r.next.lineNumber == s.lineNumber
      && Scan(r.next, inTune).next == r.next
      && Scan(r.next, inTune).token == r.token.(charNumber := r.next.charNumber)
  {
    var line := s.lines[s.lineNumber - 1];
    ScanSplitsLine(s, inTune);
    assert line[|line| - 1 + 1..] == "";
    var s' := s.(charNumber := |line|, savedComment := Some(""));
    assert Scan(s, inTune).next == s';
    ScanSplitsLine(s', inTune);
  }

  /** A concrete stall: the one-line document `K:C%` is a field whose
      comment is empty, and the tokenizer stays on line 1 for good. */
  lemma StallExample(inTune: bool)
    ensures var r := Scan(Start(["K:C%"]), inTune);
      && r.token == Token(InformationField, None, Some("K:C"), 1, 1)
      && r.next == LineState(["K:C%"], 1, 4, Some(""), false)
      && Scan(r.next, inTune) == Scanned(Token(InformationField, None, Some("K:C"), 1, 4), r.next, [])
  {
    var line := "K:C%";
    var s := Start([line]);
    assert FieldMarkAt(line, 0) && HasFieldPattern(line);
    assert !StartsWith(line, DeclarationPrefix);
    assert IndexOf(line, '%') == 3 && CommentStart(line) == 3;
    assert line[..3] == "K:C" && line[4..] == "";
    var c := Classify(1, false, inTune, line);
    assert c == Classified(InformationField, None, Some(line), false, None);
    assert Scan(s, inTune) == Finish(s, line, c);
  }
}
