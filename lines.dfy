/**
 * The first stage of the tokenizer (src/LineTokenizer.ts): it walks the
 * physical lines of a document with a cursor, classifies each line, and
 * splits a trailing `%` comment off music and field lines, returning it as a
 * separate Comment token on the next call.
 *
 * `Scan` is the specification of one call of `getToken`; the class
 * `LineTokenizer` keeps the source's mutable fields and is proved to update
 * them as `Scan` says.
 */
module Lines {
  import opened Tokens
  import opened Errors

  const DeclarationPrefix := "%abc"
  const VersionPrefix := "%abc-"
  const DirectivePrefix := "%%"
  const TextDirective := "%%text"
  const CenterDirective := "%%center"
  const BeginTextDirective := "%%begintext"
  const EndTextDirective := "%%endtext"

  const EndTextWarning := "Text after %%endtext will be ignored"
  const OutsideDirectiveWarning := "Line between begintext and %%endtext does not begin with %%"
  const BeginTextWarning := "Text after %%begintext will be ignored"

  /** White space as matched by `\s` and removed by `trim()` (ASCII part). */
  predicate IsWs(c: char)
  {
    c == ' ' || c == '\t' || c == '\n' || c == '\r' || c == '\U{000B}' || c == '\U{000C}'
  }

  /** `/^\s*$/.test(s)`: nothing but white space. */
  predicate IsBlank(s: string)
  {
    s == [] || (IsWs(s[0]) && IsBlank(s[1..]))
  }

  predicate IsAsciiLetter(c: char)
  {
    ('A' <= c <= 'Z') || ('a' <= c <= 'z')
  }

  /** `s` without its leading white space. */
  function TrimStart(s: string): (r: string)
  {
    if s != [] && IsWs(s[0]) then TrimStart(s[1..]) else s
  }

  /** `s` without its trailing white space. */
  function TrimEnd(s: string): (r: string)
  {
    if s != [] && IsWs(s[|s| - 1]) then TrimEnd(s[..|s| - 1]) else s
  }

  /** `s.trim()` */
  function Trim(s: string): string
  {
    TrimEnd(TrimStart(s))
  }

  /** `s.indexOf(c)`: the first position of `c`, or -1 when there is none. */
  function IndexOf(s: string, c: char): (i: int)
    ensures -1 <= i < |s|
    ensures 0 <= i ==> s[i] == c
  {
    if s == [] then -1
    else if s[0] == c then 0
    else
      var k := IndexOf(s[1..], c);
      if k < 0 then -1 else k + 1
  }

  /** A letter at `i` immediately followed by a colon. */
  predicate FieldMarkAt(line: string, i: int)
  {
    0 <= i < |line| - 1 && IsAsciiLetter(line[i]) && line[i + 1] == ':'
  }

  /** `/[A-Za-z]:/.test(line)`: a letter immediately followed by a colon,
      anywhere in the line (scanned from the left). */
  predicate HasFieldPattern(line: string)
  {
    |line| >= 2 && (FieldMarkAt(line, 0) || HasFieldPattern(line[1..]))
  }

  /** `/^\s*%/.test(line)` */
  predicate IsCommentLine(line: string)
  {
    var t := TrimStart(line);
    t != [] && t[0] == '%'
  }

  /** Where a trailing comment starts: the first `%` of the line when it is
      not preceded by a backslash, otherwise -1 (no `%` at all, or the
      first one escaped). */
  function CommentStart(line: string): (k: int)
    ensures -1 <= k < |line|
    ensures 0 <= k ==> line[k] == '%' && (k == 0 || line[k - 1] != '\\')
  {
    var pc := IndexOf(line, '%');
    if pc != -1 && !(pc > 0 && line[pc - 1] == '\\') then pc else -1
  }

  /** The kinds of token a classified line can have. */
  predicate IsLineKind(k: TokenType)
  {
    || k.AbcDeclaration? || k.BlankLine? || k.Comment? || k.FreeText?
    || k.InformationField? || k.MusicCode? || k.StyleSheet? || k.Text?
  }

  /** The outcome of classifying one line: the token's kind, sub-kind and
      value, the new text-block mode, and the error reported, if any. */
  datatype Classified = Classified(
    tokenType: TokenType,
    subType: Option<TokenSubType>,
    value: Option<string>,
    inTextBlock: bool,
    error: Option<string>)

  /** The first-match-wins classification chain of `getToken`. */
  function Classify(lineNumber: nat, inTextBlock: bool, inTune: bool, line: string): (c: Classified)
    ensures c.tokenType.AbcDeclaration? <==> lineNumber == 1 && StartsWith(line, DeclarationPrefix)
    ensures IsLineKind(c.tokenType)
    ensures c.tokenType.MusicCode? ==> inTune
    ensures c.tokenType.FreeText? ==> !inTune
    ensures c.value.None? <==> c.tokenType.BlankLine?
    ensures c.subType.Some? <==> c.tokenType.Text?
    ensures c.error.Some? ==> c.tokenType.Text?
  {
    if lineNumber == 1 && StartsWith(line, DeclarationPrefix) then
      Classified(AbcDeclaration, None,
                 Some(if StartsWith(line, VersionPrefix) then After(line, VersionPrefix) else line),
                 inTextBlock, None)
    else if inTextBlock then
      ClassifyInTextBlock(line)
    else if HasFieldPattern(line) then
      Classified(InformationField, None, Some(line), false, None)
    else if StartsWith(line, DirectivePrefix) then
      ClassifyDirective(line)
    else
      ClassifyOther(inTune, line)
  }

  /** A line between `%%begintext` and `%%endtext`. */
  function ClassifyInTextBlock(line: string): (c: Classified)
    ensures c.tokenType.Text? && c.subType.Some? && c.value.Some?
  {
    if StartsWith(line, DirectivePrefix) then
      if StartsWith(line, EndTextDirective) then
        var rest := After(line, EndTextDirective);
        Classified(TokenType.Text, Some(EndText), Some(rest), false,
                   if |Trim(rest)| > 1 then Some(EndTextWarning) else None)
      else
        Classified(TokenType.Text, Some(TokenSubType.Text), Some(After(line, DirectivePrefix)), true, None)
    else
      Classified(TokenType.Text, Some(TokenSubType.Text), Some(line), true, Some(OutsideDirectiveWarning))
  }

  /** A `%%` line outside a text block that is not a field. */
  function ClassifyDirective(line: string): (c: Classified)
    requires StartsWith(line, DirectivePrefix)
    ensures (c.tokenType.Text? && c.subType.Some?) || (c.tokenType.StyleSheet? && c.subType.None?)
    ensures c.value.Some? && (c.error.Some? ==> c.tokenType.Text?)
  {
    if StartsWith(line, TextDirective) then
      Classified(TokenType.Text, Some(TokenSubType.Text), Some(After(line, TextDirective)), false, None)
    else if StartsWith(line, CenterDirective) then
      Classified(TokenType.Text, Some(Center), Some(After(line, CenterDirective)), false, None)
    else if StartsWith(line, BeginTextDirective) then
      var rest := After(line, BeginTextDirective);
      Classified(TokenType.Text, Some(BeginText), Some(rest), true,
                 if |Trim(rest)| > 0 then Some(BeginTextWarning) else None)
    else
      Classified(StyleSheet, None, Some(After(line, DirectivePrefix)), false, None)
  }

  /** A line outside a text block that is neither a field nor a directive. */
  function ClassifyOther(inTune: bool, line: string): (c: Classified)
    ensures c.tokenType.Comment? || c.tokenType.BlankLine? || c.tokenType.MusicCode? || c.tokenType.FreeText?
    ensures c.tokenType.MusicCode? ==> inTune
    ensures c.tokenType.FreeText? ==> !inTune
    ensures c.value.None? <==> c.tokenType.BlankLine?
    ensures c.subType.None? && c.error.None?
  {
    if IsCommentLine(line) then
      Classified(Comment, None, Some(line[IndexOf(line, '%') + 1..]), false, None)
    else if IsBlank(line) then
      Classified(BlankLine, None, None, false, None)
    else
      Classified(if inTune then MusicCode else TokenType.FreeText, None, Some(line), false, None)
  }

  /** The fields of a `LineTokenizer`. */
  datatype LineState = LineState(
    lines: seq<string>,
    lineNumber: nat,
    charNumber: nat,
    savedComment: Option<string>,
    inTextBlock: bool)
  {
    /** A deferred comment is returned only when it is non-empty: the
        source tests it for truthiness, and "" is false. */
    predicate HasPendingComment()
    {
      savedComment.Some? && savedComment.value != ""
    }

    predicate AtEnd()
    {
      lineNumber > |lines|
    }

    /** The next line read will be the ABC declaration. */
    predicate DeclarationNext()
    {
      lineNumber == 1 && |lines| > 0 && StartsWith(lines[0], DeclarationPrefix)
    }

    /** The cursor stays within the document (one past its last line at the
        end), and a pending comment belongs to a line that was read and
        split, which is never the declaration. */
    predicate Valid()
    {
      && 1 <= lineNumber <= |lines| + 1
      && 1 <= charNumber
      && (HasPendingComment() ==> lineNumber <= |lines| && !DeclarationNext())
    }

    /** Work left: two units per unread line, one more unless a deferred
        comment is waiting. Every call that returns neither EOF nor a line
        whose split-off comment is empty lowers it. */
    function Measure(): nat
      requires Valid()
    {
      2 * (|lines| + 1 - lineNumber) + (if HasPendingComment() then 0 else 1)
    }
  }

  /** The state of a freshly constructed tokenizer. */
  function Start(lines: seq<string>): (s: LineState)
    ensures s.Valid()
  {
    LineState(lines, 1, 1, None, false)
  }

  /** One call of `getToken`: the token returned, the new state, and the
      errors reported (as the Error tokens the callback would receive). */
  datatype Scanned = Scanned(token: Token, next: LineState, raised: seq<Token>)

  /** One call of `getToken(inTune)` on a tokenizer in state `s`. */
  function Scan(s: LineState, inTune: bool): (r: Scanned)
    requires s.Valid()
    ensures r.next.Valid() && r.next.lines == s.lines
  {
    var here := Token(TokenType.Error, None, None, s.lineNumber, s.charNumber);
    if s.HasPendingComment() then
      Scanned(here.(tokenType := Comment, value := s.savedComment),
              s.(lineNumber := s.lineNumber + 1, charNumber := 1, savedComment := None),
              [])
    else if s.AtEnd() then
      Scanned(here.(tokenType := EOF), s, [])
    else
      ScanLine(s, inTune)
  }

  /** `Scan` when a line is read: classify it, then finish the token. */
  function ScanLine(s: LineState, inTune: bool): (r: Scanned)
    requires s.Valid() && !s.HasPendingComment() && !s.AtEnd()
    ensures r.next.Valid() && r.next.lines == s.lines
  {
    var line := s.lines[s.lineNumber - 1];
    Finish(s, line, Classify(s.lineNumber, s.inTextBlock, inTune, line))
  }

  /** The errors reported while reading the line that yields `t`. */
  function Raised(t: Token, c: Classified): (raised: seq<Token>)
  {
    if c.error.Some? then [ErrorToken(t, c.error.value)] else []
  }

  /** The end of `getToken` once line `line` has been classified as `c`. */
  function Finish(s: LineState, line: string, c: Classified): (r: Scanned)
    requires 1 <= s.lineNumber <= |s.lines| && 1 <= s.charNumber && !s.HasPendingComment()
    requires c.tokenType.AbcDeclaration? <==> s.DeclarationNext()
    ensures r.next.Valid() && r.next.lines == s.lines
  {
    var t := Token(c.tokenType, c.subType, c.value, s.lineNumber, s.charNumber);
    CommentSplit(s.(inTextBlock := c.inTextBlock), line, t).(raised := Raised(t, c))
  }

  /** A music or field line whose first `%` is not escaped keeps the text
      before it, and the text after it is deferred as the next token with the
      column moved to the `%`; any other line moves the cursor on. */
  function CommentSplit(s: LineState, line: string, t: Token): (r: Scanned)
    requires 1 <= s.lineNumber <= |s.lines| && 1 <= s.charNumber && !s.HasPendingComment()
    requires t.tokenType.AbcDeclaration? <==> s.DeclarationNext()
    ensures r.next.Valid() && r.next.lines == s.lines && r.raised == []
  {
    var k := CommentStart(line);
    if (t.tokenType.MusicCode? || t.tokenType.InformationField?) && 0 <= k then
      Scanned(t.(value := Some(line[..k])), s.(charNumber := k + 1, savedComment := Some(line[k + 1..])), [])
    else
      Scanned(t, s.(lineNumber := s.lineNumber + 1, charNumber := 1), [])
  }

  class LineTokenizer {
    const lines: seq<string>
    var lineNumber: nat
    var charNumber: nat
    var savedComment: Option<string>
    var inTextBlock: bool
    /** The error sink this tokenizer inherits in the source. */
    const base: BaseTokenizer

    function Model(): LineState
      reads this
    {
      LineState(lines, lineNumber, charNumber, savedComment, inTextBlock)
    }

    ghost predicate Valid()
      reads this
    {
      Model().Valid()
    }

    /** Takes the document already split into lines. */
    constructor (lines: seq<string>)
      ensures Valid() && Model() == Start(lines)
      ensures fresh(base) && base.errorCB == None && base.delivered == []
    {
      this.lines := lines;
      lineNumber := 1;
      charNumber := 1;
      savedComment := None;
      inTextBlock := false;
      base := new BaseTokenizer();
    }

    /** Returns the next line token; `inTune` decides whether an
        unclassified line is music code or free text. */
    method GetToken(inTune: bool) returns (token: Token)
      requires Valid()
      modifies this, base
      ensures Valid()
      ensures token == Scan(old(Model()), inTune).token
      ensures Model() == Scan(old(Model()), inTune).next
      ensures base.errorCB == old(base.errorCB)
      ensures base.delivered == old(base.delivered) + Deliveries(base.errorCB, Scan(old(Model()), inTune).raised)
    {
      token := Token(TokenType.Error, None, None, lineNumber, charNumber);

      if savedComment.Some? && savedComment.value != "" {
        token := token.(tokenType := Comment, value := savedComment);
        lineNumber := lineNumber + 1;
        charNumber := 1;
        savedComment := None;
        return;
      }

      if lineNumber > |lines| {
        token := token.(tokenType := EOF);
        return;
      }

      token := ReadLine(inTune);
    }

    /** The part of `getToken` that reads and classifies a line. */
    method ReadLine(inTune: bool) returns (token: Token)
      requires Valid() && !Model().HasPendingComment() && !Model().AtEnd()
      modifies this, base
      ensures token == ScanLine(old(Model()), inTune).token
      ensures Model() == ScanLine(old(Model()), inTune).next
      ensures base.errorCB == old(base.errorCB)
      ensures base.delivered == old(base.delivered) + Deliveries(base.errorCB, ScanLine(old(Model()), inTune).raised)
    {
      ghost var s := Model();
      var line := lines[lineNumber - 1];
      var c := Classify(lineNumber, inTextBlock, inTune, line);
      assert ScanLine(s, inTune) == Finish(s, line, c);
      token := Token(c.tokenType, c.subType, c.value, lineNumber, charNumber);
      assert ScanLine(s, inTune).raised == Raised(token, c);
      if c.error.Some? {
        base.Error(token, c.error.value);
      }
      assert base.delivered == old(base.delivered) + Deliveries(base.errorCB, Raised(token, c));
      assert Model() == s;
      inTextBlock := c.inTextBlock;
      assert Model() == s.(inTextBlock := c.inTextBlock);
      token := SplitComment(line, token);
    }

    /** Splits a trailing comment off the line just read (see `CommentSplit`). */
    method SplitComment(line: string, t: Token) returns (token: Token)
      requires 1 <= lineNumber <= |lines| && 1 <= charNumber && !Model().HasPendingComment()
      requires t.tokenType.AbcDeclaration? <==> Model().DeclarationNext()
      modifies this
      ensures token == CommentSplit(old(Model()), line, t).token
      ensures Model() == CommentSplit(old(Model()), line, t).next
    {
      ghost var s := Model();
      ghost var k := CommentStart(line);
      token := t;
      // only music code and information field lines can carry a comment
      var pcidx := IndexOf(line, '%');
      if (token.tokenType.MusicCode? || token.tokenType.InformationField?)
         && pcidx != -1 && !(pcidx > 0 && line[pcidx - 1] == '\\')
      {
        assert pcidx == k;
        savedComment := Some(line[pcidx + 1..]);
        charNumber := pcidx + 1;
        token := token.(value := Some(line[..pcidx]));
        assert Model() == s.(charNumber := k + 1, savedComment := Some(line[k + 1..]));
      }
      else {
        assert !((t.tokenType.MusicCode? || t.tokenType.InformationField?) && 0 <= k);
        lineNumber := lineNumber + 1;
        charNumber := 1;
        assert Model() == s.(lineNumber := s.lineNumber + 1, charNumber := 1);
      }
    }
  }
}
