/**
 * The second stage of the tokenizer (old/FileTokenizer.ts): it pulls line
 * tokens, tracks the section of the file it is in, and surrounds the file
 * header, each tune header and each tune body with synthesised start and
 * end tokens. A token can be put back for one more round (`savedInToken`)
 * and tokens can be queued for the next calls (`outQueue`).
 *
 * `Step` is the specification of one call of `getTokenInternal` and
 * `NextToken` of one call of `getToken`; the class `FileTokenizer` keeps the
 * source's fields and is proved to update them as these say.
 */
module FileTokens {
  import opened Tokens
  import opened Errors
  import opened Lines
  import opened LineFacts
  import opened Sections

  const MissingDeclaration := "Missing ABC declaration"
  const MissingDeclarationAndHeader := "Missing ABC declaration and no file header"
  const FreeTextAtStart := "Unexpected free text at beginning of file"
  const TypesetTextAtStart := "Unexpected typeset text at beginning of file"
  const FreeTextInHeader := "Unexpected free text in the file header"
  const TypesetTextInHeader := "Unexpected typeset text in the file header"
  const StyleSheetBetweenTunes := "Unexpected stylesheet directive between tunes"
  const FieldInFreeText := "Unexpected information field in free text section"
  const TextInFreeText := "Unexpected text directive in free text section"
  const FieldInTypesetText := "Unexpected information field in typeset text section"
  const StyleSheetInTypesetText := "Unexpected stylesheet directive in typeset text section"
  const FreeTextInTypesetText := "Unexpected free text directive in typeset text section"

  function NotATuneStart(t: Token): string
  {
    "Got information field to start a tune, but it is not X: '" + Shown(t.value) + "'"
  }

  /** The fields of a `FileTokenizer`, with the line tokenizer's state. */
  datatype FileModel = FileModel(
    lt: LineState,
    state: FileState,
    saved: Option<Token>,
    queue: seq<Token>,
    gotK: bool,
    started: bool)
  {
    /** What the fields always satisfy between calls: at most one queued
        token; a saved token is one the section it waits in emits at once
        and carries a value; the queue and the slot are both in use only
        between a tune header end and the music code that caused it; the
        declaration is read only in the initial section; the flag for an
        open file header is set only in the file header. */
    predicate Valid()
    {
      && lt.Valid()
      && |queue| <= 1
      && (saved.Some? ==> SlotOk(state, saved.value.tokenType) && saved.value.value.Some?)
      && (queue != [] && saved.Some? ==>
            state.TuneBody? && queue[0].tokenType.TuneBodyStart? && saved.value.tokenType.MusicCode?)
      && (lt.DeclarationNext() ==> state.Initial? && saved.None? && queue == [])
      && (started ==> state.FileHeader?)
    }

    /** Bounds the calls of `getTokenInternal` that return nothing. */
    function Measure(): nat
      requires lt.Valid()
    {
      2 * lt.Measure() + (if saved.None? then 1 else 0)
    }
  }

  /** The kinds of token that are put back in each section. */
  predicate SlotOk(state: FileState, k: TokenType)
  {
    match state
    case Initial => false
    case FileHeader => k.InformationField? || k.StyleSheet?
    case InterTune => k.InformationField?
    case FreeText => k.FreeText?
    case TypesetText => k.Text?
    case TuneHeader => k.InformationField?
    case TuneBody => k.MusicCode?
  }

  /** A freshly constructed tokenizer over `lines`. */
  function Begin(lines: seq<string>): (m: FileModel)
    ensures m.Valid()
  {
    FileModel(Start(lines), Initial, None, [], false, false)
  }

  /** One call of `getTokenInternal`: the token returned, if any, the new
      fields, and the errors reported. */
  datatype Stepped = Stepped(out: Option<Token>, next: FileModel, errors: seq<Token>)

  /** The token a step works on when nothing is queued: the saved one,
      else a fresh one from the line tokenizer. The line tokenizer's own
      errors go to its own sink, which never has a callback. */
  function Incoming(m: FileModel): (r: Scanned)
    requires m.lt.Valid()
  {
    if m.saved.Some? then Scanned(m.saved.value, m.lt, [])
    else Scan(m.lt, m.state.IsInTune())
  }

  /** One call of `getTokenInternal`. */
  function Step(m: FileModel): (r: Stepped)
    requires m.Valid()
  {
    if m.queue != [] then
      Stepped(Some(m.queue[0]), m.(queue := m.queue[1..]), [])
    else
      IncomingAdmissible(m);
      var inc := Incoming(m);
      Dispatch(m.(lt := inc.next, saved := None), inc.token)
  }

  /** A token taken from the slot or the line tokenizer is admissible. */
  lemma IncomingAdmissible(m: FileModel)
    requires m.Valid()
    ensures Admissible(m.state, Incoming(m).token)
    ensures !Incoming(m).next.DeclarationNext()
  {
    if m.saved.None? {
      PulledAdmissible(m.lt, m.state);
    }
  }

  /** What happens to the token `t` once it has been taken: comments pass,
      EOF closes an open file header, anything else goes to the section. */
  function Dispatch(m: FileModel, t: Token): (r: Stepped)
    requires Admissible(m.state, t)
  {
    if t.tokenType.Comment? then Stepped(Some(t), m, [])
    else if t.tokenType.EOF? then
      if m.started then Stepped(Some(Retyped(t, FileHeaderEnd)), m.(queue := m.queue + [t]), [])
      else Stepped(Some(t), m, [])
    else
      match m.state
      case Initial => InInitial(m, t)
      case FileHeader => InFileHeader(m, t)
      case InterTune => InInterTune(m, t)
      case FreeText => InFreeText(m, t)
      case TypesetText => InTypesetText(m, t)
      case TuneHeader => InTuneHeader(m, t)
      case TuneBody => InTuneBody(m, t)
  }

  function InInitial(m: FileModel, t: Token): (r: Stepped)
  {
    var k := t.tokenType;
    if k.AbcDeclaration? then
      Stepped(Some(t), m.(state := FileHeader),
              if t.value != Some(SupportedVersion) then [ErrorToken(t, UnsupportedVersion(t))] else [])
    else if k.InformationField? || k.StyleSheet? then
      Stepped(None, m.(state := FileHeader, saved := Some(t)), [ErrorToken(t, MissingDeclaration)])
    else if k.BlankLine? then
      Stepped(None, m.(state := InterTune), [ErrorToken(t, MissingDeclarationAndHeader)])
    else if k.FreeText? then
      Stepped(Some(t), m.(state := FileState.FreeText), [ErrorToken(t, FreeTextAtStart)])
    else if k.Text? then
      Stepped(Some(t), m.(state := TypesetText), [ErrorToken(t, TypesetTextAtStart)])
    else
      Stepped(Some(t), m, [])
  }

  function InFileHeader(m: FileModel, t: Token): (r: Stepped)
  {
    var k := t.tokenType;
    if k.InformationField? || k.StyleSheet? then
      if !m.started then
        Stepped(Some(Retyped(t, FileHeaderStart)), m.(started := true, queue := m.queue + [t]), [])
      else
        Stepped(Some(t), m, [])
    else if k.BlankLine? then
      if m.started then
        Stepped(Some(Retyped(t, FileHeaderEnd)), m.(state := InterTune, started := false), [])
      else
        Stepped(None, m.(state := InterTune), [])
    else if k.FreeText? then
      if m.started then
        Stepped(Some(Retyped(t, FileHeaderEnd)),
                m.(state := FileState.FreeText, started := false, saved := Some(t)),
                [ErrorToken(t, FreeTextInHeader)])
      else
        Stepped(Some(t), m.(state := FileState.FreeText), [ErrorToken(t, FreeTextInHeader)])
    else if k.Text? then
      if m.started then
        Stepped(Some(Retyped(t, FileHeaderEnd)),
                m.(state := TypesetText, started := false, saved := Some(t)),
                [ErrorToken(t, TypesetTextInHeader)])
      else
        Stepped(Some(t), m.(state := TypesetText), [ErrorToken(t, TypesetTextInHeader)])
    else
      Stepped(Some(t), m, [])
  }

  function InInterTune(m: FileModel, t: Token): (r: Stepped)
    requires t.tokenType.InformationField? ==> t.value.Some?
  {
    var k := t.tokenType;
    if k.InformationField? then
      Stepped(Some(Retyped(t, TuneHeaderStart)), m.(state := TuneHeader, saved := Some(t)),
              if !StartsWith(t.value.value, TuneStart) then [ErrorToken(t, NotATuneStart(t))] else [])
    else if k.StyleSheet? then
      Stepped(Some(t), m, [ErrorToken(t, StyleSheetBetweenTunes)])
    else if k.BlankLine? then
      Stepped(None, m, [])
    else if k.FreeText? then
      Stepped(Some(t), m.(state := FileState.FreeText), [])
    else if k.Text? then
      Stepped(Some(t), m.(state := TypesetText), [])
    else
      Stepped(Some(t), m, [])
  }

  function InFreeText(m: FileModel, t: Token): (r: Stepped)
  {
    var k := t.tokenType;
    if k.FreeText? then
      Stepped(Some(t), m, [])
    else if k.BlankLine? then
      Stepped(None, m.(state := InterTune), [])
    else if k.InformationField? then
      Stepped(None, m.(state := InterTune, saved := Some(t)), [ErrorToken(t, FieldInFreeText)])
    else if k.StyleSheet? then
      Stepped(Some(t), m.(state := InterTune), [ErrorToken(t, StyleSheetBetweenTunes)])
    else if k.Text? then
      Stepped(Some(t), m.(state := TypesetText), [ErrorToken(t, TextInFreeText)])
    else
      Stepped(Some(t), m, [])
  }

  function InTypesetText(m: FileModel, t: Token): (r: Stepped)
  {
    var k := t.tokenType;
    if k.Text? then
      Stepped(Some(t), m, [])
    else if k.InformationField? then
      Stepped(None, m.(state := InterTune, saved := Some(t)), [ErrorToken(t, FieldInTypesetText)])
    else if k.StyleSheet? then
      Stepped(Some(t), m.(state := InterTune), [ErrorToken(t, StyleSheetInTypesetText)])
    else if k.BlankLine? then
      Stepped(None, m.(state := InterTune), [])
    else if k.FreeText? then
      Stepped(Some(t), m.(state := FileState.FreeText), [ErrorToken(t, FreeTextInTypesetText)])
    else
      Stepped(Some(t), m, [])
  }

  function InTuneHeader(m: FileModel, t: Token): (r: Stepped)
    requires t.tokenType.InformationField? ==> t.value.Some?
  {
    var k := t.tokenType;
    if k.InformationField? then
      if StartsWith(t.value.value, KeyField) then Stepped(Some(t), m.(gotK := true), [])
      else Stepped(Some(t), m, if m.gotK then [ErrorToken(t, FieldAfterKey)] else [])
    else if k.BlankLine? then
      Stepped(Some(Retyped(t, TuneHeaderEnd)), m.(state := InterTune), [])
    else if k.MusicCode? then
      Stepped(Some(Retyped(t, TuneHeaderEnd)),
              m.(gotK := false, state := TuneBody, saved := Some(t),
                 queue := m.queue + [Retyped(t, TuneBodyStart)]),
              if !m.gotK then [ErrorToken(t, MissingKey)] else [])
    else
      Stepped(Some(t), m, [])
  }

  function InTuneBody(m: FileModel, t: Token): (r: Stepped)
  {
    if t.tokenType.BlankLine? then
      Stepped(Some(Retyped(t, TuneBodyEnd)), m.(state := InterTune), [])
    else
      Stepped(Some(t), m, [])
  }

  /** The result of one call of `getToken`. */
  datatype Fetched = Fetched(token: Token, next: FileModel, errors: seq<Token>)

  /** One call of `getToken`: steps until a step returns a token. */
  function NextToken(m: FileModel): (r: Fetched)
    requires m.Valid()
    ensures r.next.Valid()
    decreases m.Measure()
  {
    StepKeepsValid(m);
    var s := Step(m);
    if s.out.Some? then
      Fetched(s.out.value, s.next, s.errors)
    else
      StepProgress(m);
      var f := NextToken(s.next);
      Fetched(f.token, f.next, s.errors + f.errors)
  }

  /** `f` preceded by steps that returned nothing and reported `errors`. */
  function Preceded(errors: seq<Token>, f: Fetched): Fetched
  {
    Fetched(f.token, f.next, errors + f.errors)
  }

  lemma PrecededTwice(a: seq<Token>, b: seq<Token>, f: Fetched)
    ensures Preceded(a, Preceded(b, f)) == Preceded(a + b, f)
  {
    assert a + (b + f.errors) == (a + b) + f.errors;
  }

  /** One step of `NextToken`. */
  lemma NextTokenUnfold(m: FileModel)
    requires m.Valid()
    ensures Step(m).next.Valid()
    ensures Step(m).out.Some? ==> NextToken(m) == Fetched(Step(m).out.value, Step(m).next, Step(m).errors)
    ensures Step(m).out.None? ==> NextToken(m) == Preceded(Step(m).errors, NextToken(Step(m).next))
  {
    StepKeepsValid(m);
  }

  // ---------------------------------------------------------------------
  // The invariant and the measure

  /** The fields as the section switch sees them: nothing queued, the slot
      emptied, the declaration already read. */
  predicate Ready(m: FileModel)
  {
    && m.lt.Valid() && m.queue == [] && m.saved.None? && !m.lt.DeclarationNext()
    && (m.started ==> m.state.FileHeader?)
  }

  /** Every step keeps the invariant. */
  lemma StepKeepsValid(m: FileModel)
    requires m.Valid()
    ensures Step(m).next.Valid()
  {
    if m.queue == [] {
      IncomingAdmissible(m);
      var inc := Incoming(m);
      DispatchKeepsValid(m.(lt := inc.next, saved := None), inc.token);
    }
  }

  lemma DispatchKeepsValid(m: FileModel, t: Token)
    requires Ready(m) && Admissible(m.state, t)
    ensures Dispatch(m, t).next.Valid()
  {
  }

  /** A saved token is emitted by the next step that does not dequeue. */
  lemma SavedIsEmitted(m: FileModel)
    requires m.Valid() && m.queue == [] && m.saved.Some?
    ensures Step(m).out.Some?
  {
  }

  /** A dispatch that returns nothing leaves the line tokenizer alone,
      was not given EOF, and puts a field or music code back in the slot. */
  lemma DispatchSilent(m: FileModel, t: Token)
    requires Admissible(m.state, t) && Dispatch(m, t).out.None?
    ensures Dispatch(m, t).next.lt == m.lt
    ensures !t.tokenType.EOF?
    ensures t.tokenType.InformationField? || t.tokenType.MusicCode? ==> Dispatch(m, t).next.saved.Some?
  {
  }

  /** A step that returns nothing pulled a line and either consumed it or
      put it back; either way the measure goes down, so the retry loop of
      `getToken` ends. */
  lemma StepProgress(m: FileModel)
    requires m.Valid() && Step(m).out.None?
    ensures Step(m).next.lt.Valid() && Step(m).next.Measure() < m.Measure()
  {
    StepKeepsValid(m);
    if m.saved.Some? {
      SavedIsEmitted(m);
      assert false;
    }
    IncomingAdmissible(m);
    var inc := Scan(m.lt, m.state.IsInTune());
    DispatchSilent(m.(lt := inc.next, saved := None), inc.token);
    ScanProgress(m.lt, m.state.IsInTune());
  }

  // ---------------------------------------------------------------------
  // The tokenizer object

  class FileTokenizer {
    var state: FileState
    /** The first stage, reading the same document. */
    const tokenizer: LineTokenizer
    var savedInToken: Option<Token>
    var outQueue: seq<Token>
    var gotK: bool
    var startedFileHeader: bool
    /** The error sink this tokenizer inherits in the source. */
    const base: BaseTokenizer

    function Model(): FileModel
      reads this, tokenizer
    {
      FileModel(tokenizer.Model(), state, savedInToken, outQueue, gotK, startedFileHeader)
    }

    /** The invariant holds, the two error sinks are distinct objects, and
        nothing can register a callback on the line tokenizer's sink, which
        is private to this object. */
    ghost predicate Valid()
      reads this, tokenizer, tokenizer.base, base
    {
      Model().Valid() && base != tokenizer.base && tokenizer.base.errorCB.None?
    }

    constructor (lines: seq<string>)
      ensures Valid() && Model() == Begin(lines)
      ensures fresh(base) && base.errorCB == None && base.delivered == []
    {
      state := Initial;
      savedInToken := None;
      outQueue := [];
      gotK := false;
      startedFileHeader := false;
      base := new BaseTokenizer();
      tokenizer := new LineTokenizer(lines);
    }

    /** Registers `cb` for this tokenizer's errors (inherited). */
    method SetErrorCB(cb: CallbackId)
      requires Valid()
      modifies base
      ensures Valid() && base.errorCB == Some(cb) && base.delivered == old(base.delivered)
    {
      base.SetErrorCB(cb);
    }

    /** Returns the next token, retrying while a step returns nothing. */
    method GetToken() returns (token: Token)
      requires Valid()
      modifies this, tokenizer, tokenizer.base, base
      ensures Valid()
      ensures token == NextToken(old(Model())).token
      ensures Model() == NextToken(old(Model())).next
      ensures base.errorCB == old(base.errorCB)
      ensures base.delivered == old(base.delivered) + Deliveries(base.errorCB, NextToken(old(Model())).errors)
    {
      ghost var m0 := Model();
      ghost var d0 := base.delivered;
      ghost var errors: seq<Token>;
      assert NextToken(m0) == Preceded([], NextToken(m0));
      var t;
      t, errors := Attempt(m0, d0, []);
      while t.None?
        invariant Valid()
        invariant base.errorCB == old(base.errorCB)
        invariant base.delivered == d0 + Deliveries(base.errorCB, errors)
        invariant t.Some? ==> NextToken(m0) == Fetched(t.value, Model(), errors)
        invariant t.None? ==> NextToken(m0) == Preceded(errors, NextToken(Model()))
        decreases if t.Some? then 0 else Model().Measure() + 1
      {
        t, errors := Attempt(m0, d0, errors);
      }
      token := t.value;
    }

    /** One round of the retry loop of `getToken`: what is still to come of
        `NextToken(m0)` after `errors` were reported is what comes after
        this step. */
    method Attempt(ghost m0: FileModel, ghost d0: seq<Delivery>, ghost errors: seq<Token>)
        returns (t: Option<Token>, ghost errors': seq<Token>)
      requires Valid() && m0.Valid()
      requires NextToken(m0) == Preceded(errors, NextToken(Model()))
      requires base.delivered == d0 + Deliveries(base.errorCB, errors)
      modifies this, tokenizer, tokenizer.base, base
      ensures Valid() && base.errorCB == old(base.errorCB)
      ensures base.delivered == d0 + Deliveries(base.errorCB, errors')
      ensures t.Some? ==> NextToken(m0) == Fetched(t.value, Model(), errors')
      ensures t.None? ==> NextToken(m0) == Preceded(errors', NextToken(Model()))
      ensures t.None? ==> Model().Measure() < old(Model().Measure())
    {
      ghost var m := Model();
      ghost var log1 := base.delivered;
      t := GetTokenInternal();
      NextTokenUnfold(m);
      if t.None? {
        StepProgress(m);
        PrecededTwice(errors, Step(m).errors, NextToken(Step(m).next));
      }
      DeliveredInTurn(base.errorCB, d0, errors, Step(m).errors, log1, base.delivered);
      errors' := errors + Step(m).errors;
    }

    /** One step (see `Step`). */
    method GetTokenInternal() returns (token: Option<Token>)
      requires Valid()
      modifies this, tokenizer, tokenizer.base, base
      ensures Valid()
      ensures token == Step(old(Model())).out
      ensures Model() == Step(old(Model())).next
      ensures base.errorCB == old(base.errorCB) && tokenizer.base.errorCB == old(tokenizer.base.errorCB)
      ensures base.delivered == old(base.delivered) + Deliveries(base.errorCB, Step(old(Model())).errors)
    {
      StepKeepsValid(Model());
      if outQueue != [] {
        token := Some(outQueue[0]);
        outQueue := outQueue[1..];
        return;
      }
      ghost var m := Model();
      IncomingAdmissible(m);
      var t := Take();
      assert Model() == m.(lt := Incoming(m).next, saved := None);
      token := Handle(t);
    }

    /** Takes the saved token, or else pulls one from the line tokenizer. */
    method Take() returns (t: Token)
      requires Valid() && outQueue == []
      modifies this, tokenizer, tokenizer.base
      ensures t == Incoming(old(Model())).token
      ensures Model() == old(Model()).(lt := Incoming(old(Model())).next, saved := None)
      ensures base.delivered == old(base.delivered) && tokenizer.base.errorCB == old(tokenizer.base.errorCB)
    {
      if savedInToken.Some? {
        t := savedInToken.value;
        savedInToken := None;
      } else {
        t := tokenizer.GetToken(state.IsInTune());
      }
    }

    /** The part of a step after the token was taken (see `Dispatch`). */
    method Handle(t: Token) returns (token: Option<Token>)
      requires Ready(Model()) && Admissible(state, t)
      modifies this, base
      ensures token == Dispatch(old(Model()), t).out
      ensures Model() == Dispatch(old(Model()), t).next
      ensures base.errorCB == old(base.errorCB)
      ensures base.delivered == old(base.delivered) + Deliveries(base.errorCB, Dispatch(old(Model()), t).errors)
    {
      if t.tokenType.Comment? {
        return Some(t);
      }
      if t.tokenType.EOF? {
        token := Some(t);
        if startedFileHeader {
          outQueue := outQueue + [t];
          token := Some(Retyped(t, FileHeaderEnd));
        }
        return;
      }

      assert !(t.tokenType.AbcDeclaration? && !state.Initial?);
      assert !(t.tokenType.MusicCode? && !state.IsInTune());
      assert !(t.tokenType.FreeText? && state.IsInTune());

      match state
      case Initial => token := HandleInitial(t);
      case FileHeader => token := HandleFileHeader(t);
      case InterTune => token := HandleInterTune(t);
      case FreeText => token := HandleFreeText(t);
      case TypesetText => token := HandleTypesetText(t);
      case TuneHeader => token := HandleTuneHeader(t);
      case TuneBody => token := HandleTuneBody(t);
    }

    method HandleInitial(t: Token) returns (token: Option<Token>)
      modifies this, base
      ensures token == InInitial(old(Model()), t).out
      ensures Model() == InInitial(old(Model()), t).next
      ensures base.errorCB == old(base.errorCB)
      ensures base.delivered == old(base.delivered) + Deliveries(base.errorCB, InInitial(old(Model()), t).errors)
    {
      ghost var m := Model();
      token := Some(t);
      if t.tokenType.AbcDeclaration? {
        if t.value != Some(SupportedVersion) {
          base.Error(t, UnsupportedVersion(t));
        }
        state := FileHeader;
      } else if t.tokenType.InformationField? || t.tokenType.StyleSheet? {
        base.Error(t, MissingDeclaration);
        state := FileHeader;
        savedInToken := Some(t);
        token := None;
      } else if t.tokenType.BlankLine? {
        base.Error(t, MissingDeclarationAndHeader);
        state := InterTune;
        token := None;
      } else if t.tokenType.FreeText? {
        base.Error(t, FreeTextAtStart);
        state := FileState.FreeText;
      } else if t.tokenType.Text? {
        base.Error(t, TypesetTextAtStart);
        state := TypesetText;
      }
    }

    method HandleFileHeader(t: Token) returns (token: Option<Token>)
      modifies this, base
      ensures token == InFileHeader(old(Model()), t).out
      ensures Model() == InFileHeader(old(Model()), t).next
      ensures base.errorCB == old(base.errorCB)
      ensures base.delivered == old(base.delivered) + Deliveries(base.errorCB, InFileHeader(old(Model()), t).errors)
    {
      token := Some(t);
      if t.tokenType.InformationField? || t.tokenType.StyleSheet? {
        if !startedFileHeader {
          startedFileHeader := true;
          outQueue := outQueue + [t];
          token := Some(Retyped(t, FileHeaderStart));
        }
      } else if t.tokenType.BlankLine? {
        state := InterTune;
        if startedFileHeader {
          startedFileHeader := false;
          token := Some(Retyped(t, FileHeaderEnd));
        } else {
          token := None;
        }
      } else if t.tokenType.FreeText? {
        base.Error(t, FreeTextInHeader);
        state := FileState.FreeText;
        if startedFileHeader {
          startedFileHeader := false;
          savedInToken := Some(t);
          token := Some(Retyped(t, FileHeaderEnd));
        }
      } else if t.tokenType.Text? {
        base.Error(t, TypesetTextInHeader);
        state := TypesetText;
        if startedFileHeader {
          startedFileHeader := false;
          savedInToken := Some(t);
          token := Some(Retyped(t, FileHeaderEnd));
        }
      }
    }

    method HandleInterTune(t: Token) returns (token: Option<Token>)
      requires t.tokenType.InformationField? ==> t.value.Some?
      modifies this, base
      ensures token == InInterTune(old(Model()), t).out
      ensures Model() == InInterTune(old(Model()), t).next
      ensures base.errorCB == old(base.errorCB)
      ensures base.delivered == old(base.delivered) + Deliveries(base.errorCB, InInterTune(old(Model()), t).errors)
    {
      token := Some(t);
      if t.tokenType.InformationField? {
        if !StartsWith(t.value.value, TuneStart) {
          base.Error(t, NotATuneStart(t));
        }
        state := TuneHeader;
        savedInToken := Some(t);
        token := Some(Retyped(t, TuneHeaderStart));
      } else if t.tokenType.StyleSheet? {
        base.Error(t, StyleSheetBetweenTunes);
      } else if t.tokenType.BlankLine? {
        token := None;
      } else if t.tokenType.FreeText? {
        state := FileState.FreeText;
      } else if t.tokenType.Text? {
        state := TypesetText;
      }
    }

    method HandleFreeText(t: Token) returns (token: Option<Token>)
      modifies this, base
      ensures token == InFreeText(old(Model()), t).out
      ensures Model() == InFreeText(old(Model()), t).next
      ensures base.errorCB == old(base.errorCB)
      ensures base.delivered == old(base.delivered) + Deliveries(base.errorCB, InFreeText(old(Model()), t).errors)
    {
      token := Some(t);
      if t.tokenType.FreeText? {
      } else if t.tokenType.BlankLine? {
        state := InterTune;
        token := None;
      } else if t.tokenType.InformationField? {
        base.Error(t, FieldInFreeText);
        state := InterTune;
        savedInToken := Some(t);
        token := None;
      } else if t.tokenType.StyleSheet? {
        base.Error(t, StyleSheetBetweenTunes);
        state := InterTune;
      } else if t.tokenType.Text? {
        base.Error(t, TextInFreeText);
        state := TypesetText;
      }
    }

    method HandleTypesetText(t: Token) returns (token: Option<Token>)
      modifies this, base
      ensures token == InTypesetText(old(Model()), t).out
      ensures Model() == InTypesetText(old(Model()), t).next
      ensures base.errorCB == old(base.errorCB)
      ensures base.delivered == old(base.delivered) + Deliveries(base.errorCB, InTypesetText(old(Model()), t).errors)
    {
      token := Some(t);
      if t.tokenType.Text? {
      } else if t.tokenType.InformationField? {
        base.Error(t, FieldInTypesetText);
        state := InterTune;
        savedInToken := Some(t);
        token := None;
      } else if t.tokenType.StyleSheet? {
        base.Error(t, StyleSheetInTypesetText);
        state := InterTune;
      } else if t.tokenType.BlankLine? {
        state := InterTune;
        token := None;
      } else if t.tokenType.FreeText? {
        base.Error(t, FreeTextInTypesetText);
        state := FileState.FreeText;
      }
    }

    method HandleTuneHeader(t: Token) returns (token: Option<Token>)
      requires t.tokenType.InformationField? ==> t.value.Some?
      modifies this, base
      ensures token == InTuneHeader(old(Model()), t).out
      ensures Model() == InTuneHeader(old(Model()), t).next
      ensures base.errorCB == old(base.errorCB)
      ensures base.delivered == old(base.delivered) + Deliveries(base.errorCB, InTuneHeader(old(Model()), t).errors)
    {
      token := Some(t);
      if t.tokenType.InformationField? {
        if StartsWith(t.value.value, KeyField) {
          gotK := true;
        } else if gotK {
          base.Error(t, FieldAfterKey);
        }
      } else if t.tokenType.BlankLine? {
        state := InterTune;
        token := Some(Retyped(t, TuneHeaderEnd));
      } else if t.tokenType.MusicCode? {
        if !gotK {
          base.Error(t, MissingKey);
        }
        gotK := false;
        state := TuneBody;
        savedInToken := Some(t);
        var header := Retyped(t, TuneHeaderEnd);
        token := Some(header);
        outQueue := outQueue + [Retyped(header, TuneBodyStart)];
      }
    }

    method HandleTuneBody(t: Token) returns (token: Option<Token>)
      modifies this
      ensures token == InTuneBody(old(Model()), t).out
      ensures Model() == InTuneBody(old(Model()), t).next
    {
      token := Some(t);
      if t.tokenType.BlankLine? {
        state := InterTune;
        token := Some(Retyped(t, TuneBodyEnd));
      }
    }
  }
}
