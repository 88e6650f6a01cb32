/**
 * The earlier second stage (src/FileTokenizer.ts). It has the same fields
 * as the later one except the flag for an open file header, and its own
 * policy:
 * - the declaration is followed, not preceded, by the file header start;
 * - EOF never closes the file header;
 * - free text may stay in the file header;
 * - the typeset text section is never entered.
 * Its errors go to the console only, so here they go to a ghost log of
 * diagnostics.
 *
 * `Step` is the specification of one call of `getTokenInternal` and
 * `NextToken` of one call of `getToken`; the class `FileTokenizer` keeps the
 * source's fields and is proved to update them as these say.
 */
module EarlyFileTokens {
  import opened Tokens
  import opened Errors
  import opened Lines
  import opened LineFacts
  import opened Sections

  const UnrecognizedHeaderText :=
    "Unrecognized text in the file header. The file header must be completed with a blank line before free text is allowed"
  const UnseparatedFreeText :=
    "Free text must be separated from abc tunes, typeset text and the file header by empty lines"

  function NotATuneStart(t: Token): string
  {
    "Got information line to start a tune, but it is not X: '" + Shown(t.value) + "'"
  }

  /** The fields of a `FileTokenizer`, with the line tokenizer's state. */
  datatype FileModel = FileModel(
    lt: LineState,
    state: FileState,
    saved: Option<Token>,
    queue: seq<Token>,
    gotK: bool)
  {
    /** What the fields always satisfy between calls: at most one queued
        token; a saved token is one the section it waits in emits at once
        and would admit; the queue and the slot are both in use only
        between a tune header end and the music code that caused it; the
        declaration is read only in the initial section; and the typeset
        text section is never entered. */
    predicate Valid()
    {
      && lt.Valid()
      && |queue| <= 1
      && !state.TypesetText?
      && (saved.Some? ==> SlotOk(state, saved.value.tokenType) && Admissible(state, saved.value))
      && (queue != [] && saved.Some? ==>
            state.TuneBody? && queue[0].tokenType.TuneBodyStart? && saved.value.tokenType.MusicCode?)
      && (lt.DeclarationNext() ==> state.Initial? && saved.None? && queue == [])
    }
  }

  /** The kinds of token that are put back in each section: whatever
      first line of the file was not a declaration, the field that starts
      a tune, the music code that ends a tune header. */
  predicate SlotOk(state: FileState, k: TokenType)
  {
    match state
    case FileHeader => k.InformationField? || k.StyleSheet? || k.BlankLine? || k.FreeText? || k.Text?
    case TuneHeader => k.InformationField?
    case TuneBody => k.MusicCode?
    case _ => false
  }

  /** A freshly constructed tokenizer over `lines`. */
  function Begin(lines: seq<string>): (m: FileModel)
    ensures m.Valid()
  {
    FileModel(Start(lines), Initial, None, [], false)
  }

  /** One call of `getTokenInternal`: the token returned, if any, the new
      fields, and the diagnostics written. */
  datatype Stepped = Stepped(out: Option<Token>, next: FileModel, errors: seq<Token>)

  /** The token a step works on when nothing is queued: the saved one,
      else a fresh one from the line tokenizer. */
  function Incoming(m: FileModel): (r: Scanned)
    requires m.lt.Valid()
  {
    if m.saved.Some? then Scanned(m.saved.value, m.lt, [])
    else Scan(m.lt, m.state.IsInTune())
  }

  /** One call of `getTokenInternal`. */
  function Step(m: FileModel): (r: Stepped)
    requires m.Valid()
  {
    if m.queue != [] then
      Stepped(Some(m.queue[0]), m.(queue := m.queue[1..]), [])
    else
      IncomingAdmissible(m);
      var inc := Incoming(m);
      Dispatch(m.(lt := inc.next, saved := None), inc.token)
  }

  /** A token taken from the slot or the line tokenizer is admissible. */
  lemma IncomingAdmissible(m: FileModel)
    requires m.Valid()
    ensures Admissible(m.state, Incoming(m).token)
    ensures !Incoming(m).next.DeclarationNext()
  {
    if m.saved.None? {
      PulledAdmissible(m.lt, m.state);
    }
  }

  /** What happens to the token `t` once it has been taken: comments and
      EOF pass, anything else goes to the section. */
  function Dispatch(m: FileModel, t: Token): (r: Stepped)
    requires Admissible(m.state, t)
  {
    if t.tokenType.EOF? || t.tokenType.Comment? then Stepped(Some(t), m, [])
    else
      match m.state
      case Initial => InInitial(m, t)
      case FileHeader => InFileHeader(m, t)
      case InterTune => InInterTune(m, t)
      case FreeText => InFreeText(m, t)
      case TypesetText => Stepped(Some(t), m, [])
      case TuneHeader => InTuneHeader(m, t)
      case TuneBody => InTuneBody(m, t)
  }

  function InInitial(m: FileModel, t: Token): (r: Stepped)
  {
    if t.tokenType.AbcDeclaration? then
      Stepped(Some(t), m.(state := FileHeader, queue := m.queue + [Retyped(t, FileHeaderStart)]),
              if t.value != Some(SupportedVersion) then [ErrorToken(t, UnsupportedVersion(t))] else [])
    else
      Stepped(Some(Retyped(t, FileHeaderStart)), m.(state := FileHeader, saved := Some(t)), [])
  }

  function InFileHeader(m: FileModel, t: Token): (r: Stepped)
  {
    var k := t.tokenType;
    if k.BlankLine? then
      Stepped(Some(Retyped(t, FileHeaderEnd)), m.(state := InterTune), [])
    else if k.FreeText? then
      Stepped(Some(t), m, [ErrorToken(t, UnrecognizedHeaderText)])
    else
      Stepped(Some(t), m, [])
  }

  function InInterTune(m: FileModel, t: Token): (r: Stepped)
    requires t.tokenType.InformationField? ==> t.value.Some?
  {
    var k := t.tokenType;
    if k.InformationField? then
      Stepped(Some(Retyped(t, TuneHeaderStart)), m.(state := TuneHeader, saved := Some(t)),
              if !StartsWith(t.value.value, TuneStart) then [ErrorToken(t, NotATuneStart(t))] else [])
    else if k.BlankLine? then
      Stepped(None, m, [])
    else if k.FreeText? then
      Stepped(Some(t), m.(state := FileState.FreeText), [])
    else
      Stepped(Some(t), m, [])
  }

  function InFreeText(m: FileModel, t: Token): (r: Stepped)
  {
    var k := t.tokenType;
    if k.BlankLine? then
      Stepped(None, m.(state := InterTune), [])
    else if k.InformationField? || k.StyleSheet? then
      Stepped(Some(t), m, [ErrorToken(t, UnseparatedFreeText)])
    else
      Stepped(Some(t), m, [])
  }

  function InTuneHeader(m: FileModel, t: Token): (r: Stepped)
    requires t.tokenType.InformationField? ==> t.value.Some?
  {
    var k := t.tokenType;
    if k.InformationField? then
      if StartsWith(t.value.value, KeyField) then Stepped(Some(t), m.(gotK := true), [])
      else Stepped(Some(t), m, if m.gotK then [ErrorToken(t, FieldAfterKey)] else [])
    else if k.BlankLine? then
      Stepped(Some(Retyped(t, TuneHeaderEnd)), m.(state := InterTune), [])
    else if k.MusicCode? then
      Stepped(Some(Retyped(t, TuneHeaderEnd)),
              m.(gotK := false, state := TuneBody, saved := Some(t),
                 queue := m.queue + [Retyped(t, TuneBodyStart)]),
              if !m.gotK then [ErrorToken(t, MissingKey)] else [])
    else
      Stepped(Some(t), m, [])
  }

  function InTuneBody(m: FileModel, t: Token): (r: Stepped)
  {
    if t.tokenType.BlankLine? then
      Stepped(Some(Retyped(t, TuneBodyEnd)), m.(state := InterTune), [])
    else
      Stepped(Some(t), m, [])
  }

  /** The result of one call of `getToken`. */
  datatype Fetched = Fetched(token: Token, next: FileModel, errors: seq<Token>)

  /** One call of `getToken`: steps until a step returns a token. */
  function NextToken(m: FileModel): (r: Fetched)
    requires m.Valid()
    ensures r.next.Valid()
    decreases m.lt.Measure()
  {
    StepKeepsValid(m);
    var s := Step(m);
    if s.out.Some? then
      Fetched(s.out.value, s.next, s.errors)
    else
      StepProgress(m);
      var f := NextToken(s.next);
      Fetched(f.token, f.next, s.errors + f.errors)
  }

  /** `f` preceded by steps that returned nothing and wrote `errors`. */
  function Preceded(errors: seq<Token>, f: Fetched): Fetched
  {
    Fetched(f.token, f.next, errors + f.errors)
  }

  lemma PrecededTwice(a: seq<Token>, b: seq<Token>, f: Fetched)
    ensures Preceded(a, Preceded(b, f)) == Preceded(a + b, f)
  {
    assert a + (b + f.errors) == (a + b) + f.errors;
  }

  /** One step of `NextToken`. */
  lemma NextTokenUnfold(m: FileModel)
    requires m.Valid()
    ensures Step(m).next.Valid()
    ensures Step(m).out.Some? ==> NextToken(m) == Fetched(Step(m).out.value, Step(m).next, Step(m).errors)
    ensures Step(m).out.None? ==> NextToken(m) == Preceded(Step(m).errors, NextToken(Step(m).next))
  {
    StepKeepsValid(m);
  }

  // ---------------------------------------------------------------------
  // The invariant and the measure

  /** The fields as the section switch sees them: nothing queued, the slot
      emptied, the declaration already read, a section that exists. */
  predicate Ready(m: FileModel)
  {
    m.lt.Valid() && m.queue == [] && m.saved.None? && !m.lt.DeclarationNext() && !m.state.TypesetText?
  }

  /** Every step keeps the invariant; in particular no step enters the
      typeset text section. */
  lemma StepKeepsValid(m: FileModel)
    requires m.Valid()
    ensures Step(m).next.Valid()
  {
    if m.queue == [] {
      IncomingAdmissible(m);
      var inc := Incoming(m);
      DispatchKeepsValid(m.(lt := inc.next, saved := None), inc.token);
    }
  }

  lemma DispatchKeepsValid(m: FileModel, t: Token)
    requires Ready(m) && Admissible(m.state, t)
    ensures Dispatch(m, t).next.Valid()
  {
  }

  /** Only a blank line between tunes or ending free text makes a step
      return nothing; the line tokenizer is left where that line put it. */
  lemma DispatchSilent(m: FileModel, t: Token)
    requires Ready(m) && Admissible(m.state, t) && Dispatch(m, t).out.None?
    ensures t.tokenType.BlankLine? && Dispatch(m, t).next.lt == m.lt && Dispatch(m, t).next.saved.None?
  {
  }

  /** A step that returns nothing consumed a blank line, so the retry loop
      of `getToken` ends. */
  lemma StepProgress(m: FileModel)
    requires m.Valid() && Step(m).out.None?
    ensures Step(m).next.lt.Valid() && Step(m).next.lt.Measure() < m.lt.Measure()
  {
    StepKeepsValid(m);
    IncomingAdmissible(m);
    var inc := Incoming(m);
    DispatchSilent(m.(lt := inc.next, saved := None), inc.token);
    if m.saved.None? {
      ScanProgress(m.lt, m.state.IsInTune());
    }
  }

  /** Diagnostics written in two turns are those of both, in order. */
  lemma WrittenInTurn(log0: seq<Token>, a: seq<Token>, b: seq<Token>, log1: seq<Token>, log2: seq<Token>)
    requires log1 == log0 + a && log2 == log1 + b
    ensures log2 == log0 + (a + b)
  {
  }

  // ---------------------------------------------------------------------
  // The tokenizer object

  class FileTokenizer {
    var state: FileState
    /** The first stage, reading the same document. */
    const tokenizer: LineTokenizer
    var savedInToken: Option<Token>
    var outQueue: seq<Token>
    var gotK: bool
    /** What `error` has written to the console, oldest first. */
    ghost var diagnostics: seq<Token>

    function Model(): FileModel
      reads this, tokenizer
    {
      FileModel(tokenizer.Model(), state, savedInToken, outQueue, gotK)
    }

    ghost predicate Valid()
      reads this, tokenizer
    {
      Model().Valid()
    }

    constructor (lines: seq<string>)
      ensures Valid() && Model() == Begin(lines) && diagnostics == []
    {
      state := Initial;
      savedInToken := None;
      outQueue := [];
      gotK := false;
      diagnostics := [];
      tokenizer := new LineTokenizer(lines);
    }

    /** Reports `message` at the position of `token` (on the console). */
    method Error(token: Token, message: string)
      modifies this
      ensures diagnostics == old(diagnostics) + [ErrorToken(token, message)]
      ensures state == old(state) && savedInToken == old(savedInToken) && outQueue == old(outQueue) && gotK == old(gotK)
    {
      diagnostics := diagnostics + [ErrorToken(token, message)];
    }

    /** Returns the next token, retrying while a step returns nothing. */
    method GetToken() returns (token: Token)
      requires Valid()
      modifies this, tokenizer, tokenizer.base
      ensures Valid()
      ensures token == NextToken(old(Model())).token
      ensures Model() == NextToken(old(Model())).next
      ensures diagnostics == old(diagnostics) + NextToken(old(Model())).errors
    {
      ghost var m0 := Model();
      ghost var d0 := diagnostics;
      ghost var errors: seq<Token>;
      assert NextToken(m0) == Preceded([], NextToken(m0));
      var t;
      t, errors := Attempt(m0, d0, []);
      while t.None?
        invariant Valid()
        invariant diagnostics == d0 + errors
        invariant t.Some? ==> NextToken(m0) == Fetched(t.value, Model(), errors)
        invariant t.None? ==> NextToken(m0) == Preceded(errors, NextToken(Model()))
        decreases if t.Some? then 0 else Model().lt.Measure() + 1
      {
        t, errors := Attempt(m0, d0, errors);
      }
      token := t.value;
    }

    /** One round of the retry loop of `getToken`: what is still to come of
        `NextToken(m0)` after `errors` were written is what comes after
        this step. */
    method Attempt(ghost m0: FileModel, ghost d0: seq<Token>, ghost errors: seq<Token>)
        returns (t: Option<Token>, ghost errors': seq<Token>)
      requires Valid() && m0.Valid()
      requires NextToken(m0) == Preceded(errors, NextToken(Model()))
      requires diagnostics == d0 + errors
      modifies this, tokenizer, tokenizer.base
      ensures Valid()
      ensures diagnostics == d0 + errors'
      ensures t.Some? ==> NextToken(m0) == Fetched(t.value, Model(), errors')
      ensures t.None? ==> NextToken(m0) == Preceded(errors', NextToken(Model()))
      ensures t.None? ==> Model().lt.Measure() < old(Model().lt.Measure())
    {
      ghost var m := Model();
      ghost var log1 := diagnostics;
      t := GetTokenInternal();
      NextTokenUnfold(m);
      if t.None? {
        StepProgress(m);
        PrecededTwice(errors, Step(m).errors, NextToken(Step(m).next));
      }
      WrittenInTurn(d0, errors, Step(m).errors, log1, diagnostics);
      errors' := errors + Step(m).errors;
    }

    /** One step (see `Step`). */
    method GetTokenInternal() returns (token: Option<Token>)
      requires Valid()
      modifies this, tokenizer, tokenizer.base
      ensures Valid()
      ensures token == Step(old(Model())).out
      ensures Model() == Step(old(Model())).next
      ensures diagnostics == old(diagnostics) + Step(old(Model())).errors
    {
      StepKeepsValid(Model());
      if outQueue != [] {
        token := Some(outQueue[0]);
        outQueue := outQueue[1..];
        return;
      }
      ghost var m := Model();
      IncomingAdmissible(m);
      var t := Take();
      assert Model() == m.(lt := Incoming(m).next, saved := None);
      token := Handle(t);
    }

    /** Takes the saved token, or else pulls one from the line tokenizer. */
    method Take() returns (t: Token)
      requires Valid() && outQueue == []
      modifies this, tokenizer, tokenizer.base
      ensures t == Incoming(old(Model())).token
      ensures Model() == old(Model()).(lt := Incoming(old(Model())).next, saved := None)
      ensures diagnostics == old(diagnostics)
    {
      if savedInToken.Some? {
        t := savedInToken.value;
        savedInToken := None;
      } else {
        t := tokenizer.GetToken(state.IsInTune());
      }
    }

    /** The part of a step after the token was taken (see `Dispatch`). */
    method Handle(t: Token) returns (token: Option<Token>)
      requires Ready(Model()) && Admissible(state, t)
      modifies this
      ensures token == Dispatch(old(Model()), t).out
      ensures Model() == Dispatch(old(Model()), t).next
      ensures diagnostics == old(diagnostics) + Dispatch(old(Model()), t).errors
    {
      if t.tokenType.EOF? || t.tokenType.Comment? {
        return Some(t);
      }

      assert !(t.tokenType.AbcDeclaration? && !state.Initial?);
      assert !(t.tokenType.MusicCode? && !state.IsInTune());
      assert !(t.tokenType.FreeText? && state.IsInTune());

      match state
      case Initial => token := HandleInitial(t);
      case FileHeader => token := HandleFileHeader(t);
      case InterTune => token := HandleInterTune(t);
      case FreeText => token := HandleFreeText(t);
      case TypesetText =>
        // no statement of the source enters this section
        assert false;
      case TuneHeader => token := HandleTuneHeader(t);
      case TuneBody => token := HandleTuneBody(t);
    }

    method HandleInitial(t: Token) returns (token: Option<Token>)
      modifies this
      ensures token == InInitial(old(Model()), t).out
      ensures Model() == InInitial(old(Model()), t).next
      ensures diagnostics == old(diagnostics) + InInitial(old(Model()), t).errors
    {
      if t.tokenType.AbcDeclaration? {
        if t.value != Some(SupportedVersion) {
          Error(t, UnsupportedVersion(t));
        }
        state := FileHeader;
        outQueue := outQueue + [Retyped(t, FileHeaderStart)];
        token := Some(t);
      } else {
        state := FileHeader;
        savedInToken := Some(t);
        token := Some(Retyped(t, FileHeaderStart));
      }
    }

    method HandleFileHeader(t: Token) returns (token: Option<Token>)
      requires Admissible(FileHeader, t)
      modifies this
      ensures token == InFileHeader(old(Model()), t).out
      ensures Model() == InFileHeader(old(Model()), t).next
      ensures diagnostics == old(diagnostics) + InFileHeader(old(Model()), t).errors
    {
      token := Some(t);
      if t.tokenType.BlankLine? {
        state := InterTune;
        token := Some(Retyped(t, FileHeaderEnd));
      } else if t.tokenType.FreeText? {
        Error(t, UnrecognizedHeaderText);
      } else if t.tokenType.MusicCode? {
        // the line tokenizer returns music code only inside a tune
        assert false;
      }
    }

    method HandleInterTune(t: Token) returns (token: Option<Token>)
      requires t.tokenType.InformationField? ==> t.value.Some?
      modifies this
      ensures token == InInterTune(old(Model()), t).out
      ensures Model() == InInterTune(old(Model()), t).next
      ensures diagnostics == old(diagnostics) + InInterTune(old(Model()), t).errors
    {
      token := Some(t);
      if t.tokenType.InformationField? {
        if !StartsWith(t.value.value, TuneStart) {
          Error(t, NotATuneStart(t));
        }
        state := TuneHeader;
        savedInToken := Some(t);
        token := Some(Retyped(t, TuneHeaderStart));
      } else if t.tokenType.BlankLine? {
        token := None;
      } else if t.tokenType.FreeText? {
        state := FileState.FreeText;
      }
    }

    method HandleFreeText(t: Token) returns (token: Option<Token>)
      modifies this
      ensures token == InFreeText(old(Model()), t).out
      ensures Model() == InFreeText(old(Model()), t).next
      ensures diagnostics == old(diagnostics) + InFreeText(old(Model()), t).errors
    {
      token := Some(t);
      if t.tokenType.BlankLine? {
        state := InterTune;
        token := None;
      } else if t.tokenType.InformationField? || t.tokenType.StyleSheet? {
        Error(t, UnseparatedFreeText);
      }
    }

    method HandleTuneHeader(t: Token) returns (token: Option<Token>)
      requires t.tokenType.InformationField? ==> t.value.Some?
      modifies this
      ensures token == InTuneHeader(old(Model()), t).out
      ensures Model() == InTuneHeader(old(Model()), t).next
      ensures diagnostics == old(diagnostics) + InTuneHeader(old(Model()), t).errors
    {
      token := Some(t);
      if t.tokenType.InformationField? {
        if StartsWith(t.value.value, KeyField) {
          gotK := true;
        } else if gotK {
          Error(t, FieldAfterKey);
        }
      } else if t.tokenType.BlankLine? {
        state := InterTune;
        token := Some(Retyped(t, TuneHeaderEnd));
      } else if t.tokenType.MusicCode? {
        if !gotK {
          Error(t, MissingKey);
        }
        gotK := false;
        state := TuneBody;
        savedInToken := Some(t);
        var header := Retyped(t, TuneHeaderEnd);
        token := Some(header);
        outQueue := outQueue + [Retyped(header, TuneBodyStart)];
      }
    }

    method HandleTuneBody(t: Token) returns (token: Option<Token>)
      modifies this
      ensures token == InTuneBody(old(Model()), t).out
      ensures Model() == InTuneBody(old(Model()), t).next
      ensures diagnostics == old(diagnostics)
    {
      token := Some(t);
      if t.tokenType.BlankLine? {
        state := InterTune;
        token := Some(Retyped(t, TuneBodyEnd));
      }
    }
  }
}
