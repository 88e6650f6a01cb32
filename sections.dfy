/**
 * What both file tokenizers (old/FileTokenizer.ts and src/FileTokenizer.ts)
 * share: the sections of an ABC file, the three conditions both check on
 * every token they dispatch, and the constants and messages both use.
 */
module Sections {
  import opened Tokens
  import opened Lines
  import opened LineFacts

  /** The only version of the standard the declaration may name. */
  const SupportedVersion := "2.1"
  /** The field that starts a tune, and the key field that ends its header. */
  const TuneStart := "X:"
  const KeyField := "K:"

  const FieldAfterKey := "Found field information line after a K:"
  const MissingKey := "Missing K: line to finish tune header"

  function UnsupportedVersion(t: Token): string
  {
    "Unsupported version of ABC: '" + Shown(t.value) + "'"
  }

  /** The section of the file the tokenizer is in. */
  datatype FileState = Initial | FileHeader | InterTune | FreeText | TypesetText | TuneHeader | TuneBody
  {
    /** `FileState.isInTune`: the line tokenizer reads unclassified lines as
        music code in these two sections, as free text elsewhere. */
    predicate IsInTune()
    {
      this.TuneHeader? || this.TuneBody?
    }
  }

  /** The conditions a token meets when it reaches the section switch: the
      three asserts of both file tokenizers (a declaration only in the
      initial section, music code only in a tune, free text never in one),
      and what the switch relies on without checking: a line token or EOF,
      and a value on every line token except a blank line. */
  predicate Admissible(state: FileState, t: Token)
  {
    && (t.tokenType.EOF? || IsLineKind(t.tokenType))
    && (t.tokenType.EOF? || t.tokenType.BlankLine? || t.value.Some?)
    && (t.tokenType.AbcDeclaration? ==> state.Initial?)
    && (t.tokenType.MusicCode? ==> state.IsInTune())
    && (t.tokenType.FreeText? ==> !state.IsInTune())
  }

  /** A token pulled from the line tokenizer with `inTune` taken from the
      section is admissible, provided the declaration can only be read in
      the initial section; after any pull the declaration is gone. */
  lemma PulledAdmissible(lt: LineState, state: FileState)
    requires lt.Valid()
    requires lt.DeclarationNext() ==> state.Initial?
    ensures Admissible(state, Scan(lt, state.IsInTune()).token)
    ensures !Scan(lt, state.IsInTune()).next.DeclarationNext()
  {
    ScanKinds(lt, state.IsInTune());
  }
}
