/**
 * The token record shared by every stage of the ABC tokenizer, and the
 * string helpers the stages use to inspect physical lines.
 */
module Tokens {

  /** An optional value: JavaScript's `undefined` is `None`. */
  datatype Option<+T> = None | Some(value: T)

  /** The kinds of token; the first two are system tokens, the next eight
      come from the line tokenizer, the last six mark file sections. */
  datatype TokenType =
    | Error
    | EOF
    | AbcDeclaration
    | BlankLine
    | Comment
    | FreeText
    | InformationField
    | MusicCode
    | StyleSheet
    | Text
    | FileHeaderStart
    | FileHeaderEnd
    | TuneHeaderStart
    | TuneHeaderEnd
    | TuneBodyStart
    | TuneBodyEnd

  /** Refinement of a `Text` token. `Falsey` only exists so that no real
      sub-kind is the number zero in the source; no stage produces it. */
  datatype TokenSubType = Falsey | Text | Center | BeginText | EndText

  /** One token: its kind, optional sub-kind and value, and the 1-based line
      and column at which it was read. */
  datatype Token = Token(
    tokenType: TokenType,
    subType: Option<TokenSubType>,
    value: Option<string>,
    lineNumber: nat,
    charNumber: nat)

  /** The idiom `token.type = k; token.value = undefined`: the token is
      re-kinded in place, keeping its position and sub-kind. */
  function Retyped(t: Token, k: TokenType): (r: Token)
  {
    t.(tokenType := k, value := None)
  }

  /** `s.startsWith(prefix)`, comparing character by character. */
  predicate StartsWith(s: string, prefix: string)
    ensures StartsWith(s, prefix) ==> |prefix| <= |s|
  {
    prefix == [] || (s != [] && s[0] == prefix[0] && StartsWith(s[1..], prefix[1..]))
  }

  /** `s.substr(|prefix|)` for a string known to start with `prefix`. */
  function After(s: string, prefix: string): (r: string)
    requires StartsWith(s, prefix)
    ensures |r| == |s| - |prefix|
  {
    s[|prefix|..]
  }

  /** `StartsWith` is Dafny's prefix ordering on sequences. */
  lemma {:induction false} StartsWithIsPrefix(s: string, prefix: string)
    ensures StartsWith(s, prefix) <==> prefix <= s
  {
    if prefix != [] && s != [] {
      StartsWithIsPrefix(s[1..], prefix[1..]);
      assert prefix <= s <==> s[0] == prefix[0] && prefix[1..] <= s[1..];
    }
  }

  /** Removing a prefix leaves exactly the rest of the string. */
  lemma AfterSplits(s: string, prefix: string)
    requires StartsWith(s, prefix)
    ensures prefix + After(s, prefix) == s
  {
    StartsWithIsPrefix(s, prefix);
  }

  /** The text JavaScript produces when a possibly-undefined value is
      concatenated into a message. */
  function Shown(v: Option<string>): string
  {
    match v
    case Some(s) => s
    case None => "undefined"
  }
}
