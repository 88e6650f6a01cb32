/**
 * The error sink every tokenizer inherits in the source (`BaseTokenizer`).
 * Dafny classes do not inherit from classes, so each tokenizer owns one
 * `BaseTokenizer` object instead. The registered callback is a foreign
 * function; here it is represented by an identity, and every call of it is
 * recorded in the ghost log `delivered`.
 */
module Errors {
  import opened Tokens

  /** Stands for the identity of a registered callback function. */
  type CallbackId = nat

  /** One invocation of callback `callback` with argument `token`. */
  datatype Delivery = Delivery(callback: CallbackId, token: Token)

  /** The Error-kind copy of the offending token that the callback receives:
      kind Error, no sub-kind, the message as value, the offender's position. */
  function ErrorToken(token: Token, message: string): (e: Token)
    ensures e.tokenType == TokenType.Error && e.subType == None && e.value == Some(message)
    ensures e.lineNumber == token.lineNumber && e.charNumber == token.charNumber
  {
    token.(tokenType := TokenType.Error, subType := None, value := Some(message))
  }

  /** The callback invocations caused by raising the errors `raised`, in
      order (see `DeliveriesMatch`). */
  function Deliveries(errorCB: Option<CallbackId>, raised: seq<Token>): (ds: seq<Delivery>)
  {
    if errorCB.None? || raised == [] then []
    else [Delivery(errorCB.value, raised[0])] + Deliveries(errorCB, raised[1..])
  }

  /** Without a callback nothing is delivered; with one, exactly one call
      per raised error, in order, each with that error. */
  lemma {:induction false} DeliveriesMatch(errorCB: Option<CallbackId>, raised: seq<Token>)
    ensures errorCB.None? ==> Deliveries(errorCB, raised) == []
    ensures errorCB.Some? ==> |Deliveries(errorCB, raised)| == |raised|
    ensures errorCB.Some? ==> forall i | 0 <= i < |raised| ::
      Deliveries(errorCB, raised)[i] == Delivery(errorCB.value, raised[i])
  {
    if errorCB.Some? && raised != [] {
      DeliveriesMatch(errorCB, raised[1..]);
    }
  }

  /** Raising errors in two batches delivers what raising them at once does. */
  lemma {:induction false} DeliveriesAppend(errorCB: Option<CallbackId>, a: seq<Token>, b: seq<Token>)
    ensures Deliveries(errorCB, a + b) == Deliveries(errorCB, a) + Deliveries(errorCB, b)
  {
    if errorCB.Some? && a != [] {
      assert (a + b)[1..] == a[1..] + b;
      DeliveriesAppend(errorCB, a[1..], b);
    } else if errorCB.Some? {
      assert a + b == b;
    }
  }

  /** A log that held the deliveries of `a` after `log0`, and then got those
      of `b`, holds the deliveries of `a + b` after `log0`. */
  lemma DeliveredInTurn(errorCB: Option<CallbackId>, log0: seq<Delivery>, a: seq<Token>, b: seq<Token>,
                        log1: seq<Delivery>, log2: seq<Delivery>)
    requires log1 == log0 + Deliveries(errorCB, a)
    requires log2 == log1 + Deliveries(errorCB, b)
    ensures log2 == log0 + Deliveries(errorCB, a + b)
  {
    DeliveriesAppend(errorCB, a, b);
  }

  class BaseTokenizer {
    /** The registered callback, if any. */
    var errorCB: Option<CallbackId>
    /** Every invocation of a callback so far, oldest first. */
    ghost var delivered: seq<Delivery>

    constructor ()
      ensures errorCB == None && delivered == []
    {
      errorCB := None;
      delivered := [];
    }

    /** Registers `cb`, replacing any callback registered before. */
    method SetErrorCB(cb: CallbackId)
      modifies this
      ensures errorCB == Some(cb)
      ensures delivered == old(delivered)
    {
      errorCB := Some(cb);
    }

    /** Reports `message` about `token`. The diagnostic line printed to the
        console is not modelled. */
    method Error(token: Token, message: string)
      modifies this`delivered
      ensures delivered == old(delivered) + Deliveries(errorCB, [ErrorToken(token, message)])
    {
      if errorCB.None? {
        return;
      }
      var tok := token;
      tok := tok.(tokenType := TokenType.Error);
      tok := tok.(subType := None);
      tok := tok.(value := Some(message));
      delivered := delivered + [Delivery(errorCB.value, tok)];
    }
  }
}
