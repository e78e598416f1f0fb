/**
 The document loop of `main` (main.go:51-62): every `{` it reaches starts a
 document handed to `consumeObject`; any other token is passed over; the
 first error aborts the run. After a document the loop's own scan moves one
 token past the cursor the consumer left.
 */
module Driver {
  import opened Wrappers
  import opened Parser
  import opened ParserInvariants

  /** The loop from the cursor `j`, with the documents collected so far. */
  function Collect(toks: seq<string>, j: nat, docs: seq<Document>, mode: Resume): (r: Result<seq<Document>, ParseError>)
    requires j <= |toks|
    ensures r.Success? ==> docs <= r.value && |r.value| - |docs| <= |toks| - j
    ensures r.Failure? ==> r.error in {ArrayCloseBeforeOpen, EofBeforeObjectClose}
    decreases |toks| - j
  {
    if j == |toks| then Success(docs)
    else if toks[j] == "{" then
      var c := ConsumeObject(toks, j, mode);
      ConsumeObjectOutcome(toks, j, mode);
      match c.result
      case Failure(e) => Failure(e)
      case Success(d) => Collect(toks, Min(c.cursor + 1, |toks|), docs + [d], mode)
    else Collect(toks, j + 1, docs, mode)
  }

  /** All documents of a token stream, scanning from its first token. */
  function Documents(toks: seq<string>, mode: Resume): (r: Result<seq<Document>, ParseError>)
    ensures r.Success? ==> |r.value| <= |toks|
    ensures r.Failure? ==> r.error in {ArrayCloseBeforeOpen, EofBeforeObjectClose}
  {
    Collect(toks, 0, [], mode)
  }

  /** Tokens after which no `{` follows add no document and cannot fail. */
  lemma {:induction false} CollectWithoutObjects(toks: seq<string>, j: nat, docs: seq<Document>, mode: Resume)
    requires j <= |toks|
    requires forall k :: j <= k < |toks| ==> toks[k] != "{"
    ensures Collect(toks, j, docs, mode) == Success(docs)
    decreases |toks| - j
  {
    if j < |toks| {
      CollectWithoutObjects(toks, j + 1, docs, mode);
    }
  }

  /** A stream without any `{` holds no document. */
  lemma DocumentsWithoutObjects(toks: seq<string>, mode: Resume)
    requires forall k :: 0 <= k < |toks| ==> toks[k] != "{"
    ensures Documents(toks, mode) == Success([])
  {
    CollectWithoutObjects(toks, 0, [], mode);
  }
}
