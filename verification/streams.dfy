/**
 What the document loop of `main` reads from a stream of objects: each
 object's flattened document, in input order. As written the loop's own scan
 passes over the token after each object, so the objects must be separated
 by a comma (or some other token that is not `{`); when the consumer stops
 at its closer they may also follow each other directly.
 */
module Streams {
  import opened Wrappers
  import opened Parser
  import opened ArraySpec
  import opened Driver
  import opened Encoding
  import opened RoundTrip

  /** The tokens of a run of objects, each followed by a comma when `sep` holds. */
  function Stream(docs: seq<seq<Field>>, sep: bool): seq<string>
    decreases |docs|
  {
    if |docs| == 0 then [] else Encode(docs[0]) + CommaTokens(sep) + Stream(docs[1..], sep)
  }

  /** The flattened documents, in order. */
  function Flattened(docs: seq<seq<Field>>): (r: seq<Document>)
    ensures |r| == |docs|
    decreases |docs|
  {
    if |docs| == 0 then [] else [Flatten(docs[0])] + Flattened(docs[1..])
  }

  predicate AllOK(docs: seq<seq<Field>>, mode: Resume) {
    forall i :: 0 <= i < |docs| ==> FieldsOK(docs[i], mode)
  }

  lemma StreamSplit(toks: seq<string>, j: nat, docs: seq<seq<Field>>, sep: bool)
    requires |docs| > 0 && At(toks, j, Stream(docs, sep))
    ensures At(toks, j, Encode(docs[0]))
    ensures At(toks, j + |Encode(docs[0])|, CommaTokens(sep))
    ensures At(toks, j + |Encode(docs[0])| + |CommaTokens(sep)|, Stream(docs[1..], sep))
    ensures |Stream(docs, sep)| == |Encode(docs[0])| + |CommaTokens(sep)| + |Stream(docs[1..], sep)|
  {
    var e := Encode(docs[0]);
    var c := CommaTokens(sep);
    var rest := Stream(docs[1..], sep);
    assert Stream(docs, sep) == e + c + rest;
    AtSplit(toks, j, e + c, rest);
    AtSplit(toks, j, e, c);
  }

  lemma AllOKTail(docs: seq<seq<Field>>, mode: Resume)
    requires |docs| > 0 && AllOK(docs, mode)
    ensures FieldsOK(docs[0], mode) && AllOK(docs[1..], mode)
  {
    forall i | 0 <= i < |docs| - 1
      ensures FieldsOK(docs[1..][i], mode)
    {
      assert docs[1..][i] == docs[i + 1];
    }
  }

  lemma FlattenedCons(acc: seq<Document>, docs: seq<seq<Field>>)
    requires |docs| > 0
    ensures acc + [Flatten(docs[0])] + Flattened(docs[1..]) == acc + Flattened(docs)
  {
  }

  lemma CollectEnd(toks: seq<string>, acc: seq<Document>, mode: Resume)
    ensures Collect(toks, |toks|, acc, mode) == Success(acc)
  {
  }

  /** After one object, the loop resumes at the start of the next one. */
  lemma CollectOne(toks: seq<string>, j: nat, d: seq<Field>, sep: bool, acc: seq<Document>, mode: Resume)
    requires FieldsOK(d, mode) && (mode == ScanAhead ==> sep)
    requires At(toks, j, Encode(d)) && At(toks, j + |Encode(d)|, CommaTokens(sep))
    ensures Collect(toks, j, acc, mode) == Collect(toks, j + |Encode(d)| + |CommaTokens(sep)|, acc + [Flatten(d)], mode)
  {
    var e := |Encode(d)|;
    AtIndex(toks, j, Encode(d), 0);
    ConsumeObjectRoundTrip(toks, j, d, mode);
    if sep {
      AtIndex(toks, j + e, [","], 0);
    }
    if mode == StopAtCloser && sep {
      assert Collect(toks, j, acc, mode) == Collect(toks, j + e, acc + [Flatten(d)], mode);
    }
  }

  /** One object of a stream: the loop moves to the rest of the stream with that object's document collected. */
  lemma CollectHead(toks: seq<string>, j: nat, docs: seq<seq<Field>>, sep: bool, acc: seq<Document>, mode: Resume)
    requires |docs| > 0 && AllOK(docs, mode) && (mode == ScanAhead ==> sep)
    requires At(toks, j, Stream(docs, sep)) && j + |Stream(docs, sep)| == |toks|
    ensures var next := j + |Encode(docs[0])| + |CommaTokens(sep)|;
      && At(toks, next, Stream(docs[1..], sep)) && next + |Stream(docs[1..], sep)| == |toks|
      && AllOK(docs[1..], mode)
      && Collect(toks, j, acc, mode) == Collect(toks, next, acc + [Flatten(docs[0])], mode)
  {
    StreamSplit(toks, j, docs, sep);
    AllOKTail(docs, mode);
    CollectOne(toks, j, docs[0], sep, acc, mode);
  }

  /** The loop returns the flattened documents of a stream of well-formed objects, in order. */
  lemma {:induction false} CollectStream(toks: seq<string>, j: nat, docs: seq<seq<Field>>, sep: bool, acc: seq<Document>, mode: Resume)
    requires AllOK(docs, mode) && (mode == ScanAhead ==> sep)
    requires At(toks, j, Stream(docs, sep)) && j + |Stream(docs, sep)| == |toks|
    ensures Collect(toks, j, acc, mode) == Success(acc + Flattened(docs))
    decreases |docs|
  {
    if |docs| == 0 {
      CollectEnd(toks, acc, mode);
      assert acc + [] == acc;
    } else {
      var next := j + |Encode(docs[0])| + |CommaTokens(sep)|;
      var acc' := acc + [Flatten(docs[0])];
      CollectHead(toks, j, docs, sep, acc, mode);
      CollectStream(toks, next, docs[1..], sep, acc', mode);
      FlattenedCons(acc, docs);
    }
  }

  /** `main` on a stream of objects collects one document per object, in input order. */
  lemma DocumentsRoundTrip(docs: seq<seq<Field>>, sep: bool, mode: Resume)
    requires AllOK(docs, mode) && (mode == ScanAhead ==> sep)
    ensures Documents(Stream(docs, sep), mode) == Success(Flattened(docs))
  {
    var toks := Stream(docs, sep);
    assert toks[0..|toks|] == toks;
    CollectStream(toks, 0, docs, sep, [], mode);
    assert [] + Flattened(docs) == Flattened(docs);
  }
}
