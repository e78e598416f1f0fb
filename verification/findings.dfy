/**
 Two consequences of the loops in main.go scanning the next token before they
 test whether the state stack has emptied (see `Parser.Resume`), with the
 scanner position shared between callers and callees as main_test.go passes
 it (`&s`). Each comes as
 the behaviour of the loop as written (`ScanAhead`) on every input of the
 shape, a concrete input, and the corrected loop (`StopAtCloser`) on the same
 inputs.

 1. An array that is the last value of an object: `consumeArray` returns one
    token past its `]`, `consumeObject` scans once more, and the object's `}`
    is never seen, so the object runs to the end of the input and fails.
 2. Two objects with nothing between them: `consumeObject` returns one past
    the first `}`, the document loop scans once more, and the second object's
    `{` is passed over, so its fields are never read.
 */
module Findings {
  import opened Wrappers
  import opened Stacks
  import opened Tokens
  import opened Parser
  import opened ArraySpec
  import opened Driver
  import opened Encoding
  import opened RoundTrip
  import opened Nesting
  import opened Streams
  import opened Samples

  // ---------------------------------------------------------------------
  // An array right before the closing brace
  // ---------------------------------------------------------------------

  /** `{ <fields> key : [ items ] }`: an object whose last field is an array, with no comma after it. */
  function ArrayLastObject(fs: seq<Field>, key: string, items: seq<string>): seq<string> {
    ["{"] + EncodeFields(fs) + [key, ":"] + (["["] + items + ["]"]) + ["}"]
  }

  /** Where the parts of such an object sit. */
  lemma ArrayLastParts(fs: seq<Field>, key: string, items: seq<string>)
    ensures var toks := ArrayLastObject(fs, key, items);
      && toks[0] == "{"
      && At(toks, 1, EncodeFields(fs))
      && At(toks, 1 + |EncodeFields(fs)|, [key, ":"])
      && At(toks, 3 + |EncodeFields(fs)|, ["["] + items + ["]"])
      && |toks| == |EncodeFields(fs)| + |items| + 6
      && toks[|toks| - 1] == "}"
  {
    var toks := ArrayLastObject(fs, key, items);
    var e := EncodeFields(fs);
    var a := ["["] + items + ["]"];
    assert At(toks, 0, toks);
    AtSplit(toks, 0, ["{"] + e + [key, ":"] + a, ["}"]);
    AtSplit(toks, 0, ["{"] + e + [key, ":"], a);
    AtSplit(toks, 0, ["{"] + e, [key, ":"]);
    AtSplit(toks, 0, ["{"], e);
  }

  /** The frame after the fields before the array and the array's key. */
  lemma ArrayLastPrefix(fs: seq<Field>, key: string, items: seq<string>, mode: Resume)
    requires FieldsOK(fs, mode) && Plain(key)
    ensures var toks := ArrayLastObject(fs, key, items);
      && 3 + |EncodeFields(fs)| <= |toks|
      && ConsumeObject(toks, 0, mode)
      == Run(toks, 3 + |EncodeFields(fs)|,
             Frame(Push([ObjectValue], ObjectKey), Push([], Unquote(key)), ":", Flatten(fs)), mode)
  {
    var toks := ArrayLastObject(fs, key, items);
    var e := |EncodeFields(fs)|;
    ArrayLastParts(fs, key, items);
    PushThenPop([], ObjectValue);
    FieldsRun(toks, 1, fs, Start, mode);
    var f := Frame([ObjectValue], [], Trail(fs, "", mode), Flatten(fs));
    KeyColonRun(toks, 1 + e, key, f, mode);
  }

  /**
   As written, an object whose last value is an array never closes: the `}`
   after the array is passed over and `consumeObject` reaches the end of the
   input with the object still open.
   */
  lemma ArrayBeforeCloseAsWritten(fs: seq<Field>, key: string, items: seq<string>)
    requires FieldsOK(fs, ScanAhead) && Plain(key) && BalancedRun(items)
    ensures var toks := ArrayLastObject(fs, key, items);
      ConsumeObject(toks, 0, ScanAhead) == Consumed(Failure(EofBeforeObjectClose), |toks|)
  {
    var toks := ArrayLastObject(fs, key, items);
    var q := 3 + |EncodeFields(fs)|;
    ArrayLastParts(fs, key, items);
    ArrayLastPrefix(fs, key, items, ScanAhead);
    ArrayValueRun(toks, q, items, [ObjectValue], [], Unquote(key), Flatten(fs), ScanAhead);
  }

  /**
   With the loops stopping at their closers, the same object closes at its `}`
   and its document holds the array's text under the key.
   */
  lemma ArrayBeforeCloseCorrected(fs: seq<Field>, key: string, items: seq<string>)
    requires FieldsOK(fs, StopAtCloser) && Plain(key) && BalancedRun(items)
    ensures var toks := ArrayLastObject(fs, key, items);
      ConsumeObject(toks, 0, StopAtCloser)
      == Consumed(Success(Flatten(fs)[Unquote(key) := ArrayValueText(items)]), |toks| - 1)
  {
    var toks := ArrayLastObject(fs, key, items);
    var q := 3 + |EncodeFields(fs)|;
    var k := Unquote(key);
    ArrayLastParts(fs, key, items);
    ArrayLastPrefix(fs, key, items, StopAtCloser);
    ArrayValueRun(toks, q, items, [ObjectValue], [], k, Flatten(fs), StopAtCloser);
    assert Join([] + [k], ".") == k by {
      assert [] + [k] == [k];
    }
    FinalCloseStep(toks, |toks| - 1, Frame([ObjectValue], [], ArrayValueText(items), Flatten(fs)[k := ArrayValueText(items)]), StopAtCloser);
  }

  /** `{ a : [ 1 ] }` */
  const ArrayThenClose: seq<string> := ["{", "a", ":", "[", "1", "]", "}"]

  lemma ArrayThenCloseShape()
    ensures ArrayThenClose == ArrayLastObject([], "a", ["1"])
    ensures FieldsOK([], ScanAhead) && FieldsOK([], StopAtCloser)
    ensures Plain("a") && BalancedRun(["1"])
    ensures Flatten([]) == map[] && Unquote("a") == "a"
  {
    Bare("a");
    FlatRun(["1"]);
  }

  lemma OneText()
    ensures ArrayValueText(["1"]) == "[ 1 ]"
  {
    var p := ["[", "1", "]"];
    assert NonIgnored(["1"]) == ["1"];
    assert ["["] + ["1"] + ["]"] == p;
    JoinFrom(p, 2, " ");
    JoinFrom(p, 1, " ");
    JoinFrom(p, 0, " ");
    assert p[0..] == p;
  }

  /** `{ a : [ 1 ] }` fails as written, after reading all seven tokens. */
  lemma ArrayThenCloseAsWritten()
    ensures ConsumeObject(ArrayThenClose, 0, ScanAhead) == Consumed(Failure(EofBeforeObjectClose), 7)
  {
    ArrayThenCloseShape();
    ArrayBeforeCloseAsWritten([], "a", ["1"]);
  }

  /** `{ a : [ 1 ] }` yields `a` mapped to `[ 1 ]` when the loops stop at their closers. */
  lemma ArrayThenCloseCorrected()
    ensures ConsumeObject(ArrayThenClose, 0, StopAtCloser) == Consumed(Success(map["a" := "[ 1 ]"]), 6)
  {
    ArrayThenCloseShape();
    OneText();
    ArrayBeforeCloseCorrected([], "a", ["1"]);
  }

  // ---------------------------------------------------------------------
  // Objects with nothing between them
  // ---------------------------------------------------------------------

  /**
   As written, of two objects with nothing between them only the first is
   read: the second one's `{` is passed over, and, as long as it holds no
   nested object, nothing after it starts a document.
   */
  lemma AdjacentAsWritten(d1: seq<Field>, d2: seq<Field>)
    requires FieldsOK(d1, ScanAhead)
    requires forall i :: 0 <= i < |EncodeFields(d2)| ==> EncodeFields(d2)[i] != "{"
    ensures Documents(Encode(d1) + Encode(d2), ScanAhead) == Success([Flatten(d1)])
  {
    var e1 := Encode(d1);
    var e2 := Encode(d2);
    var toks := e1 + e2;
    assert At(toks, 0, e1);
    assert toks[0] == "{";
    ConsumeObjectRoundTrip(toks, 0, d1, ScanAhead);
    forall k | |e1| + 1 <= k < |toks|
      ensures toks[k] != "{"
    {
      assert toks[k] == e2[k - |e1|];
      if k < |toks| - 1 {
        assert e2[k - |e1|] == EncodeFields(d2)[k - |e1| - 1];
      }
    }
    CollectWithoutObjects(toks, |e1| + 1, [] + [Flatten(d1)], ScanAhead);
    assert [] + [Flatten(d1)] == [Flatten(d1)];
  }

  /** Two objects with nothing between them, as a stream. */
  lemma PairStream(d1: seq<Field>, d2: seq<Field>)
    ensures Stream([d1, d2], false) == Encode(d1) + Encode(d2)
    ensures Flattened([d1, d2]) == [Flatten(d1), Flatten(d2)]
  {
    var docs := [d1, d2];
    assert docs[1..] == [d2] && [d2][1..] == [];
    assert CommaTokens(false) == [];
    assert Stream([d2], false) == Encode(d2) + [] + Stream([], false);
    assert Stream(docs, false) == Encode(d1) + [] + Stream([d2], false);
    assert Flattened([d2]) == [Flatten(d2)] + Flattened([]);
    assert Flattened(docs) == [Flatten(d1)] + Flattened([d2]);
  }

  lemma PairOK(d1: seq<Field>, d2: seq<Field>, mode: Resume)
    requires FieldsOK(d1, mode) && FieldsOK(d2, mode)
    ensures AllOK([d1, d2], mode)
  {
  }

  /** With the loops stopping at their closers, both objects become documents, in order. */
  lemma AdjacentCorrected(d1: seq<Field>, d2: seq<Field>)
    requires FieldsOK(d1, StopAtCloser) && FieldsOK(d2, StopAtCloser)
    ensures Documents(Encode(d1) + Encode(d2), StopAtCloser) == Success([Flatten(d1), Flatten(d2)])
  {
    PairStream(d1, d2);
    PairOK(d1, d2, StopAtCloser);
    DocumentsRoundTrip([d1, d2], false, StopAtCloser);
  }

  /** `{a:1}` and `{b:2}` */
  const ObjectA: seq<string> := ["{", "a", ":", "1", "}"]
  const ObjectB: seq<string> := ["{", "b", ":", "2", "}"]

  /** `{a:1}{b:2}` */
  const TwoObjects: seq<string> := ObjectA + ObjectB

  /** `{ key : text }` */
  function Single(key: string, text: string): seq<Field> {
    [Field(key, Scalar(text), false)]
  }

  lemma SingleFacts(key: string, text: string)
    requires BareText(key) && BareText(text) && Plain(key) && Plain(text)
    ensures Encode(Single(key, text)) == ["{", key, ":", text, "}"]
    ensures EncodeFields(Single(key, text)) == [key, ":", text]
    ensures FieldsOK(Single(key, text), ScanAhead) && FieldsOK(Single(key, text), StopAtCloser)
    ensures Flatten(Single(key, text)) == map[key := text]
  {
    var f := Field(key, Scalar(text), false);
    EncodeOne(f);
    FlattenOne(map[], [], f);
    Leaf(map[], [], key, text, false);
    assert [] + [key] == [key];
    Bare(text);
  }

  lemma SingleA()
    ensures Encode(Single("a", "1")) == ObjectA
    ensures FieldsOK(Single("a", "1"), ScanAhead) && FieldsOK(Single("a", "1"), StopAtCloser)
    ensures Flatten(Single("a", "1")) == map["a" := "1"]
  {
    SingleFacts("a", "1");
  }

  lemma SingleB()
    ensures Encode(Single("b", "2")) == ObjectB
    ensures EncodeFields(Single("b", "2")) == ["b", ":", "2"]
    ensures FieldsOK(Single("b", "2"), StopAtCloser)
    ensures Flatten(Single("b", "2")) == map["b" := "2"]
  {
    SingleFacts("b", "2");
  }

  /** `{a:1}{b:2}` yields one document as written. */
  lemma TwoObjectsAsWritten()
    ensures Documents(TwoObjects, ScanAhead) == Success([map["a" := "1"]])
  {
    SingleA();
    SingleB();
    AdjacentAsWritten(Single("a", "1"), Single("b", "2"));
  }

  /** `{a:1}{b:2}` yields both documents when the loops stop at their closers. */
  lemma TwoObjectsCorrected()
    ensures Documents(TwoObjects, StopAtCloser) == Success([map["a" := "1"], map["b" := "2"]])
  {
    SingleA();
    SingleB();
    AdjacentCorrected(Single("a", "1"), Single("b", "2"));
  }
}
