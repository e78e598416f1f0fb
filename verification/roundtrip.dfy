/**
 `consumeObject` computes `Flatten`: on the tokens of a well-formed object it
 returns exactly the flattened document, and it leaves the cursor just past
 the object's `}` as written, or on it when the loop stops at the closer.
 */
module RoundTrip {
  import opened Wrappers
  import opened Stacks
  import opened Tokens
  import opened Parser
  import opened ArraySpec
  import opened Encoding
  import opened Nesting

  /** The previous token after a field: its comma, or else the last token that was not skipped. */
  function FieldTrail(f: Field, mode: Resume): string {
    match f.value
    case Scalar(t) => if f.comma then "," else t
    case Wrapped(_, t) => if f.comma then "," else t
    case Object(_) => if f.comma then "," else "}"
    case Array(items) => if f.comma && mode == StopAtCloser then "," else ArrayValueText(items)
  }

  /** The previous token after a run of fields that started with previous token `prev`. */
  function Trail(fs: seq<Field>, prev: string, mode: Resume): string
    decreases fs
  {
    if |fs| == 0 then prev else Trail(fs[1..], FieldTrail(fs[0], mode), mode)
  }

  lemma FieldTrailNotColon(fd: Field, mode: Resume)
    requires FieldOK(fd, mode)
    ensures FieldTrail(fd, mode) != ":"
  {
    if fd.value.Array? {
      ItemsTextNotColon(NonIgnored(fd.value.items));
    }
  }

  lemma {:induction false} TrailNotColon(fs: seq<Field>, prev: string, mode: Resume)
    requires FieldsOK(fs, mode) && prev != ":"
    ensures Trail(fs, prev, mode) != ":"
    decreases fs
  {
    if |fs| > 0 {
      FieldTrailNotColon(fs[0], mode);
      TrailNotColon(fs[1..], FieldTrail(fs[0], mode), mode);
    }
  }

  // ---------------------------------------------------------------------
  // Single iterations of consumeObject's loop
  // ---------------------------------------------------------------------

  /** A skipped token changes nothing. */
  lemma SkipStep(toks: seq<string>, j: nat, f: Frame, mode: Resume)
    requires j < |toks| && |f.state| > 0 && IsIgnoreToken(toks[j])
    ensures ObjectLoop(toks, j, f, mode) == ObjectLoop(toks, j + 1, f, mode)
  {
  }

  /** The loop body on a `[`. */
  lemma LoopOnArray(toks: seq<string>, j: nat, f: Frame, mode: Resume)
    requires j < |toks| && |f.state| > 0 && toks[j] == "["
    ensures ObjectLoop(toks, j, f, mode)
         == Continue(toks, j, ArrayToken(toks, j, mode).1, f, "[", ArrayToken(toks, j, mode).0, mode)
  {
    IgnoredTokensAreNotStructural(toks[j]);
  }

  /** The loop body on a token that is neither skipped nor a bracket of an array. */
  lemma LoopOnToken(toks: seq<string>, j: nat, f: Frame, mode: Resume)
    requires j < |toks| && |f.state| > 0
    requires !IsIgnoreToken(toks[j]) && toks[j] != "]" && toks[j] != "["
    ensures ObjectLoop(toks, j, f, mode) == Continue(toks, j, j + 1, f, toks[j], toks[j], mode)
  {
  }

  /** The end of an iteration that leaves an object open scans on. */
  lemma ContinueOn(toks: seq<string>, j: nat, next: nat, f: Frame, t: string, token: string, mode: Resume, f2: Frame)
    requires j < next <= |toks|
    requires Step(f, t, token) == Success(f2) && |f2.state| > 0
    ensures Continue(toks, j, next, f, t, token, mode) == ObjectLoop(toks, next, f2, mode)
  {
  }

  /** One iteration on a token that is neither skipped nor a bracket of an array, when it leaves an object open. */
  lemma TokenStep(toks: seq<string>, j: nat, f: Frame, mode: Resume, f2: Frame)
    requires j < |toks| && |f.state| > 0
    requires !IsIgnoreToken(toks[j]) && toks[j] != "]" && toks[j] != "["
    requires Step(f, toks[j], toks[j]) == Success(f2)
    requires |f2.state| > 0
    ensures ObjectLoop(toks, j, f, mode) == ObjectLoop(toks, j + 1, f2, mode)
  {
    LoopOnToken(toks, j, f, mode);
    ContinueOn(toks, j, j + 1, f, toks[j], toks[j], mode, f2);
  }

  /** One iteration on a `[`: the array's text stands in for the token. */
  lemma ArrayTokenStep(toks: seq<string>, j: nat, f: Frame, mode: Resume, text: string, c: nat, f2: Frame)
    requires j < |toks| && |f.state| > 0 && toks[j] == "["
    requires ConsumeArray(toks, j, mode) == Consumed(Success(text), c)
    requires Settle(f, text) == Success(f2)
    requires |f2.state| > 0
    ensures ObjectLoop(toks, j, f, mode) == ObjectLoop(toks, Min(c + 1, |toks|), f2, mode)
  {
    assert Step(f, "[", text) == Success(f2);
    assert ArrayToken(toks, j, mode) == (text, Min(c + 1, |toks|));
    LoopOnArray(toks, j, f, mode);
    ContinueOn(toks, j, Min(c + 1, |toks|), f, "[", text, mode, f2);
  }

  /** A plain token while an object awaits its next key only becomes the previous token. */
  lemma PlainStep(toks: seq<string>, j: nat, f: Frame, mode: Resume)
    requires j < |toks| && Plain(toks[j]) && Top(f.state) == Some(ObjectValue)
    ensures ObjectLoop(toks, j, f, mode) == ObjectLoop(toks, j + 1, f.(prev := toks[j]), mode)
  {
    TokenStep(toks, j, f, mode, f.(prev := toks[j]));
  }

  /** A `:` opens a key named by the unquoted previous token. */
  lemma ColonStep(toks: seq<string>, j: nat, f: Frame, mode: Resume)
    requires j < |toks| && toks[j] == ":" && Top(f.state) == Some(ObjectValue) && f.prev != ":"
    ensures ObjectLoop(toks, j, f, mode)
         == ObjectLoop(toks, j + 1, Frame(Push(f.state, ObjectKey), Push(f.path, Unquote(f.prev)), ":", f.doc), mode)
  {
    var f1 := f.(path := Push(f.path, Unquote(f.prev)), state := Push(f.state, ObjectKey));
    PushThenPop(f.state, ObjectKey);
    assert Dispatch(f, ":") == Success(f);
    assert Settle(f, ":") == Success(f1.(prev := ":"));
    TokenStep(toks, j, f, mode, f1.(prev := ":"));
  }

  /** A scalar right after a `:` is written under the field path, and the key is closed. */
  lemma ValueStep(toks: seq<string>, j: nat, s: seq<Marker>, path: seq<string>, key: string, doc: Document, mode: Resume)
    requires j < |toks| && Plain(toks[j]) && Top(s) == Some(ObjectValue)
    ensures ObjectLoop(toks, j, Frame(Push(s, ObjectKey), Push(path, key), ":", doc), mode)
         == ObjectLoop(toks, j + 1, Frame(s, path, toks[j], doc[Join(path + [key], ".") := Unquote(toks[j])]), mode)
  {
    var f := Frame(Push(s, ObjectKey), Push(path, key), ":", doc);
    PushThenPop(s, ObjectKey);
    PushThenPop(path, key);
    assert Dispatch(f, toks[j]) == Success(f);
    TokenStep(toks, j, f, mode, Frame(s, path, toks[j], doc[Join(path + [key], ".") := Unquote(toks[j])]));
  }

  /** A `{` opens a nested object. */
  lemma OpenStep(toks: seq<string>, j: nat, f: Frame, mode: Resume)
    requires j < |toks| && toks[j] == "{" && |f.state| > 0
    ensures ObjectLoop(toks, j, f, mode)
         == ObjectLoop(toks, j + 1, f.(state := Push(f.state, ObjectValue), prev := "{"), mode)
  {
    PushThenPop(f.state, ObjectValue);
    TokenStep(toks, j, f, mode, f.(state := Push(f.state, ObjectValue), prev := "{"));
  }

  /** The `}` of an object that was a key's value closes the object and the key. */
  lemma CloseValueStep(toks: seq<string>, j: nat, s: seq<Marker>, path: seq<string>, key: string, prev: string, doc: Document, mode: Resume)
    requires j < |toks| && toks[j] == "}" && Top(s) == Some(ObjectValue)
    ensures ObjectLoop(toks, j, Frame(Push(Push(s, ObjectKey), ObjectValue), Push(path, key), prev, doc), mode)
         == ObjectLoop(toks, j + 1, Frame(s, path, "}", doc), mode)
  {
    var f := Frame(Push(Push(s, ObjectKey), ObjectValue), Push(path, key), prev, doc);
    PushThenPop(Push(s, ObjectKey), ObjectValue);
    PushThenPop(s, ObjectKey);
    PushThenPop(path, key);
    assert Dispatch(f, "}") == Success(Frame(s, path, prev, doc));
    TokenStep(toks, j, f, mode, Frame(s, path, "}", doc));
  }

  /** Settling a value right after a `:` writes it under the field path and closes the key. */
  lemma SettleValue(s: seq<Marker>, path: seq<string>, key: string, doc: Document, token: string)
    requires token != ":" && Top(s) == Some(ObjectValue)
    ensures Settle(Frame(Push(s, ObjectKey), Push(path, key), ":", doc), token)
         == Success(Frame(s, path, token, doc[Join(path + [key], ".") := Unquote(token)]))
  {
    PushThenPop(s, ObjectKey);
    PushThenPop(path, key);
  }

  /** An array right after a `:` is consumed whole and its text written under the field path. */
  lemma ArrayValueStep(toks: seq<string>, j: nat, s: seq<Marker>, path: seq<string>, key: string, doc: Document, mode: Resume, text: string, c: nat)
    requires j < |toks| && toks[j] == "[" && Top(s) == Some(ObjectValue) && text != ":"
    requires ConsumeArray(toks, j, mode) == Consumed(Success(text), c)
    ensures ObjectLoop(toks, j, Frame(Push(s, ObjectKey), Push(path, key), ":", doc), mode)
         == ObjectLoop(toks, Min(c + 1, |toks|), Frame(s, path, text, doc[Join(path + [key], ".") := Unquote(text)]), mode)
  {
    SettleValue(s, path, key, doc, text);
    var f := Frame(Push(s, ObjectKey), Push(path, key), ":", doc);
    var f2 := Frame(s, path, text, doc[Join(path + [key], ".") := Unquote(text)]);
    ArrayTokenStep(toks, j, f, mode, text, c, f2);
  }

  /**
   The `}` of the outermost object empties the stack and ends the loop with the
   document: on the `}` when the loop stops at the closer, one past it as written.
   */
  lemma FinalCloseStep(toks: seq<string>, j: nat, f: Frame, mode: Resume)
    requires j < |toks| && toks[j] == "}" && f.state == [ObjectValue]
    ensures ObjectLoop(toks, j, f, mode) == Consumed(Success(f.doc), AfterCloser(j, mode))
  {
    var f2 := Frame([], f.path, "}", f.doc);
    IgnoredTokensAreNotStructural(toks[j]);
    LoopOnToken(toks, j, f, mode);
    assert Pop(f.state) == Success([]);
    assert Step(f, "}", "}") == Success(f2);
    if mode == ScanAhead {
      assert ObjectLoop(toks, j + 1, f2, mode) == Consumed(Success(f.doc), j + 1);
    }
  }

  // ---------------------------------------------------------------------
  // Whole fields
  // ---------------------------------------------------------------------

  /**
   The outcome of `consumeObject`'s loop from cursor `j` in frame `f`: a name for
   `ObjectLoop` in the statements of the lemmas about whole fields.
   */
  function Run(toks: seq<string>, j: nat, f: Frame, mode: Resume): Consumed<Document>
    requires j <= |toks|
  {
    ObjectLoop(toks, j, f, mode)
  }

  /** A run of plain tokens leaves the depth unchanged and loses nothing to skipping. */
  lemma {:induction false} PlainRun(toks: seq<string>, a: nat, b: nat)
    requires a <= b <= |toks| && forall i :: a <= i < b ==> Plain(toks[i])
    ensures Net(toks[a..b]) == 0 && NonIgnored(toks[a..b]) == toks[a..b]
    decreases b - a
  {
    if a < b {
      RunStep(toks, a, b);
      PlainRun(toks, a + 1, b);
      assert toks[a..b] == [toks[a]] + toks[a + 1..b];
    }
  }

  /** Every token of a run that spells plain items is plain. */
  lemma PlainSlice(toks: seq<string>, a: nat, items: seq<string>)
    requires At(toks, a, items) && AllPlain(items)
    ensures forall i :: a <= i < a + |items| ==> Plain(toks[i])
  {
    forall i | a <= i < a + |items|
      ensures Plain(toks[i])
    {
      AtIndex(toks, a, items, i - a);
    }
  }

  /** After a `[`, plain tokens up to a `]` close the array exactly there. */
  lemma PlainCloses(toks: seq<string>, a: nat, k: nat)
    requires a <= k < |toks| && toks[k] == "]"
    requires forall i :: a <= i < k ==> Plain(toks[i])
    ensures ClosesFrom(toks, a, 1, k)
  {
    forall m | a <= m <= k
      ensures 1 + Net(toks[a..m]) > 0
    {
      PlainRun(toks, a, m);
    }
    PlainRun(toks, a, k);
    PrefixStep(toks, a, k);
  }

  /** Plain tokens up to a `]` are kept in full, closer included. */
  lemma PlainKept(toks: seq<string>, a: nat, k: nat)
    requires a <= k < |toks| && toks[k] == "]"
    requires forall i :: a <= i < k ==> Plain(toks[i])
    ensures NonIgnored(toks[a..k + 1]) == toks[a..k] + ["]"]
  {
    PlainRun(toks, a, k);
    RunStep(toks, k, k + 1);
    assert toks[k + 1..k + 1] == [];
    assert NonIgnored(toks[k..k + 1]) == ["]"];
    NonIgnoredAppend(toks, a, k, k + 1);
  }

  /** The array of plain items at `j` closes at its `]`, and its text is `ItemsText`. */
  lemma PlainArrayCloses(toks: seq<string>, j: nat, items: seq<string>)
    requires At(toks, j, ["["] + items + ["]"]) && AllPlain(items)
    ensures ClosesAt(toks, j, j + |items| + 1)
    ensures ArrayText(toks, j, j + |items| + 1) == ItemsText(items)
  {
    var k := j + |items| + 1;
    var j1 := j + 1;
    Bracketed(toks, j, "[", items, "]");
    PlainSlice(toks, j1, items);
    PlainCloses(toks, j1, k);
    PlainKept(toks, j1, k);
    assert toks[j1..k] == items;
    assert ["["] + (items + ["]"]) == ["["] + items + ["]"];
  }

  /** `consumeArray` on an array of plain items returns `ItemsText` and leaves the cursor next to its `]`. */
  lemma PlainArrayConsumed(toks: seq<string>, j: nat, items: seq<string>, mode: Resume)
    requires At(toks, j, ["["] + items + ["]"]) && AllPlain(items)
    ensures ConsumeArray(toks, j, mode) == Consumed(Success(ItemsText(items)), AfterCloser(j + |items| + 1, mode))
    ensures ItemsText(items) != ":" && Unquote(ItemsText(items)) == ItemsText(items)
  {
    PlainArrayCloses(toks, j, items);
    ConsumeArrayCloses(toks, j, j + |items| + 1, mode);
    ItemsTextNotColon(items);
    UnquoteUnchanged(ItemsText(items));
  }

  lemma {:induction false} NonIgnoredAppend(toks: seq<string>, a: nat, b: nat, c: nat)
    requires a <= b <= c <= |toks|
    ensures NonIgnored(toks[a..c]) == NonIgnored(toks[a..b]) + NonIgnored(toks[b..c])
    decreases b - a
  {
    if a == b {
      assert toks[a..b] == [];
    } else {
      RunStep(toks, a, c);
      RunStep(toks, a, b);
      NonIgnoredAppend(toks, a + 1, b, c);
    }
  }

  /** A key and its `:` open the key. */
  lemma KeyColonRun(toks: seq<string>, p: nat, key: string, f: Frame, mode: Resume)
    requires At(toks, p, [key, ":"]) && Plain(key)
    requires Top(f.state) == Some(ObjectValue)
    ensures Run(toks, p, f, mode)
         == Run(toks, p + 2, Frame(Push(f.state, ObjectKey), Push(f.path, Unquote(key)), ":", f.doc), mode)
  {
    AtIndex(toks, p, [key, ":"], 0);
    AtIndex(toks, p, [key, ":"], 1);
    PlainStep(toks, p, f, mode);
    ColonStep(toks, p + 1, f.(prev := key), mode);
  }

  /** An optional comma after a value only becomes the previous token. */
  lemma CommaRun(toks: seq<string>, q: nat, comma: bool, f: Frame, mode: Resume)
    requires At(toks, q, CommaTokens(comma)) && Top(f.state) == Some(ObjectValue)
    ensures Run(toks, q, f, mode)
         == Run(toks, q + |CommaTokens(comma)|, Frame(f.state, f.path, if comma then "," else f.prev, f.doc), mode)
  {
    if comma {
      AtIndex(toks, q, [","], 0);
      PlainStep(toks, q, f, mode);
    }
  }

  /** A scalar value, bare or inside a wrapper call, is written under the field path. */
  lemma ScalarValueRun(toks: seq<string>, q: nat, v: Value, s: seq<Marker>, path: seq<string>, key: string, doc: Document, mode: Resume)
    requires v.Scalar? || (v.Wrapped? && IsIgnoreToken(v.wrapper))
    requires Plain(v.text) && At(toks, q, ValueTokens(v)) && Top(s) == Some(ObjectValue)
    ensures Run(toks, q, Frame(Push(s, ObjectKey), Push(path, key), ":", doc), mode)
         == Run(toks, q + |ValueTokens(v)|, Frame(s, path, v.text, doc[Join(path + [key], ".") := Unquote(v.text)]), mode)
  {
    var e := ValueTokens(v);
    var f := Frame(Push(s, ObjectKey), Push(path, key), ":", doc);
    if v.Scalar? {
      AtIndex(toks, q, e, 0);
      ValueStep(toks, q, s, path, key, doc, mode);
    } else {
      AtIndex(toks, q, e, 0);
      AtIndex(toks, q, e, 1);
      AtIndex(toks, q, e, 2);
      AtIndex(toks, q, e, 3);
      SkipStep(toks, q, f, mode);
      SkipStep(toks, q + 1, f, mode);
      ValueStep(toks, q + 2, s, path, key, doc, mode);
      SkipStep(toks, q + 3, Frame(s, path, v.text, doc[Join(path + [key], ".") := Unquote(v.text)]), mode);
    }
  }

  /** The tokens of a field split into its key and `:`, its value, and its comma. */
  lemma FieldTokensSplit(toks: seq<string>, p: nat, fd: Field)
    requires At(toks, p, FieldTokens(fd))
    ensures At(toks, p, [fd.key, ":"])
    ensures At(toks, p + 2, ValueTokens(fd.value))
    ensures At(toks, p + 2 + |ValueTokens(fd.value)|, CommaTokens(fd.comma))
    ensures |FieldTokens(fd)| == 2 + |ValueTokens(fd.value)| + |CommaTokens(fd.comma)|
  {
    var vt := ValueTokens(fd.value);
    var ct := CommaTokens(fd.comma);
    assert FieldTokens(fd) == [fd.key, ":"] + (vt + ct);
    AtSplit(toks, p, [fd.key, ":"], vt + ct);
    AtSplit(toks, p + 2, vt, ct);
  }

  /** A field whose value is a scalar, bare or wrapped. */
  lemma ScalarFieldRun(toks: seq<string>, p: nat, fd: Field, f: Frame, mode: Resume)
    requires fd.value.Scalar? || (fd.value.Wrapped? && IsIgnoreToken(fd.value.wrapper))
    requires Plain(fd.key) && Plain(fd.value.text)
    requires At(toks, p, FieldTokens(fd)) && Top(f.state) == Some(ObjectValue)
    ensures Run(toks, p, f, mode)
         == Run(toks, p + |FieldTokens(fd)|,
                       Frame(f.state, f.path, if fd.comma then "," else fd.value.text,
                             f.doc[Join(f.path + [Unquote(fd.key)], ".") := Unquote(fd.value.text)]), mode)
  {
    var key := Unquote(fd.key);
    FieldTokensSplit(toks, p, fd);
    KeyColonRun(toks, p, fd.key, f, mode);
    ScalarValueRun(toks, p + 2, fd.value, f.state, f.path, key, f.doc, mode);
    var g := Frame(f.state, f.path, fd.value.text, f.doc[Join(f.path + [key], ".") := Unquote(fd.value.text)]);
    CommaRun(toks, p + 2 + |ValueTokens(fd.value)|, fd.comma, g, mode);
  }

  /** A field whose value is an array. */
  lemma ArrayFieldRun(toks: seq<string>, p: nat, fd: Field, f: Frame, mode: Resume)
    requires fd.value.Array? && Plain(fd.key) && BalancedRun(fd.value.items)
    requires mode == ScanAhead ==> fd.comma
    requires At(toks, p, FieldTokens(fd)) && Top(f.state) == Some(ObjectValue)
    ensures Run(toks, p, f, mode)
         == Run(toks, p + |FieldTokens(fd)|,
                       Frame(f.state, f.path, if fd.comma && mode == StopAtCloser then "," else ArrayValueText(fd.value.items),
                             f.doc[Join(f.path + [Unquote(fd.key)], ".") := ArrayValueText(fd.value.items)]), mode)
  {
    FieldTokensSplit(toks, p, fd);
    KeyColonRun(toks, p, fd.key, f, mode);
    if mode == ScanAhead {
      ArrayFieldValueAhead(toks, p, fd, f);
    } else {
      ArrayFieldValueStop(toks, p, fd, f);
    }
  }

  /** As written, an array field's value and the comma that the scan passes over. */
  lemma ArrayFieldValueAhead(toks: seq<string>, p: nat, fd: Field, f: Frame)
    requires fd.value.Array? && BalancedRun(fd.value.items) && fd.comma
    requires At(toks, p, FieldTokens(fd)) && Top(f.state) == Some(ObjectValue)
    ensures Run(toks, p + 2, Frame(Push(f.state, ObjectKey), Push(f.path, Unquote(fd.key)), ":", f.doc), ScanAhead)
         == Run(toks, p + |FieldTokens(fd)|,
                       Frame(f.state, f.path, ArrayValueText(fd.value.items),
                             f.doc[Join(f.path + [Unquote(fd.key)], ".") := ArrayValueText(fd.value.items)]), ScanAhead)
  {
    var items := fd.value.items;
    FieldTokensSplit(toks, p, fd);
    assert ValueTokens(fd.value) == ["["] + items + ["]"];
    assert At(toks, p + 2 + |items| + 2, [","]);
    assert p + |FieldTokens(fd)| == p + 2 + |items| + 2 + 1;
    ArrayValueRun(toks, p + 2, items, f.state, f.path, Unquote(fd.key), f.doc, ScanAhead);
  }

  /** When the loop stops at each closer, an array field's value and its optional comma. */
  lemma ArrayFieldValueStop(toks: seq<string>, p: nat, fd: Field, f: Frame)
    requires fd.value.Array? && BalancedRun(fd.value.items)
    requires At(toks, p, FieldTokens(fd)) && Top(f.state) == Some(ObjectValue)
    ensures Run(toks, p + 2, Frame(Push(f.state, ObjectKey), Push(f.path, Unquote(fd.key)), ":", f.doc), StopAtCloser)
         == Run(toks, p + |FieldTokens(fd)|,
                       Frame(f.state, f.path, if fd.comma then "," else ArrayValueText(fd.value.items),
                             f.doc[Join(f.path + [Unquote(fd.key)], ".") := ArrayValueText(fd.value.items)]), StopAtCloser)
  {
    var items := fd.value.items;
    FieldTokensSplit(toks, p, fd);
    assert ValueTokens(fd.value) == ["["] + items + ["]"];
    assert p + |FieldTokens(fd)| == p + 2 + |items| + 2 + |CommaTokens(fd.comma)|;
    ArrayValueThenComma(toks, p + 2, items, fd.comma, f.state, f.path, Unquote(fd.key), f.doc);
  }

  /** When the loop stops at each closer, an array value and its optional comma. */
  lemma ArrayValueThenComma(toks: seq<string>, q: nat, items: seq<string>, comma: bool, s: seq<Marker>, path: seq<string>, key: string, doc: Document)
    requires At(toks, q, ["["] + items + ["]"]) && BalancedRun(items) && Top(s) == Some(ObjectValue)
    requires At(toks, q + |items| + 2, CommaTokens(comma))
    ensures Run(toks, q, Frame(Push(s, ObjectKey), Push(path, key), ":", doc), StopAtCloser)
         == Run(toks, q + |items| + 2 + |CommaTokens(comma)|,
                       Frame(s, path, if comma then "," else ArrayValueText(items), doc[Join(path + [key], ".") := ArrayValueText(items)]), StopAtCloser)
  {
    var text := ArrayValueText(items);
    ArrayValueRun(toks, q, items, s, path, key, doc, StopAtCloser);
    CommaRun(toks, q + |items| + 2, comma, Frame(s, path, text, doc[Join(path + [key], ".") := text]), StopAtCloser);
  }

  /**
   An array with a balanced body right after a `:` is written, as `consumeArray`
   rebuilds it, under the field path.
   As written the loop then resumes one past the token after the `]`.
   */
  lemma ArrayValueRun(toks: seq<string>, q: nat, items: seq<string>, s: seq<Marker>, path: seq<string>, key: string, doc: Document, mode: Resume)
    requires At(toks, q, ["["] + items + ["]"]) && BalancedRun(items) && Top(s) == Some(ObjectValue)
    requires mode == ScanAhead ==> q + |items| + 2 < |toks|
    ensures mode == StopAtCloser ==> (
              Run(toks, q, Frame(Push(s, ObjectKey), Push(path, key), ":", doc), mode)
           == Run(toks, q + |items| + 2, Frame(s, path, ArrayValueText(items), doc[Join(path + [key], ".") := ArrayValueText(items)]), mode))
    ensures mode == ScanAhead ==> (
              Run(toks, q, Frame(Push(s, ObjectKey), Push(path, key), ":", doc), mode)
           == Run(toks, q + |items| + 3, Frame(s, path, ArrayValueText(items), doc[Join(path + [key], ".") := ArrayValueText(items)]), mode))
  {
    var text := ArrayValueText(items);
    var k := q + |items| + 1;
    ArrayValueConsumed(toks, q, items, mode);
    AtIndex(toks, q, ["["] + items + ["]"], 0);
    ArrayValueStep(toks, q, s, path, key, doc, mode, text, AfterCloser(k, mode));
  }

  /**
   The run of a well-formed field list leaves the state and field path as they
   were, adds the flattened fields to the document, and moves past its tokens.
   */
  lemma {:induction false} FieldsRun(toks: seq<string>, p: nat, fs: seq<Field>, f: Frame, mode: Resume)
    requires FieldsOK(fs, mode) && At(toks, p, EncodeFields(fs))
    requires Top(f.state) == Some(ObjectValue) && f.prev != ":"
    ensures Run(toks, p, f, mode)
         == Run(toks, p + |EncodeFields(fs)|, Frame(f.state, f.path, Trail(fs, f.prev, mode), FlattenFields(f.doc, f.path, fs)), mode)
    decreases fs, 2
  {
    if |fs| == 0 {
      assert Frame(f.state, f.path, Trail(fs, f.prev, mode), FlattenFields(f.doc, f.path, fs)) == f;
    } else {
      FieldsNonEmptyRun(toks, p, fs, f, mode);
    }
  }

  /** `FieldsRun` for a non-empty list, through its first field and the rest. */
  lemma {:induction false} FieldsNonEmptyRun(toks: seq<string>, p: nat, fs: seq<Field>, f: Frame, mode: Resume)
    requires |fs| > 0 && FieldsOK(fs, mode) && At(toks, p, EncodeFields(fs))
    requires Top(f.state) == Some(ObjectValue) && f.prev != ":"
    ensures Run(toks, p, f, mode)
         == Run(toks, p + |EncodeFields(fs)|, Frame(f.state, f.path, Trail(fs, f.prev, mode), FlattenFields(f.doc, f.path, fs)), mode)
    decreases fs, 1
  {
    var fd := fs[0];
    var rest := fs[1..];
    var n := p + |FieldTokens(fd)| + |EncodeFields(rest)|;
    var g := Frame(f.state, f.path, Trail(rest, FieldTrail(fd, mode), mode), FlattenFields(FlattenField(f.doc, f.path, fd), f.path, rest));
    assert Run(toks, p, f, mode) == Run(toks, n, g, mode) by {
      FieldsConsFacts(toks, p, fs, f.doc, f.path, f.prev, mode);
      assert [fd] + rest == fs;
      FieldsConsRun(toks, p, fd, rest, f, mode);
    }
    assert n == p + |EncodeFields(fs)| && g == Frame(f.state, f.path, Trail(fs, f.prev, mode), FlattenFields(f.doc, f.path, fs)) by {
      FieldsConsFacts(toks, p, fs, f.doc, f.path, f.prev, mode);
    }
  }

  /** A non-empty field list: its first field, then the rest. */
  lemma {:induction false} FieldsConsRun(toks: seq<string>, p: nat, fd: Field, rest: seq<Field>, f: Frame, mode: Resume)
    requires FieldOK(fd, mode) && FieldsOK(rest, mode)
    requires At(toks, p, FieldTokens(fd)) && At(toks, p + |FieldTokens(fd)|, EncodeFields(rest))
    requires Top(f.state) == Some(ObjectValue) && FieldTrail(fd, mode) != ":"
    ensures Run(toks, p, f, mode)
         == Run(toks, p + |FieldTokens(fd)| + |EncodeFields(rest)|,
                Frame(f.state, f.path, Trail(rest, FieldTrail(fd, mode), mode),
                      FlattenFields(FlattenField(f.doc, f.path, fd), f.path, rest)), mode)
    decreases [fd] + rest, 0
  {
    assert ([fd] + rest)[0] == fd && ([fd] + rest)[1..] == rest;
    FieldRun(toks, p, fd, f, mode);
    var g := Frame(f.state, f.path, FieldTrail(fd, mode), FlattenField(f.doc, f.path, fd));
    FieldsRun(toks, p + |FieldTokens(fd)|, rest, g, mode);
  }

  /** How the tokens, the trail and the flattening of a non-empty field list break down at its first field. */
  lemma FieldsConsFacts(toks: seq<string>, p: nat, fs: seq<Field>, doc: Document, path: seq<string>, prev: string, mode: Resume)
    requires |fs| > 0 && FieldsOK(fs, mode) && At(toks, p, EncodeFields(fs)) && prev != ":"
    ensures FieldOK(fs[0], mode) && FieldsOK(fs[1..], mode)
    ensures At(toks, p, FieldTokens(fs[0])) && At(toks, p + |FieldTokens(fs[0])|, EncodeFields(fs[1..]))
    ensures |EncodeFields(fs)| == |FieldTokens(fs[0])| + |EncodeFields(fs[1..])|
    ensures FieldTrail(fs[0], mode) != ":"
    ensures Trail(fs, prev, mode) == Trail(fs[1..], FieldTrail(fs[0], mode), mode)
    ensures FlattenFields(doc, path, fs) == FlattenFields(FlattenField(doc, path, fs[0]), path, fs[1..])
  {
    AtSplit(toks, p, FieldTokens(fs[0]), EncodeFields(fs[1..]));
    FieldTrailNotColon(fs[0], mode);
  }

  /** One well-formed field: its flattened entries are added and the previous token becomes its trail. */
  lemma {:induction false} FieldRun(toks: seq<string>, p: nat, fd: Field, f: Frame, mode: Resume)
    requires FieldOK(fd, mode) && At(toks, p, FieldTokens(fd))
    requires Top(f.state) == Some(ObjectValue)
    ensures Run(toks, p, f, mode)
         == Run(toks, p + |FieldTokens(fd)|, Frame(f.state, f.path, FieldTrail(fd, mode), FlattenField(f.doc, f.path, fd)), mode)
    decreases fd, 1
  {
    var key := Unquote(fd.key);
    match fd.value {
      case Object(_) =>
        ObjectFieldRun(toks, p, fd, f, mode);
      case Array(items) =>
        assert FlattenField(f.doc, f.path, fd) == f.doc[Join(f.path + [key], ".") := ArrayValueText(items)];
        ArrayFieldRun(toks, p, fd, f, mode);
      case _ =>
        assert FlattenField(f.doc, f.path, fd) == f.doc[Join(f.path + [key], ".") := Unquote(fd.value.text)];
        ScalarFieldRun(toks, p, fd, f, mode);
    }
  }

  /** A field whose value is an object contributes its inner fields under its key. */
  lemma {:induction false} ObjectFieldRun(toks: seq<string>, p: nat, fd: Field, f: Frame, mode: Resume)
    requires fd.value.Object? && FieldOK(fd, mode) && At(toks, p, FieldTokens(fd))
    requires Top(f.state) == Some(ObjectValue)
    ensures Run(toks, p, f, mode)
         == Run(toks, p + |FieldTokens(fd)|, Frame(f.state, f.path, FieldTrail(fd, mode), FlattenField(f.doc, f.path, fd)), mode)
    decreases fd, 0
  {
    ObjectFieldFacts(toks, p, fd, f.doc, f.path, mode);
    ObjectFieldChain(toks, p, fd.key, fd.value.fields, fd.comma, |ValueTokens(fd.value)|, f, mode);
  }

  /** The key, `:`, object value and comma of an object field, one after the other. */
  lemma {:induction false} ObjectFieldChain(toks: seq<string>, p: nat, key: string, inner: seq<Field>, comma: bool, n: nat, f: Frame, mode: Resume)
    requires Plain(key) && FieldsOK(inner, mode) && Top(f.state) == Some(ObjectValue)
    requires n == |ValueTokens(Object(inner))|
    requires At(toks, p, [key, ":"]) && At(toks, p + 2, ValueTokens(Object(inner))) && At(toks, p + 2 + n, CommaTokens(comma))
    ensures Run(toks, p, f, mode)
         == Run(toks, p + 2 + n + |CommaTokens(comma)|,
                       Frame(f.state, f.path, if comma then "," else "}", FlattenFields(f.doc, f.path + [Unquote(key)], inner)), mode)
    decreases inner, 5
  {
    KeyColonRun(toks, p, key, f, mode);
    ObjectValueRun(toks, p + 2, inner, comma, f.state, f.path, Unquote(key), f.doc, mode);
  }

  /** How the tokens, the trail and the flattening of an object field break down. */
  lemma ObjectFieldFacts(toks: seq<string>, p: nat, fd: Field, doc: Document, path: seq<string>, mode: Resume)
    requires fd.value.Object? && FieldOK(fd, mode) && At(toks, p, FieldTokens(fd))
    ensures Plain(fd.key) && FieldsOK(fd.value.fields, mode)
    ensures At(toks, p, [fd.key, ":"])
    ensures At(toks, p + 2, ValueTokens(fd.value))
    ensures At(toks, p + 2 + |ValueTokens(fd.value)|, CommaTokens(fd.comma))
    ensures p + |FieldTokens(fd)| == p + 2 + |ValueTokens(fd.value)| + |CommaTokens(fd.comma)|
    ensures FieldTrail(fd, mode) == if fd.comma then "," else "}"
    ensures FlattenField(doc, path, fd) == FlattenFields(doc, path + [Unquote(fd.key)], fd.value.fields)
  {
    FieldTokensSplit(toks, p, fd);
  }

  /** An object right after a `:`, with its optional comma. */
  lemma {:induction false} ObjectValueRun(toks: seq<string>, q: nat, inner: seq<Field>, comma: bool, s: seq<Marker>, path: seq<string>, key: string, doc: Document, mode: Resume)
    requires FieldsOK(inner, mode) && Top(s) == Some(ObjectValue)
    requires At(toks, q, ValueTokens(Object(inner))) && At(toks, q + |ValueTokens(Object(inner))|, CommaTokens(comma))
    ensures Run(toks, q, Frame(Push(s, ObjectKey), Push(path, key), ":", doc), mode)
         == Run(toks, q + |ValueTokens(Object(inner))| + |CommaTokens(comma)|,
                       Frame(s, path, if comma then "," else "}", FlattenFields(doc, path + [key], inner)), mode)
    decreases inner, 4
  {
    ObjectTokensSplit(toks, q, inner, comma);
    var keyed := Frame(Push(s, ObjectKey), Push(path, key), ":", doc);
    OpenStep(toks, q, keyed, mode);
    ObjectBodyRun(toks, q + 1, inner, comma, s, path, key, doc, mode);
  }

  /** The tokens of an object value: its `{`, its fields and `}`, and the optional comma after it. */
  lemma ObjectTokensSplit(toks: seq<string>, q: nat, inner: seq<Field>, comma: bool)
    requires At(toks, q, ValueTokens(Object(inner))) && At(toks, q + |ValueTokens(Object(inner))|, CommaTokens(comma))
    ensures q < |toks| && toks[q] == "{"
    ensures At(toks, q + 1, EncodeFields(inner) + ["}"])
    ensures At(toks, q + 1 + |EncodeFields(inner)| + 1, CommaTokens(comma))
    ensures |ValueTokens(Object(inner))| == |EncodeFields(inner)| + 2
  {
    Bracketed(toks, q, "{", EncodeFields(inner), "}");
  }

  /** The fields of an object that is a key's value, its `}` and its optional comma. */
  lemma {:induction false} ObjectBodyRun(toks: seq<string>, q: nat, inner: seq<Field>, comma: bool, s: seq<Marker>, path: seq<string>, key: string, doc: Document, mode: Resume)
    requires FieldsOK(inner, mode) && Top(s) == Some(ObjectValue)
    requires At(toks, q, EncodeFields(inner) + ["}"]) && At(toks, q + |EncodeFields(inner)| + 1, CommaTokens(comma))
    ensures Run(toks, q, Frame(Push(Push(s, ObjectKey), ObjectValue), Push(path, key), "{", doc), mode)
         == Run(toks, q + |EncodeFields(inner)| + 1 + |CommaTokens(comma)|,
                       Frame(s, path, if comma then "," else "}", FlattenFields(doc, path + [key], inner)), mode)
    decreases inner, 3
  {
    ObjectBodyFacts(toks, q, inner, s, path, key);
    var nested := Frame(Push(Push(s, ObjectKey), ObjectValue), Push(path, key), "{", doc);
    FieldsRun(toks, q, inner, nested, mode);
    CloseThenComma(toks, q + |EncodeFields(inner)|, comma, s, path, key, Trail(inner, "{", mode), FlattenFields(doc, path + [key], inner), mode);
  }

  /** Where an object body's closer sits, and the open object on top of its key. */
  lemma ObjectBodyFacts(toks: seq<string>, q: nat, inner: seq<Field>, s: seq<Marker>, path: seq<string>, key: string)
    requires At(toks, q, EncodeFields(inner) + ["}"])
    ensures At(toks, q, EncodeFields(inner)) && At(toks, q + |EncodeFields(inner)|, ["}"])
    ensures Top(Push(Push(s, ObjectKey), ObjectValue)) == Some(ObjectValue)
    ensures Push(path, key) == path + [key]
  {
    AtSplit(toks, q, EncodeFields(inner), ["}"]);
    PushThenPop(Push(s, ObjectKey), ObjectValue);
  }

  /** The `}` of an object that is a key's value, and its optional comma. */
  lemma CloseThenComma(toks: seq<string>, c: nat, comma: bool, s: seq<Marker>, path: seq<string>, key: string, prev: string, doc: Document, mode: Resume)
    requires At(toks, c, ["}"]) && At(toks, c + 1, CommaTokens(comma)) && Top(s) == Some(ObjectValue)
    ensures Run(toks, c, Frame(Push(Push(s, ObjectKey), ObjectValue), Push(path, key), prev, doc), mode)
         == Run(toks, c + 1 + |CommaTokens(comma)|, Frame(s, path, if comma then "," else "}", doc), mode)
  {
    AtIndex(toks, c, ["}"], 0);
    CloseValueStep(toks, c, s, path, key, prev, doc, mode);
    CommaRun(toks, c + 1, comma, Frame(s, path, "}", doc), mode);
  }

  // ---------------------------------------------------------------------
  // Whole objects
  // ---------------------------------------------------------------------

  /**
   `consumeObject` on the tokens of a well-formed object returns exactly its
   flattened document, with the cursor next to the object's `}`: one past it as
   written, on it when the loop stops at the closer.
   */
  lemma ConsumeObjectRoundTrip(toks: seq<string>, i: nat, fs: seq<Field>, mode: Resume)
    requires FieldsOK(fs, mode) && At(toks, i, Encode(fs))
    ensures ConsumeObject(toks, i, mode) == Consumed(Success(Flatten(fs)), AfterCloser(i + |Encode(fs)| - 1, mode))
  {
    var k := i + 1 + |EncodeFields(fs)|;
    Bracketed(toks, i, "{", EncodeFields(fs), "}");
    PushThenPop([], ObjectValue);
    FieldsRun(toks, i + 1, fs, Start, mode);
    FinalCloseStep(toks, k, Frame([ObjectValue], [], Trail(fs, "", mode), Flatten(fs)), mode);
  }
}
