/**
 Bracket nesting of token runs. A run is balanced when none of its prefixes
 closes more brackets than it has opened and it ends at depth zero; an
 encoded object is one, so an array of encoded objects closes at its own
 `]`, which is what lets `consumeArray` keep such an array verbatim.
 */
module Nesting {
  import opened Wrappers
  import opened Tokens
  import opened Parser
  import opened ArraySpec
  import opened Encoding

  lemma {:induction false} NetAppend(a: seq<string>, b: seq<string>)
    ensures Net(a + b) == Net(a) + Net(b)
    decreases |a|
  {
    if |a| == 0 {
      assert a + b == b;
    } else {
      assert (a + b)[0] == a[0];
      assert (a + b)[1..] == a[1..] + b;
      NetAppend(a[1..], b);
    }
  }

  /** A nested run that does not end below its start can be followed by any nested run. */
  lemma NestedAppend(a: seq<string>, b: seq<string>)
    requires Nested(a) && Net(a) >= 0 && Nested(b)
    ensures Nested(a + b) && Net(a + b) == Net(a) + Net(b)
  {
    NetAppend(a, b);
    forall m | 0 <= m <= |a + b|
      ensures Net((a + b)[..m]) >= 0
    {
      if m <= |a| {
        assert (a + b)[..m] == a[..m];
      } else {
        assert (a + b)[..m] == a + b[..m - |a|];
        NetAppend(a, b[..m - |a|]);
      }
    }
  }

  lemma BalancedAppend(a: seq<string>, b: seq<string>)
    requires BalancedRun(a) && BalancedRun(b)
    ensures BalancedRun(a + b)
  {
    NestedAppend(a, b);
  }

  /** Tokens that neither open nor close leave every prefix at depth zero. */
  lemma {:induction false} FlatRun(s: seq<string>)
    requires forall i :: 0 <= i < |s| ==> Delta(s[i]) == 0
    ensures BalancedRun(s)
    ensures forall m :: 0 <= m <= |s| ==> Net(s[..m]) == 0
    decreases |s|
  {
    if |s| > 0 {
      FlatRun(s[1..]);
      forall m | 0 < m <= |s|
        ensures Net(s[..m]) == 0
      {
        assert s[..m][1..] == s[1..][..m - 1];
      }
    }
    assert Net(s[..0]) == 0;
    assert s[..|s|] == s;
  }

  /** An opener, a balanced body and a closer make a balanced run. */
  lemma Wrap(open: string, body: seq<string>, close: string)
    requires Delta(open) == 1 && Delta(close) == -1 && BalancedRun(body)
    ensures BalancedRun([open] + body + [close])
  {
    var w := [open] + body + [close];
    NetAppend([open], body);
    NetAppend([open] + body, [close]);
    forall m | 0 <= m <= |w|
      ensures Net(w[..m]) >= 0
    {
      if m == |w| {
        assert w[..m] == w;
      } else if 0 < m {
        assert w[..m] == [open] + body[..m - 1];
        NetAppend([open], body[..m - 1]);
      }
    }
  }

  /** Everything the reference encoder writes is balanced. */
  lemma {:induction false} FieldsBalanced(fs: seq<Field>, mode: Resume)
    requires FieldsOK(fs, mode)
    ensures BalancedRun(EncodeFields(fs))
    decreases fs, 2
  {
    if |fs| == 0 {
      FlatRun([]);
    } else {
      FieldBalanced(fs[0], mode);
      FieldsBalanced(fs[1..], mode);
      BalancedAppend(FieldTokens(fs[0]), EncodeFields(fs[1..]));
    }
  }

  lemma {:induction false} FieldBalanced(f: Field, mode: Resume)
    requires FieldOK(f, mode)
    ensures BalancedRun(FieldTokens(f))
    decreases f, 1
  {
    FlatRun([f.key, ":"]);
    ValueBalanced(f, mode);
    FlatRun(CommaTokens(f.comma));
    BalancedAppend([f.key, ":"], ValueTokens(f.value));
    BalancedAppend([f.key, ":"] + ValueTokens(f.value), CommaTokens(f.comma));
  }

  lemma {:induction false} ValueBalanced(f: Field, mode: Resume)
    requires FieldOK(f, mode)
    ensures BalancedRun(ValueTokens(f.value))
    decreases f, 0
  {
    match f.value
    case Scalar(t) =>
      FlatRun([t]);
    case Wrapped(w, t) =>
      IgnoredIsFlat(w);
      FlatRun([w, "(", t, ")"]);
    case Array(items) =>
      Wrap("[", items, "]");
    case Object(inner) =>
      FieldsBalanced(inner, mode);
      Wrap("{", EncodeFields(inner), "}");
  }

  lemma EncodeBalanced(fs: seq<Field>, mode: Resume)
    requires FieldsOK(fs, mode)
    ensures BalancedRun(Encode(fs))
  {
    FieldsBalanced(fs, mode);
    Wrap("{", EncodeFields(fs), "}");
  }

  /** An array whose body is balanced closes at the `]` right after that body. */
  lemma BalancedArrayCloses(toks: seq<string>, j: nat, body: seq<string>)
    requires At(toks, j, ["["] + body + ["]"]) && BalancedRun(body)
    ensures ClosesAt(toks, j, j + |body| + 1)
  {
    var j1 := j + 1;
    var k := j + |body| + 1;
    Bracketed(toks, j, "[", body, "]");
    assert toks[j1..k + 1] == body + ["]"];
    forall m | j1 <= m <= k
      ensures 1 + Net(toks[j1..m]) > 0
    {
      assert toks[j1..m] == body[..m - j1];
    }
    NetAppend(body, ["]"]);
  }

  /** A run without skipped tokens is kept whole. */
  lemma {:induction false} KeptRun(s: seq<string>)
    requires Unskipped(s)
    ensures NonIgnored(s) == s
    decreases |s|
  {
    if |s| > 0 {
      KeptRun(s[1..]);
    }
  }

  lemma {:induction false} NonIgnoredConcat(a: seq<string>, b: seq<string>)
    ensures NonIgnored(a + b) == NonIgnored(a) + NonIgnored(b)
    decreases |a|
  {
    if |a| == 0 {
      assert a + b == b;
    } else {
      assert (a + b)[0] == a[0];
      assert (a + b)[1..] == a[1..] + b;
      NonIgnoredConcat(a[1..], b);
    }
  }

  /** No token of the run is skipped. */
  predicate Unskipped(s: seq<string>) {
    forall i :: 0 <= i < |s| ==> !IsIgnoreToken(s[i])
  }

  lemma UnskippedAppend(a: seq<string>, b: seq<string>)
    requires Unskipped(a) && Unskipped(b)
    ensures Unskipped(a + b)
  {
    forall i | 0 <= i < |a + b|
      ensures !IsIgnoreToken((a + b)[i])
    {
      if i < |a| {
        assert (a + b)[i] == a[i];
      } else {
        assert (a + b)[i] == b[i - |a|];
      }
    }
  }

  /** A body without skipped tokens, and its closer, are kept whole. */
  lemma KeptArray(body: seq<string>)
    requires Unskipped(body)
    ensures NonIgnored(body + ["]"]) == body + ["]"]
  {
    KeptRun(body);
    NonIgnoredConcat(body, ["]"]);
    IgnoredTokensAreNotStructural("]");
    assert ["]"][1..] == [];
  }

  /** The text of such an array is all of it, space-joined. */
  lemma KeptArrayText(toks: seq<string>, j: nat, body: seq<string>)
    requires At(toks, j, ["["] + body + ["]"]) && Unskipped(body)
    ensures j + |body| + 1 < |toks|
    ensures ArrayText(toks, j, j + |body| + 1) == ItemsText(body)
  {
    Bracketed(toks, j, "[", body, "]");
    assert toks[j + 1..j + |body| + 2] == body + ["]"];
    KeptArray(body);
    assert ["["] + (body + ["]"]) == ["["] + body + ["]"];
  }

  /** `consumeArray` on an array whose body is balanced and has no skipped tokens returns that array, space-joined. */
  lemma BalancedArrayConsumed(toks: seq<string>, j: nat, body: seq<string>, mode: Resume)
    requires At(toks, j, ["["] + body + ["]"]) && BalancedRun(body) && Unskipped(body)
    ensures ConsumeArray(toks, j, mode) == Consumed(Success(ItemsText(body)), AfterCloser(j + |body| + 1, mode))
  {
    BalancedArrayCloses(toks, j, body);
    KeptArrayText(toks, j, body);
    ConsumeArrayCloses(toks, j, j + |body| + 1, mode);
  }

  /**
   `consumeArray` on an array whose body is balanced returns the body without its
   skipped tokens, between brackets and space-joined; that text is neither `:`
   nor changed by unquoting.
   */
  lemma ArrayValueConsumed(toks: seq<string>, j: nat, body: seq<string>, mode: Resume)
    requires At(toks, j, ["["] + body + ["]"]) && BalancedRun(body)
    ensures ConsumeArray(toks, j, mode) == Consumed(Success(ArrayValueText(body)), AfterCloser(j + |body| + 1, mode))
    ensures ArrayValueText(body) != ":" && Unquote(ArrayValueText(body)) == ArrayValueText(body)
  {
    var k := j + |body| + 1;
    BalancedArrayCloses(toks, j, body);
    Bracketed(toks, j, "[", body, "]");
    assert toks[j + 1..k + 1] == body + ["]"];
    NonIgnoredConcat(body, ["]"]);
    IgnoredTokensAreNotStructural("]");
    assert NonIgnored(["]"]) == ["]"];
    assert ["["] + (NonIgnored(body) + ["]"]) == ["["] + NonIgnored(body) + ["]"];
    ConsumeArrayCloses(toks, j, k, mode);
    ItemsTextNotColon(NonIgnored(body));
    UnquoteUnchanged(ArrayValueText(body));
  }
}
