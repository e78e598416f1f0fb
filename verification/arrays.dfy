/**
 A reference description of `consumeArray`, independent of its stack: an
 array closes at the first token where the count of openers minus closers,
 starting from its `[`, returns to zero. Any of `}` and `]` closes any of
 `{` and `[`; the kinds are never matched.
 */
module ArraySpec {
  import opened Wrappers
  import opened Tokens
  import opened Parser

  /** What a token adds to the nesting depth. */
  function Delta(t: string): int {
    if t == "{" || t == "[" then 1
    else if t == "}" || t == "]" then -1
    else 0
  }

  /** Openers minus closers over a run of tokens. */
  function Net(s: seq<string>): int {
    if |s| == 0 then 0 else Delta(s[0]) + Net(s[1..])
  }

  /** No prefix closes more brackets than it opens. */
  predicate Nested(s: seq<string>) {
    forall m :: 0 <= m <= |s| ==> Net(s[..m]) >= 0
  }

  /** Nested, and back at depth zero at the end. */
  predicate BalancedRun(s: seq<string>) {
    Nested(s) && Net(s) == 0
  }

  /** The run with the skipped tokens removed. */
  function NonIgnored(s: seq<string>): seq<string> {
    if |s| == 0 then []
    else if IsIgnoreToken(s[0]) then NonIgnored(s[1..])
    else [s[0]] + NonIgnored(s[1..])
  }

  /** At depth `d` before `toks[j]`, the depth first reaches zero at `toks[k]`. */
  predicate ClosesFrom(toks: seq<string>, j: nat, d: int, k: nat) {
    && j <= k < |toks|
    && d + Net(toks[j..k + 1]) == 0
    && forall m :: j <= m <= k ==> d + Net(toks[j..m]) > 0
  }

  /** The array opened by `toks[i]` is closed by `toks[k]`. */
  predicate ClosesAt(toks: seq<string>, i: nat, k: nat) {
    i < |toks| && toks[i] == "[" && ClosesFrom(toks, i + 1, 1, k)
  }

  /** The text `consumeArray` returns for an array `toks[i..k + 1]`. */
  function ArrayText(toks: seq<string>, i: nat, k: nat): string
    requires i < k < |toks|
  {
    Join(["["] + NonIgnored(toks[i + 1..k + 1]), " ")
  }

  /** Where the cursor is left after the closer `toks[k]`. */
  function AfterCloser(k: nat, mode: Resume): nat {
    if mode == ScanAhead then k + 1 else k
  }

  lemma RunStep(toks: seq<string>, j: nat, m: nat)
    requires j < m <= |toks|
    ensures Net(toks[j..m]) == Delta(toks[j]) + Net(toks[j + 1..m])
    ensures NonIgnored(toks[j..m]) == (if IsIgnoreToken(toks[j]) then [] else [toks[j]]) + NonIgnored(toks[j + 1..m])
  {
    assert toks[j..m][1..] == toks[j + 1..m];
  }

  lemma IgnoredIsFlat(t: string)
    requires IsIgnoreToken(t)
    ensures Delta(t) == 0
  {
  }

  /** A non-skipped token moves `consumeArray`'s stack by its `Delta`, and never underflows it. */
  lemma ArrayStepDepth(state: seq<Marker>, t: string)
    requires |state| > 0
    ensures ArrayStep(state, t).Success?
    ensures |ArrayStep(state, t).value| == |state| + Delta(t)
  {
  }

  /** One iteration of `consumeArray`'s loop on a non-skipped token. */
  lemma ArrayLoopStep(toks: seq<string>, j: nat, state: seq<Marker>, acc: seq<string>, mode: Resume)
    requires j < |toks| && |state| > 0 && !IsIgnoreToken(toks[j])
    ensures ArrayStep(state, toks[j]).Success?
    ensures var state' := ArrayStep(state, toks[j]).value;
      ArrayLoop(toks, j, state, acc, mode)
      == if mode == StopAtCloser && |state'| == 0 then Consumed(Success(Join(acc + [toks[j]], " ")), j)
         else ArrayLoop(toks, j + 1, state', acc + [toks[j]], mode)
  {
    ArrayStepDepth(state, toks[j]);
  }

  /** The depth conditions of `ClosesFrom` carry over past the first token of the run. */
  lemma ClosesFromTail(toks: seq<string>, j: nat, d: int, k: nat)
    requires ClosesFrom(toks, j, d, k) && j < k
    ensures ClosesFrom(toks, j + 1, d + Delta(toks[j]), k)
  {
    var j1 := j + 1;
    RunStep(toks, j, k + 1);
    forall m | j1 <= m <= k
      ensures d + Delta(toks[j]) + Net(toks[j1..m]) > 0
    {
      assert d + Net(toks[j..m]) > 0;
      RunStep(toks, j, m);
    }
  }

  /** The closer of the array, reached with the loop still running, ends it with the run collected so far. */
  lemma ArrayLoopLast(toks: seq<string>, j: nat, state: seq<Marker>, acc: seq<string>, mode: Resume, k: nat)
    requires |state| > 0 && ClosesFrom(toks, j, |state|, k)
    requires !IsIgnoreToken(toks[j]) && |state| + Delta(toks[j]) == 0
    ensures ArrayLoop(toks, j, state, acc, mode)
         == Consumed(Success(Join(acc + NonIgnored(toks[j..k + 1]), " ")), AfterCloser(k, mode))
  {
    var t := toks[j];
    CloserIsFirst(toks, j, |state|, k);
    ArrayLoopStep(toks, j, state, acc, mode);
    ArrayStepDepth(state, t);
    RunStep(toks, j, j + 1);
    assert toks[j + 1..j + 1] == [];
    assert acc + NonIgnored(toks[j..j + 1]) == acc + [t];
  }

  /** A token that brings the depth to zero is the closer itself. */
  lemma CloserIsFirst(toks: seq<string>, j: nat, d: int, k: nat)
    requires ClosesFrom(toks, j, d, k) && d + Delta(toks[j]) == 0
    ensures k == j
  {
    RunStep(toks, j, j + 1);
    assert Net(toks[j + 1..j + 1]) == 0;
    assert d + Net(toks[j..j + 1]) == 0;
  }

  /** The loop returns the joined run up to the closer when the depth reaches zero. */
  lemma {:induction false} ArrayLoopCloses(toks: seq<string>, j: nat, state: seq<Marker>, acc: seq<string>, mode: Resume, k: nat)
    requires |state| > 0 && ClosesFrom(toks, j, |state|, k)
    ensures ArrayLoop(toks, j, state, acc, mode)
         == Consumed(Success(Join(acc + NonIgnored(toks[j..k + 1]), " ")), AfterCloser(k, mode))
    decreases |toks| - j
  {
    var t := toks[j];
    var d := |state|;
    RunStep(toks, j, k + 1);
    if IsIgnoreToken(t) {
      IgnoredIsFlat(t);
      assert j < k by {
        assert Net(toks[j + 1..j + 1]) == 0;
      }
      ClosesFromTail(toks, j, d, k);
      ArrayLoopCloses(toks, j + 1, state, acc, mode, k);
    } else if d + Delta(t) == 0 {
      ArrayLoopLast(toks, j, state, acc, mode, k);
    } else {
      ArrayLoopStep(toks, j, state, acc, mode);
      ArrayStepDepth(state, t);
      var state' := ArrayStep(state, t).value;
      assert j < k by {
        assert toks[j + 1..j + 1] == [];
      }
      ClosesFromTail(toks, j, d, k);
      ArrayLoopCloses(toks, j + 1, state', acc + [t], mode, k);
      assert acc + [t] + NonIgnored(toks[j + 1..k + 1]) == acc + NonIgnored(toks[j..k + 1]);
    }
  }

  /** When the depth never reaches zero, the loop runs to the end of input and fails. */
  lemma {:induction false} ArrayLoopUnclosed(toks: seq<string>, j: nat, state: seq<Marker>, acc: seq<string>, mode: Resume)
    requires j <= |toks| && |state| > 0
    requires forall m :: j < m <= |toks| ==> |state| + Net(toks[j..m]) > 0
    ensures ArrayLoop(toks, j, state, acc, mode) == Consumed(Failure(EofBeforeArrayClose), |toks|)
    decreases |toks| - j
  {
    if j < |toks| {
      var t := toks[j];
      var d := |state|;
      RunStep(toks, j, j + 1);
      assert Net(toks[j + 1..j + 1]) == 0;
      var d' := if IsIgnoreToken(t) then d else |ArrayStep(state, t).value|;
      assert d' == d + Delta(t) by {
        if IsIgnoreToken(t) { IgnoredIsFlat(t); }
      }
      assert d + Net(toks[j..j + 1]) > 0;
      var j1 := j + 1;
      forall m | j1 < m <= |toks|
        ensures d' + Net(toks[j1..m]) > 0
      {
        assert d + Net(toks[j..m]) > 0;
        RunStep(toks, j, m);
      }
      if IsIgnoreToken(t) {
        ArrayLoopUnclosed(toks, j + 1, state, acc, mode);
      } else {
        ArrayLoopUnclosed(toks, j + 1, ArrayStep(state, t).value, acc + [t], mode);
      }
    }
  }

  /**
   `consumeArray` succeeds exactly when its `[` is eventually closed; it then returns
   `[` and every non-skipped token through the closer, space-joined, and otherwise
   fails at end of input (or at once, when the first token is not `[`).
   */
  lemma ConsumeArrayMeaning(toks: seq<string>, i: nat, mode: Resume)
    ensures forall k :: ClosesAt(toks, i, k) ==>
      ConsumeArray(toks, i, mode) == Consumed(Success(ArrayText(toks, i, k)), AfterCloser(k, mode))
    ensures i < |toks| && toks[i] == "[" && (forall k :: !ClosesAt(toks, i, k)) ==>
      ConsumeArray(toks, i, mode) == Consumed(Failure(EofBeforeArrayClose), |toks|)
  {
    forall k | ClosesAt(toks, i, k)
      ensures ConsumeArray(toks, i, mode) == Consumed(Success(ArrayText(toks, i, k)), AfterCloser(k, mode))
    {
      ConsumeArrayCloses(toks, i, k, mode);
    }
    if i < |toks| && toks[i] == "[" && (forall k :: !ClosesAt(toks, i, k)) {
      var j := i + 1;
      forall m | j < m <= |toks|
        ensures 1 + Net(toks[j..m]) > 0
      {
        NoCloseMeansPositive(toks, i, m);
      }
      ArrayLoopUnclosed(toks, i + 1, [ArrayValue], ["["], mode);
    }
  }

  /** An array closed by `toks[k]` yields its text, and the cursor is left next to `toks[k]`. */
  lemma ConsumeArrayCloses(toks: seq<string>, i: nat, k: nat, mode: Resume)
    requires ClosesAt(toks, i, k)
    ensures ConsumeArray(toks, i, mode) == Consumed(Success(ArrayText(toks, i, k)), AfterCloser(k, mode))
  {
    ArrayLoopCloses(toks, i + 1, [ArrayValue], ["["], mode, k);
  }

  /** If no token closes the array, the depth stays positive on every prefix. */
  lemma {:induction false} NoCloseMeansPositive(toks: seq<string>, i: nat, m: nat)
    requires i < m <= |toks| && toks[i] == "["
    requires forall k :: !ClosesAt(toks, i, k)
    ensures 1 + Net(toks[i + 1..m]) > 0
    decreases m - i
  {
    var j := i + 1;
    if m > j {
      forall m' | j <= m' < m
        ensures 1 + Net(toks[j..m']) > 0
      {
        if m' > i {
          NoCloseMeansPositive(toks, i, m');
        }
      }
      // Each token moves the depth by at most one, so it cannot skip past zero,
      // and it does not land on zero, for then `toks[m - 1]` would close the array.
      PrefixStep(toks, j, m - 1);
      assert 1 + Net(toks[j..m]) >= 0;
      assert !ClosesAt(toks, i, m - 1);
      assert 1 + Net(toks[j..m]) != 0;
    }
  }

  /** Extending a run by one token changes `Net` by that token's `Delta`. */
  lemma {:induction false} PrefixStep(toks: seq<string>, j: nat, k: nat)
    requires j <= k < |toks|
    ensures Net(toks[j..k + 1]) == Net(toks[j..k]) + Delta(toks[k])
    decreases k - j
  {
    if j == k {
      assert toks[j..k + 1][1..] == [];
    } else {
      RunStep(toks, j, k + 1);
      RunStep(toks, j, k);
      PrefixStep(toks, j + 1, k);
    }
  }
}
