/**
 Invariants of the two consume loops. The field path is never shorter than
 the number of open keys on the parse-state stack, and the bottom of that
 stack is the object being consumed. Together these make every stack pop
 in main.go succeed, so the only errors a consumer can return are a bad
 first token, a stray `]` and running out of input.
 */
module ParserInvariants {
  import opened Wrappers
  import opened Stacks
  import opened Tokens
  import opened Parser
  import opened ArraySpec

  /** How many keys are open on a parse-state stack. */
  function KeyCount(s: seq<Marker>): nat {
    if |s| == 0 then 0
    else KeyCount(s[..|s| - 1]) + (if s[|s| - 1] == ObjectKey then 1 else 0)
  }

  /** The loop invariant of `consumeObject`. */
  predicate Balanced(f: Frame) {
    && (|f.state| > 0 ==> f.state[0] == ObjectValue)
    && |f.path| >= KeyCount(f.state)
  }

  lemma KeyCountPush(s: seq<Marker>, m: Marker)
    ensures KeyCount(Push(s, m)) == KeyCount(s) + (if m == ObjectKey then 1 else 0)
  {
    PushKeeps(s, m);
  }

  /** Dispatching a token on a non-empty balanced frame never fails and keeps the frame balanced; only `}` can empty the stack. */
  lemma DispatchKeepsBalance(f: Frame, t: string)
    requires Balanced(f) && |f.state| > 0
    ensures Dispatch(f, t).Success?
    ensures Balanced(Dispatch(f, t).value)
    ensures |Dispatch(f, t).value.state| == 0 ==> t == "}"
  {
    if t == "{" {
      KeyCountPush(f.state, ObjectValue);
    } else if t == "}" {
      CloseKeepsBalance(f);
    }
  }

  /**
   A `}` on a non-empty balanced frame closes the object: it pops the object's
   marker and, when that object was a key's value, the key's marker and its path
   segment too. The document and the previous token are left alone.
   */
  lemma CloseKeepsBalance(f: Frame)
    requires Balanced(f) && |f.state| > 0
    ensures Dispatch(f, "}").Success?
    ensures Balanced(Dispatch(f, "}").value)
    ensures Dispatch(f, "}").value.doc == f.doc && Dispatch(f, "}").value.prev == f.prev
    ensures Top(f.state[..|f.state| - 1]) != Some(ObjectKey) ==>
      && Dispatch(f, "}").value.state == f.state[..|f.state| - 1]
      && Dispatch(f, "}").value.path == f.path
    ensures Top(f.state[..|f.state| - 1]) == Some(ObjectKey) ==>
      && |f.state| >= 2 && |f.path| >= 1
      && Dispatch(f, "}").value.state == f.state[..|f.state| - 2]
      && Dispatch(f, "}").value.path == f.path[..|f.path| - 1]
  {
    var s1 := f.state[..|f.state| - 1];
    assert f.state == Push(s1, f.state[|f.state| - 1]);
    KeyCountPush(s1, f.state[|f.state| - 1]);
    if Top(s1) == Some(ObjectKey) {
      var s2 := s1[..|s1| - 1];
      assert s1 == Push(s2, ObjectKey);
      KeyCountPush(s2, ObjectKey);
      assert |s1| >= 2;
      assert s2[0] == f.state[0];
    }
  }

  /** Settling a token keeps the frame balanced, never fails, and never empties or fills the state stack. */
  lemma SettleKeepsBalance(f: Frame, token: string)
    requires Balanced(f)
    requires |f.state| == 0 ==> token != ":"
    ensures Settle(f, token).Success?
    ensures Balanced(Settle(f, token).value)
    ensures |Settle(f, token).value.state| == 0 <==> |f.state| == 0
  {
    var f1 :=
      if token == ":" then f.(path := Push(f.path, Unquote(f.prev)), state := Push(f.state, ObjectKey))
      else f;
    if token == ":" {
      KeyCountPush(f.state, ObjectKey);
    }
    assert Balanced(f1) && (|f1.state| == 0 <==> |f.state| == 0);
    if Top(f1.state) == Some(ObjectKey) && f1.prev == ":" {
      var s := f1.state[..|f1.state| - 1];
      assert f1.state == Push(s, ObjectKey);
      KeyCountPush(s, ObjectKey);
      assert |f1.state| >= 2;
      assert s[0] == f1.state[0];
    }
  }

  /** A whole iteration keeps the frame balanced and never fails; only a `}` empties the stack. */
  lemma StepKeepsBalance(f: Frame, t: string, token: string)
    requires Balanced(f) && |f.state| > 0
    requires t == "}" ==> token == "}"
    ensures Step(f, t, token).Success?
    ensures Balanced(Step(f, t, token).value)
    ensures |Step(f, t, token).value.state| == 0 ==> t == "}"
  {
    DispatchKeepsBalance(f, t);
    SettleKeepsBalance(Dispatch(f, t).value, token);
  }

  /**
   What any run of `consumeObject`'s loop returns: an error is a stray `]` or the
   end of input, and a success has its cursor next to the `}` that emptied the
   stack — just past it as written, on it when the loop stops at the closer.
   */
  predicate ObjectOutcome(toks: seq<string>, r: Consumed<Document>, mode: Resume) {
    && (r.result.Failure? ==> r.result.error in {ArrayCloseBeforeOpen, EofBeforeObjectClose})
    && (r.result == Failure(EofBeforeObjectClose) ==> r.cursor == |toks|)
    && (r.result.Success? && mode == ScanAhead ==> 0 < r.cursor <= |toks| && toks[r.cursor - 1] == "}")
    && (r.result.Success? && mode == StopAtCloser ==> r.cursor < |toks| && toks[r.cursor] == "}")
  }

  lemma {:induction false} ObjectLoopOutcome(toks: seq<string>, j: nat, f: Frame, mode: Resume)
    requires j <= |toks| && Balanced(f)
    requires |f.state| == 0 ==> mode == ScanAhead && 0 < j && toks[j - 1] == "}"
    ensures ObjectOutcome(toks, ObjectLoop(toks, j, f, mode), mode)
    decreases |toks| - j, 2
  {
    if j < |toks| && |f.state| > 0 {
      IterateOutcome(toks, j, f, mode);
    }
  }

  lemma {:induction false} IterateOutcome(toks: seq<string>, j: nat, f: Frame, mode: Resume)
    requires j < |toks| && Balanced(f) && |f.state| > 0
    ensures ObjectOutcome(toks, Iterate(toks, j, f, mode), mode)
    decreases |toks| - j, 1
  {
    var t := toks[j];
    if IsIgnoreToken(t) {
      ObjectLoopOutcome(toks, j + 1, f, mode);
    } else if t == "[" {
      var arr := ArrayToken(toks, j, mode);
      ContinueOutcome(toks, j, arr.1, f, t, arr.0, mode);
    } else if t != "]" {
      ContinueOutcome(toks, j, j + 1, f, t, t, mode);
    }
  }

  lemma {:induction false} ContinueOutcome(toks: seq<string>, j: nat, next: nat, f: Frame, t: string, token: string, mode: Resume)
    requires j < next <= |toks| && toks[j] == t && Balanced(f) && |f.state| > 0
    requires t == "}" ==> token == "}" && next == j + 1
    ensures ObjectOutcome(toks, Continue(toks, j, next, f, t, token, mode), mode)
    decreases |toks| - j, 0
  {
    StepKeepsBalance(f, t, token);
    var f2 := Step(f, t, token).value;
    if !(mode == StopAtCloser && |f2.state| == 0) {
      ObjectLoopOutcome(toks, next, f2, mode);
    }
  }

  /** `consumeObject` fails only on a bad first token, a stray `]` or end of input; on success the cursor sits just past its `}` as written. */
  lemma ConsumeObjectOutcome(toks: seq<string>, i: nat, mode: Resume)
    ensures var r := ConsumeObject(toks, i, mode);
      && (r.result.Failure? ==> r.result.error in {NonObjectStructure, ArrayCloseBeforeOpen, EofBeforeObjectClose})
      && (r.result.Success? ==> i < |toks| && toks[i] == "{")
      && (r.result.Success? && mode == ScanAhead ==> i + 1 < r.cursor && toks[r.cursor - 1] == "}")
      && (r.result.Success? && mode == StopAtCloser ==> i < r.cursor < |toks| && toks[r.cursor] == "}")
  {
    if i < |toks| && toks[i] == "{" {
      ObjectLoopOutcome(toks, i + 1, Start, mode);
      assert ObjectOutcome(toks, ConsumeObject(toks, i, mode), mode);
    }
  }

  /**
   A token changes the document only when it directly follows the `:` of an open
   key; it is then written, unquoted, under the dot-joined field path, and that
   key is closed. A `:` first opens a key named by the previous token, so a `:`
   right after a `:` opens the key `:` and at once writes `:` under it.
   */
  lemma SettleWritesOnlyAfterColon(f: Frame, token: string)
    requires Balanced(f)
    ensures Settle(f, token).Success?
    ensures token != ":" && Settle(f, token).value.doc != f.doc ==> Top(f.state) == Some(ObjectKey) && f.prev == ":"
    ensures token != ":" && Top(f.state) == Some(ObjectKey) && f.prev == ":" ==>
      && Settle(f, token).value.doc == f.doc[Join(f.path, ".") := Unquote(token)]
      && |Settle(f, token).value.path| + 1 == |f.path|
      && KeyCount(Settle(f, token).value.state) + 1 == KeyCount(f.state)
    ensures token != ":" && !(Top(f.state) == Some(ObjectKey) && f.prev == ":") ==> Settle(f, token) == Success(f.(prev := token))
    ensures token == ":" && Settle(f, token).value.doc != f.doc ==> f.prev == ":"
    ensures token == ":" && f.prev == ":" ==>
      Settle(f, token) == Success(Frame(f.state, f.path, ":", f.doc[Join(f.path + [":"], ".") := ":"]))
    ensures token == ":" && f.prev != ":" ==>
      Settle(f, token) == Success(Frame(Push(f.state, ObjectKey), Push(f.path, Unquote(f.prev)), ":", f.doc))
  {
    if token == ":" {
      PushThenPop(f.state, ObjectKey);
      PushThenPop(f.path, Unquote(f.prev));
      if f.prev == ":" {
        UnquoteUnchanged(":");
      }
    } else if Top(f.state) == Some(ObjectKey) && f.prev == ":" {
      SettleKeepsBalance(f, token);
      var s := f.state[..|f.state| - 1];
      assert f.state == Push(s, ObjectKey);
      KeyCountPush(s, ObjectKey);
    }
  }

  /** A `]` read by `consumeObject` itself is an error, reported where it stands. */
  lemma StrayArrayCloseFails(toks: seq<string>, j: nat, f: Frame, mode: Resume)
    requires j < |toks| && toks[j] == "]" && |f.state| > 0
    ensures ObjectLoop(toks, j, f, mode) == Consumed(Failure(ArrayCloseBeforeOpen), j)
  {
    IgnoredTokensAreNotStructural("]");
  }

  /**
   An array inside an object that is never closed fails the object at the end of
   input, although `consumeObject` does not look at `consumeArray`'s error.
   */
  lemma UnclosedArrayFailsObject(toks: seq<string>, j: nat, f: Frame, mode: Resume)
    requires j < |toks| && toks[j] == "[" && Balanced(f) && |f.state| > 0
    requires forall k :: !ClosesAt(toks, j, k)
    ensures ObjectLoop(toks, j, f, mode) == Consumed(Failure(EofBeforeObjectClose), |toks|)
  {
    ConsumeArrayMeaning(toks, j, mode);
    IgnoredTokensAreNotStructural("[");
    assert ArrayToken(toks, j, mode) == ("", |toks|);
    StepKeepsBalance(f, "[", "");
    var f2 := Step(f, "[", "").value;
    assert ObjectLoop(toks, |toks|, f2, mode) == Consumed(Failure(EofBeforeObjectClose), |toks|);
    assert Continue(toks, j, |toks|, f, "[", "", mode) == ObjectLoop(toks, |toks|, f2, mode);
    assert Iterate(toks, j, f, mode) == Continue(toks, j, |toks|, f, "[", "", mode);
  }
}
