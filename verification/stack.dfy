/**
 A persistent LIFO stack, the value-returning `Stack` of internal/stack.go.
 The top of the stack is the LAST element of the sequence. The Go type is a
 stack of strings; the operations here are generic so that the parser can
 keep its parse-state markers in a typed stack and its field path in a
 string stack.
 */
module Stacks {
  import opened Wrappers

  /** Why a pop was refused: the only error the Go stack reports. */
  datatype StackError = StackIsEmpty

  /** `Push` appends `v` as the new top and keeps everything below it. */
  function Push<T>(s: seq<T>, v: T): (r: seq<T>)
    ensures |r| == |s| + 1
  {
    s + [v]
  }

  /** `Pop` drops the top element; on an empty stack it fails and yields no stack. */
  function Pop<T>(s: seq<T>): (r: Result<seq<T>, StackError>)
    ensures r.Failure? <==> |s| == 0
    ensures r.Success? ==> |r.value| == |s| - 1
  {
    if |s| == 0 then Failure(StackIsEmpty) else Success(s[..|s| - 1])
  }

  /** The top element, if any. */
  function Top<T>(s: seq<T>): (r: Option<T>)
    ensures r.None? <==> |s| == 0
    ensures r.Some? ==> r.value == s[|s| - 1]
  {
    if |s| == 0 then None else Some(s[|s| - 1])
  }

  /** Go's `Peek` on a string stack: the top, or the empty string when there is none. */
  function Peek(s: seq<string>): (r: string)
    ensures |s| == 0 ==> r == ""
    ensures |s| > 0 ==> r == s[|s| - 1]
  {
    Top(s).GetOr("")
  }

  /** Pushing keeps every element below the new top. */
  lemma PushKeeps<T>(s: seq<T>, v: T)
    ensures Push(s, v)[..|s|] == s && Push(s, v)[|s|] == v
  {
    assert (s + [v])[..|s|] == s;
  }

  /** Popping what was just pushed restores the stack, and peeking sees the pushed value. */
  lemma PushThenPop<T>(s: seq<T>, v: T)
    ensures Pop(Push(s, v)) == Success(s)
    ensures Top(Push(s, v)) == Some(v)
  {
    PushKeeps(s, v);
  }

  lemma PushThenPeek(s: seq<string>, v: string)
    ensures Peek(Push(s, v)) == v
  {
    PushThenPop(s, v);
  }

  /** Conversely, pushing back the top of a non-empty stack after popping it restores the stack. */
  lemma PopThenPush<T>(s: seq<T>)
    requires |s| > 0
    ensures Pop(s).Success? && Top(s).Some?
    ensures Push(Pop(s).value, Top(s).value) == s
  {
  }
}
