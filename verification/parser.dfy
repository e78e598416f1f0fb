/**
 The structural parser of main.go: `consumeArray`, `consumeObject` and the
 document loop of `main`, over a token sequence with one shared cursor.

 Cursor convention. `toks[i]` is the token most recently scanned (what
 `TokenText` returns); scanning moves to `i + 1`, and an index at or past
 `|toks|` is end of input. Both Go loops scan the next token BEFORE they test
 whether their state stack has emptied, so on success a consumer returns
 with the cursor one token past its closing bracket, and the caller's own
 next scan passes over that token unprocessed. `Resume.ScanAhead` is that
 behaviour as written; `Resume.StopAtCloser` is the corrected loop, which
 tests the stack at the end of each iteration and returns with the cursor
 on the closing bracket.
 */
module Parser {
  import opened Wrappers
  import opened Stacks
  import opened Tokens

  /** The three values of the parse-state stack (`parseObjectKey`, `parseObjectValue`, `parseArrayValue`). */
  datatype Marker = ObjectKey | ObjectValue | ArrayValue

  /** One constructor per distinct error message of the two consumers. */
  datatype ParseError =
    | NonObjectStructure      // called consumeObject on non-object structure
    | NonArrayStructure       // called consumeArray on non-array structure
    | ObjectCloseBeforeOpen   // trying to close object before one was opened
    | ArrayCloseBeforeOpen    // trying to close array before one was opened
    | KeyValueFormat          // structure does not respect key:value format
    | EofBeforeObjectClose    // reached end of file before closing object
    | EofBeforeArrayClose     // reached end of file before closing array

  datatype Resume = ScanAhead | StopAtCloser

  /** A consumer's result together with where it left the shared cursor. */
  datatype Consumed<T> = Consumed(result: Result<T, ParseError>, cursor: nat)

  /** A flattened document: dotted field path to scalar text. */
  type Document = map<string, string>

  /** The local variables of `consumeObject`'s loop. */
  datatype Frame = Frame(state: seq<Marker>, path: seq<string>, prev: string, doc: Document)

  function Min(a: int, b: int): int {
    if a <= b then a else b
  }

  // ---------------------------------------------------------------------
  // consumeArray
  // ---------------------------------------------------------------------

  /** How one non-skipped token changes `consumeArray`'s nesting stack. */
  function ArrayStep(state: seq<Marker>, t: string): Result<seq<Marker>, ParseError> {
    if t == "{" then Success(Push(state, ObjectValue))
    else if t == "}" then
      match Pop(state)
      case Failure(_) => Failure(ObjectCloseBeforeOpen)
      case Success(s) => Success(s)
    else if t == "[" then Success(Push(state, ArrayValue))
    else if t == "]" then
      match Pop(state)
      case Failure(_) => Failure(ArrayCloseBeforeOpen)
      case Success(s) => Success(s)
    else Success(state)
  }

  /**
   A step fails exactly on a closer with nothing open, reporting the closer's
   kind; otherwise an opener adds one level and a closer removes the top one,
   leaving the levels below as they were.
   */
  lemma ArrayStepMeaning(state: seq<Marker>, t: string)
    ensures ArrayStep(state, t).Failure? <==> (t == "}" || t == "]") && |state| == 0
    ensures ArrayStep(state, t).Failure? ==>
      ArrayStep(state, t).error == (if t == "}" then ObjectCloseBeforeOpen else ArrayCloseBeforeOpen)
    ensures ArrayStep(state, t).Success? ==>
      |ArrayStep(state, t).value| == |state| + (if t == "{" || t == "[" then 1 else if t == "}" || t == "]" then -1 else 0)
    ensures ArrayStep(state, t).Success? && |ArrayStep(state, t).value| <= |state| ==>
      ArrayStep(state, t).value == state[..|ArrayStep(state, t).value|]
  {
  }

  /** The loop of `consumeArray`, entered with the cursor on the token after `[`. */
  function ArrayLoop(toks: seq<string>, j: nat, state: seq<Marker>, acc: seq<string>, mode: Resume): (r: Consumed<string>)
    requires j <= |toks|
    ensures j <= r.cursor <= |toks|
    ensures r.result.Failure? ==> r.result.error in {EofBeforeArrayClose, ObjectCloseBeforeOpen, ArrayCloseBeforeOpen}
    decreases |toks| - j
  {
    if j == |toks| then
      if |state| > 0 then Consumed(Failure(EofBeforeArrayClose), |toks|)
      else Consumed(Success(Join(acc, " ")), |toks|)
    else if |state| == 0 then Consumed(Success(Join(acc, " ")), j)
    else
      var t := toks[j];
      if IsIgnoreToken(t) then ArrayLoop(toks, j + 1, state, acc, mode)
      else
        match ArrayStep(state, t)
        case Failure(e) => Consumed(Failure(e), j)
        case Success(state') =>
          if mode == StopAtCloser && |state'| == 0 then Consumed(Success(Join(acc + [t], " ")), j)
          else ArrayLoop(toks, j + 1, state', acc + [t], mode)
  }

  /**
   `consumeArray`: the text of the array starting at `toks[i]`, as `[` and every
   non-skipped token up to its closing bracket, joined by single spaces.
   */
  function ConsumeArray(toks: seq<string>, i: nat, mode: Resume): (r: Consumed<string>)
    ensures r.cursor <= |toks|
    ensures i <= |toks| ==> i <= r.cursor
    ensures (i >= |toks| || toks[i] != "[") <==> r.result == Failure(NonArrayStructure)
  {
    if i >= |toks| || toks[i] != "[" then Consumed(Failure(NonArrayStructure), Min(i, |toks|))
    else ArrayLoop(toks, i + 1, [ArrayValue], ["["], mode)
  }

  // ---------------------------------------------------------------------
  // consumeObject
  // ---------------------------------------------------------------------

  /** The `switch` of `consumeObject` for a non-skipped token other than `]` (main.go:119-136). */
  function Dispatch(f: Frame, t: string): Result<Frame, ParseError> {
    if t == "{" then Success(f.(state := Push(f.state, ObjectValue)))
    else if t == "}" then
      match Pop(f.state)
      case Failure(_) => Failure(ObjectCloseBeforeOpen)
      case Success(s1) =>
        if Top(s1) == Some(ObjectKey) then
          match Pop(s1)
          case Failure(_) => Failure(KeyValueFormat)
          case Success(s2) =>
            match Pop(f.path)
            case Failure(_) => Failure(KeyValueFormat)
            case Success(p) => Success(f.(state := s2, path := p))
        else Success(f.(state := s1))
    else Success(f)
  }

  /**
   Only `}` can fail, and with nothing open it fails with the object error; `{`
   opens one level without touching the path; the document and the previous
   token are never changed here.
   */
  lemma DispatchMeaning(f: Frame, t: string)
    ensures Dispatch(f, t).Failure? ==> t == "}"
    ensures t == "}" && |f.state| == 0 ==> Dispatch(f, t) == Failure(ObjectCloseBeforeOpen)
    ensures t == "{" ==> Dispatch(f, t).Success? && |Dispatch(f, t).value.state| == |f.state| + 1 && Dispatch(f, t).value.path == f.path
    ensures Dispatch(f, t).Success? ==> Dispatch(f, t).value.doc == f.doc && Dispatch(f, t).value.prev == f.prev
  {
  }

  /**
   The rest of an iteration of `consumeObject` (main.go:141-158): a `:` opens a key
   named by the previous token; a token read right after a `:` while a key is open
   is that key's value, written under the dot-joined field path; the token then
   becomes the previous token.
   */
  function Settle(f: Frame, token: string): Result<Frame, ParseError> {
    var f1 :=
      if token == ":" then f.(path := Push(f.path, Unquote(f.prev)), state := Push(f.state, ObjectKey))
      else f;
    if Top(f1.state) == Some(ObjectKey) && f1.prev == ":" then
      var doc := f1.doc[Join(f1.path, ".") := Unquote(token)];
      match Pop(f1.path)
      case Failure(_) => Failure(KeyValueFormat)
      case Success(p) =>
        match Pop(f1.state)
        case Failure(_) => Failure(KeyValueFormat)
        case Success(s) => Success(Frame(s, p, token, doc))
    else Success(f1.(prev := token))
  }

  /** Settling fails only with the key/value error; otherwise the token becomes the previous token and no key is removed. */
  lemma SettleMeaning(f: Frame, token: string)
    ensures Settle(f, token).Failure? ==> Settle(f, token).error == KeyValueFormat
    ensures Settle(f, token).Success? ==> Settle(f, token).value.prev == token && f.doc.Keys <= Settle(f, token).value.doc.Keys
  {
  }

  /** One iteration of `consumeObject` on the scanned token `t`, which an array's text replaces as `token`. */
  function Step(f: Frame, t: string, token: string): Result<Frame, ParseError> {
    match Dispatch(f, t)
    case Failure(e) => Failure(e)
    case Success(f1) => Settle(f1, token)
  }

  /** An iteration fails only with the object or key/value error; otherwise the token becomes the previous token and no key is removed. */
  lemma StepMeaning(f: Frame, t: string, token: string)
    ensures Step(f, t, token).Failure? ==> Step(f, t, token).error in {ObjectCloseBeforeOpen, KeyValueFormat}
    ensures Step(f, t, token).Success? ==> Step(f, t, token).value.prev == token && f.doc.Keys <= Step(f, t, token).value.doc.Keys
  {
    DispatchMeaning(f, t);
    if Dispatch(f, t).Success? {
      SettleMeaning(Dispatch(f, t).value, token);
    }
  }

  /**
   What an array at `toks[j]` turns into inside `consumeObject` (main.go:136): its
   text, or the empty string when `consumeArray` failed (that error is not looked
   at), and the cursor the next scan moves to.
   */
  function ArrayToken(toks: seq<string>, j: nat, mode: Resume): (r: (string, nat))
    requires j < |toks|
    ensures j < r.1 <= |toks|
  {
    var arr := ConsumeArray(toks, j, mode);
    (if arr.result.Success? then arr.result.value else "", Min(arr.cursor + 1, |toks|))
  }

  /**
   The loop of `consumeObject`, entered with the cursor on the token after `{`:
   each scan first ends the loop at the end of input or once the state stack
   has emptied, and otherwise runs one `Iterate`.
   */
  function ObjectLoop(toks: seq<string>, j: nat, f: Frame, mode: Resume): (r: Consumed<Document>)
    requires j <= |toks|
    ensures j <= r.cursor <= |toks|
    ensures r.result.Failure? ==> r.result.error in {EofBeforeObjectClose, ArrayCloseBeforeOpen, ObjectCloseBeforeOpen, KeyValueFormat}
    decreases |toks| - j, 2
  {
    if j == |toks| then
      if |f.state| > 0 then Consumed(Failure(EofBeforeObjectClose), |toks|)
      else Consumed(Success(f.doc), |toks|)
    else if |f.state| == 0 then Consumed(Success(f.doc), j)
    else Iterate(toks, j, f, mode)
  }

  /**
   The body of one iteration on `toks[j]`: skip an ignored token, reject a stray
   `]`, and hand anything else to `Continue`; an array delegates to
   `ConsumeArray` through `ArrayToken`.
   */
  function Iterate(toks: seq<string>, j: nat, f: Frame, mode: Resume): (r: Consumed<Document>)
    requires j < |toks|
    ensures j <= r.cursor <= |toks|
    ensures r.result.Failure? ==> r.result.error in {EofBeforeObjectClose, ArrayCloseBeforeOpen, ObjectCloseBeforeOpen, KeyValueFormat}
    decreases |toks| - j, 1
  {
    var t := toks[j];
    if IsIgnoreToken(t) then ObjectLoop(toks, j + 1, f, mode)
    else if t == "]" then Consumed(Failure(ArrayCloseBeforeOpen), j)
    else if t == "[" then
      var arr := ArrayToken(toks, j, mode);
      Continue(toks, j, arr.1, f, t, arr.0, mode)
    else Continue(toks, j, j + 1, f, t, t, mode)
  }

  /**
   The end of an iteration: apply `Step`, stop if the loop stops at the closer and
   the stack has emptied, and otherwise scan on from `next`.
   */
  function Continue(toks: seq<string>, j: nat, next: nat, f: Frame, t: string, token: string, mode: Resume): (r: Consumed<Document>)
    requires j < next <= |toks|
    ensures j <= r.cursor <= |toks|
    ensures r.result.Failure? ==> r.result.error in {EofBeforeObjectClose, ArrayCloseBeforeOpen, ObjectCloseBeforeOpen, KeyValueFormat}
    decreases |toks| - j, 0
  {
    match Step(f, t, token)
    case Failure(e) => Consumed(Failure(e), j)
    case Success(f2) =>
      if mode == StopAtCloser && |f2.state| == 0 then Consumed(Success(f2.doc), j)
      else ObjectLoop(toks, next, f2, mode)
  }

  /** The frame `consumeObject` starts from: one open object, no key, no previous token. */
  const Start := Frame([ObjectValue], [], "", map[])

  /** `consumeObject`: the flattened document of the object starting at `toks[i]`. */
  function ConsumeObject(toks: seq<string>, i: nat, mode: Resume): (r: Consumed<Document>)
    ensures r.cursor <= |toks|
    ensures i <= |toks| ==> i <= r.cursor
    ensures (i >= |toks| || toks[i] != "{") <==> r.result == Failure(NonObjectStructure)
  {
    if i >= |toks| || toks[i] != "{" then Consumed(Failure(NonObjectStructure), Min(i, |toks|))
    else ObjectLoop(toks, i + 1, Start, mode)
  }
}
