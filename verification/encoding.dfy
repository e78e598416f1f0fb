/**
 A reference for what `consumeObject` computes. A relaxed-JSON object is
 described as a tree of fields and turned into tokens by `EncodeFields`;
 `FlattenFields` states, independently of any stack, the document it should
 yield: one entry per scalar or array leaf, keyed by the dot-joined chain of
 unquoted key names, and no entry for a field whose value is an object.
 */
module Encoding {
  import opened Wrappers
  import opened Stacks
  import opened Tokens
  import opened Parser
  import opened ArraySpec

  /**
   A field value. `Wrapped` is a literal inside a wrapper call such as
   `ObjectId("...")`; `comma` says whether the field is followed by `,`.
   */
  datatype Value =
    | Scalar(text: string)
    | Wrapped(wrapper: string, text: string)
    | Object(fields: seq<Field>)
    | Array(items: seq<string>)

  datatype Field = Field(key: string, value: Value, comma: bool)

  /** A token that is neither structural nor skipped: a key, a scalar, a comma. */
  predicate Plain(t: string) {
    !IsStructural(t) && !IsIgnoreToken(t)
  }

  predicate AllPlain(items: seq<string>) {
    forall i :: 0 <= i < |items| ==> Plain(items[i])
  }

  /**
   The fields the consumer handles. An array value is any bracket-balanced run
   of tokens: plain items, objects, nested arrays or wrapper calls. As written,
   the token right after an array's `]` is passed over, so an array value must
   be followed by a comma there.
   */
  predicate FieldsOK(fs: seq<Field>, mode: Resume)
    decreases fs, 1
  {
    |fs| == 0 || (FieldOK(fs[0], mode) && FieldsOK(fs[1..], mode))
  }

  predicate FieldOK(f: Field, mode: Resume)
    decreases f, 0
  {
    && Plain(f.key)
    && match f.value {
         case Scalar(t) => Plain(t)
         case Wrapped(w, t) => IsIgnoreToken(w) && Plain(t)
         case Array(items) => BalancedRun(items) && (mode == ScanAhead ==> f.comma)
         case Object(inner) => FieldsOK(inner, mode)
       }
  }

  /** Array items between brackets, space-joined. */
  function ItemsText(items: seq<string>): string {
    Join(["["] + items + ["]"], " ")
  }

  /** The text `consumeArray` rebuilds from an array's items: those that are not skipped, between brackets, space-joined. */
  function ArrayValueText(items: seq<string>): string {
    ItemsText(NonIgnored(items))
  }

  /** The tokens of a run of fields. */
  function EncodeFields(fs: seq<Field>): seq<string>
    decreases fs, 2
  {
    if |fs| == 0 then [] else FieldTokens(fs[0]) + EncodeFields(fs[1..])
  }

  /** The tokens of a field: its key, `:`, its value and its optional comma. */
  function FieldTokens(f: Field): seq<string>
    decreases f, 1
  {
    [f.key, ":"] + ValueTokens(f.value) + CommaTokens(f.comma)
  }

  /** The tokens of a field's value. */
  function ValueTokens(v: Value): seq<string>
    decreases v, 0
  {
    match v
    case Scalar(t) => [t]
    case Wrapped(w, t) => [w, "(", t, ")"]
    case Array(items) => ["["] + items + ["]"]
    case Object(inner) => ["{"] + EncodeFields(inner) + ["}"]
  }

  function CommaTokens(comma: bool): seq<string> {
    if comma then [","] else []
  }

  /** The tokens of an object. */
  function Encode(fs: seq<Field>): seq<string> {
    ["{"] + EncodeFields(fs) + ["}"]
  }

  /** The document a run of fields adds under `path`; later writes to a path win. */
  function FlattenFields(doc: Document, path: seq<string>, fs: seq<Field>): Document
    decreases fs, 1
  {
    if |fs| == 0 then doc
    else FlattenFields(FlattenField(doc, path, fs[0]), path, fs[1..])
  }

  /** The entries one field adds: its leaf under the dotted path, or its inner fields one level down. */
  function FlattenField(doc: Document, path: seq<string>, f: Field): Document
    decreases f, 0
  {
    var p := path + [Unquote(f.key)];
    match f.value
    case Scalar(t) => doc[Join(p, ".") := Unquote(t)]
    case Wrapped(_, t) => doc[Join(p, ".") := Unquote(t)]
    case Array(items) => doc[Join(p, ".") := ArrayValueText(items)]
    case Object(inner) => FlattenFields(doc, p, inner)
  }

  /** The flattened document of an object. */
  function Flatten(fs: seq<Field>): Document {
    FlattenFields(map[], [], fs)
  }

  /** The run `e` of tokens sits at position `p` of `toks`. */
  predicate At(toks: seq<string>, p: nat, e: seq<string>) {
    p + |e| <= |toks| && toks[p..p + |e|] == e
  }

  lemma AtSplit(toks: seq<string>, p: nat, a: seq<string>, b: seq<string>)
    requires At(toks, p, a + b)
    ensures At(toks, p, a) && At(toks, p + |a|, b)
  {
    assert toks[p..p + |a|] == (a + b)[..|a|];
    assert toks[p + |a|..p + |a| + |b|] == (a + b)[|a|..];
  }

  lemma AtIndex(toks: seq<string>, p: nat, e: seq<string>, i: nat)
    requires At(toks, p, e) && i < |e|
    ensures toks[p + i] == e[i]
  {
    assert toks[p..p + |e|][i] == toks[p + i];
  }

  /** A bracketed run: its opener, its body, its closer and what follows it. */
  lemma Bracketed(toks: seq<string>, q: nat, open: string, body: seq<string>, close: string)
    requires At(toks, q, [open] + body + [close])
    ensures q + |body| + 2 <= |toks|
    ensures toks[q] == open && toks[q + 1 + |body|] == close
    ensures At(toks, q + 1, body) && At(toks, q + 1, body + [close])
  {
    assert [open] + body + [close] == [open] + (body + [close]);
    AtSplit(toks, q, [open], body + [close]);
    AtSplit(toks, q + 1, body, [close]);
    AtIndex(toks, q, [open], 0);
    AtIndex(toks, q + 1 + |body|, [close], 0);
  }

  lemma ItemsTextNotColon(items: seq<string>)
    ensures ItemsText(items) != ":"
    ensures |ItemsText(items)| > 0 && ItemsText(items)[0] == '[' && ItemsText(items)[|ItemsText(items)| - 1] == ']'
  {
    var parts := ["["] + items + ["]"];
    assert parts[0] == "[" && parts[|parts| - 1] == "]";
    JoinEnds(parts, " ");
    assert EndsWith(ItemsText(items), "]");
  }
}
