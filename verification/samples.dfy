/**
 The inputs of main_test.go, as the token sequences `text/scanner` produces
 for them, with what the consumers return on each.
 */
module Samples {
  import opened Wrappers
  import opened Tokens
  import opened Parser
  import opened ArraySpec
  import opened Encoding
  import opened RoundTrip
  import opened Nesting

  /** A non-empty text without a quote at either end. */
  predicate BareText(s: string) {
    |s| > 0 && s[0] !in "\"'" && s[|s| - 1] !in "\"'"
  }

  /** A key or value without quotes at either end unquotes to itself. */
  lemma Bare(s: string)
    requires BareText(s)
    ensures Unquote(s) == s
  {
    UnquoteUnchanged(s);
  }

  lemma JoinTwo(a: string, b: string)
    ensures Join([a, b], ".") == a + "." + b
  {
    assert [a, b][1..] == [b];
  }

  lemma FlattenCons(doc: Document, path: seq<string>, f: Field, rest: seq<Field>)
    ensures FlattenFields(doc, path, [f] + rest) == FlattenFields(FlattenField(doc, path, f), path, rest)
  {
    assert ([f] + rest)[0] == f && ([f] + rest)[1..] == rest;
  }

  lemma FlattenOne(doc: Document, path: seq<string>, f: Field)
    ensures FlattenFields(doc, path, [f]) == FlattenField(doc, path, f)
  {
    FlattenCons(doc, path, f, []);
    assert [f] + [] == [f];
  }

  lemma EncodeCons(f: Field, rest: seq<Field>)
    ensures EncodeFields([f] + rest) == FieldTokens(f) + EncodeFields(rest)
    ensures FieldsOK([f] + rest, Resume.ScanAhead) <==> FieldOK(f, Resume.ScanAhead) && FieldsOK(rest, Resume.ScanAhead)
    ensures FieldsOK([f] + rest, Resume.StopAtCloser) <==> FieldOK(f, Resume.StopAtCloser) && FieldsOK(rest, Resume.StopAtCloser)
  {
    assert ([f] + rest)[0] == f && ([f] + rest)[1..] == rest;
  }

  lemma EncodeOne(f: Field)
    ensures EncodeFields([f]) == FieldTokens(f)
    ensures FieldsOK([f], Resume.ScanAhead) <==> FieldOK(f, Resume.ScanAhead)
    ensures FieldsOK([f], Resume.StopAtCloser) <==> FieldOK(f, Resume.StopAtCloser)
  {
    EncodeCons(f, []);
    assert [f] + [] == [f];
  }

  /** The fields `first: <first>, last: <last>`. */
  function NamePair(first: string, last: string): seq<Field> {
    [Field("first", Scalar(first), true), Field("last", Scalar(last), false)]
  }

  /** `{ name: { first: <first>, last: <last> } }` */
  function Person(first: string, last: string): seq<Field> {
    [Field("name", Object(NamePair(first, last)), false)]
  }

  function PersonTokens(first: string, last: string): seq<string> {
    ["{", "name", ":", "{", "first", ":", first, ",", "last", ":", last, "}", "}"]
  }

  const NameFields: seq<Field> := NamePair("\"Alan\"", "\"Turing\"")

  /** `{ name : { first: "Alan", last: "Turing" } }` */
  const FlatObjectTokens: seq<string> := PersonTokens("\"Alan\"", "\"Turing\"")

  const FlatObjectFields: seq<Field> := Person("\"Alan\"", "\"Turing\"")

  lemma ScalarTokens(key: string, text: string, comma: bool)
    ensures FieldTokens(Field(key, Scalar(text), comma)) == [key, ":", text] + CommaTokens(comma)
  {
  }

  lemma ObjectTokens(key: string, inner: seq<Field>, comma: bool)
    ensures FieldTokens(Field(key, Object(inner), comma)) == [key, ":", "{"] + EncodeFields(inner) + ["}"] + CommaTokens(comma)
  {
  }

  lemma FlatObjectEncoded()
    ensures Encode(FlatObjectFields) == FlatObjectTokens
  {
    PersonEncoded("\"Alan\"", "\"Turing\"");
  }

  lemma FlatObjectOK(mode: Resume)
    ensures FieldsOK(FlatObjectFields, mode)
  {
    LongPlain("\"Alan\"");
    LongPlain("\"Turing\"");
    PersonOK("\"Alan\"", "\"Turing\"", mode);
  }

  /** A scalar leaf with a bare key is written under the dotted path, unquoted. */
  lemma Leaf(doc: Document, path: seq<string>, key: string, text: string, comma: bool)
    requires BareText(key)
    ensures FlattenField(doc, path, Field(key, Scalar(text), comma)) == doc[Join(path + [key], ".") := Unquote(text)]
  {
    Bare(key);
  }

  /** Two scalar leaves one level down, in order. */
  lemma TwoLeaves(doc: Document, path: string, f: Field, g: Field)
    requires f.value.Scalar? && g.value.Scalar?
    requires BareText(f.key)
    requires BareText(g.key)
    ensures FlattenFields(doc, [path], [f, g])
         == doc[Join([path, f.key], ".") := Unquote(f.value.text)][Join([path, g.key], ".") := Unquote(g.value.text)]
  {
    assert [f, g] == [f] + [g];
    FlattenCons(doc, [path], f, [g]);
    Leaf(doc, [path], f.key, f.value.text, f.comma);
    assert [path] + [f.key] == [path, f.key];
    var d1 := doc[Join([path, f.key], ".") := Unquote(f.value.text)];
    FlattenOne(d1, [path], g);
    Leaf(d1, [path], g.key, g.value.text, g.comma);
    assert [path] + [g.key] == [path, g.key];
  }

  lemma NameStrings()
    ensures Unquote("\"Alan\"") == "Alan" && Unquote("\"Turing\"") == "Turing"
    ensures Join(["name", "first"], ".") == "name.first" && Join(["name", "last"], ".") == "name.last"
    ensures Unquote("name") == "name"
  {
    UnquoteDouble("Alan");
    assert "\"Alan\"" == "\"" + "Alan" + "\"";
    UnquoteDouble("Turing");
    assert "\"Turing\"" == "\"" + "Turing" + "\"";
    JoinTwo("name", "first");
    JoinTwo("name", "last");
    Bare("name");
  }

  lemma FlatObjectFlattened()
    ensures Flatten(FlatObjectFields) == map["name.first" := "Alan", "name.last" := "Turing"]
  {
    NameStrings();
    assert FlatObjectFields == [FlatObjectFields[0]];
    FlattenOne(map[], [], FlatObjectFields[0]);
    assert [] + ["name"] == ["name"];
    assert NameFields == [NameFields[0], NameFields[1]];
    TwoLeaves(map[], "name", NameFields[0], NameFields[1]);
  }

  /** A nested object yields only its leaves, under dotted paths, and no entry for its own key. */
  lemma FlatObject(mode: Resume)
    ensures ConsumeObject(FlatObjectTokens, 0, mode)
         == Consumed(Success(map["name.first" := "Alan", "name.last" := "Turing"]), AfterCloser(12, mode))
  {
    FlatObjectEncoded();
    FlatObjectOK(mode);
    FlatObjectFlattened();
    ConsumeObjectRoundTrip(FlatObjectTokens, 0, FlatObjectFields, mode);
  }

  lemma WrappedTokens(key: string, w: string, text: string, comma: bool)
    ensures FieldTokens(Field(key, Wrapped(w, text), comma)) == [key, ":", w, "(", text, ")"] + CommaTokens(comma)
  {
  }

  /** A wrapped scalar with a bare key is written under the dotted path, unquoted, without its wrapper. */
  lemma WrappedLeaf(doc: Document, path: seq<string>, key: string, w: string, text: string, comma: bool)
    requires BareText(key)
    ensures FlattenField(doc, path, Field(key, Wrapped(w, text), comma)) == doc[Join(path + [key], ".") := Unquote(text)]
  {
    Bare(key);
  }

  // The document of TestConsumeObject, field by field.
  const IdText := "5099803df3f4948bd2f98391"
  const BirthText := "Jun 23, 1912"
  const DeathText := "Jun 07, 1954"

  const IdField := Field("_id", Wrapped("ObjectId", "\"" + IdText + "\""), true)
  const NameField := Field("name", Object(NameFields), true)
  const BirthField := Field("birth", Wrapped("ISODate", "'" + BirthText + "'"), true)
  const DeathField := Field("death", Wrapped("ISODate", "'" + DeathText + "'"), true)
  const ViewsField := Field("views", Wrapped("NumberLong", "1250000"), true)
  const RecordFields: seq<Field> := [IdField, NameField, BirthField, DeathField, ViewsField]

  const RecordTokens: seq<string> :=
    ["{"] + IdTokens + NameTokens + BirthTokens + DeathTokens + ViewsTokens + ["}"]

  const RecordDocument: Document := map[
    "_id" := IdText,
    "name.first" := "Alan",
    "name.last" := "Turing",
    "birth" := BirthText,
    "death" := DeathText,
    "views" := "1250000"
  ]

  /**
   The object of TestConsumeObject, one source line at a time: wrapper calls, a
   nested object, and a comma before the closing brace.
   */
  const IdTokens: seq<string> := ["_id", ":", "ObjectId", "(", "\"" + IdText + "\"", ")", ","]
  const NameTokens: seq<string> :=
    ["name", ":", "{", "first", ":", "\"Alan\"", ",", "last", ":", "\"Turing\"", "}", ","]
  const BirthTokens: seq<string> := ["birth", ":", "ISODate", "(", "'" + BirthText + "'", ")", ","]
  const DeathTokens: seq<string> := ["death", ":", "ISODate", "(", "'" + DeathText + "'", ")", ","]
  const ViewsTokens: seq<string> := ["views", ":", "NumberLong", "(", "1250000", ")", ","]

  lemma RecordFieldsEncoded()
    ensures EncodeFields(RecordFields)
         == FieldTokens(IdField) + (FieldTokens(NameField) + (FieldTokens(BirthField) + (FieldTokens(DeathField) + FieldTokens(ViewsField))))
  {
    assert RecordFields == [IdField] + ([NameField] + ([BirthField] + ([DeathField] + [ViewsField])));
    EncodeCons(IdField, [NameField] + ([BirthField] + ([DeathField] + [ViewsField])));
    EncodeCons(NameField, [BirthField] + ([DeathField] + [ViewsField]));
    EncodeCons(BirthField, [DeathField] + [ViewsField]);
    EncodeCons(DeathField, [ViewsField]);
    EncodeOne(ViewsField);
  }

  lemma RecordFieldTokens()
    ensures FieldTokens(IdField) == IdTokens && FieldTokens(NameField) == NameTokens
    ensures FieldTokens(BirthField) == BirthTokens && FieldTokens(DeathField) == DeathTokens
    ensures FieldTokens(ViewsField) == ViewsTokens
  {
    NameEncoded();
    ObjectTokens("name", NameFields, true);
  }

  lemma RecordEncoded()
    ensures Encode(RecordFields) == RecordTokens
  {
    RecordFieldsEncoded();
    RecordFieldTokens();
  }

  lemma NameEncoded()
    ensures EncodeFields(NameFields) == ["first", ":", "\"Alan\"", ",", "last", ":", "\"Turing\""]
  {
    var first := NameFields[0];
    var last := NameFields[1];
    assert NameFields == [first] + [last];
    EncodeCons(first, [last]);
    EncodeOne(last);
    ScalarTokens("first", "\"Alan\"", true);
    ScalarTokens("last", "\"Turing\"", false);
  }

  lemma NameOK(mode: Resume)
    ensures FieldsOK(NameFields, mode)
  {
    assert NameFields == [NameFields[0]] + [NameFields[1]];
    EncodeCons(NameFields[0], [NameFields[1]]);
    EncodeOne(NameFields[1]);
  }

  /**
   Every skipped token is `(`, `)` or starts with a capital letter, so a text
   of two or more characters that does not is never skipped; and it is not
   structural either.
   */
  lemma LongPlain(t: string)
    requires |t| >= 2 && !('A' <= t[0] <= 'Z')
    ensures Plain(t)
  {
  }

  lemma WrappedOK(f: Field, mode: Resume)
    requires f.value.Wrapped? && IsIgnoreToken(f.value.wrapper)
    requires |f.key| >= 2 && !('A' <= f.key[0] <= 'Z')
    requires |f.value.text| >= 2 && !('A' <= f.value.text[0] <= 'Z')
    ensures FieldOK(f, mode)
  {
    LongPlain(f.key);
    LongPlain(f.value.text);
  }

  lemma RecordFieldsOK(mode: Resume)
    ensures FieldOK(IdField, mode) && FieldOK(BirthField, mode)
    ensures FieldOK(DeathField, mode) && FieldOK(ViewsField, mode)
  {
    WrappedOK(IdField, mode);
    WrappedOK(BirthField, mode);
    WrappedOK(DeathField, mode);
    WrappedOK(ViewsField, mode);
  }

  lemma NameFieldOK(mode: Resume)
    ensures FieldOK(NameField, mode)
  {
    NameOK(mode);
    LongPlain("name");
  }

  lemma RecordOK(mode: Resume)
    ensures FieldsOK(RecordFields, mode)
  {
    RecordFieldsOK(mode);
    NameFieldOK(mode);
    assert RecordFields == [IdField] + ([NameField] + ([BirthField] + ([DeathField] + [ViewsField])));
    EncodeCons(IdField, [NameField] + ([BirthField] + ([DeathField] + [ViewsField])));
    EncodeCons(NameField, [BirthField] + ([DeathField] + [ViewsField]));
    EncodeCons(BirthField, [DeathField] + [ViewsField]);
    EncodeCons(DeathField, [ViewsField]);
    EncodeOne(ViewsField);
  }

  /** A top-level wrapped field is written under its own key. */
  lemma TopWrapped(doc: Document, f: Field)
    requires f.value.Wrapped?
    requires BareText(f.key)
    ensures FlattenField(doc, [], f) == doc[f.key := Unquote(f.value.text)]
  {
    WrappedLeaf(doc, [], f.key, f.value.wrapper, f.value.text, f.comma);
    assert [] + [f.key] == [f.key];
  }

  /** Bare keys that name wrapped values. */
  predicate WrappedLeafField(f: Field) {
    f.value.Wrapped? && BareText(f.key)
  }

  /** A bare key whose value is an object of two scalar fields with bare keys. */
  predicate PairField(g: Field) {
    && g.value.Object? && |g.value.fields| == 2 && BareText(g.key)
    && g.value.fields[0].value.Scalar? && BareText(g.value.fields[0].key)
    && g.value.fields[1].value.Scalar? && BareText(g.value.fields[1].key)
  }

  /** A top-level wrapped field, then the rest. */
  lemma TopWrappedCons(doc: Document, f: Field, rest: seq<Field>)
    requires WrappedLeafField(f)
    ensures FlattenFields(doc, [], [f] + rest) == FlattenFields(doc[f.key := Unquote(f.value.text)], [], rest)
  {
    FlattenCons(doc, [], f, rest);
    TopWrapped(doc, f);
  }

  /** Three top-level wrapped fields: one entry each, in order. */
  lemma ThreeWrapped(doc: Document, f: Field, g: Field, h: Field)
    requires WrappedLeafField(f) && WrappedLeafField(g) && WrappedLeafField(h)
    ensures FlattenFields(doc, [], [f, g, h])
         == doc[f.key := Unquote(f.value.text)][g.key := Unquote(g.value.text)][h.key := Unquote(h.value.text)]
  {
    assert [f, g, h] == [f] + ([g] + [h]);
    TopWrappedCons(doc, f, [g] + [h]);
    var d1 := doc[f.key := Unquote(f.value.text)];
    TopWrappedCons(d1, g, [h]);
    var d2 := d1[g.key := Unquote(g.value.text)];
    FlattenOne(d2, [], h);
    TopWrapped(d2, h);
  }

  lemma RecordTail(doc: Document)
    ensures FlattenFields(doc, [], [BirthField, DeathField, ViewsField])
         == doc["birth" := Unquote(BirthField.value.text)]
               ["death" := Unquote(DeathField.value.text)]
               ["views" := Unquote(ViewsField.value.text)]
  {
    RecordShapes();
    ThreeWrapped(doc, BirthField, DeathField, ViewsField);
  }

  /** A nested object of two scalar leaves at the top level contributes two dotted entries. */
  lemma PairCons(doc: Document, g: Field, rest: seq<Field>)
    requires PairField(g)
    ensures var a := g.value.fields[0]; var b := g.value.fields[1];
      FlattenFields(doc, [], [g] + rest)
      == FlattenFields(doc[Join([g.key, a.key], ".") := Unquote(a.value.text)][Join([g.key, b.key], ".") := Unquote(b.value.text)], [], rest)
  {
    var a := g.value.fields[0];
    var b := g.value.fields[1];
    FlattenCons(doc, [], g, rest);
    Bare(g.key);
    assert [] + [g.key] == [g.key];
    assert g.value.fields == [a, b];
    TwoLeaves(doc, g.key, a, b);
  }

  lemma RecordShapes()
    ensures WrappedLeafField(IdField) && PairField(NameField)
    ensures WrappedLeafField(BirthField) && WrappedLeafField(DeathField) && WrappedLeafField(ViewsField)
  {
  }

  /** The id and the nested name of the record: one entry, then two dotted ones. */
  lemma RecordHead()
    ensures Flatten(RecordFields)
         == FlattenFields(
              map[]
                ["_id" := Unquote(IdField.value.text)]
                [Join(["name", "first"], ".") := Unquote("\"Alan\"")]
                [Join(["name", "last"], ".") := Unquote("\"Turing\"")],
              [], [BirthField, DeathField, ViewsField])
  {
    var d0: Document := map[];
    RecordShapes();
    assert RecordFields == [IdField] + ([NameField] + [BirthField, DeathField, ViewsField]);
    TopWrappedCons(d0, IdField, [NameField] + [BirthField, DeathField, ViewsField]);
    PairCons(d0["_id" := Unquote(IdField.value.text)], NameField, [BirthField, DeathField, ViewsField]);
  }

  lemma IdString()
    ensures Unquote(IdField.value.text) == IdText
  {
    UnquoteDouble(IdText);
  }

  lemma BirthString()
    ensures Unquote(BirthField.value.text) == BirthText
  {
    UnquoteSingle(BirthText);
  }

  lemma DeathString()
    ensures Unquote(DeathField.value.text) == DeathText
  {
    UnquoteSingle(DeathText);
  }

  lemma RecordStrings()
    ensures Unquote(IdField.value.text) == IdText
    ensures Unquote(BirthField.value.text) == BirthText
    ensures Unquote(DeathField.value.text) == DeathText
    ensures Unquote(ViewsField.value.text) == "1250000"
  {
    IdString();
    BirthString();
    DeathString();
    Bare("1250000");
  }

  lemma RecordFlattened()
    ensures Flatten(RecordFields) == RecordDocument
  {
    RecordHead();
    RecordTail(map[]
                ["_id" := Unquote(IdField.value.text)]
                [Join(["name", "first"], ".") := Unquote("\"Alan\"")]
                [Join(["name", "last"], ".") := Unquote("\"Turing\"")]);
    RecordStrings();
    NameStrings();
  }

  /**
   Wrapper calls are looked through, quotes of either kind are stripped, a
   nested object contributes dotted keys, and a trailing comma before `}` is
   harmless.
   */
  lemma Record(mode: Resume)
    ensures ConsumeObject(RecordTokens, 0, mode) == Consumed(Success(RecordDocument), AfterCloser(41, mode))
  {
    RecordEncoded();
    RecordOK(mode);
    RecordFlattened();
    ConsumeObjectRoundTrip(RecordTokens, 0, RecordFields, mode);
  }

  // ---------------------------------------------------------------------
  // Arrays
  // ---------------------------------------------------------------------

  /** `[1, 2, 3]`, on one line or over several: the scanner yields the same tokens. */
  const NumbersTokens: seq<string> := ["[", "1", ",", "2", ",", "3", "]"]

  lemma NumbersPlain()
    ensures AllPlain(["1", ",", "2", ",", "3"])
  {
    var items := ["1", ",", "2", ",", "3"];
    forall i | 0 <= i < |items|
      ensures Plain(items[i])
    {
      IgnoredTokensAreNotStructural(items[i]);
    }
  }

  /** One step of `Join` from the front of a suffix. */
  lemma JoinFrom(parts: seq<string>, k: nat, sep: string)
    requires k < |parts|
    ensures Join(parts[k..], sep) == if k + 1 == |parts| then parts[k] else parts[k] + sep + Join(parts[k + 1..], sep)
  {
    assert parts[k..][0] == parts[k];
    assert parts[k..][1..] == parts[k + 1..];
  }

  lemma NumbersHead()
    ensures Join(["[", "1", ",", "2"], " ") == "[ 1 , 2"
  {
    var p := ["[", "1", ",", "2"];
    JoinFrom(p, 3, " ");
    JoinFrom(p, 2, " ");
    assert Join(p[2..], " ") == ", 2";
    JoinFrom(p, 1, " ");
    assert Join(p[1..], " ") == "1 , 2";
    JoinFrom(p, 0, " ");
    assert p[0..] == p;
  }

  lemma NumbersTail()
    ensures Join([",", "3", "]"], " ") == ", 3 ]"
  {
    var p := [",", "3", "]"];
    JoinFrom(p, 2, " ");
    JoinFrom(p, 1, " ");
    assert Join(p[1..], " ") == "3 ]";
    JoinFrom(p, 0, " ");
    assert p[0..] == p;
  }

  lemma NumbersText()
    ensures ItemsText(["1", ",", "2", ",", "3"]) == "[ 1 , 2 , 3 ]"
  {
    assert ["["] + ["1", ",", "2", ",", "3"] + ["]"] == ["[", "1", ",", "2"] + [",", "3", "]"];
    JoinAppend(["[", "1", ",", "2"], [",", "3", "]"], " ");
    NumbersHead();
    NumbersTail();
  }

  /** Every item of a flat array is kept, commas included, one space apart. */
  lemma Numbers(mode: Resume)
    ensures ConsumeArray(NumbersTokens, 0, mode) == Consumed(Success("[ 1 , 2 , 3 ]"), AfterCloser(6, mode))
  {
    var items := ["1", ",", "2", ",", "3"];
    assert NumbersTokens == ["["] + items + ["]"];
    assert At(NumbersTokens, 0, ["["] + items + ["]"]);
    NumbersPlain();
    PlainArrayConsumed(NumbersTokens, 0, items, mode);
    NumbersText();
  }

  /** The tokens of the two name fields. */
  lemma NamePairTokens(first: string, last: string)
    ensures EncodeFields(NamePair(first, last)) == ["first", ":", first, ",", "last", ":", last]
  {
    var a := Field("first", Scalar(first), true);
    var b := Field("last", Scalar(last), false);
    assert NamePair(first, last) == [a] + [b];
    EncodeCons(a, [b]);
    EncodeOne(b);
  }

  lemma PersonEncoded(first: string, last: string)
    ensures Encode(Person(first, last)) == PersonTokens(first, last)
  {
    var n := Field("name", Object(NamePair(first, last)), false);
    NamePairTokens(first, last);
    EncodeOne(n);
    ObjectTokens("name", NamePair(first, last), false);
  }

  lemma PersonOK(first: string, last: string, mode: Resume)
    requires Plain(first) && Plain(last)
    ensures FieldsOK(Person(first, last), mode)
  {
    var a := Field("first", Scalar(first), true);
    var b := Field("last", Scalar(last), false);
    var n := Field("name", Object(NamePair(first, last)), false);
    assert NamePair(first, last) == [a] + [b];
    EncodeCons(a, [b]);
    EncodeOne(b);
    EncodeOne(n);
    LongPlain("name");
    LongPlain("first");
    LongPlain("last");
  }

  lemma PersonUnskipped(first: string, last: string)
    requires Plain(first) && Plain(last)
    ensures Unskipped(PersonTokens(first, last))
  {
    var p := PersonTokens(first, last);
    forall i | 0 <= i < |p|
      ensures !IsIgnoreToken(p[i])
    {
      IgnoredTokensAreNotStructural(p[i]);
      LongPlain("name");
      LongPlain("first");
      LongPlain("last");
    }
  }

  /** The array of TestConsumeArrayObject: two objects and a comma between them. */
  const PeopleBody: seq<string> :=
    PersonTokens("\"Harry\"", "\"Potter\"") + [","] + PersonTokens("\"Hermione\"", "\"Granger\"")

  const PeopleTokens: seq<string> := ["["] + PeopleBody + ["]"]

  lemma PersonBalanced(first: string, last: string)
    requires Plain(first) && Plain(last)
    ensures BalancedRun(PersonTokens(first, last)) && Unskipped(PersonTokens(first, last))
  {
    PersonEncoded(first, last);
    PersonOK(first, last, Resume.StopAtCloser);
    EncodeBalanced(Person(first, last), Resume.StopAtCloser);
    PersonUnskipped(first, last);
  }

  lemma PeoplePlain()
    ensures Plain("\"Harry\"") && Plain("\"Potter\"") && Plain("\"Hermione\"") && Plain("\"Granger\"")
  {
    LongPlain("\"Harry\"");
    LongPlain("\"Potter\"");
    LongPlain("\"Hermione\"");
    LongPlain("\"Granger\"");
  }

  /** Two balanced runs without skipped tokens, with a comma between them. */
  lemma CommaJoined(h: seq<string>, g: seq<string>)
    requires BalancedRun(h) && Unskipped(h) && BalancedRun(g) && Unskipped(g)
    ensures BalancedRun(h + [","] + g) && Unskipped(h + [","] + g)
  {
    FlatRun([","]);
    BalancedAppend(h, [","]);
    BalancedAppend(h + [","], g);
    IgnoredTokensAreNotStructural(",");
    UnskippedAppend(h, [","]);
    UnskippedAppend(h + [","], g);
  }

  lemma PeopleBalanced()
    ensures BalancedRun(PeopleBody) && Unskipped(PeopleBody)
  {
    PeoplePlain();
    PersonBalanced("\"Harry\"", "\"Potter\"");
    PersonBalanced("\"Hermione\"", "\"Granger\"");
    CommaJoined(PersonTokens("\"Harry\"", "\"Potter\""), PersonTokens("\"Hermione\"", "\"Granger\""));
  }

  /** An array of objects is returned verbatim: every token, commas and inner brackets included, space-joined. */
  lemma People(mode: Resume)
    ensures ConsumeArray(PeopleTokens, 0, mode) == Consumed(Success(Join(PeopleTokens, " ")), AfterCloser(28, mode))
  {
    PeopleBalanced();
    assert At(PeopleTokens, 0, ["["] + PeopleBody + ["]"]);
    BalancedArrayConsumed(PeopleTokens, 0, PeopleBody, mode);
  }
}
