/**
 Token-level helpers of main.go: the ignore set of `isIgnoreToken` and the
 two `strings` functions the parser applies to token text, `strings.Trim`
 with a one-character cutset and `strings.Join`.
 */
module Tokens {

  /** Wrapper-call names and parentheses that both consume loops skip entirely. */
  const IgnoreTokens: set<string> := {
    "ObjectId", "ISODate", "Date", "Timestamp", "Int32", "Long",
    "Decimal128", "NumberLong", "NumberInt", "NumberDecimal", "(", ")"
  }

  predicate IsIgnoreToken(t: string) {
    t in IgnoreTokens
  }

  /** The tokens that drive the parse-state machines. */
  predicate IsStructural(t: string) {
    t == "{" || t == "}" || t == "[" || t == "]" || t == ":"
  }

  /** No skipped token opens, closes or separates anything, so skipping never hides structure. */
  lemma IgnoredTokensAreNotStructural(t: string)
    ensures IsIgnoreToken(t) ==> !IsStructural(t) && t != ","
  {
  }

  /** Removes every leading `c`. */
  function TrimLeft(s: string, c: char): (r: string)
    ensures |r| <= |s|
  {
    if |s| > 0 && s[0] == c then TrimLeft(s[1..], c) else s
  }

  /** Removes every trailing `c`. */
  function TrimRight(s: string, c: char): (r: string)
    ensures |r| <= |s|
  {
    if |s| > 0 && s[|s| - 1] == c then TrimRight(s[..|s| - 1], c) else s
  }

  /** `TrimLeft` keeps the suffix of `s` that does not start with `c`, and drops only `c`s. */
  lemma {:induction false} TrimLeftMeaning(s: string, c: char)
    ensures TrimLeft(s, c) == s[|s| - |TrimLeft(s, c)|..]
    ensures forall i :: 0 <= i < |s| - |TrimLeft(s, c)| ==> s[i] == c
    ensures |TrimLeft(s, c)| > 0 ==> TrimLeft(s, c)[0] != c
    decreases |s|
  {
    if |s| > 0 && s[0] == c {
      var t := s[1..];
      TrimLeftMeaning(t, c);
      assert TrimLeft(s, c) == TrimLeft(t, c);
      forall i | 0 <= i < |s| - |TrimLeft(s, c)|
        ensures s[i] == c
      {
        if i > 0 {
          assert s[i] == t[i - 1];
        }
      }
    }
  }

  /** `TrimRight` keeps the prefix of `s` that does not end with `c`, and drops only `c`s. */
  lemma {:induction false} TrimRightMeaning(s: string, c: char)
    ensures TrimRight(s, c) == s[..|TrimRight(s, c)|]
    ensures forall i :: |TrimRight(s, c)| <= i < |s| ==> s[i] == c
    ensures |TrimRight(s, c)| > 0 ==> TrimRight(s, c)[|TrimRight(s, c)| - 1] != c
    decreases |s|
  {
    if |s| > 0 && s[|s| - 1] == c {
      var t := s[..|s| - 1];
      TrimRightMeaning(t, c);
      assert TrimRight(s, c) == TrimRight(t, c);
      forall i | |TrimRight(s, c)| <= i < |s|
        ensures s[i] == c
      {
        if i < |s| - 1 {
          assert s[i] == t[i];
        }
      }
    }
  }

  /** `strings.Trim(s, cutset)` for a one-character cutset. */
  function Trim(s: string, c: char): (r: string)
    ensures |r| <= |s|
  {
    TrimRight(TrimLeft(s, c), c)
  }

  /** The trimmed text neither starts nor ends with `c`. */
  lemma TrimEnds(s: string, c: char)
    ensures |Trim(s, c)| > 0 ==> Trim(s, c)[0] != c && Trim(s, c)[|Trim(s, c)| - 1] != c
  {
    var l := TrimLeft(s, c);
    TrimLeftMeaning(s, c);
    TrimRightMeaning(l, c);
  }

  /**
   The parser's `strings.Trim(strings.Trim(t, "\""), "'")` applied to keys and
   values: strips every surrounding double quote, then every surrounding single quote.
   */
  function Unquote(t: string): (r: string)
    ensures |r| <= |t|
  {
    Trim(Trim(t, '"'), '\'')
  }

  /** `Trim` keeps exactly the middle of `s` between a run of `c` on each side. */
  lemma TrimIsMiddle(s: string, c: char)
    ensures exists a, b ::
      && 0 <= a <= b <= |s|
      && Trim(s, c) == s[a..b]
      && (forall i :: 0 <= i < a ==> s[i] == c)
      && (forall i :: b <= i < |s| ==> s[i] == c)
  {
    var l := TrimLeft(s, c);
    TrimLeftMeaning(s, c);
    TrimRightMeaning(l, c);
    var a := |s| - |l|;
    var b := a + |TrimRight(l, c)|;
    assert Trim(s, c) == s[a..b];
    forall i | b <= i < |s|
      ensures s[i] == c
    {
      assert s[i] == l[i - a];
    }
  }

  /** Trimming twice changes nothing more. */
  lemma TrimIdempotent(s: string, c: char)
    ensures Trim(Trim(s, c), c) == Trim(s, c)
  {
    TrimEnds(s, c);
    TrimUnchanged(Trim(s, c), c);
  }

  /** A text that neither starts nor ends with `c` is left as it is. */
  lemma TrimUnchanged(s: string, c: char)
    requires |s| > 0 ==> s[0] != c && s[|s| - 1] != c
    ensures Trim(s, c) == s
  {
  }

  /** The unquoted text neither starts nor ends with a single quote. */
  lemma UnquoteEnds(t: string)
    ensures |Unquote(t)| > 0 ==> Unquote(t)[0] != '\'' && Unquote(t)[|Unquote(t)| - 1] != '\''
  {
    TrimEnds(Trim(t, '"'), '\'');
  }

  /** Unquoting a text whose first and last characters are not quotes is the identity. */
  lemma UnquoteUnchanged(s: string)
    requires |s| > 0 ==> s[0] !in "\"'" && s[|s| - 1] !in "\"'"
    ensures Unquote(s) == s
  {
    TrimUnchanged(s, '"');
    TrimUnchanged(s, '\'');
  }

  /** A text with one `c` on each side and none at its own ends trims back to itself. */
  lemma TrimBoth(s: string, c: char)
    requires |s| > 0 && s[0] != c && s[|s| - 1] != c
    ensures Trim([c] + s + [c], c) == s
  {
    var w := [c] + s + [c];
    assert w[1..] == s + [c];
    assert TrimLeft(w, c) == s + [c];
    assert (s + [c])[..|s|] == s;
    assert TrimRight(s + [c], c) == TrimRight(s, c);
  }

  /** A double-quoted literal unquotes to its contents. */
  lemma UnquoteDouble(s: string)
    requires |s| > 0 && s[0] !in "\"'" && s[|s| - 1] !in "\"'"
    ensures Unquote("\"" + s + "\"") == s
  {
    TrimBoth(s, '"');
    UnquoteUnchanged(s);
    TrimUnchanged(s, '\'');
  }

  /** A single-quoted literal unquotes to its contents. */
  lemma UnquoteSingle(s: string)
    requires |s| > 0 && s[0] !in "\"'" && s[|s| - 1] !in "\"'"
    ensures Unquote("'" + s + "'") == s
  {
    var w := "'" + s + "'";
    TrimUnchanged(w, '"');
    TrimBoth(s, '\'');
  }

  predicate EndsWith(s: string, suffix: string) {
    |suffix| <= |s| && s[|s| - |suffix|..] == suffix
  }

  /** `strings.Join`: the parts in order with `sep` between neighbours. */
  function Join(parts: seq<string>, sep: string): (r: string)
    ensures |parts| == 1 ==> r == parts[0]
  {
    if |parts| == 0 then ""
    else if |parts| == 1 then parts[0]
    else parts[0] + sep + Join(parts[1..], sep)
  }

  /** The joined text starts with the first part and ends with the last. */
  lemma {:induction false} JoinEnds(parts: seq<string>, sep: string)
    requires |parts| > 0
    ensures parts[0] <= Join(parts, sep)
    ensures EndsWith(Join(parts, sep), parts[|parts| - 1])
    decreases |parts|
  {
    if |parts| > 1 {
      JoinEnds(parts[1..], sep);
      var rest := Join(parts[1..], sep);
      var r := parts[0] + sep + rest;
      assert r[|r| - |rest|..] == rest;
      var last := parts[|parts| - 1];
      assert r[|r| - |last|..] == rest[|rest| - |last|..];
    }
  }

  /** Joining two non-empty runs puts one separator between their joined texts. */
  lemma {:induction false} JoinAppend(a: seq<string>, b: seq<string>, sep: string)
    requires |a| > 0 && |b| > 0
    ensures Join(a + b, sep) == Join(a, sep) + sep + Join(b, sep)
    decreases |a|
  {
    var ab := a + b;
    assert ab[0] == a[0];
    if |a| == 1 {
      assert ab[1..] == b;
    } else {
      assert ab[1..] == a[1..] + b;
      JoinAppend(a[1..], b, sep);
    }
  }
}
