/**
 * The comma-list helpers of Spring's `StringUtils` and `AuthorityUtils` that the
 * claims codec uses: joining a collection with ",", and
 * `commaSeparatedStringToAuthorityList`, which tokenizes on ",", trims every
 * token with `String.trim` and drops the tokens that end up empty.
 */
module SpringStrings {
  import opened Wrappers
  import opened JavaLang

  /** `collectionToCommaDelimitedString` / `arrayToCommaDelimitedString` over element texts. */
  function Join(items: seq<string>): string
    decreases |items|
  {
    if |items| == 0 then ""
    else if |items| == 1 then items[0]
    else items[0] + "," + Join(items[1..])
  }

  /** `String.valueOf` of an element: a null element is written as "null". */
  function ItemText(item: Option<string>): string {
    match item
    case None => "null"
    case Some(s) => s
  }

  function ItemTexts(items: seq<Option<string>>): (r: seq<string>)
    ensures |r| == |items|
    ensures forall i :: 0 <= i < |items| ==> r[i] == ItemText(items[i])
  {
    seq(|items|, i requires 0 <= i < |items| => ItemText(items[i]))
  }

  /** The pieces between the commas of `s`, in order; there is always one more piece than commas. */
  function Split(s: string): (r: seq<string>)
    ensures |r| >= 1
    ensures forall i :: 0 <= i < |r| ==> ',' !in r[i]
    decreases |s|
  {
    if s == [] then [[]]
    else
      var rest := Split(s[1..]);
      if s[0] == ',' then [[]] + rest else [[s[0]] + rest[0]] + rest[1..]
  }

  /** Trim every piece and keep the non-empty ones. */
  function Cleaned(pieces: seq<string>): (r: seq<string>)
    ensures |r| <= |pieces|
    ensures forall i :: 0 <= i < |r| ==> r[i] != []
    decreases |pieces|
  {
    if pieces == [] then []
    else
      var t := Trim(pieces[0]);
      (if t == [] then [] else [t]) + Cleaned(pieces[1..])
  }

  /** `StringUtils.tokenizeToStringArray(s, ",", true, true)`. */
  function Tokens(s: string): (r: seq<string>)
    ensures forall i :: 0 <= i < |r| ==> r[i] != []
  {
    Cleaned(Split(s))
  }

  /** A token that survives the comma split and the trim unchanged. */
  predicate CleanToken(t: string) {
    t != [] && ',' !in t && !IsTrimmed(t[0]) && !IsTrimmed(t[|t| - 1])
  }

  /** `StringUtils.hasText`: some character is not whitespace. */
  predicate HasText(s: string)
    decreases |s|
  {
    s != [] && (!IsWhitespace(s[0]) || HasText(s[1..]))
  }

  lemma {:induction false} SplitCommaFree(a: string)
    requires ',' !in a
    ensures Split(a) == [a]
    decreases |a|
  {
    if a != [] {
      SplitCommaFree(a[1..]);
      assert a == [a[0]] + a[1..];
    }
  }

  lemma {:induction false} SplitAfterComma(a: string, b: string)
    requires ',' !in a
    ensures Split(a + "," + b) == [a] + Split(b)
    decreases |a|
  {
    var s := a + "," + b;
    if a == [] {
      assert s[0] == ',' && s[1..] == b;
    } else {
      assert s[0] == a[0] && s[1..] == a[1..] + "," + b;
      SplitAfterComma(a[1..], b);
      assert [a[0]] + a[1..] == a;
    }
  }

  /** Splitting a join of comma-free texts gives the texts back. */
  lemma {:induction false} SplitJoin(items: seq<string>)
    requires |items| >= 1
    requires forall i :: 0 <= i < |items| ==> ',' !in items[i]
    ensures Split(Join(items)) == items
    decreases |items|
  {
    if |items| == 1 {
      SplitCommaFree(items[0]);
    } else {
      SplitJoin(items[1..]);
      SplitAfterComma(items[0], Join(items[1..]));
      assert items == [items[0]] + items[1..];
    }
  }

  lemma {:induction false} CleanedClean(pieces: seq<string>)
    requires forall i :: 0 <= i < |pieces| ==> CleanToken(pieces[i])
    ensures Cleaned(pieces) == pieces
    decreases |pieces|
  {
    if pieces != [] {
      var t, rest := pieces[0], pieces[1..];
      assert CleanToken(t);
      TrimUnchanged(t);
      forall i | 0 <= i < |rest|
        ensures CleanToken(rest[i])
      {
        assert rest[i] == pieces[i + 1];
      }
      CleanedClean(rest);
      assert Cleaned(pieces) == [t] + Cleaned(rest);
      assert pieces == [t] + rest;
    }
  }

  /** The empty string has no tokens. */
  lemma TokensEmpty()
    ensures Tokens("") == []
  {
    assert Split("") == [[]];
    assert Trim([]) == [];
    assert Cleaned([[]]) == [] + Cleaned([]);
  }

  /**
   * Tokenizing a comma join of clean tokens gives back exactly those tokens,
   * in order; in particular the join of no tokens tokenizes to nothing.
   */
  lemma TokensJoin(items: seq<string>)
    requires forall i :: 0 <= i < |items| ==> CleanToken(items[i])
    ensures Tokens(Join(items)) == items
  {
    if items == [] {
      TokensEmpty();
    } else {
      SplitJoin(items);
      CleanedClean(items);
    }
  }
}
