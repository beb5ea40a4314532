/**
 The avatar initials on a barber's card: the name is trimmed, split on runs of white
 space and emptied of empty parts; a blank name shows "BB", otherwise the first
 character of the first word, followed by the first character of the last word when
 there are two or more words, upper-cased.
 */
module BarbeiroCard {
  import opened Wrappers
  import opened Text

  /** A barber as the booking wizard lists it. */
  datatype Barbeiro = Barbeiro(id: string, nome: string, descricao: Option<string>)

  /** `split(/\s+/)`: the fields between maximal runs of white space. `field` is the
      part of the current field already read. */
  function SplitFrom(s: string, field: string): (parts: seq<string>)
    decreases |s|
  {
    if s == [] then [field]
    else if IsSpace(s[0]) then [field] + SplitFrom(TrimStart(s), [])
    else SplitFrom(s[1..], field + [s[0]])
  }

  function SplitOnSpaceRuns(s: string): seq<string> {
    SplitFrom(s, [])
  }

  /** `filter(Boolean)`: keeps the non-empty parts, in order. */
  function NonEmpty(parts: seq<string>): (r: seq<string>)
    ensures forall i :: 0 <= i < |r| ==> r[i] != []
  {
    if parts == [] then []
    else (if parts[0] == [] then [] else [parts[0]]) + NonEmpty(parts[1..])
  }

  /** The words of a name, computed the way the card does it. */
  function Words(nome: string): (parts: seq<string>)
    ensures forall i :: 0 <= i < |parts| ==> parts[i] != []
  {
    NonEmpty(SplitOnSpaceRuns(Trim(nome)))
  }

  /** `getInitials`. */
  function GetInitials(nome: string): (r: string)
    ensures 1 <= |r| <= 2
    ensures forall i :: 0 <= i < |r| ==> !IsAsciiLower(r[i])
  {
    InitialsOf(Words(nome))
  }

  /** The initials shown for the given list of non-empty words. */
  function InitialsOf(parts: seq<string>): (r: string)
    requires forall i :: 0 <= i < |parts| ==> parts[i] != []
    ensures 1 <= |r| <= 2
    ensures forall i :: 0 <= i < |r| ==> !IsAsciiLower(r[i])
  {
    if |parts| == 0 then "BB"
    else
      var first := [parts[0][0]];
      var last := if |parts| > 1 then [parts[|parts| - 1][0]] else [];
      ToUpper(first + last)
  }

  // ---------------------------------------------------------------------------
  // A reference reading of "the words of a string", independent of trim/split/filter

  /** The run of non-space characters at the front of `s`. */
  function Head(s: string): (h: string)
    ensures forall i :: 0 <= i < |h| ==> !IsSpace(h[i])
    ensures s != [] && !IsSpace(s[0]) ==> h != []
  {
    if s == [] || IsSpace(s[0]) then [] else [s[0]] + Head(s[1..])
  }

  /** What follows `Head(s)`: empty, or starting with white space. */
  function Rest(s: string): (r: string)
    ensures |r| == |s| - |Head(s)|
    ensures r == [] || IsSpace(r[0])
  {
    if s == [] || IsSpace(s[0]) then s else Rest(s[1..])
  }

  /** `Head` and `Rest` cut `s` in two. */
  lemma {:induction false} HeadRestCut(s: string)
    ensures Head(s) + Rest(s) == s
  {
    if s != [] && !IsSpace(s[0]) {
      HeadRestCut(s[1..]);
      assert s == [s[0]] + s[1..];
    }
  }

  /** The maximal runs of non-space characters of `s`, left to right. */
  function Tokens(s: string): (ts: seq<string>)
    ensures forall i :: 0 <= i < |ts| ==> IsWord(ts[i])
    decreases |s|
  {
    if s == [] then []
    else if IsSpace(s[0]) then Tokens(s[1..])
    else
      assert |Head(s)| > 0 && |Rest(s)| < |s|;
      [Head(s)] + Tokens(Rest(s))
  }

  /** A string as a one-element list, or no element when it is empty. */
  function Keep(x: string): seq<string> {
    if x == [] then [] else [x]
  }

  lemma TokensHeadRest(s: string)
    ensures Tokens(s) == Keep(Head(s)) + Tokens(Rest(s))
  {
  }

  lemma NonEmptyConcat(a: seq<string>, b: seq<string>)
    ensures NonEmpty(a + b) == NonEmpty(a) + NonEmpty(b)
  {
    if a == [] {
      assert a + b == b;
    } else {
      assert (a + b)[0] == a[0];
      assert (a + b)[1..] == a[1..] + b;
      NonEmptyConcat(a[1..], b);
    }
  }

  lemma {:induction false} TokensLeadingSpace(w: string, s: string)
    requires AllSpace(w)
    ensures Tokens(w + s) == Tokens(s)
  {
    if w == [] {
      assert w + s == s;
    } else {
      assert (w + s)[0] == w[0];
      assert (w + s)[1..] == w[1..] + s;
      TokensLeadingSpace(w[1..], s);
    }
  }

  lemma TokensTrimStart(s: string)
    ensures Tokens(TrimStart(s)) == Tokens(s)
  {
    var k := |s| - |TrimStart(s)|;
    assert s == s[..k] + TrimStart(s);
    TokensLeadingSpace(s[..k], TrimStart(s));
  }

  /** A word ends where white space (or the end of the string) begins. */
  lemma {:induction false} HeadBeforeSpace(a: string, b: string)
    requires b == [] || IsSpace(b[0])
    ensures Head(a + b) == Head(a) && Rest(a + b) == Rest(a) + b
  {
    if a == [] {
      assert a + b == b;
    } else if IsSpace(a[0]) {
      assert (a + b)[0] == a[0];
    } else {
      assert (a + b)[0] == a[0];
      assert (a + b)[1..] == a[1..] + b;
      HeadBeforeSpace(a[1..], b);
    }
  }

  /** Appending white space adds no token. */
  lemma {:induction false} TokensTrailingSpace(s: string, w: string)
    requires AllSpace(w)
    ensures Tokens(s + w) == Tokens(s)
    decreases |s|
  {
    if s == [] {
      assert s + w == w + [];
      TokensLeadingSpace(w, []);
    } else if IsSpace(s[0]) {
      assert (s + w)[0] == s[0];
      assert (s + w)[1..] == s[1..] + w;
      TokensTrailingSpace(s[1..], w);
    } else {
      assert (s + w)[0] == s[0];
      HeadBeforeSpace(s, w);
      TokensTrailingSpace(Rest(s), w);
    }
  }

  /** A non-empty run of white space separates the tokens on its two sides. */
  lemma {:induction false} TokensSplitAtSpace(a: string, w: string, b: string)
    requires AllSpace(w) && w != []
    ensures Tokens(a + w + b) == Tokens(a) + Tokens(b)
    decreases |a|
  {
    if a == [] {
      assert a + w + b == w + b;
      TokensLeadingSpace(w, b);
    } else if IsSpace(a[0]) {
      assert (a + w + b)[0] == a[0];
      assert (a + w + b)[1..] == a[1..] + w + b;
      TokensSplitAtSpace(a[1..], w, b);
    } else {
      assert a + w + b == a + (w + b);
      assert (a + w + b)[0] == a[0];
      HeadBeforeSpace(a, w + b);
      assert Rest(a) + (w + b) == Rest(a) + w + b;
      TokensSplitAtSpace(Rest(a), w, b);
    }
  }

  lemma TokensTrimEnd(s: string)
    ensures Tokens(TrimEnd(s)) == Tokens(s)
  {
    var t := TrimEnd(s);
    assert s == t + s[|t|..];
    TokensTrailingSpace(t, s[|t|..]);
  }

  lemma {:induction false} HeadOfWord(w: string)
    requires forall i :: 0 <= i < |w| ==> !IsSpace(w[i])
    ensures Head(w) == w && Rest(w) == []
  {
    if w != [] {
      HeadOfWord(w[1..]);
    }
  }

  lemma TokensOfWord(w: string)
    requires IsWord(w)
    ensures Tokens(w) == [w]
  {
    HeadOfWord(w);
  }

  lemma {:induction false} TokensOfSpace(s: string)
    ensures Tokens(s) == [] <==> AllSpace(s)
    decreases |s|
  {
    if s != [] && IsSpace(s[0]) {
      TokensOfSpace(s[1..]);
      assert AllSpace(s) <==> AllSpace(s[1..]) by {
        assert forall i :: 1 <= i < |s| ==> s[i] == s[1..][i - 1];
      }
    }
  }

  /** What `split` then `filter` yield from a point where `field` has been read so far:
      the field completed by the word in front, then the tokens after that word. */
  lemma {:induction false} SplitFromThenFilter(s: string, field: string)
    ensures NonEmpty(SplitFrom(s, field)) == Keep(field + Head(s)) + Tokens(Rest(s))
    decreases |s|
  {
    if s == [] {
      assert field + Head(s) == field;
    } else if IsSpace(s[0]) {
      var t := TrimStart(s);
      SplitFromThenFilter(t, []);
      SplitAtSpaceThenFilter(s, field);
    } else {
      SplitFromThenFilter(s[1..], field + [s[0]]);
      SplitInWordThenFilter(s, field);
    }
  }

  /** The step of `SplitFromThenFilter` where `s` opens with white space. */
  lemma SplitAtSpaceThenFilter(s: string, field: string)
    requires s != [] && IsSpace(s[0])
    requires NonEmpty(SplitFrom(TrimStart(s), [])) == Keep([] + Head(TrimStart(s))) + Tokens(Rest(TrimStart(s)))
    ensures NonEmpty(SplitFrom(s, field)) == Keep(field + Head(s)) + Tokens(Rest(s))
  {
    var t := TrimStart(s);
    HeadRestAtSpace(s);
    calc {
      NonEmpty(SplitFrom(s, field));
      { SplitFromAtSpace(s, field); }
      NonEmpty([field] + SplitFrom(t, []));
      { NonEmptyConcat([field], SplitFrom(t, [])); }
      NonEmpty([field]) + NonEmpty(SplitFrom(t, []));
      { NonEmptySingle(field); assert [] + Head(t) == Head(t); }
      Keep(field) + (Keep(Head(t)) + Tokens(Rest(t)));
      { TokensHeadRest(t); }
      Keep(field) + Tokens(t);
      { TokensTrimStart(s); }
      Keep(field) + Tokens(s);
      { assert field + Head(s) == field; }
      Keep(field + Head(s)) + Tokens(Rest(s));
    }
  }

  lemma HeadRestAtSpace(s: string)
    requires s != [] && IsSpace(s[0])
    ensures Head(s) == [] && Rest(s) == s
  {
  }

  lemma SplitFromAtSpace(s: string, field: string)
    requires s != [] && IsSpace(s[0])
    ensures SplitFrom(s, field) == [field] + SplitFrom(TrimStart(s), [])
  {
  }

  lemma NonEmptySingle(x: string)
    ensures NonEmpty([x]) == Keep(x)
  {
    assert [x][1..] == [];
  }

  /** The step of `SplitFromThenFilter` where `s` opens with a word character. */
  lemma SplitInWordThenFilter(s: string, field: string)
    requires s != [] && !IsSpace(s[0])
    requires NonEmpty(SplitFrom(s[1..], field + [s[0]]))
             == Keep(field + [s[0]] + Head(s[1..])) + Tokens(Rest(s[1..]))
    ensures NonEmpty(SplitFrom(s, field)) == Keep(field + Head(s)) + Tokens(Rest(s))
  {
    UnfoldInWord(s, field);
  }

  lemma UnfoldInWord(s: string, field: string)
    requires s != [] && !IsSpace(s[0])
    ensures SplitFrom(s, field) == SplitFrom(s[1..], field + [s[0]])
    ensures field + Head(s) == field + [s[0]] + Head(s[1..])
    ensures Rest(s) == Rest(s[1..])
  {
    assert Head(s) == [s[0]] + Head(s[1..]);
  }

  /** The card's trim/split/filter pipeline finds exactly the reference tokens. */
  lemma WordsAreTokens(nome: string)
    ensures Words(nome) == Tokens(nome)
  {
    var t := Trim(nome);
    calc {
      Words(nome);
      { SplitOfTrim(nome); }
      NonEmpty(SplitFrom(t, []));
      { SplitFromThenFilter(t, []); assert [] + Head(t) == Head(t); }
      Keep(Head(t)) + Tokens(Rest(t));
      { TokensHeadRest(t); }
      Tokens(t);
      { TokensTrim(nome); }
      Tokens(nome);
    }
  }

  lemma SplitOfTrim(nome: string)
    ensures Words(nome) == NonEmpty(SplitFrom(Trim(nome), []))
  {
  }

  /** Trimming both ends keeps the tokens. */
  lemma TokensTrim(nome: string)
    ensures Tokens(Trim(nome)) == Tokens(nome)
  {
    TokensTrimEnd(TrimStart(nome));
    TokensTrimStart(nome);
  }

  /** The initials depend only on the reference tokens of the name. */
  lemma InitialsOfTokens(nome: string)
    ensures GetInitials(nome) == InitialsOf(Tokens(nome))
  {
    WordsAreTokens(nome);
  }

  // ---------------------------------------------------------------------------
  // Properties of the initials

  /** An empty or blank name shows "BB". */
  lemma InitialsOfBlankName(nome: string)
    requires AllSpace(nome)
    ensures GetInitials(nome) == "BB"
  {
    InitialsOfTokens(nome);
    TokensOfSpace(nome);
  }

  /** A name with a non-space character never falls back to "BB": its first initial is
      its first non-space character, upper-cased. */
  lemma InitialsOfNonBlankName(lead: string, c: char, rest: string)
    requires AllSpace(lead) && !IsSpace(c)
    ensures Words(lead + [c] + rest) != []
    ensures GetInitials(lead + [c] + rest)[0] == UpperChar(c)
  {
    var s := [c] + rest;
    var name := lead + [c] + rest;
    ConcatAssoc(lead, [c], rest);
    InitialsOfTokens(name);
    TokensLeadingSpace(lead, s);
    FirstTokenOfWordStart(c, rest);
    InitialsOfFirstToken(Tokens(s));
    WordsAreTokens(name);
  }

  /** A string that opens with a word character has a first token starting with it. */
  lemma FirstTokenOfWordStart(c: char, rest: string)
    requires !IsSpace(c)
    ensures Tokens([c] + rest) != [] && Tokens([c] + rest)[0][0] == c
  {
    var s := [c] + rest;
    assert s[0] == c;
    assert Head(s) == [c] + Head(rest);
  }

  /** The first initial is the first character of the first token, upper-cased. */
  lemma InitialsOfFirstToken(ts: seq<string>)
    requires ts != [] && forall i :: 0 <= i < |ts| ==> ts[i] != []
    ensures InitialsOf(ts)[0] == UpperChar(ts[0][0])
  {
  }

  lemma InitialsOfOneToken(word: string)
    requires word != []
    ensures InitialsOf([word]) == [UpperChar(word[0])]
  {
  }

  lemma InitialsOfSeveralTokens(ts: seq<string>)
    requires |ts| >= 2 && forall i :: 0 <= i < |ts| ==> ts[i] != []
    ensures InitialsOf(ts) == [UpperChar(ts[0][0]), UpperChar(ts[|ts| - 1][0])]
  {
  }

  /** A one-word name shows the first character of that word only. */
  lemma InitialsOfOneWord(lead: string, word: string, trail: string)
    requires AllSpace(lead) && IsWord(word) && AllSpace(trail)
    ensures GetInitials(lead + word + trail) == [UpperChar(word[0])]
  {
    TokensIgnoreOuterSpace(lead, word, trail);
    TokensOfWord(word);
    InitialsOfTokens(lead + word + trail);
    InitialsOfOneToken(word);
  }

  /** The tokens of a name made of a first word, anything, and a last word. */
  lemma TokensOfFirstMiddleLast(first: string, sep1: string, middle: string, sep2: string, last: string)
    requires AllSpace(sep1) && sep1 != [] && AllSpace(sep2) && sep2 != []
    requires IsWord(first) && IsWord(last)
    ensures Tokens(first + sep1 + (middle + sep2 + last)) == [first] + Tokens(middle) + [last]
  {
    TokensSplitAtSpace(first, sep1, middle + sep2 + last);
    TokensSplitAtSpace(middle, sep2, last);
    TokensOfWord(first);
    TokensOfWord(last);
  }

  lemma TokensIgnoreOuterSpace(lead: string, s: string, trail: string)
    requires AllSpace(lead) && AllSpace(trail)
    ensures Tokens(lead + s + trail) == Tokens(s)
  {
    TokensTrailingSpace(lead + s, trail);
    TokensLeadingSpace(lead, s);
  }

  /** A name of two or more words shows the first character of the first word and the
      first character of the last word; the words between them do not matter. */
  lemma InitialsOfManyWords(lead: string, first: string, sep1: string, middle: string,
                            sep2: string, last: string, trail: string)
    requires AllSpace(lead) && AllSpace(trail)
    requires AllSpace(sep1) && sep1 != [] && AllSpace(sep2) && sep2 != []
    requires IsWord(first) && IsWord(last)
    ensures GetInitials(lead + (first + sep1 + (middle + sep2 + last)) + trail)
            == [UpperChar(first[0]), UpperChar(last[0])]
  {
    var body := first + sep1 + (middle + sep2 + last);
    var ts := [first] + Tokens(middle) + [last];
    TokensIgnoreOuterSpace(lead, body, trail);
    TokensOfFirstMiddleLast(first, sep1, middle, sep2, last);
    assert ts[0] == first && ts[|ts| - 1] == last;
    InitialsOfTokens(lead + body + trail);
    InitialsOfSeveralTokens(ts);
  }

  /** White space around the name does not change its initials. */
  lemma InitialsIgnoreOuterSpace(lead: string, nome: string, trail: string)
    requires AllSpace(lead) && AllSpace(trail)
    ensures GetInitials(lead + nome + trail) == GetInitials(nome)
  {
    TokensIgnoreOuterSpace(lead, nome, trail);
    InitialsOfTokens(lead + nome + trail);
    InitialsOfTokens(nome);
  }

  /** A run of white space between two parts of the name counts as a single space. */
  lemma InitialsIgnoreRunLength(a: string, run: string, b: string)
    requires AllSpace(run) && run != []
    ensures GetInitials(a + run + b) == GetInitials(a + " " + b)
  {
    InitialsOfTokens(a + run + b);
    InitialsOfTokens(a + " " + b);
    TokensSplitAtSpace(a, run, b);
    TokensSplitAtSpace(a, " ", b);
  }
}
