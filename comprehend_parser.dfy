/** The Comprehend sentence builder (engines/comprehend/parser.cpp, Parser::readString): split
    the player's input into words at spaces and commas, look each word up in the dictionary, and
    append one sentence holding the first four lookups. */
module ComprehendParser {
  import opened Streams

  /** The delimiters the tokenizer splits at. */
  predicate IsDelimiter(c: char) { c == ' ' || c == ',' }

  /** A token: a non-empty run of non-delimiters. */
  predicate IsWord(w: string) { w != [] && forall k :: 0 <= k < |w| ==> !IsDelimiter(w[k]) }

  /** The first position at or after `i` that holds no delimiter (or the end). */
  function SkipDelimiters(s: string, i: nat): (j: nat)
    requires i <= |s|
    ensures i <= j <= |s|
    ensures j < |s| ==> !IsDelimiter(s[j])
    decreases |s| - i
  {
    if i == |s| || !IsDelimiter(s[i]) then i else SkipDelimiters(s, i + 1)
  }

  /** The first position at or after `i` that holds a delimiter (or the end). */
  function TokenEnd(s: string, i: nat): (j: nat)
    requires i <= |s|
    ensures i <= j <= |s|
    ensures j < |s| ==> IsDelimiter(s[j])
    decreases |s| - i
  {
    if i == |s| || IsDelimiter(s[i]) then i else TokenEnd(s, i + 1)
  }

  /** Every character `SkipDelimiters` passes over is a delimiter. */
  lemma {:induction false} SkipDelimitersSkipsDelimiters(s: string, i: nat)
    requires i <= |s|
    ensures forall k :: i <= k < SkipDelimiters(s, i) ==> IsDelimiter(s[k])
    decreases |s| - i
  {
    if i < |s| && IsDelimiter(s[i]) {
      SkipDelimitersSkipsDelimiters(s, i + 1);
    }
  }

  /** No character of a token, from its start up to `TokenEnd`, is a delimiter. */
  lemma {:induction false} TokenEndSpansNoDelimiter(s: string, i: nat)
    requires i <= |s|
    ensures forall k :: i <= k < TokenEnd(s, i) ==> !IsDelimiter(s[k])
    decreases |s| - i
  {
    if i < |s| && !IsDelimiter(s[i]) {
      TokenEndSpansNoDelimiter(s, i + 1);
    }
  }

  /** The tokens of `s` from position `i` on: maximal runs of non-delimiters, left to right. */
  function TokensFrom(s: string, i: nat): (ts: seq<string>)
    requires i <= |s|
    decreases |s| - i
  {
    var b := SkipDelimiters(s, i);
    if b == |s| then [] else [s[b..TokenEnd(s, b)]] + TokensFrom(s, TokenEnd(s, b))
  }

  function Tokens(s: string): seq<string> { TokensFrom(s, 0) }

  /** Every token is a non-empty run of non-delimiters. */
  lemma {:induction false} TokensAreWords(s: string, i: nat)
    requires i <= |s|
    ensures forall k :: 0 <= k < |TokensFrom(s, i)| ==> IsWord(TokensFrom(s, i)[k])
    decreases |s| - i
  {
    var b := SkipDelimiters(s, i);
    if b < |s| {
      TokenEndSpansNoDelimiter(s, b);
      TokensAreWords(s, TokenEnd(s, b));
    }
  }

  /** The tail of `s` from `i` holds no token exactly when it holds only delimiters. */
  lemma {:induction false} NoTokensIff(s: string, i: nat)
    requires i <= |s|
    ensures TokensFrom(s, i) == [] <==> forall k :: i <= k < |s| ==> IsDelimiter(s[k])
  {
    SkipDelimitersSkipsDelimiters(s, i);
  }

  /** Words joined by single spaces. */
  function JoinWords(ws: seq<string>): string
  {
    if ws == [] then [] else if |ws| == 1 then ws[0] else ws[0] + " " + JoinWords(ws[1..])
  }

  /** Tokens after a delimiter-free word that starts at `i`, and nothing before it, of a string. */
  lemma {:induction false} TokensOfWordThen(w: string, tail: string)
    requires IsWord(w) && (tail == [] || IsDelimiter(tail[0]))
    ensures Tokens(w + tail) == [w] + TokensFrom(tail, 0)
  {
    var s := w + tail;
    assert SkipDelimiters(s, 0) == 0;
    TokenEndOfWord(w, tail, 0);
    TokensFromShift(w, tail, 0);
  }

  lemma {:induction false} TokenEndOfWord(w: string, tail: string, i: nat)
    requires IsWord(w) && (tail == [] || IsDelimiter(tail[0])) && i <= |w|
    ensures TokenEnd(w + tail, i) == |w|
    decreases |w| - i
  {
    var s := w + tail;
    if i < |w| {
      assert s[i] == w[i];
      TokenEndOfWord(w, tail, i + 1);
    }
  }

  /** Tokenising after a prefix depends only on what follows it. */
  lemma {:induction false} TokensFromShift(pre: string, s: string, i: nat)
    requires i <= |s|
    ensures TokensFrom(pre + s, |pre| + i) == TokensFrom(s, i)
  {
    var t := pre + s;
    assert forall k :: i <= k < |s| ==> t[|pre| + k] == s[k];
    TokensShifted(t, s, |pre|, i);
  }

  /** `t` holds `s` from `off` on: from there, `t` and `s` have the same tokens. */
  lemma {:induction false} TokensShifted(t: string, s: string, off: nat, i: nat)
    requires |t| == off + |s| && i <= |s|
    requires forall k :: i <= k < |s| ==> t[off + k] == s[k]
    ensures TokensFrom(t, off + i) == TokensFrom(s, i)
    decreases |s| - i
  {
    var b := SkipDelimiters(s, i);
    SkipShift(t, s, off, i);
    if b < |s| {
      var e := TokenEnd(s, b);
      EndShift(t, s, off, b);
      assert t[off + b..off + e] == s[b..e] by {
        assert forall k :: 0 <= k < e - b ==> t[off + b..off + e][k] == s[b..e][k];
      }
      TokensShifted(t, s, off, e);
      TokensFromUnfold(t, off + i, off + b, off + e);
      TokensFromUnfold(s, i, b, e);
    }
  }

  /** One step of `TokensFrom`, once the bounds of the first token are known. */
  lemma {:induction false} TokensFromUnfold(s: string, i: nat, b: nat, e: nat)
    requires i <= |s| && b == SkipDelimiters(s, i) && b < |s| && e == TokenEnd(s, b)
    ensures TokensFrom(s, i) == [s[b..e]] + TokensFrom(s, e)
  {
  }

  lemma {:induction false} SkipShift(t: string, s: string, off: nat, i: nat)
    requires |t| == off + |s| && i <= |s|
    requires forall k :: i <= k < |s| ==> t[off + k] == s[k]
    ensures SkipDelimiters(t, off + i) == off + SkipDelimiters(s, i)
    decreases |s| - i
  {
    if i < |s| {
      assert t[off + i] == s[i];
      SkipShift(t, s, off, i + 1);
    }
  }

  lemma {:induction false} EndShift(t: string, s: string, off: nat, i: nat)
    requires |t| == off + |s| && i <= |s|
    requires forall k :: i <= k < |s| ==> t[off + k] == s[k]
    ensures TokenEnd(t, off + i) == off + TokenEnd(s, i)
    decreases |s| - i
  {
    if i < |s| {
      assert t[off + i] == s[i];
      EndShift(t, s, off, i + 1);
    }
  }

  /** Splitting words joined by spaces gives the words back. */
  lemma {:induction false} TokensOfJoinedWords(ws: seq<string>)
    requires forall k :: 0 <= k < |ws| ==> IsWord(ws[k])
    ensures Tokens(JoinWords(ws)) == ws
  {
    if ws == [] {
    } else if |ws| == 1 {
      TokensOfWordThen(ws[0], []);
      assert ws[0] + [] == ws[0];
    } else {
      var rest := JoinWords(ws[1..]);
      assert JoinWords(ws) == ws[0] + (" " + rest);
      TokensOfWordThen(ws[0], " " + rest);
      TokensFromShift(" ", rest, 0);
      assert SkipDelimiters(" " + rest, 0) == SkipDelimiters(" " + rest, 1);
      assert TokensFrom(" " + rest, 0) == TokensFrom(" " + rest, 1);
      TokensOfJoinedWords(ws[1..]);
    }
  }

  /** `Common::StringTokenizer` over " ,": the string and the end of the last token read. */
  class StringTokenizer {
    const str: string
    var tokenEnd: nat

    ghost predicate Valid()
      reads this
    {
      tokenEnd <= |str|
    }

    constructor (s: string)
      ensures Valid() && str == s && tokenEnd == 0
    {
      str := s;
      tokenEnd := 0;
    }

    /** `empty`: whether only delimiters remain. */
    method Empty() returns (e: bool)
      requires Valid()
      ensures e <==> TokensFrom(str, tokenEnd) == []
    {
      NoTokensIff(str, tokenEnd);
      var i := tokenEnd;
      while i < |str|
        invariant tokenEnd <= i <= |str|
        invariant forall k :: tokenEnd <= k < i ==> IsDelimiter(str[k])
      {
        if !IsDelimiter(str[i]) {
          return false;
        }
        i := i + 1;
      }
      return true;
    }

    /** `nextToken`: skip delimiters, then read up to the next delimiter. */
    method NextToken() returns (token: string)
      requires Valid()
      modifies this
      ensures Valid()
      ensures old(TokensFrom(str, tokenEnd)) != [] ==>
        token == old(TokensFrom(str, tokenEnd))[0] && TokensFrom(str, tokenEnd) == old(TokensFrom(str, tokenEnd))[1..]
    {
      var begin := tokenEnd;
      while begin < |str| && IsDelimiter(str[begin])
        invariant tokenEnd <= begin <= |str|
        invariant SkipDelimiters(str, tokenEnd) == SkipDelimiters(str, begin)
      {
        begin := begin + 1;
      }
      var end := begin;
      while end < |str| && !IsDelimiter(str[end])
        invariant begin <= end <= |str|
        invariant TokenEnd(str, begin) == TokenEnd(str, end)
      {
        end := end + 1;
      }
      token := str[begin..end];
      tokenEnd := end;
    }
  }

  /** `struct sentence`: four word slots (null as `None`) and how many of them are used. */
  datatype Sentence<W> = Sentence(word: seq<Option<W>>, numWords: nat)

  const MaxWords: nat := 4

  class Parser<W> {
    /** `lookupDictionaryWord` of the game data: the dictionary entry of a word, or null. */
    const lookup: string -> Option<W>

    constructor (dictionary: string -> Option<W>)
      ensures lookup == dictionary
    {
      lookup := dictionary;
    }

    /** `readString`: look up every token of `input`, then append a sentence holding the first
        four lookups, the remaining slots null. */
    method ReadString(sentences: seq<Sentence<W>>, input: string) returns (result: seq<Sentence<W>>)
      ensures |result| == |sentences| + 1 && result[..|sentences|] == sentences
      ensures var tokens, s := Tokens(CString(input)), result[|sentences|];
        s.numWords == Min(MaxWords, |tokens|) && |s.word| == MaxWords
        && (forall i :: 0 <= i < s.numWords ==> s.word[i] == lookup(tokens[i]))
        && (forall i :: s.numWords <= i < MaxWords ==> s.word[i] == None)
    {
      var tokenizer := new StringTokenizer(CString(input));
      ghost var tokens := Tokens(tokenizer.str);
      var words: seq<Option<W>> := [];
      var empty := tokenizer.Empty();
      while !empty
        invariant tokenizer.Valid() && tokenizer.str == CString(input)
        invariant |words| <= |tokens|
        invariant TokensFrom(tokenizer.str, tokenizer.tokenEnd) == tokens[|words|..]
        invariant forall i :: 0 <= i < |words| ==> words[i] == lookup(tokens[i])
        invariant empty <==> |words| == |tokens|
        decreases |tokens| - |words|
      {
        var token := tokenizer.NextToken();
        assert token == tokens[|words|] && tokens[|words|..][1..] == tokens[|words| + 1..];
        words := words + [lookup(token)];
        empty := tokenizer.Empty();
      }

      var sentence := NewSentence(words);
      result := sentences + [sentence];
    }
  }

  /** The sentence `readString` allocates: zero-initialised slots, the first four words copied in. */
  method NewSentence<W>(words: seq<Option<W>>) returns (s: Sentence<W>)
    ensures s.numWords == Min(MaxWords, |words|) && |s.word| == MaxWords
    ensures forall i :: 0 <= i < s.numWords ==> s.word[i] == words[i]
    ensures forall i :: s.numWords <= i < MaxWords ==> s.word[i] == None
  {
    var word := new Option<W>[MaxWords](_ => None);
    var numWords := Min(MaxWords, |words|);
    for i := 0 to numWords
      invariant forall k :: 0 <= k < i ==> word[k] == words[k]
      invariant forall k :: numWords <= k < MaxWords ==> word[k] == None
    {
      word[i] := words[i];
    }
    s := Sentence(word[..], numWords);
  }
}
