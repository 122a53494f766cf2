/** How the search tools turn their `queries` argument into LIKE tokens: each
    query string is split on the double quote, each piece on whitespace, and
    every `*` in a token becomes the store's `%` wildcard. */
module Tokens {

  /** The character queries are split on first. */
  const Quote: char := '"'

  /** Python's `str.isspace`, which `str.split()` without arguments splits on. */
  predicate IsSpace(c: char)
  {
    || ('\t' <= c <= '\r')
    || ('\U{1c}' <= c <= ' ')
    || c == '\U{85}' || c == '\U{a0}' || c == '\U{1680}'
    || ('\U{2000}' <= c <= '\U{200a}')
    || c == '\U{2028}' || c == '\U{2029}' || c == '\U{202f}' || c == '\U{205f}' || c == '\U{3000}'
  }

  /** `sep.join(parts)` for a single-character separator. */
  function Join(parts: seq<string>, sep: char): string
    requires |parts| > 0
  {
    if |parts| == 1 then parts[0] else parts[0] + [sep] + Join(parts[1..], sep)
  }

  /** Prefixing the first part prefixes the joined string. */
  lemma JoinPrefix(a: string, b: string, rest: seq<string>, sep: char)
    ensures Join([a + b] + rest, sep) == a + Join([b] + rest, sep)
  {
    if |rest| > 0 {
      assert ([a + b] + rest)[1..] == rest;
      assert ([b] + rest)[1..] == rest;
    }
  }

  /** `s.split(sep)`: the pieces between separators, empty pieces included. */
  function SplitOn(s: string, sep: char): (r: seq<string>)
    ensures |r| > 0
    ensures forall i :: 0 <= i < |r| ==> sep !in r[i]
    ensures Join(r, sep) == s
    decreases |s|
  {
    if |s| == 0 then [""]
    else
      var rest := SplitOn(s[1..], sep);
      if s[0] == sep then
        assert ([""] + rest)[1..] == rest;
        [""] + rest
      else
        JoinPrefix([s[0]], rest[0], rest[1..], sep);
        assert [rest[0]] + rest[1..] == rest;
        [[s[0]] + rest[0]] + rest[1..]
  }

  /** `SplitOn` is the only way to cut a string into separator-free pieces
      whose join is the string. */
  lemma {:induction false} SplitOnUnique(parts: seq<string>, s: string, sep: char)
    requires |parts| > 0
    requires forall i :: 0 <= i < |parts| ==> sep !in parts[i]
    requires Join(parts, sep) == s
    ensures parts == SplitOn(s, sep)
    decreases |s|
  {
    if |parts| > 1 {
      assert s == parts[0] + [sep] + Join(parts[1..], sep);
    }
    if |s| == 0 {
      assert |parts| == 1;
    } else if |parts[0]| == 0 {
      assert |parts| > 1;
      assert s[0] == sep && s[1..] == Join(parts[1..], sep);
      SplitOnUnique(parts[1..], s[1..], sep);
      assert parts == [""] + parts[1..];
    } else {
      var p0 := parts[0];
      var tail := [p0[1..]] + parts[1..];
      assert p0 == [p0[0]] + p0[1..];
      assert parts == [[p0[0]] + p0[1..]] + parts[1..];
      JoinPrefix([p0[0]], p0[1..], parts[1..], sep);
      assert s[0] == p0[0] != sep;
      assert Join(tail, sep) == s[1..];
      assert forall i :: 0 <= i < |tail| ==> sep !in tail[i] by {
        forall i | 0 <= i < |tail| ensures sep !in tail[i] {
          if i == 0 {
            assert forall k :: 0 <= k < |p0[1..]| ==> p0[1..][k] == p0[k + 1];
          } else {
            assert tail[i] == parts[i];
          }
        }
      }
      SplitOnUnique(tail, s[1..], sep);
    }
  }

  /** A non-empty run of non-whitespace characters. */
  predicate IsWord(w: string)
  {
    |w| > 0 && forall i :: 0 <= i < |w| ==> !IsSpace(w[i])
  }

  /** The characters of `s` that are not whitespace, in order. */
  function DropSpaces(s: string): string
  {
    if |s| == 0 then "" else (if IsSpace(s[0]) then "" else [s[0]]) + DropSpaces(s[1..])
  }

  /** The concatenation of a list of strings. */
  function Concat(ws: seq<string>): string
  {
    if |ws| == 0 then "" else ws[0] + Concat(ws[1..])
  }

  /** Splits `s` on whitespace runs, with `cur` the part of a word already read. */
  function WordsFrom(s: string, cur: string): (r: seq<string>)
    requires forall i :: 0 <= i < |cur| ==> !IsSpace(cur[i])
    ensures forall i :: 0 <= i < |r| ==> IsWord(r[i])
    ensures Concat(r) == cur + DropSpaces(s)
    decreases |s|
  {
    if |s| == 0 then
      (if |cur| == 0 then [] else assert [cur][1..] == []; [cur])
    else if IsSpace(s[0]) then
      var rest := WordsFrom(s[1..], "");
      assert DropSpaces(s) == DropSpaces(s[1..]);
      if |cur| == 0 then rest else assert ([cur] + rest)[1..] == rest; [cur] + rest
    else
      var rest := WordsFrom(s[1..], cur + [s[0]]);
      assert DropSpaces(s) == [s[0]] + DropSpaces(s[1..]);
      assert cur + DropSpaces(s) == (cur + [s[0]]) + DropSpaces(s[1..]);
      rest
  }

  /** `s.split()`: the maximal whitespace-free runs of `s`. */
  function SplitWords(s: string): (r: seq<string>)
    ensures forall i :: 0 <= i < |r| ==> IsWord(r[i])
    ensures Concat(r) == DropSpaces(s)
    ensures forall i :: 0 <= i < |r| ==> multiset(r[i]) <= multiset(s)
  {
    var r := WordsFrom(s, "");
    forall i | 0 <= i < |r| ensures multiset(r[i]) <= multiset(s) {
      ConcatContains(r, i);
      DropSpacesWithin(s);
    }
    r
  }

  /** Each part of a concatenation is contained in it. */
  lemma {:induction false} ConcatContains(ws: seq<string>, i: nat)
    requires i < |ws|
    ensures multiset(ws[i]) <= multiset(Concat(ws))
  {
    if i > 0 {
      ConcatContains(ws[1..], i - 1);
    }
  }

  /** Dropping whitespace keeps a sub-multiset of the characters. */
  lemma {:induction false} DropSpacesWithin(s: string)
    ensures multiset(DropSpaces(s)) <= multiset(s)
  {
    if |s| > 0 {
      DropSpacesWithin(s[1..]);
      assert s == [s[0]] + s[1..];
      assert multiset(s) == multiset([s[0]]) + multiset(s[1..]);
      if IsSpace(s[0]) {
        assert DropSpaces(s) == DropSpaces(s[1..]);
      } else {
        assert DropSpaces(s) == [s[0]] + DropSpaces(s[1..]);
      }
    }
  }

  /** Splitting distributes over a whitespace character: the words of
      `a + [c] + b` are the words of `a` followed by the words of `b`. */
  lemma {:induction false} WordsAcrossSpace(a: string, c: char, b: string, cur: string)
    requires IsSpace(c)
    requires forall i :: 0 <= i < |cur| ==> !IsSpace(cur[i])
    ensures WordsFrom(a + [c] + b, cur) == WordsFrom(a, cur) + WordsFrom(b, "")
    decreases |a|
  {
    var s := a + [c] + b;
    if |a| == 0 {
      assert s[0] == c && s[1..] == b;
    } else {
      assert s[0] == a[0] && s[1..] == a[1..] + [c] + b;
      if IsSpace(a[0]) {
        WordsAcrossSpace(a[1..], c, b, "");
      } else {
        WordsAcrossSpace(a[1..], c, b, cur + [a[0]]);
      }
    }
  }

  /** A whitespace-free string read after a partial word extends that word. */
  lemma {:induction false} WordsOfWord(w: string, cur: string)
    requires forall i :: 0 <= i < |cur| ==> !IsSpace(cur[i])
    requires forall i :: 0 <= i < |w| ==> !IsSpace(w[i])
    requires |cur + w| > 0
    ensures WordsFrom(w, cur) == [cur + w]
    decreases |w|
  {
    if |w| > 0 {
      assert cur + w == (cur + [w[0]]) + w[1..];
      WordsOfWord(w[1..], cur + [w[0]]);
    } else {
      assert cur + w == cur;
    }
  }

  /** Splitting whitespace, words and a space-separated list behaves as
      `str.split()`: a single word is kept whole and a space separates. */
  lemma SplitWordsFacts(w: string, a: string, c: char, b: string)
    requires IsWord(w) && IsSpace(c)
    ensures SplitWords(w) == [w]
    ensures SplitWords(a + [c] + b) == SplitWords(a) + SplitWords(b)
  {
    WordsOfWord(w, "");
    assert "" + w == w;
    WordsAcrossSpace(a, c, b, "");
  }

  /** `tok.replace("*", "%")`. */
  function ReplaceStar(t: string): (r: string)
    ensures |r| == |t|
    ensures forall i :: 0 <= i < |r| ==> r[i] == if t[i] == '*' then '%' else t[i]
  {
    if |t| == 0 then "" else [if t[0] == '*' then '%' else t[0]] + ReplaceStar(t[1..])
  }

  /** What every token handed to LIKE looks like. */
  predicate IsToken(t: string)
  {
    && |t| > 0
    && forall i :: 0 <= i < |t| ==> t[i] != Quote && t[i] != '*' && !IsSpace(t[i])
  }

  /** The tokens of the quote-free pieces of one query, in order. */
  function PieceTokens(pieces: seq<string>): (r: seq<string>)
    requires forall i :: 0 <= i < |pieces| ==> Quote !in pieces[i]
    ensures forall i :: 0 <= i < |r| ==> IsToken(r[i])
  {
    if |pieces| == 0 then []
    else
      StarredWords(pieces[0]) + PieceTokens(pieces[1..])
  }

  /** The tokens of one quote-free piece: its words with `*` replaced. */
  function StarredWords(piece: string): (r: seq<string>)
    requires Quote !in piece
    ensures forall i :: 0 <= i < |r| ==> IsToken(r[i])
  {
    var ws := SplitWords(piece);
    var r := seq(|ws|, i requires 0 <= i < |ws| => ReplaceStar(ws[i]));
    assert forall i :: 0 <= i < |r| ==> IsToken(r[i]) by {
      forall i, k | 0 <= i < |r| && 0 <= k < |r[i]| ensures r[i][k] != Quote {
        assert ws[i][k] in multiset(ws[i]);
      }
    }
    r
  }

  /** The nested loops over queries, quote-separated pieces and words. */
  function QueryTokens(qs: seq<string>): (r: seq<string>)
    ensures forall i :: 0 <= i < |r| ==> IsToken(r[i])
  {
    if |qs| == 0 then [] else PieceTokens(SplitOn(qs[0], Quote)) + QueryTokens(qs[1..])
  }

  /** A phrase between two quotes splits into an empty piece, the phrase and an empty piece. */
  lemma QuotedPieces(phrase: string)
    requires Quote !in phrase
    ensures SplitOn([Quote] + phrase + [Quote], Quote) == ["", phrase, ""]
  {
    var q := [Quote] + phrase + [Quote];
    var pieces := ["", phrase, ""];
    assert pieces[1..] == [phrase, ""] && pieces[1..][1..] == [""];
    assert Join(pieces[1..][1..], Quote) == "";
    assert Join(pieces[1..], Quote) == phrase + [Quote];
    assert Join(pieces, Quote) == q;
    SplitOnUnique(pieces, q, Quote);
  }

  /** Two words around one whitespace character split into exactly those words. */
  lemma TwoWords(a: string, c: char, b: string)
    requires IsWord(a) && IsWord(b) && IsSpace(c)
    ensures SplitWords(a + [c] + b) == [a, b]
  {
    WordsAcrossSpace(a, c, b, "");
    WordsOfWord(a, "");
    WordsOfWord(b, "");
    assert "" + a == a && "" + b == b;
  }

  /** A query that is one quoted phrase yields the tokens of the phrase's words. */
  lemma QuotedQueryTokens(phrase: string)
    requires Quote !in phrase
    ensures QueryTokens([[Quote] + phrase + [Quote]]) == StarredWords(phrase)
  {
    var q := [Quote] + phrase + [Quote];
    QuotedPieces(phrase);
    var pieces := ["", phrase, ""];
    assert SplitWords("") == [];
    assert StarredWords("") == [];
    assert pieces[1..] == [phrase, ""] && pieces[1..][1..] == [""];
    assert PieceTokens([""]) == [];
    assert PieceTokens(pieces[1..]) == StarredWords(phrase);
    assert PieceTokens(pieces) == StarredWords(phrase);
    assert [q][1..] == [];
  }

  /** A quoted phrase is not kept whole: the words of `"a b"` become separate
      tokens, so the phrase matches anything containing either word. */
  lemma QuotedPhraseIsSplit(a: string, c: char, b: string)
    requires IsWord(a) && IsWord(b) && IsSpace(c)
    requires Quote !in a && Quote !in b
    ensures QueryTokens([[Quote] + (a + [c] + b) + [Quote]]) == [ReplaceStar(a), ReplaceStar(b)]
  {
    var phrase := a + [c] + b;
    assert Quote !in phrase;
    QuotedQueryTokens(phrase);
    TwoWords(a, c, b);
    assert StarredWords(phrase) == [ReplaceStar(a), ReplaceStar(b)];
  }

  /** Only whitespace. */
  predicate AllSpace(s: string)
  {
    forall i :: 0 <= i < |s| ==> IsSpace(s[i])
  }

  /** Only whitespace and quotes: a query that yields no token. */
  predicate Blank(s: string)
  {
    forall i :: 0 <= i < |s| ==> IsSpace(s[i]) || s[i] == Quote
  }

  /** Nothing is left after dropping whitespace exactly when there was only whitespace. */
  lemma {:induction false} DropSpacesEmpty(s: string)
    ensures DropSpaces(s) == "" <==> AllSpace(s)
  {
    if |s| > 0 {
      DropSpacesEmpty(s[1..]);
      assert AllSpace(s) <==> IsSpace(s[0]) && AllSpace(s[1..]);
    }
  }

  /** Non-empty words concatenate to the empty string only when there are none. */
  lemma ConcatOfWordsEmpty(ws: seq<string>)
    requires forall i :: 0 <= i < |ws| ==> IsWord(ws[i])
    ensures Concat(ws) == "" <==> ws == []
  {
    if |ws| > 0 {
      assert |Concat(ws)| >= |ws[0]| > 0;
    }
  }

  /** A piece yields no token exactly when it is all whitespace. */
  lemma StarredWordsEmpty(piece: string)
    requires Quote !in piece
    ensures StarredWords(piece) == [] <==> AllSpace(piece)
  {
    ConcatOfWordsEmpty(SplitWords(piece));
    DropSpacesEmpty(piece);
  }

  /** A list of pieces yields no token exactly when every piece is all whitespace. */
  lemma {:induction false} PieceTokensEmpty(pieces: seq<string>)
    requires forall i :: 0 <= i < |pieces| ==> Quote !in pieces[i]
    ensures PieceTokens(pieces) == [] <==> forall i :: 0 <= i < |pieces| ==> AllSpace(pieces[i])
  {
    if |pieces| > 0 {
      StarredWordsEmpty(pieces[0]);
      PieceTokensEmpty(pieces[1..]);
      assert forall i :: 1 <= i < |pieces| ==> pieces[i] == pieces[1..][i - 1];
    }
  }

  /** Whitespace and quotes only, on both sides of a concatenation. */
  lemma BlankAppend(x: string, y: string)
    ensures Blank(x + y) <==> Blank(x) && Blank(y)
  {
    if Blank(x) && Blank(y) {
      forall i | 0 <= i < |x + y| ensures IsSpace((x + y)[i]) || (x + y)[i] == Quote {
        if i >= |x| {
          assert (x + y)[i] == y[i - |x|];
        }
      }
    }
    if Blank(x + y) {
      forall i | 0 <= i < |x| ensures IsSpace(x[i]) || x[i] == Quote {
        assert x[i] == (x + y)[i];
      }
      forall i | 0 <= i < |y| ensures IsSpace(y[i]) || y[i] == Quote {
        assert y[i] == (x + y)[i + |x|];
      }
    }
  }

  /** Quote-free pieces are all whitespace exactly when joining them with
      quotes leaves only whitespace and quotes. */
  lemma {:induction false} JoinBlank(parts: seq<string>)
    requires |parts| > 0
    requires forall i :: 0 <= i < |parts| ==> Quote !in parts[i]
    ensures Blank(Join(parts, Quote)) <==> forall i :: 0 <= i < |parts| ==> AllSpace(parts[i])
  {
    assert Blank(parts[0]) <==> AllSpace(parts[0]) by {
      if Blank(parts[0]) {
        forall i | 0 <= i < |parts[0]| ensures IsSpace(parts[0][i]) {
          assert parts[0][i] in parts[0];
        }
      }
    }
    if |parts| > 1 {
      JoinBlank(parts[1..]);
      BlankAppend(parts[0] + [Quote], Join(parts[1..], Quote));
      BlankAppend(parts[0], [Quote]);
      assert forall i :: 1 <= i < |parts| ==> parts[i] == parts[1..][i - 1];
    }
  }

  /** One query yields no token exactly when it is whitespace and quotes only. */
  lemma QueryBlank(q: string)
    ensures PieceTokens(SplitOn(q, Quote)) == [] <==> Blank(q)
  {
    var pieces := SplitOn(q, Quote);
    PieceTokensEmpty(pieces);
    JoinBlank(pieces);
  }

  /** The queries yield no token at all exactly when every query consists of
      whitespace and quotes only (this includes an empty query string). */
  lemma {:induction false} NoTokensIffBlank(qs: seq<string>)
    ensures QueryTokens(qs) == [] <==> forall i :: 0 <= i < |qs| ==> Blank(qs[i])
  {
    if |qs| > 0 {
      var head, tail := PieceTokens(SplitOn(qs[0], Quote)), QueryTokens(qs[1..]);
      assert QueryTokens(qs) == head + tail;
      AppendEmpty(head, tail);
      QueryBlank(qs[0]);
      NoTokensIffBlank(qs[1..]);
      AllBlankCons(qs);
    }
  }

  /** A concatenation is empty exactly when both sides are. */
  lemma AppendEmpty<T>(a: seq<T>, b: seq<T>)
    ensures a + b == [] <==> a == [] && b == []
  {
    assert |a + b| == |a| + |b|;
  }

  /** Every query is blank exactly when the first one and all the rest are. */
  lemma AllBlankCons(qs: seq<string>)
    requires |qs| > 0
    ensures (forall i :: 0 <= i < |qs| ==> Blank(qs[i]))
        <==> Blank(qs[0]) && forall i :: 0 <= i < |qs[1..]| ==> Blank(qs[1..][i])
  {
    assert forall i :: 1 <= i < |qs| ==> qs[i] == qs[1..][i - 1];
  }
}
