/**
 * String helpers the plugins rely on: the separator-aware `+=` idiom of every
 * accumulator, joining, space tokenising (FString::ParseIntoArray with culling),
 * decimal rendering and parsing, ASCII lower-casing and substring search.
 */
module Text {
  import opened Wrappers

  /** `if (acc.Len() > 0) acc += sep; acc += x;` */
  function AppendSep(acc: string, sep: string, x: string): string
  {
    if |acc| > 0 then acc + sep + x else acc + x
  }

  /** Repeated AppendSep, left to right, starting from `acc`. */
  function SepFold(acc: string, sep: string, xs: seq<string>): string
    decreases |xs|
  {
    if |xs| == 0 then acc
    else AppendSep(SepFold(acc, sep, xs[..|xs| - 1]), sep, xs[|xs| - 1])
  }

  /** Folding one more element appends it after the fold of the others. */
  lemma SepFoldSnoc(acc: string, sep: string, xs: seq<string>, x: string)
    ensures SepFold(acc, sep, xs + [x]) == AppendSep(SepFold(acc, sep, xs), sep, x)
  {
    assert (xs + [x])[..|xs|] == xs;
  }

  /** The elements of `xs` with `sep` between consecutive ones. */
  function Join(sep: string, xs: seq<string>): string
    decreases |xs|
  {
    if |xs| == 0 then ""
    else if |xs| == 1 then xs[0]
    else Join(sep, xs[..|xs| - 1]) + sep + xs[|xs| - 1]
  }

  /** `xs` without its leading empty strings. */
  function DropLeadingEmpty(xs: seq<string>): (r: seq<string>)
    ensures r == [] || r[0] != ""
    ensures |r| <= |xs| && r == xs[|xs| - |r|..]
  {
    if |xs| > 0 && xs[0] == "" then DropLeadingEmpty(xs[1..]) else xs
  }

  lemma {:induction false} JoinCons(sep: string, x: string, xs: seq<string>)
    ensures Join(sep, [x] + xs) == if xs == [] then x else x + sep + Join(sep, xs)
    decreases |xs|
  {
    if |xs| > 1 {
      var init := xs[..|xs| - 1];
      assert ([x] + xs)[..|xs|] == [x] + init;
      JoinCons(sep, x, init);
    } else if |xs| == 1 {
      assert ([x] + xs)[..1] == [x];
    }
  }

  lemma {:induction false} SepFoldNonEmpty(acc: string, sep: string, xs: seq<string>)
    requires acc != ""
    ensures SepFold(acc, sep, xs) != ""
    decreases |xs|
  {
    if |xs| > 0 { SepFoldNonEmpty(acc, sep, xs[..|xs| - 1]); }
  }

  /** Once something has been written, the accumulator is exactly a join. */
  lemma {:induction false} SepFoldFrom(acc: string, sep: string, xs: seq<string>)
    requires acc != ""
    ensures SepFold(acc, sep, xs) == Join(sep, [acc] + xs)
    decreases |xs|
  {
    if |xs| > 0 {
      var init := xs[..|xs| - 1];
      var whole := [acc] + xs;
      SepFoldFrom(acc, sep, init);
      SepFoldNonEmpty(acc, sep, init);
      assert whole[..|whole| - 1] == [acc] + init;
      assert whole[|whole| - 1] == xs[|xs| - 1];
      calc {
        SepFold(acc, sep, xs);
        AppendSep(SepFold(acc, sep, init), sep, xs[|xs| - 1]);
        SepFold(acc, sep, init) + sep + xs[|xs| - 1];
        Join(sep, [acc] + init) + sep + xs[|xs| - 1];
        Join(sep, whole);
      }
    } else {
      assert [acc] + xs == [acc];
    }
  }

  lemma {:induction false} SepFoldHead(acc: string, sep: string, x: string, ys: seq<string>)
    ensures SepFold(acc, sep, [x] + ys) == SepFold(AppendSep(acc, sep, x), sep, ys)
    decreases |ys|
  {
    if |ys| > 0 {
      var init := ys[..|ys| - 1];
      assert ([x] + ys)[..|ys|] == [x] + init;
      SepFoldHead(acc, sep, x, init);
    } else {
      assert ([x] + ys)[..0] == [];
    }
  }

  /**
   * Starting from nothing, the accumulator is the join of the elements,
   * except that leading empty strings produce no separator.
   */
  lemma {:induction false} SepFoldIsJoin(sep: string, xs: seq<string>)
    ensures SepFold("", sep, xs) == Join(sep, DropLeadingEmpty(xs))
    decreases |xs|
  {
    if |xs| > 0 {
      assert xs == [xs[0]] + xs[1..];
      SepFoldHead("", sep, xs[0], xs[1..]);
      if xs[0] == "" {
        assert AppendSep("", sep, xs[0]) == "";
        SepFoldIsJoin(sep, xs[1..]);
        assert DropLeadingEmpty(xs) == DropLeadingEmpty(xs[1..]);
      } else {
        assert AppendSep("", sep, xs[0]) == xs[0];
        SepFoldFrom(xs[0], sep, xs[1..]);
        assert DropLeadingEmpty(xs) == xs;
      }
    }
  }

  /** Appending to a join of non-empty strings extends the join. */
  lemma JoinSnoc(sep: string, xs: seq<string>, x: string)
    requires forall i :: 0 <= i < |xs| ==> xs[i] != ""
    ensures AppendSep(Join(sep, xs), sep, x) == Join(sep, xs + [x])
  {
    if |xs| == 0 {
      assert xs + [x] == [x];
    } else {
      assert (xs + [x])[..|xs|] == xs;
      assert |Join(sep, xs)| >= |xs[|xs| - 1]|;
    }
  }

  // ---------------------------------------------------------------- tokens

  /** A piece FString::ParseIntoArray keeps: non-empty and free of the separator. */
  predicate IsPiece(t: string, sep: char)
  {
    |t| > 0 && sep !in t
  }

  /** FString::ParseIntoArray(parsed, sep, true): split at `sep`, cull empty pieces. */
  function Split(s: string, sep: char): (ts: seq<string>)
    ensures forall i :: 0 <= i < |ts| ==> IsPiece(ts[i], sep)
  {
    PiecesFrom(s, sep, "")
  }

  function PiecesFrom(s: string, sep: char, cur: string): (ts: seq<string>)
    requires sep !in cur
    ensures forall i :: 0 <= i < |ts| ==> IsPiece(ts[i], sep)
    decreases |s|
  {
    if |s| == 0 then (if |cur| == 0 then [] else [cur])
    else if s[0] == sep then (if |cur| == 0 then [] else [cur]) + PiecesFrom(s[1..], sep, "")
    else PiecesFrom(s[1..], sep, cur + [s[0]])
  }

  /** The space tokenising every command parser starts with. */
  function Tokenize(s: string): (ts: seq<string>)
    ensures forall i :: 0 <= i < |ts| ==> IsPiece(ts[i], ' ')
  {
    Split(s, ' ')
  }

  lemma {:induction false} PiecesFromWord(w: string, rest: string, sep: char, cur: string)
    requires sep !in cur && sep !in w
    ensures PiecesFrom(w + rest, sep, cur) == PiecesFrom(rest, sep, cur + w)
    decreases |w|
  {
    if |w| > 0 {
      assert (w + rest)[0] == w[0];
      assert (w + rest)[1..] == w[1..] + rest;
      assert cur + [w[0]] + w[1..] == cur + w;
      PiecesFromWord(w[1..], rest, sep, cur + [w[0]]);
    } else {
      assert w + rest == rest;
      assert cur + w == cur;
    }
  }

  /** Splitting undoes joining with the separator. */
  lemma {:induction false} SplitJoin(sep: char, ts: seq<string>)
    requires forall i :: 0 <= i < |ts| ==> IsPiece(ts[i], sep)
    ensures Split(Join([sep], ts), sep) == ts
    decreases |ts|
  {
    if |ts| > 0 {
      var rest := ts[1..];
      assert ts == [ts[0]] + rest;
      JoinCons([sep], ts[0], rest);
      if rest == [] {
        assert Join([sep], ts) == ts[0] + "";
        PiecesFromWord(ts[0], "", sep, "");
        assert "" + ts[0] == ts[0];
      } else {
        var tail := Join([sep], rest);
        assert Join([sep], ts) == ts[0] + ([sep] + tail);
        PiecesFromWord(ts[0], [sep] + tail, sep, "");
        assert ([sep] + tail)[0] == sep && ([sep] + tail)[1..] == tail;
        assert "" + ts[0] == ts[0];
        SplitJoin(sep, rest);
        assert PiecesFrom([sep] + tail, sep, ts[0]) == [ts[0]] + PiecesFrom(tail, sep, "");
      }
    }
  }

  /** Tokenising undoes joining with single spaces. */
  lemma TokenizeJoin(ts: seq<string>)
    requires forall i :: 0 <= i < |ts| ==> IsPiece(ts[i], ' ')
    ensures Tokenize(Join(" ", ts)) == ts
  {
    SplitJoin(' ', ts);
  }

  /** Any run of separators separates pieces like a single one does. */
  lemma {:induction false} SplitLeadingSeparator(s: string, sep: char)
    ensures Split([sep] + s, sep) == Split(s, sep)
  {
    assert ([sep] + s)[1..] == s;
  }

  // ---------------------------------------------------------------- numbers

  predicate IsDigit(c: char)
  {
    '0' <= c <= '9'
  }

  predicate AllDigits(s: string)
  {
    forall i :: 0 <= i < |s| ==> IsDigit(s[i])
  }

  function DigitChar(d: nat): (c: char)
    requires d < 10
    ensures IsDigit(c) && c as int - '0' as int == d
  {
    (48 + d) as char
  }

  /** Decimal rendering of a natural number, without leading zeros. */
  function NatToString(n: nat): (s: string)
    ensures |s| > 0 && AllDigits(s)
    ensures |s| > 1 ==> s[0] != '0'
  {
    if n < 10 then [DigitChar(n)] else NatToString(n / 10) + [DigitChar(n % 10)]
  }

  function DigitsValue(s: string): nat
    requires AllDigits(s)
  {
    if |s| == 0 then 0
    else 10 * DigitsValue(s[..|s| - 1]) + (s[|s| - 1] as int - '0' as int)
  }

  /** A non-empty run of decimal digits, as std::stoull accepts it in the model. */
  function ParseNat(s: string): (r: Option<nat>)
    ensures r.Some? <==> |s| > 0 && AllDigits(s)
  {
    if |s| > 0 && AllDigits(s) then Some(DigitsValue(s)) else None
  }

  /** An optionally signed run of decimal digits. */
  function ParseInt(s: string): (r: Option<int>)
    ensures |s| > 0 && AllDigits(s) ==> r == Some(DigitsValue(s))
    ensures r.Some? ==> |s| > 0
  {
    if |s| > 0 && (s[0] == '-' || s[0] == '+') then
      match ParseNat(s[1..])
      case Some(v) => var i: int := if s[0] == '-' then -(v as int) else v; Some(i)
      case None => None
    else
      match ParseNat(s)
      case Some(v) => var i: int := v; Some(i)
      case None => None
  }

  lemma {:induction false} ParseNatRoundTrip(n: nat)
    ensures ParseNat(NatToString(n)) == Some(n)
  {
    var s := NatToString(n);
    if n >= 10 {
      ParseNatRoundTrip(n / 10);
      assert s[..|s| - 1] == NatToString(n / 10);
      assert s[|s| - 1] == DigitChar(n % 10);
      assert DigitsValue(s) == 10 * (n / 10) + n % 10;
    } else {
      assert s[..0] == [];
    }
  }

  lemma ParseIntNegative(n: nat)
    ensures ParseInt("-" + NatToString(n)) == Some(-(n as int))
  {
    ParseNatRoundTrip(n);
    assert ("-" + NatToString(n))[1..] == NatToString(n);
  }

  /** Decimal rendering of an integer, with a leading '-' when negative. */
  function IntToString(i: int): (s: string)
    ensures |s| > 0 && ' ' !in s
  {
    DigitsNoSpace(NatToString(if i < 0 then -i else i));
    if i < 0 then "-" + NatToString(-i) else NatToString(i)
  }

  lemma DigitsNoSpace(s: string)
    requires AllDigits(s)
    ensures ' ' !in s
  {
    assert forall k :: 0 <= k < |s| ==> s[k] != ' ';
  }

  lemma ParseIntRoundTrip(i: int)
    ensures ParseInt(IntToString(i)) == Some(i)
  {
    if i < 0 {
      ParseIntNegative(-i);
    } else {
      ParseNatRoundTrip(i);
      assert IsDigit(NatToString(i)[0]);
    }
  }

  // ---------------------------------------------------------------- case and search

  /** ASCII lower-casing (towlower restricted to A-Z). */
  function Lower(c: char): char
  {
    if 'A' <= c <= 'Z' then (c as int + 32) as char else c
  }

  function LowerString(s: string): (r: string)
    ensures |r| == |s| && forall i :: 0 <= i < |s| ==> r[i] == Lower(s[i])
  {
    seq(|s|, i requires 0 <= i < |s| => Lower(s[i]))
  }

  ghost predicate OccursAt(hay: string, needle: string, k: int)
  {
    0 <= k && k + |needle| <= |hay| && hay[k..k + |needle|] == needle
  }

  /** std::wstring::find(needle, pos): the first occurrence at or after `pos`. */
  function FindFrom(hay: string, needle: string, pos: nat): (r: Option<nat>)
    ensures r.Some? ==> pos <= r.value && OccursAt(hay, needle, r.value)
    ensures r.Some? ==> forall k :: pos <= k < r.value ==> !OccursAt(hay, needle, k)
    ensures r.None? ==> forall k :: pos <= k ==> !OccursAt(hay, needle, k)
    decreases |hay| - pos
  {
    if pos + |needle| > |hay| then None
    else if hay[pos..pos + |needle|] == needle then Some(pos)
    else FindFrom(hay, needle, pos + 1)
  }
}
