/**
 * Character and string operations the engine borrows from its string
 * library: whitespace classification, trimming, simplification, search,
 * pair replacement, splitting on a separator, joining, lower-casing and
 * decimal formatting of integers.
 */
module Strings {

  datatype Option<T> = None | Some(value: T)

  /** The characters for which a character's isSpace() holds: the separator
      categories plus the controls tab, line feed, vertical tab, form feed,
      carriage return and next-line. */
  predicate IsSpace(c: char) {
    || ('\t' <= c <= '\r')
    || c == ' '
    || c == '\U{85}'
    || c == '\U{A0}'
    || c == '\U{1680}'
    || ('\U{2000}' <= c <= '\U{200A}')
    || c == '\U{2028}'
    || c == '\U{2029}'
    || c == '\U{202F}'
    || c == '\U{205F}'
    || c == '\U{3000}'
  }

  predicate NoSpace(s: string) {
    forall i :: 0 <= i < |s| ==> !IsSpace(s[i])
  }

  // ---------------------------------------------------------------------
  // Trimming and simplification
  // ---------------------------------------------------------------------

  /** Drops leading whitespace. */
  function TrimStart(s: string): (r: string)
    ensures |r| <= |s| && r == s[|s| - |r|..]
    ensures r == [] || !IsSpace(r[0])
    ensures forall i :: 0 <= i < |s| - |r| ==> IsSpace(s[i])
  {
    if s != [] && IsSpace(s[0]) then
      var r := TrimStart(s[1..]);
      assert s[1..][|s| - 1 - |r|..] == s[|s| - |r|..];
      assert forall i :: 1 <= i < |s| - |r| ==> s[i] == s[1..][i - 1];
      r
    else s
  }

  /** Drops trailing whitespace. */
  function TrimEnd(s: string): (r: string)
    ensures |r| <= |s| && r == s[..|r|]
    ensures r == [] || !IsSpace(r[|r| - 1])
    ensures forall i :: |r| <= i < |s| ==> IsSpace(s[i])
  {
    if s != [] && IsSpace(s[|s| - 1]) then
      var r := TrimEnd(s[..|s| - 1]);
      assert s[..|s| - 1][..|r|] == s[..|r|];
      assert forall i :: |r| <= i < |s| - 1 ==> s[i] == s[..|s| - 1][i];
      r
    else s
  }

  /** trimmed(): whitespace removed from both ends. */
  function Trim(s: string): (r: string)
    ensures |r| <= |s|
    ensures r == [] || (!IsSpace(r[0]) && !IsSpace(r[|r| - 1]))
  {
    TrimEnd(TrimStart(s))
  }

  /** A string with no whitespace at all trims to itself. */
  lemma TrimNoSpace(s: string)
    requires NoSpace(s)
    ensures Trim(s) == s
  {
  }

  /** Trimming only removes characters. */
  lemma TrimLacks(s: string, c: char)
    requires c !in s
    ensures c !in Trim(s)
  {
    var t := TrimStart(s);
    assert forall x :: x in t ==> x in s;
    var r := TrimEnd(t);
    assert forall x :: x in r ==> x in t;
  }

  /** Every whitespace character becomes one space, runs collapse to one. */
  function CollapseSpaces(s: string): string
    decreases |s|
  {
    if s == [] then []
    else if IsSpace(s[0]) then
      (if |s| > 1 && IsSpace(s[1]) then CollapseSpaces(s[1..]) else [' '] + CollapseSpaces(s[1..]))
    else [s[0]] + CollapseSpaces(s[1..])
  }

  /** simplified(): trimmed, then each internal run of whitespace replaced by one space. */
  function Simplified(s: string): string {
    CollapseSpaces(Trim(s))
  }

  /** The characters of s that are not whitespace, in order. */
  function RemoveSpaces(s: string): (r: string)
    ensures NoSpace(r)
    ensures |r| <= |s|
  {
    if s == [] then []
    else if IsSpace(s[0]) then RemoveSpaces(s[1..])
    else [s[0]] + RemoveSpaces(s[1..])
  }

  lemma RemoveSpacesAppend(a: string, b: string)
    ensures RemoveSpaces(a + b) == RemoveSpaces(a) + RemoveSpaces(b)
  {
    if a != [] {
      assert (a + b)[1..] == a[1..] + b;
      RemoveSpacesAppend(a[1..], b);
    } else {
      assert a + b == b;
    }
  }

  lemma {:induction false} RemoveSpacesOfNoSpace(s: string)
    requires NoSpace(s)
    ensures RemoveSpaces(s) == s
  {
    if s != [] {
      RemoveSpacesOfNoSpace(s[1..]);
    }
  }

  lemma {:induction false} RemoveSpacesOfSpaces(s: string)
    requires forall i :: 0 <= i < |s| ==> IsSpace(s[i])
    ensures RemoveSpaces(s) == []
  {
    if s != [] {
      RemoveSpacesOfSpaces(s[1..]);
    }
  }

  lemma {:induction false} CollapseKeepsNonSpaces(s: string)
    ensures RemoveSpaces(CollapseSpaces(s)) == RemoveSpaces(s)
    ensures CollapseSpaces(s) == [] <==> s == []
  {
    if s != [] {
      CollapseKeepsNonSpaces(s[1..]);
      if IsSpace(s[0]) && !(|s| > 1 && IsSpace(s[1])) {
        RemoveSpacesAppend([' '], CollapseSpaces(s[1..]));
      }
    }
  }

  lemma {:induction false} TrimStartKeepsNonSpaces(s: string)
    ensures RemoveSpaces(TrimStart(s)) == RemoveSpaces(s)
  {
    if s != [] && IsSpace(s[0]) {
      TrimStartKeepsNonSpaces(s[1..]);
    }
  }

  lemma {:induction false} TrimEndKeepsNonSpaces(s: string)
    ensures RemoveSpaces(TrimEnd(s)) == RemoveSpaces(s)
    decreases |s|
  {
    if s != [] && IsSpace(s[|s| - 1]) {
      var p := s[..|s| - 1];
      TrimEndKeepsNonSpaces(p);
      assert s == p + [s[|s| - 1]];
      RemoveSpacesAppend(p, [s[|s| - 1]]);
      assert RemoveSpaces([s[|s| - 1]]) == [];
    }
  }

  /** Trimming removes only whitespace, and leaves nothing exactly when
      the input is all whitespace. */
  lemma TrimKeepsNonSpaces(s: string)
    ensures RemoveSpaces(Trim(s)) == RemoveSpaces(s)
    ensures Trim(s) == [] <==> RemoveSpaces(s) == []
  {
    TrimStartKeepsNonSpaces(s);
    TrimEndKeepsNonSpaces(TrimStart(s));
    var r := Trim(s);
    if r != [] {
      assert RemoveSpaces(r) == [r[0]] + RemoveSpaces(r[1..]);
    }
  }

  /** Simplification neither loses nor adds a non-space character, and is
      empty exactly when the input is all whitespace. */
  lemma SimplifiedKeepsNonSpaces(s: string)
    ensures RemoveSpaces(Simplified(s)) == RemoveSpaces(s)
    ensures Simplified(s) == [] <==> RemoveSpaces(s) == []
  {
    TrimKeepsNonSpaces(s);
    CollapseKeepsNonSpaces(Trim(s));
  }

  // ---------------------------------------------------------------------
  // Searching
  // ---------------------------------------------------------------------

  /** Position of the first occurrence of c in s, if any. */
  function IndexOf(s: string, c: char): (r: Option<nat>)
    ensures r.None? ==> c !in s
    ensures r.Some? ==> r.value < |s| && s[r.value] == c && c !in s[..r.value]
  {
    if s == [] then None
    else if s[0] == c then Some(0)
    else match IndexOf(s[1..], c)
      case None => None
      case Some(i) => Some(i + 1)
  }

  /** The first occurrence is determined by where c is and where it is not. */
  /** A prefix one character longer. */
  lemma PrefixStep(s: string, i: nat)
    requires i < |s|
    ensures s[..i + 1] == s[..i] + [s[i]]
  {
  }

  lemma IndexOfAt(s: string, c: char, k: nat)
    requires k < |s| && s[k] == c && c !in s[..k]
    ensures IndexOf(s, c) == Some(k)
  {
    var r := IndexOf(s, c);
    assert s[k] in s;
    forall j | 0 <= j < k ensures s[j] != c {
      assert s[..k][j] == s[j];
    }
    forall j | 0 <= j < r.value ensures s[j] != c {
      assert s[..r.value][j] == s[j];
    }
  }

  predicate StartsWith(s: string, prefix: string) {
    |prefix| <= |s| && s[..|prefix|] == prefix
  }

  predicate EndsWith(s: string, suffix: string) {
    |suffix| <= |s| && s[|s| - |suffix|..] == suffix
  }

  // ---------------------------------------------------------------------
  // Replacing a doubled character
  // ---------------------------------------------------------------------

  /** True when s never holds c twice in a row. */
  predicate PairFree(s: string, c: char) {
    forall i :: 0 <= i < |s| - 1 ==> !(s[i] == c && s[i + 1] == c)
  }

  /** replace(cc, d): every occurrence of the two-character string cc,
      scanned left to right without overlap, becomes d. */
  function ReplacePair(s: string, c: char, d: char): string
    decreases |s|
  {
    if s == [] then []
    else if |s| >= 2 && s[0] == c && s[1] == c then [d] + ReplacePair(s[2..], c, d)
    else [s[0]] + ReplacePair(s[1..], c, d)
  }

  lemma PairFreeCons(x: char, t: string, c: char)
    requires PairFree(t, c)
    requires t == [] || x != c || t[0] != c
    ensures PairFree([x] + t, c)
  {
    var s := [x] + t;
    forall i | 0 <= i < |s| - 1 ensures !(s[i] == c && s[i + 1] == c) {
      if i > 0 {
        assert s[i] == t[i - 1] && s[i + 1] == t[(i - 1) + 1];
      }
    }
  }

  lemma PairFreeTail(s: string, k: nat, c: char)
    requires k <= |s| && PairFree(s, c)
    ensures PairFree(s[k..], c)
  {
    var t := s[k..];
    forall i | 0 <= i < |t| - 1 ensures !(t[i] == c && t[i + 1] == c) {
      assert t[i] == s[k + i] && t[i + 1] == s[(k + i) + 1];
    }
  }

  /** Without a pair there is nothing to replace. */
  lemma {:induction false} ReplacePairAbsent(s: string, c: char, d: char)
    requires PairFree(s, c)
    ensures ReplacePair(s, c, d) == s
    decreases |s|
  {
    if s != [] {
      if |s| >= 2 {
        assert !(s[0] == c && s[0 + 1] == c);
      }
      PairFreeTail(s, 1, c);
      ReplacePairAbsent(s[1..], c, d);
    }
  }

  /** After the replacement no pair of c is left, provided d differs from c. */
  lemma {:induction false} ReplacePairRemoves(s: string, c: char, d: char)
    requires c != d
    ensures PairFree(ReplacePair(s, c, d), c)
    decreases |s|
  {
    if s != [] {
      if |s| >= 2 && s[0] == c && s[1] == c {
        ReplacePairRemoves(s[2..], c, d);
        PairFreeCons(d, ReplacePair(s[2..], c, d), c);
      } else {
        ReplacePairRemoves(s[1..], c, d);
        var t := ReplacePair(s[1..], c, d);
        if |s| >= 2 && s[0] == c {
          assert s[1] != c;
          assert t[0] == s[1];
        }
        PairFreeCons(s[0], t, c);
      }
    }
  }

  /** Replacing pairs of one character never creates a pair of another. */
  lemma {:induction false} ReplacePairKeeps(s: string, c: char, d: char, e: char)
    requires e != c && e != d
    requires PairFree(s, e)
    ensures PairFree(ReplacePair(s, c, d), e)
    decreases |s|
  {
    if s != [] {
      if |s| >= 2 && s[0] == c && s[1] == c {
        PairFreeTail(s, 2, e);
        ReplacePairKeeps(s[2..], c, d, e);
        PairFreeCons(d, ReplacePair(s[2..], c, d), e);
      } else {
        PairFreeTail(s, 1, e);
        ReplacePairKeeps(s[1..], c, d, e);
        var t := ReplacePair(s[1..], c, d);
        if |s| >= 2 && s[0] == e {
          assert !(s[0] == e && s[0 + 1] == e);
          if |s| >= 3 && s[1] == c && s[2] == c {
            assert t[0] == d;
          } else {
            assert t[0] == s[1];
          }
        }
        PairFreeCons(s[0], t, e);
      }
    }
  }

  // ---------------------------------------------------------------------
  // Splitting and joining on a separator
  // ---------------------------------------------------------------------

  /** The state of a left-to-right split: the pieces closed by a separator
      so far and the piece still open. */
  datatype Pieces = Pieces(closed: seq<string>, open: string)

  /** Split state after reading p: every separator closes the open piece,
      even an empty one. */
  function SplitState(p: string, sep: char): Pieces
    decreases |p|
  {
    if p == [] then Pieces([], [])
    else
      var st := SplitState(p[..|p| - 1], sep);
      if p[|p| - 1] == sep then Pieces(st.closed + [st.open], [])
      else Pieces(st.closed, st.open + [p[|p| - 1]])
  }

  /** Pieces of s between separators; a final empty piece is dropped. */
  function Split(s: string, sep: char): seq<string> {
    var st := SplitState(s, sep);
    if st.open != [] then st.closed + [st.open] else st.closed
  }

  /** The pieces of xs with sep between consecutive ones. */
  function Join(xs: seq<string>, sep: char): string
    decreases |xs|
  {
    if |xs| == 0 then []
    else if |xs| == 1 then xs[0]
    else Join(xs[..|xs| - 1], sep) + [sep] + xs[|xs| - 1]
  }

  /** The concatenation of xs. */
  function Concat(xs: seq<string>): string
    decreases |xs|
  {
    if xs == [] then [] else Concat(xs[..|xs| - 1]) + xs[|xs| - 1]
  }

  predicate SepFree(xs: seq<string>, sep: char) {
    forall i :: 0 <= i < |xs| ==> sep !in xs[i]
  }

  /** The split state loses nothing: rejoining the pieces gives back the
      text read, and no piece holds a separator. */
  lemma {:induction false} SplitStateJoin(p: string, sep: char)
    ensures var st := SplitState(p, sep);
      Join(st.closed + [st.open], sep) == p && SepFree(st.closed + [st.open], sep)
  {
    if p != [] {
      var q := p[..|p| - 1];
      var st := SplitState(q, sep);
      SplitStateJoin(q, sep);
      if p[|p| - 1] == sep {
        JoinClose(st.closed, st.open, q, sep);
      } else {
        JoinExtend(st.closed, st.open, q, p[|p| - 1], sep);
      }
      assert p == q + [p[|p| - 1]];
    }
  }

  /** A separator closes the open piece and opens an empty one. */
  lemma JoinClose(closed: seq<string>, open: string, q: string, sep: char)
    requires Join(closed + [open], sep) == q && SepFree(closed + [open], sep)
    ensures Join(closed + [open] + [[]], sep) == q + [sep]
    ensures SepFree(closed + [open] + [[]], sep)
  {
    var xs := closed + [open];
    var ys := xs + [[]];
    assert ys[..|ys| - 1] == xs;
    assert Join(ys, sep) == Join(xs, sep) + [sep] + [];
  }

  /** Any other character extends the open piece. */
  lemma JoinExtend(closed: seq<string>, open: string, q: string, c: char, sep: char)
    requires c != sep
    requires Join(closed + [open], sep) == q && SepFree(closed + [open], sep)
    ensures Join(closed + [open + [c]], sep) == q + [c]
    ensures SepFree(closed + [open + [c]], sep)
  {
    var xs := closed + [open];
    var ys := closed + [open + [c]];
    if |closed| == 0 {
      assert xs == [open] && ys == [open + [c]];
    } else {
      assert ys[..|ys| - 1] == closed && xs[..|xs| - 1] == closed;
      assert Join(ys, sep) == Join(closed, sep) + [sep] + (open + [c]);
      assert Join(xs, sep) == Join(closed, sep) + [sep] + open;
    }
    assert forall i :: 0 <= i < |ys| - 1 ==> ys[i] == xs[i];
    assert xs[|xs| - 1] == open;
  }

  /** Reading text without a separator only extends the open piece. */
  lemma {:induction false} SplitStateAppend(a: string, b: string, sep: char)
    requires sep !in b
    ensures SplitState(a + b, sep) == Pieces(SplitState(a, sep).closed, SplitState(a, sep).open + b)
    decreases |b|
  {
    if b != [] {
      var b' := b[..|b| - 1];
      assert (a + b)[..|a + b| - 1] == a + b';
      assert sep !in b' by { assert forall x :: x in b' ==> x in b; }
      SplitStateAppend(a, b', sep);
      assert (a + b)[|a + b| - 1] == b[|b| - 1];
      assert b == b' + [b[|b| - 1]];
    } else {
      assert a + b == a;
    }
  }

  /** A separator closes the open piece. */
  lemma SplitStateSep(a: string, sep: char)
    ensures SplitState(a + [sep], sep) == Pieces(SplitState(a, sep).closed + [SplitState(a, sep).open], [])
  {
    assert (a + [sep])[..|a + [sep]| - 1] == a;
  }

  /** Splitting a joined list gives the list back, when no piece holds the
      separator and the last piece is not empty. */
  lemma {:induction false} SplitJoin(xs: seq<string>, sep: char)
    requires |xs| > 0 && SepFree(xs, sep) && xs[|xs| - 1] != []
    ensures Split(Join(xs, sep), sep) == xs
  {
    JoinState(xs, sep);
    assert xs[..|xs| - 1] + [xs[|xs| - 1]] == xs;
  }

  lemma {:induction false} JoinState(xs: seq<string>, sep: char)
    requires |xs| > 0 && SepFree(xs, sep)
    ensures SplitState(Join(xs, sep), sep) == Pieces(xs[..|xs| - 1], xs[|xs| - 1])
    decreases |xs|
  {
    if |xs| == 1 {
      SplitStateAppend([], xs[0], sep);
      assert [] + xs[0] == xs[0];
    } else {
      var init := xs[..|xs| - 1];
      var last := xs[|xs| - 1];
      assert SepFree(init, sep) by {
        forall i | 0 <= i < |init| ensures sep !in init[i] { assert init[i] == xs[i]; }
      }
      JoinState(init, sep);
      SplitStateSep(Join(init, sep), sep);
      SplitStateAppend(Join(init, sep) + [sep], last, sep);
      assert init[..|init| - 1] + [init[|init| - 1]] == init;
      assert [] + last == last;
    }
  }

  /** Joining the pieces of s gives s back, unless s ends in the separator,
      whose final empty piece was dropped. */
  lemma JoinSplit(s: string, sep: char)
    ensures s == [] || s[|s| - 1] != sep ==> Join(Split(s, sep), sep) == s
    ensures s != [] && s[|s| - 1] == sep ==> Join(Split(s, sep), sep) + [sep] == s
    ensures SepFree(Split(s, sep), sep)
  {
    SplitStateJoin(s, sep);
    var st := SplitState(s, sep);
    var xs := st.closed + [st.open];
    assert forall i :: 0 <= i < |st.closed| ==> st.closed[i] == xs[i];
    if s != [] && s[|s| - 1] != sep {
      assert st.open != [];
    }
    if s != [] && s[|s| - 1] == sep {
      var q := s[..|s| - 1];
      {
        SplitStateJoin(q, sep);
        var sq := SplitState(q, sep);
        assert st.closed == sq.closed + [sq.open];
        assert Join(st.closed, sep) == q;
        assert s == q + [sep];
      }
    }
  }

  /** Text without a separator is at most one piece. */
  lemma SplitWithoutSep(s: string, sep: char)
    requires sep !in s
    ensures Split(s, sep) == if s == [] then [] else [s]
  {
    SplitStateAppend([], s, sep);
    assert [] + s == s;
  }

  /** Every piece of a text that lacks c lacks c too. */
  lemma {:induction false} SplitStateLacks(p: string, sep: char, c: char)
    requires c !in p
    ensures c !in SplitState(p, sep).open
    ensures forall i :: 0 <= i < |SplitState(p, sep).closed| ==> c !in SplitState(p, sep).closed[i]
    decreases |p|
  {
    if p != [] {
      assert forall x :: x in p[..|p| - 1] ==> x in p;
      SplitStateLacks(p[..|p| - 1], sep, c);
    }
  }

  // ---------------------------------------------------------------------
  // Lower case and number formatting
  // ---------------------------------------------------------------------

  function LowerChar(c: char): char {
    if 'A' <= c <= 'Z' then (c as int + 32) as char else c
  }

  /** toLower() on the ASCII letters. */
  function ToLower(s: string): (r: string)
    ensures |r| == |s| && forall i :: 0 <= i < |s| ==> r[i] == LowerChar(s[i])
  {
    seq(|s|, i requires 0 <= i < |s| => LowerChar(s[i]))
  }

  function DigitChar(d: nat): (c: char)
    requires d < 10
    ensures '0' <= c <= '9'
  {
    ('0' as int + d) as char
  }

  /** Decimal digits of n, most significant first, no leading zeros. */
  function NatText(n: nat): (r: string)
    ensures |r| >= 1 && forall i :: 0 <= i < |r| ==> '0' <= r[i] <= '9'
    ensures n >= 10 ==> |r| >= 2
    decreases n
  {
    if n < 10 then [DigitChar(n)] else NatText(n / 10) + [DigitChar(n % 10)]
  }

  /** number(n) for an integer: optional minus sign and decimal digits. */
  function NumberText(n: int): string {
    if n < 0 then "-" + NatText(-n) else NatText(n)
  }

  /** Different numbers print differently. */
  lemma {:induction false} NatTextInjective(a: nat, b: nat)
    requires NatText(a) == NatText(b)
    ensures a == b
    decreases a
  {
    var ta, tb := NatText(a), NatText(b);
    if a < 10 && b < 10 {
      assert ta[0] == tb[0];
    } else if a >= 10 && b >= 10 {
      assert ta[|ta| - 1] == tb[|tb| - 1];
      assert a % 10 == b % 10;
      assert NatText(a / 10) == ta[..|ta| - 1] == tb[..|tb| - 1] == NatText(b / 10);
      NatTextInjective(a / 10, b / 10);
    }
  }
}
