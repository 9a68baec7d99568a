/**
 * Parsing of the comma-separated token list that the `/update_tokens` form
 * submits: split on ',', strip each piece, drop the pieces that are blank.
 * `Split` and `Strip` follow Python's `str.split(",")` and `str.strip()`.
 */
module TokenList {

  /** Python's `str.isspace()` for a single character. */
  predicate IsSpace(c: char)
  {
    c == ' ' || '\t' <= c <= '\r' || '\U{1C}' <= c <= '\U{1F}'
    || c == '\U{85}' || c == '\U{A0}' || c == '\U{1680}'
    || '\U{2000}' <= c <= '\U{200A}' || c == '\U{2028}' || c == '\U{2029}'
    || c == '\U{202F}' || c == '\U{205F}' || c == '\U{3000}'
  }

  predicate AllSpace(s: string) { forall k :: 0 <= k < |s| ==> IsSpace(s[k]) }

  /** Non-empty, and neither its first nor its last character is whitespace. */
  predicate Trimmed(t: string) { t != [] && !IsSpace(t[0]) && !IsSpace(t[|t| - 1]) }

  /** No piece of `ps` contains the character `c`. */
  predicate NoneContains(ps: seq<string>, c: char) { forall i :: 0 <= i < |ps| ==> c !in ps[i] }

  /** The pieces joined back together with `sep` between neighbours (Python's `sep.join`). */
  function Join(ps: seq<string>, sep: char): string
  {
    if |ps| == 0 then "" else if |ps| == 1 then ps[0] else ps[0] + [sep] + Join(ps[1..], sep)
  }

  /**
   * Python's `s.split(sep)`: at least one piece, and no piece contains `sep`
   * (the pieces join back to `s`: `JoinSplit`).
   */
  function Split(s: string, sep: char): (r: seq<string>)
    ensures |r| >= 1
    ensures NoneContains(r, sep)
  {
    if |s| == 0 then [""]
    else
      var rest := Split(s[1..], sep);
      if s[0] == sep then [""] + rest else [[s[0]] + rest[0]] + rest[1..]
  }

  /** Joining the pieces of a split with the separator gives back the string. */
  lemma {:induction false} JoinSplit(s: string, sep: char)
    ensures Join(Split(s, sep), sep) == s
  {
    if |s| > 0 {
      var rest := Split(s[1..], sep);
      JoinSplit(s[1..], sep);
      if s[0] == sep {
        assert Split(s, sep) == [""] + rest;
        assert ([""] + rest)[1..] == rest;
      } else {
        var r := [[s[0]] + rest[0]] + rest[1..];
        assert Split(s, sep) == r;
        assert r[1..] == rest[1..];
        if |rest| >= 2 {
          assert Join(rest, sep) == rest[0] + [sep] + Join(rest[1..], sep);
        }
      }
    }
  }

  /** How many whitespace characters `s` starts with (what `s.lstrip()` drops). */
  function LeadingSpace(s: string): (n: nat)
    ensures n <= |s|
    ensures forall k :: 0 <= k < n ==> IsSpace(s[k])
    ensures n < |s| ==> !IsSpace(s[n])
  {
    if |s| > 0 && IsSpace(s[0]) then 1 + LeadingSpace(s[1..]) else 0
  }

  /** How many whitespace characters `s` ends with (what `s.rstrip()` drops). */
  function TrailingSpace(s: string): (n: nat)
    ensures n <= |s|
    ensures forall k :: |s| - n <= k < |s| ==> IsSpace(s[k])
    ensures n < |s| ==> !IsSpace(s[|s| - 1 - n])
  {
    if |s| > 0 && IsSpace(s[|s| - 1]) then 1 + TrailingSpace(s[..|s| - 1]) else 0
  }

  /** `r` is the slice of `s` starting at `i`, and everything of `s` around it is whitespace. */
  predicate StripsTo(s: string, r: string, i: int)
  {
    0 <= i <= |s| - |r| && r == s[i..i + |r|] && AllSpace(s[..i]) && AllSpace(s[i + |r|..])
  }

  /** Python's `s.strip()`: empty, or trimmed (the full description is `StripCharacterized`). */
  function Strip(s: string): (r: string)
    ensures r == [] || Trimmed(r)
  {
    var t := s[LeadingSpace(s)..];
    t[..|t| - TrailingSpace(t)]
  }

  /** A string split in two all-whitespace halves is all whitespace. */
  lemma AllSpaceJoin(s: string, i: nat)
    requires i <= |s| && AllSpace(s[..i]) && AllSpace(s[i..])
    ensures AllSpace(s)
  {
    forall k | 0 <= k < |s| ensures IsSpace(s[k]) {
      if k < i {
        assert s[..i][k] == s[k];
      } else {
        assert s[i..][k - i] == s[k];
      }
    }
  }

  lemma LeadingSpaceIsSpace(s: string)
    ensures AllSpace(s[..LeadingSpace(s)])
  {
    var i := LeadingSpace(s);
    forall k | 0 <= k < i ensures IsSpace(s[..i][k]) {
      assert s[..i][k] == s[k];
    }
  }

  lemma TrailingSpaceIsSpace(t: string)
    ensures AllSpace(t[|t| - TrailingSpace(t)..])
  {
    var j := |t| - TrailingSpace(t);
    forall k | 0 <= k < |t| - j ensures IsSpace(t[j..][k]) {
      assert t[j..][k] == t[j + k];
    }
  }

  /** Cutting whitespace off both ends of `s` leaves a slice that `StripsTo` describes. */
  lemma SliceStrips(s: string, i: nat, j: nat)
    requires i <= |s| && j <= |s| - i
    requires AllSpace(s[..i]) && AllSpace(s[i..][j..])
    ensures StripsTo(s, s[i..][..j], i)
  {
    assert s[i..][..j] == s[i..i + j];
    assert s[i..][j..] == s[i + j..];
  }

  /** `Strip` keeps the slice that starts after the leading whitespace; only whitespace is around it. */
  lemma StripSlice(s: string)
    ensures StripsTo(s, Strip(s), LeadingSpace(s))
  {
    var i := LeadingSpace(s);
    var t := s[i..];
    LeadingSpaceIsSpace(s);
    TrailingSpaceIsSpace(t);
    var j := |t| - TrailingSpace(t);
    assert Strip(s) == t[..j];
    SliceStrips(s, i, j);
  }

  /**
   * `Strip` removes whitespace at both ends and nothing else: its result is a
   * slice of `s` with only whitespace around it, empty exactly when `s` is all
   * whitespace.
   */
  lemma StripCharacterized(s: string)
    ensures exists i :: StripsTo(s, Strip(s), i)
    ensures Strip(s) == [] <==> AllSpace(s)
  {
    var i := LeadingSpace(s);
    StripSlice(s);
    if Strip(s) == [] {
      AllSpaceJoin(s, i);
    } else {
      assert Strip(s)[0] == s[i] && !IsSpace(s[i]);
    }
  }

  /** Stripping never introduces a character. */
  lemma StripKeepsAbsent(s: string, c: char)
    requires c !in s
    ensures c !in Strip(s)
  {
    StripCharacterized(s);
    var i :| StripsTo(s, Strip(s), i);
  }

  /** The comprehension `[t.strip() for t in ps if t.strip()]`. */
  function KeepStripped(ps: seq<string>): seq<string>
  {
    if |ps| == 0 then []
    else
      var t := Strip(ps[0]);
      (if t != [] then [t] else []) + KeepStripped(ps[1..])
  }

  /** Every entry is trimmed. */
  predicate AllTrimmed(ts: seq<string>) { forall j :: 0 <= j < |ts| ==> Trimmed(ts[j]) }

  lemma AllTrimmedAppend(xs: seq<string>, ys: seq<string>)
    requires AllTrimmed(xs) && AllTrimmed(ys)
    ensures AllTrimmed(xs + ys)
  {
    forall j | 0 <= j < |xs + ys| ensures Trimmed((xs + ys)[j]) {
      if j >= |xs| {
        assert (xs + ys)[j] == ys[j - |xs|];
      }
    }
  }

  /** Every kept token is trimmed, and there are no more tokens than pieces. */
  lemma {:induction false} KeepStrippedTrimmed(ps: seq<string>)
    ensures |KeepStripped(ps)| <= |ps|
    ensures AllTrimmed(KeepStripped(ps))
  {
    if |ps| > 0 {
      var t := Strip(ps[0]);
      var front: seq<string> := if t != [] then [t] else [];
      KeepStrippedTrimmed(ps[1..]);
      AllTrimmedAppend(front, KeepStripped(ps[1..]));
    }
  }

  lemma {:induction false} KeepStrippedKeepsAbsent(ps: seq<string>, c: char)
    requires NoneContains(ps, c)
    ensures NoneContains(KeepStripped(ps), c)
  {
    if |ps| > 0 {
      StripKeepsAbsent(ps[0], c);
      KeepStrippedKeepsAbsent(ps[1..], c);
    }
  }

  /** The token list that `update_tokens` stores (dashboard.py line 245). */
  function ParseTokens(s: string): (r: seq<string>)
    ensures AllTrimmed(r) && NoneContains(r, ',')
  {
    KeepStrippedTrimmed(Split(s, ','));
    KeepStrippedKeepsAbsent(Split(s, ','), ',');
    KeepStripped(Split(s, ','))
  }

  lemma {:induction false} KeepStrippedAppend(xs: seq<string>, ys: seq<string>)
    ensures KeepStripped(xs + ys) == KeepStripped(xs) + KeepStripped(ys)
  {
    if |xs| > 0 {
      assert (xs + ys)[0] == xs[0];
      assert (xs + ys)[1..] == xs[1..] + ys;
      KeepStrippedAppend(xs[1..], ys);
      var t := Strip(xs[0]);
      var front := if t != [] then [t] else [];
      calc {
        KeepStripped(xs + ys);
        front + KeepStripped(xs[1..] + ys);
        front + (KeepStripped(xs[1..]) + KeepStripped(ys));
        (front + KeepStripped(xs[1..])) + KeepStripped(ys);
      }
    } else {
      assert xs + ys == ys;
    }
  }

  /** How one more leading character changes the pieces: a separator opens a new piece, anything else extends the first one. */
  function ConsPiece(c: char, r: seq<string>, sep: char): seq<string>
    requires |r| >= 1
  {
    if c == sep then [""] + r else [[c] + r[0]] + r[1..]
  }

  lemma SplitCons(c: char, t: string, sep: char)
    ensures Split([c] + t, sep) == ConsPiece(c, Split(t, sep), sep)
  {
    assert ([c] + t)[0] == c && ([c] + t)[1..] == t;
  }

  /** A leading character only touches the first piece, so it commutes with appending more pieces. */
  lemma ConsPieceAppend(c: char, ru: seq<string>, rb: seq<string>, sep: char)
    requires |ru| >= 1
    ensures ConsPiece(c, ru + rb, sep) == ConsPiece(c, ru, sep) + rb
  {
    if c != sep {
      assert (ru + rb)[0] == ru[0] && (ru + rb)[1..] == ru[1..] + rb;
    }
  }

  /** Splitting distributes over a separator: the pieces before it come first, in order. */
  lemma {:induction false} SplitAround(a: string, b: string, sep: char)
    ensures Split(a + [sep] + b, sep) == Split(a, sep) + Split(b, sep)
  {
    if |a| == 0 {
      assert a + [sep] + b == [sep] + b;
      SplitCons(sep, b, sep);
    } else {
      var c, u := a[0], a[1..];
      assert a == [c] + u;
      assert a + [sep] + b == [c] + (u + [sep] + b);
      SplitAround(u, b, sep);
      SplitCons(c, u + [sep] + b, sep);
      SplitCons(c, u, sep);
      ConsPieceAppend(c, Split(u, sep), Split(b, sep), sep);
    }
  }

  /** A piece without the separator splits to itself. */
  lemma {:induction false} SplitNoSeparator(a: string, sep: char)
    requires sep !in a
    ensures Split(a, sep) == [a]
  {
    if |a| > 0 {
      assert a[0] != sep && sep !in a[1..];
      SplitNoSeparator(a[1..], sep);
      assert [a[0]] + a[1..] == a;
    }
  }

  /** Split is the unique inverse of Join on separator-free pieces. */
  lemma {:induction false} SplitJoin(ps: seq<string>, sep: char)
    requires |ps| >= 1 && NoneContains(ps, sep)
    ensures Split(Join(ps, sep), sep) == ps
  {
    if |ps| == 1 {
      SplitNoSeparator(ps[0], sep);
    } else {
      SplitNoSeparator(ps[0], sep);
      SplitAround(ps[0], Join(ps[1..], sep), sep);
      SplitJoin(ps[1..], sep);
    }
  }

  /** Tokens keep their order: the tokens before a comma come before those after it. */
  lemma ParseTokensAround(a: string, b: string)
    ensures ParseTokens(a + "," + b) == ParseTokens(a) + ParseTokens(b)
  {
    SplitAround(a, b, ',');
    KeepStrippedAppend(Split(a, ','), Split(b, ','));
  }

  lemma StripTrimmed(t: string)
    requires Trimmed(t)
    ensures Strip(t) == t
  {
    assert LeadingSpace(t) == 0;
    assert TrailingSpace(t) == 0;
  }

  /** A trimmed comma-free token parses to itself alone. */
  lemma ParseSingleToken(t: string)
    requires Trimmed(t) && ',' !in t
    ensures ParseTokens(t) == [t]
  {
    SplitNoSeparator(t, ',');
    StripTrimmed(t);
    assert [t][1..] == [];
    assert KeepStripped([t]) == [t] + KeepStripped([]);
  }

  /** Writing a parsed list back out with commas and parsing it again gives the same list. */
  lemma {:induction false} ParseJoinedTokens(ts: seq<string>)
    requires AllTrimmed(ts) && NoneContains(ts, ',')
    ensures ParseTokens(Join(ts, ',')) == ts
  {
    if |ts| == 0 {
      assert Split("", ',') == [""];
      assert Strip("") == "";
    } else {
      assert Trimmed(ts[0]) && ',' !in ts[0];
      ParseSingleToken(ts[0]);
      if |ts| > 1 {
        assert AllTrimmed(ts[1..]) && NoneContains(ts[1..], ',') by {
          forall j | 0 <= j < |ts| - 1 ensures Trimmed(ts[1..][j]) && ',' !in ts[1..][j] {
            assert ts[1..][j] == ts[j + 1];
          }
        }
        ParseTokensAround(ts[0], Join(ts[1..], ','));
        ParseJoinedTokens(ts[1..]);
      }
    }
  }

  /** Parsing is idempotent on what it produces. */
  lemma ParseTokensIdempotent(s: string)
    ensures ParseTokens(Join(ParseTokens(s), ',')) == ParseTokens(s)
  {
    ParseJoinedTokens(ParseTokens(s));
  }

  /** A token padded with a blank on each side parses to the bare token. */
  lemma ParsePaddedToken(t: string)
    requires Trimmed(t) && ',' !in t
    ensures ParseTokens([' '] + t + [' ']) == [t]
  {
    var p: string := [' '] + t + [' '];
    assert p[1..] == t + [' '];
    assert Strip(p) == t by {
      var u := t + [' '];
      assert u[0] == t[0] && u[..|u| - 1] == t;
      assert LeadingSpace(u) == 0;
      assert LeadingSpace(p) == 1;
      assert TrailingSpace(t) == 0;
      assert TrailingSpace(u) == 1;
      assert u[..|t|] == t;
    }
    var ps: seq<string> := [p];
    assert KeepStripped(ps) == [t] by {
      assert ps[1..] == [];
    }
    SplitNoSeparator(p, ',');
  }

  /** A padded token followed by a bare one parses to the two bare tokens. */
  lemma ParsePaddedThenToken(y: string, z: string)
    requires Trimmed(y) && ',' !in y
    requires Trimmed(z) && ',' !in z
    ensures ParseTokens(([' '] + y + [' ']) + "," + z) == [y, z]
  {
    ParseTokensAround([' '] + y + [' '], z);
    ParseSingleToken(z);
    ParsePaddedToken(y);
  }

  /**
   * The shape of the example `"A, B ,C"`: three tokens, the middle one
   * padded with blanks, parse to the three bare tokens in order.
   */
  lemma ParseTokensExample(x: string, y: string, z: string)
    requires Trimmed(x) && ',' !in x
    requires Trimmed(y) && ',' !in y
    requires Trimmed(z) && ',' !in z
    ensures ParseTokens(x + ", " + y + " ," + z) == [x, y, z]
  {
    var rest := ([' '] + y + [' ']) + "," + z;
    ParsePaddedThenToken(y, z);
    ParseTokensAround(x, rest);
    ParseSingleToken(x);
    assert x + ", " + y + " ," + z == x + "," + rest;
  }
}
