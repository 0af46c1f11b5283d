/** The handful of Python `str` operations the extension relies on:
    `isspace`, `strip`, `lower`, `split` on one separator, `sep.join`, and the
    "drop the empty strings" filter of a comprehension `[l for l in xs if l]`. */
module PyStrings {

  /** Python's `str.isspace` on one character: the characters whose
      bidirectional class is WS, B or S, or whose category is Zs. */
  predicate IsSpace(c: char) {
    || c == ' ' || c == '\t' || c == '\n' || c == '\U{B}' || c == '\U{C}' || c == '\r'
    || c == '\U{1C}' || c == '\U{1D}' || c == '\U{1E}' || c == '\U{1F}'
    || c == '\U{85}' || c == '\U{A0}' || c == '\U{1680}'
    || ('\U{2000}' <= c <= '\U{200A}')
    || c == '\U{2028}' || c == '\U{2029}' || c == '\U{202F}' || c == '\U{205F}' || c == '\U{3000}'
  }

  /** Every character is white space (so `s.strip()` is empty). */
  predicate IsBlank(s: string) {
    forall i :: 0 <= i < |s| ==> IsSpace(s[i])
  }

  /** How many leading characters `s.lstrip(chars)` removes, the characters
      to remove given as a predicate. */
  function LeadLength(s: string, drop: char -> bool): (n: nat)
    ensures n <= |s|
    ensures forall i :: 0 <= i < n ==> drop(s[i])
    ensures n < |s| ==> !drop(s[n])
    decreases |s|
  {
    if s == [] || !drop(s[0]) then 0 else 1 + LeadLength(s[1..], drop)
  }

  /** How many trailing characters `s.rstrip(chars)` removes. */
  function TrailLength(s: string, drop: char -> bool): (n: nat)
    ensures n <= |s|
    ensures forall i :: |s| - n <= i < |s| ==> drop(s[i])
    ensures n < |s| ==> !drop(s[|s| - 1 - n])
    decreases |s|
  {
    if s == [] || !drop(s[|s| - 1]) then 0 else 1 + TrailLength(s[..|s| - 1], drop)
  }

  /** `s.strip(chars)`: the result neither starts nor ends with a character
      to drop, it is empty exactly when every character is one to drop, and a
      string that has nothing to drop at either end is returned unchanged. */
  function Strip(s: string, drop: char -> bool): (r: string)
    ensures |r| <= |s|
    ensures r == [] || (!drop(r[0]) && !drop(r[|r| - 1]))
    ensures r == [] <==> (forall i :: 0 <= i < |s| ==> drop(s[i]))
    ensures s == [] || (!drop(s[0]) && !drop(s[|s| - 1])) ==> r == s
  {
    var a := LeadLength(s, drop);
    if a == |s| then []
    else
      var b := TrailLength(s, drop);
      assert a < |s| - b by {
        assert !drop(s[a]);
      }
      s[a..|s| - b]
  }

  /** `s.strip()` with no argument: white space is removed. */
  function StripSpace(s: string): (r: string)
    ensures r == [] <==> IsBlank(s)
    ensures r == [] || (!IsSpace(r[0]) && !IsSpace(r[|r| - 1]))
  {
    Strip(s, IsSpace)
  }

  /** What `strip` keeps when it keeps anything: the text between the
      leading run of `k` and the trailing run of `m` dropped characters. */
  lemma StripBounds(s: string, drop: char -> bool) returns (k: nat, m: nat)
    requires Strip(s, drop) != []
    ensures k + m < |s| && Strip(s, drop) == s[k..|s| - m]
    ensures forall i :: 0 <= i < k ==> drop(s[i])
    ensures forall i :: |s| - m <= i < |s| ==> drop(s[i])
  {
    k, m := LeadLength(s, drop), TrailLength(s, drop);
    assert k < |s|;
    assert !drop(s[k]);
  }

  /** Stripping twice is stripping once. */
  lemma StripIdempotent(s: string, drop: char -> bool)
    ensures Strip(Strip(s, drop), drop) == Strip(s, drop)
  {
  }

  /** Strip leaves the middle of a text padded with characters it drops. */
  lemma {:induction false} StripPadded(p: string, t: string, q: string, drop: char -> bool)
    requires forall i :: 0 <= i < |p| ==> drop(p[i])
    requires forall i :: 0 <= i < |q| ==> drop(q[i])
    requires t != [] && !drop(t[0]) && !drop(t[|t| - 1])
    ensures Strip(p + t + q, drop) == t
  {
    var s := p + t + q;
    assert s[|p|] == t[0];
    assert LeadLength(s, drop) == |p| by {
      LeadLengthAt(s, drop, |p|);
    }
    assert s[|s| - 1 - |q|] == t[|t| - 1];
    assert TrailLength(s, drop) == |q| by {
      TrailLengthAt(s, drop, |q|);
    }
    assert s[|p|..|s| - |q|] == t;
  }

  /** The leading run of dropped characters ends at the first kept one. */
  lemma LeadLengthAt(s: string, drop: char -> bool, n: nat)
    requires n < |s| && !drop(s[n])
    requires forall i :: 0 <= i < n ==> drop(s[i])
    ensures LeadLength(s, drop) == n
  {
  }

  /** The trailing run of dropped characters ends at the last kept one. */
  lemma TrailLengthAt(s: string, drop: char -> bool, n: nat)
    requires n < |s| && !drop(s[|s| - 1 - n])
    requires forall i :: |s| - n <= i < |s| ==> drop(s[i])
    ensures TrailLength(s, drop) == n
  {
  }

  /** `c.lower()` for ASCII letters; every other character is left unchanged. */
  function LowerChar(c: char): char {
    if 'A' <= c <= 'Z' then (c as int + 32) as char else c
  }

  /** `s.lower()`, restricted to the ASCII letters. */
  function Lower(s: string): (r: string)
    ensures |r| == |s|
    decreases |s|
  {
    if s == [] then [] else [LowerChar(s[0])] + Lower(s[1..])
  }

  /** A string without ASCII upper-case letters is its own lower case. */
  lemma LowerUntouched(s: string)
    requires forall i :: 0 <= i < |s| ==> !('A' <= s[i] <= 'Z')
    ensures Lower(s) == s
  {
  }

  /** Lower-casing maps each character on its own. */
  lemma {:induction false} LowerAt(s: string, i: nat)
    requires i < |s|
    ensures Lower(s)[i] == LowerChar(s[i])
    decreases i
  {
    if i > 0 {
      LowerAt(s[1..], i - 1);
    }
  }

  /** Lower-casing a slice is slicing the lower case. */
  lemma LowerSlice(s: string, i: nat, j: nat)
    requires i <= j <= |s|
    ensures Lower(s[i..j]) == Lower(s)[i..j]
  {
    var a, b, c := s[..i], s[i..j], s[j..|s|];
    ThreeSlices(s, i, j);
    LowerAppend(a + b, c);
    LowerAppend(a, b);
    SliceOfThree(Lower(a), Lower(b), Lower(c));
  }

  /** A sequence is its three slices at `i` and `j`, put back together. */
  lemma ThreeSlices<T>(a: seq<T>, i: nat, j: nat)
    requires i <= j <= |a|
    ensures a == a[..i] + a[i..j] + a[j..|a|]
  {
  }

  /** The middle part of three sequences put together. */
  lemma SliceOfThree<T>(a: seq<T>, b: seq<T>, c: seq<T>)
    ensures (a + b + c)[|a|..|a| + |b|] == b
  {
  }

  /** Only white space lower-cases to white space. */
  lemma LowerKeepsSpace(c: char)
    ensures IsSpace(LowerChar(c)) ==> IsSpace(c)
  {
  }

  /** Lower-casing works character by character. */
  lemma {:induction false} LowerAppend(a: string, b: string)
    ensures Lower(a + b) == Lower(a) + Lower(b)
    decreases |a|
  {
    if a != [] {
      assert (a + b)[1..] == a[1..] + b;
      LowerAppend(a[1..], b);
    } else {
      assert a + b == b;
    }
  }

  /** `sep.join(xs)` for a one-character separator. */
  function Join(xs: seq<string>, sep: char): string
    decreases |xs|
  {
    if |xs| == 0 then ""
    else if |xs| == 1 then xs[0]
    else xs[0] + [sep] + Join(xs[1..], sep)
  }

  /** `s.count(c)` for one character. */
  function Occurrences(s: string, c: char): nat
    decreases |s|
  {
    if s == [] then 0 else (if s[0] == c then 1 else 0) + Occurrences(s[1..], c)
  }

  /** `s.split(sep)` for a one-character separator: never empty, one more piece
      than there are separators, and no piece holds the separator. */
  function Split(s: string, sep: char): (r: seq<string>)
    ensures |r| == Occurrences(s, sep) + 1
    ensures forall i :: 0 <= i < |r| ==> sep !in r[i]
    decreases |s|
  {
    if s == [] then [""]
    else
      var rest := Split(s[1..], sep);
      if s[0] == sep then [""] + rest
      else [[s[0]] + rest[0]] + rest[1..]
  }

  /** Joining a sequence that starts with `x`. */
  lemma JoinCons(x: string, ys: seq<string>, sep: char)
    ensures Join([x] + ys, sep) == if ys == [] then x else x + [sep] + Join(ys, sep)
  {
    assert ([x] + ys)[1..] == ys;
  }

  /** Joining the pieces of a split with the same separator gives the string back. */
  lemma {:induction false} JoinSplit(s: string, sep: char)
    ensures Join(Split(s, sep), sep) == s
    decreases |s|
  {
    if s != [] {
      JoinSplit(s[1..], sep);
      if s[0] == sep {
        JoinSplitAtSeparator(s, sep);
      } else {
        JoinSplitInPiece(s, sep);
      }
    }
  }

  /** The step of `JoinSplit` for a string that starts with the separator. */
  lemma JoinSplitAtSeparator(s: string, sep: char)
    requires s != [] && s[0] == sep
    requires Join(Split(s[1..], sep), sep) == s[1..]
    ensures Join(Split(s, sep), sep) == s
  {
    var rest := Split(s[1..], sep);
    assert Split(s, sep) == [""] + rest;
    JoinCons("", rest, sep);
    assert [sep] + s[1..] == s;
  }

  /** The step of `JoinSplit` for a string that starts inside a piece. */
  lemma JoinSplitInPiece(s: string, sep: char)
    requires s != [] && s[0] != sep
    requires Join(Split(s[1..], sep), sep) == s[1..]
    ensures Join(Split(s, sep), sep) == s
  {
    var rest := Split(s[1..], sep);
    assert Split(s, sep) == [[s[0]] + rest[0]] + rest[1..];
    JoinPrepend([s[0]], rest[0], rest[1..], sep);
    assert [rest[0]] + rest[1..] == rest;
    assert [s[0]] + s[1..] == s;
  }

  /** Prefixing the first piece prefixes the join. */
  lemma JoinPrepend(x: string, y: string, ys: seq<string>, sep: char)
    ensures Join([x + y] + ys, sep) == x + Join([y] + ys, sep)
  {
    JoinCons(x + y, ys, sep);
    JoinCons(y, ys, sep);
    if ys != [] {
      assert (x + y) + [sep] + Join(ys, sep) == x + (y + [sep] + Join(ys, sep));
    }
  }

  /** Splitting a string that starts with a separator-free piece `x`. */
  lemma {:induction false} SplitAfterPiece(x: string, t: string, sep: char)
    requires sep !in x
    ensures Split(x + t, sep) == [x + Split(t, sep)[0]] + Split(t, sep)[1..]
    decreases |x|
  {
    if x != [] {
      assert (x + t)[1..] == x[1..] + t;
      assert (x + t)[0] == x[0];
      SplitAfterPiece(x[1..], t, sep);
      assert [x[0]] + (x[1..] + Split(t, sep)[0]) == x + Split(t, sep)[0];
    } else {
      var r := Split(t, sep);
      assert x + t == t;
      assert x + r[0] == r[0];
      assert r == [r[0]] + r[1..];
    }
  }

  /** Splitting a join of separator-free pieces gives the pieces back. */
  lemma {:induction false} SplitJoin(xs: seq<string>, sep: char)
    requires |xs| >= 1
    requires forall i :: 0 <= i < |xs| ==> sep !in xs[i]
    ensures Split(Join(xs, sep), sep) == xs
    decreases |xs|
  {
    if |xs| == 1 {
      SplitAfterPiece(xs[0], "", sep);
      assert xs[0] + "" == xs[0];
    } else {
      var t := [sep] + Join(xs[1..], sep);
      assert Join(xs, sep) == xs[0] + t;
      SplitAfterPiece(xs[0], t, sep);
      SplitJoin(xs[1..], sep);
      assert t[1..] == Join(xs[1..], sep);
      assert Split(t, sep) == [""] + xs[1..];
      assert xs[0] + "" == xs[0];
    }
  }

  /** The non-empty strings of `xs`, in order: `[x for x in xs if x]`. */
  function DropEmpty(xs: seq<string>): (r: seq<string>)
    ensures |r| <= |xs|
    ensures forall i :: 0 <= i < |r| ==> r[i] != []
    ensures forall x :: x in r <==> x in xs && x != []
    decreases |xs|
  {
    if xs == [] then []
    else if xs[0] == [] then DropEmpty(xs[1..])
    else [xs[0]] + DropEmpty(xs[1..])
  }

  /** The filter works piece by piece, so it keeps the order and the
      repetitions of what it keeps. */
  lemma {:induction false} DropEmptyAppend(a: seq<string>, b: seq<string>)
    ensures DropEmpty(a + b) == DropEmpty(a) + DropEmpty(b)
    decreases |a|
  {
    if a == [] {
      assert a + b == b;
    } else {
      assert (a + b)[0] == a[0] && (a + b)[1..] == a[1..] + b;
      DropEmptyAppend(a[1..], b);
    }
  }

  /** One string is kept exactly when it is not empty. */
  lemma DropEmptySingle(x: string)
    ensures DropEmpty([x]) == if x == [] then [] else [x]
  {
    assert [x][1..] == [];
  }

  /** A sequence without empty strings is its own filter. */
  lemma {:induction false} DropEmptyUntouched(xs: seq<string>)
    requires forall i :: 0 <= i < |xs| ==> xs[i] != []
    ensures DropEmpty(xs) == xs
    decreases |xs|
  {
    if xs != [] {
      DropEmptyUntouched(xs[1..]);
    }
  }
}
