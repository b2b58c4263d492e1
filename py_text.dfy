/**
 * The few Python string operations the renderers rely on: `str.strip()`,
 * `str.split(sep)`, `sep.join(parts)` and `filter(None, parts)` over strings.
 */
module PyText {

  /** Dropping the head of a concatenation whose left part is non-empty. */
  lemma ConcatTail<T>(a: seq<T>, b: seq<T>)
    requires a != []
    ensures (a + b)[0] == a[0] && (a + b)[1..] == a[1..] + b
  {
  }

  lemma ConcatAssoc<T>(x: seq<T>, y: seq<T>, z: seq<T>)
    ensures x + (y + z) == (x + y) + z
  {
  }

  lemma PrefixOfSuffix<T>(s: seq<T>, i: nat, n: nat)
    requires i + n <= |s|
    ensures s[i..][..n] == s[i..i + n]
  {
  }

  lemma PrefixOfConcat<T>(x: seq<T>, y: seq<T>)
    ensures (x + y)[..|x|] == x
  {
  }

  lemma SuffixOfConcat<T>(x: seq<T>, y: seq<T>, n: nat)
    requires n <= |y|
    ensures (x + y)[|x + y| - n..] == y[|y| - n..]
  {
  }

  lemma ConcatEmpty<T>(a: seq<T>, b: seq<T>)
    requires a == []
    ensures a + b == b
  {
  }

  /** `c.isspace()` in Python 3: the ASCII controls TAB..CR, the four
      information separators, NEL, NBSP and the Unicode space separators. */
  predicate IsSpace(c: char) {
    c == ' ' || ('\t' <= c <= '\r') || ('\U{1C}' <= c <= '\U{1F}')
    || c == '\U{85}' || c == '\U{A0}' || c == '\U{1680}'
    || ('\U{2000}' <= c <= '\U{200A}') || c == '\U{2028}' || c == '\U{2029}'
    || c == '\U{202F}' || c == '\U{205F}' || c == '\U{3000}'
  }

  /** `s.lstrip()`: a suffix of `s`; what it cuts off is all white space. */
  function LStrip(s: string): (r: string)
    ensures |r| <= |s| && r == s[|s| - |r|..]
    ensures forall k | 0 <= k < |s| - |r| :: IsSpace(s[k])
    ensures r != "" ==> !IsSpace(r[0])
  {
    if s != "" && IsSpace(s[0]) then LStrip(s[1..]) else s
  }

  /** `s.rstrip()`: a prefix of `s`; what it cuts off is all white space. */
  function RStrip(s: string): (r: string)
    ensures |r| <= |s| && r == s[..|r|]
    ensures forall k | |r| <= k < |s| :: IsSpace(s[k])
    ensures r != "" ==> !IsSpace(r[|r| - 1])
  {
    if s != "" && IsSpace(s[|s| - 1]) then RStrip(s[..|s| - 1]) else s
  }

  /** `s.strip()`: neither end of the result is white space. */
  function Strip(s: string): (r: string)
    ensures r != "" ==> !IsSpace(r[0]) && !IsSpace(r[|r| - 1])
  {
    RStrip(LStrip(s))
  }

  /** `Strip(s)` is the slice of `s` left after cutting white space, and
      only white space, off both ends. */
  lemma StripSlice(s: string) returns (i: nat, j: nat)
    ensures i <= j <= |s| && Strip(s) == s[i..j]
    ensures forall k | 0 <= k < i :: IsSpace(s[k])
    ensures forall k | j <= k < |s| :: IsSpace(s[k])
  {
    var l := LStrip(s);
    var r := RStrip(l);
    i := |s| - |l|;
    j := i + |r|;
    PrefixOfSuffix(s, i, |r|);
    forall k | j <= k < |s| ensures IsSpace(s[k]) {
      assert k - i < |l| && s[k] == l[k - i];
    }
  }

  /** Stripping twice is stripping once. */
  lemma StripIdempotent(s: string)
    ensures Strip(Strip(s)) == Strip(s)
  {
    var r := Strip(s);
    assert LStrip(r) == r;
    assert RStrip(r) == r;
  }

  /** A character absent from `s` is absent from `Strip(s)`. */
  lemma StripKeepsOut(s: string, c: char)
    requires c !in s
    ensures c !in Strip(s)
  {
    var i, j := StripSlice(s);
    forall k | 0 <= k < j - i ensures s[i..j][k] != c {
      assert s[i..j][k] == s[i + k];
    }
  }

  /** `s.split(sep)` for a one-character separator: at least one piece,
      and no piece holds the separator. */
  function Split(s: string, sep: char): (parts: seq<string>)
    ensures |parts| >= 1
    ensures forall k | 0 <= k < |parts| :: sep !in parts[k]
  {
    if s == "" then [""]
    else
      var rest := Split(s[1..], sep);
      if s[0] == sep then [""] + rest else [[s[0]] + rest[0]] + rest[1..]
  }

  /** `sep.join(parts)`. */
  function Join(parts: seq<string>, sep: string): string
  {
    if parts == [] then ""
    else if |parts| == 1 then parts[0]
    else parts[0] + sep + Join(parts[1..], sep)
  }

  /** Sum of the lengths of the parts. */
  function TotalLength(parts: seq<string>): nat
  {
    if parts == [] then 0 else |parts[0]| + TotalLength(parts[1..])
  }

  /** `list(filter(None, parts))` on strings: drops exactly the empty strings. */
  function NonEmpty(parts: seq<string>): (r: seq<string>)
    ensures |r| <= |parts|
    ensures forall k | 0 <= k < |r| :: r[k] != ""
  {
    if parts == [] then []
    else (if parts[0] == "" then [] else [parts[0]]) + NonEmpty(parts[1..])
  }

  lemma NonEmptySingle(x: string)
    ensures NonEmpty([x]) == if x == "" then [] else [x]
  {
    assert [x][1..] == [];
  }

  /** Filtering keeps order: it distributes over concatenation. */
  lemma {:induction false} NonEmptyConcat(a: seq<string>, b: seq<string>)
    ensures NonEmpty(a + b) == NonEmpty(a) + NonEmpty(b)
  {
    if a == [] {
      ConcatEmpty(a, b);
    } else {
      var head := if a[0] == "" then [] else [a[0]];
      ConcatTail(a, b);
      NonEmptyConcat(a[1..], b);
      ConcatAssoc(head, NonEmpty(a[1..]), NonEmpty(b));
    }
  }

  /** Nothing survives the filter exactly when every part is empty. */
  lemma {:induction false} NonEmptyNone(parts: seq<string>)
    ensures NonEmpty(parts) == [] <==> forall k | 0 <= k < |parts| :: parts[k] == ""
  {
    if parts != [] {
      NonEmptyNone(parts[1..]);
      if NonEmpty(parts) == [] {
        forall k | 0 <= k < |parts| ensures parts[k] == "" {
          if k > 0 { assert parts[k] == parts[1..][k - 1]; }
        }
      }
    }
  }

  /** Joining splits back: `sep.join(s.split(sep)) == s`. */
  lemma {:induction false} SplitJoin(s: string, sep: char)
    ensures Join(Split(s, sep), [sep]) == s
  {
    if s != "" {
      var rest := Split(s[1..], sep);
      SplitJoin(s[1..], sep);
      if s[0] == sep {
        assert Split(s, sep) == [""] + rest;
        assert ([""] + rest)[1..] == rest;
      } else {
        var parts := [[s[0]] + rest[0]] + rest[1..];
        if |rest| == 1 {
          assert Join(parts, [sep]) == [s[0]] + rest[0];
        } else {
          assert parts[1..] == rest[1..];
          assert Join(parts, [sep]) == [s[0]] + (rest[0] + [sep] + Join(rest[1..], [sep]));
        }
      }
    }
  }

  /** Splitting distributes over a separator between two texts. */
  lemma {:induction false} SplitConcat(a: string, b: string, sep: char)
    ensures Split(a + [sep] + b, sep) == Split(a, sep) + Split(b, sep)
  {
    if a == "" {
      assert a + [sep] + b == [sep] + b;
      assert ([sep] + b)[1..] == b;
    } else {
      var s := a + [sep] + b;
      assert s[0] == a[0];
      assert s[1..] == a[1..] + [sep] + b;
      SplitConcat(a[1..], b, sep);
      var ra, rb := Split(a[1..], sep), Split(b, sep);
      ConcatTail(ra, rb);
      if a[0] == sep {
        ConcatAssoc([""], ra, rb);
      } else {
        ConcatAssoc([[a[0]] + ra[0]], ra[1..], rb);
      }
    }
  }

  /** A text without the separator splits into itself. */
  lemma {:induction false} SplitWhole(s: string, sep: char)
    requires sep !in s
    ensures Split(s, sep) == [s]
  {
    if s != "" {
      forall k | 0 <= k < |s| - 1 ensures s[1..][k] != sep {
        assert s[1..][k] == s[k + 1];
      }
      SplitWhole(s[1..], sep);
      assert [s[0]] + s[1..] == s;
    }
  }

  /** Splitting undoes joining: `sep.join(parts).split(sep) == parts` when
      no part holds the separator. */
  lemma {:induction false} JoinSplit(parts: seq<string>, sep: char)
    requires |parts| >= 1
    requires forall k | 0 <= k < |parts| :: sep !in parts[k]
    ensures Split(Join(parts, [sep]), sep) == parts
  {
    SplitWhole(parts[0], sep);
    if |parts| > 1 {
      JoinSplit(parts[1..], sep);
      SplitConcat(parts[0], Join(parts[1..], [sep]), sep);
    }
  }

  predicate StartsWith(s: string, t: string) { |t| <= |s| && s[..|t|] == t }

  predicate EndsWith(s: string, t: string) { |t| <= |s| && s[|s| - |t|..] == t }

  /** `t` occurs in `s` starting at index `p`. */
  ghost predicate OccursAt(s: string, t: string, p: nat) {
    exists x, y :: s == x + t + y && |x| == p
  }

  /** An occurrence inside `x` is an occurrence inside `x + y`. */
  lemma OccursLeft(x: string, y: string, t: string, p: nat)
    requires OccursAt(x, t, p)
    ensures OccursAt(x + y, t, p)
  {
    var a, b :| x == a + t + b && |a| == p;
    ConcatAssoc(a + t, b, y);
  }

  /** An occurrence inside `y` is an occurrence inside `x + y`, shifted by `|x|`. */
  lemma OccursRight(x: string, y: string, t: string, p: nat)
    requires OccursAt(y, t, p)
    ensures OccursAt(x + y, t, |x| + p)
  {
    var a, b :| y == a + t + b && |a| == p;
    ConcatAssoc(x, a + t, b);
    ConcatAssoc(x, a, t);
  }

  /** Every text occurs in itself at the start. */
  lemma OccursWhole(t: string)
    ensures OccursAt(t, t, 0)
  {
    assert t == [] + t + [];
  }

  /** An occurrence inside `b` is an occurrence inside `a + b + c`, shifted by `|a|`. */
  lemma OccursInContext(a: string, b: string, c: string, t: string, p: nat)
    requires OccursAt(b, t, p)
    ensures OccursAt(a + b + c, t, |a| + p)
  {
    OccursRight(a, b, t, p);
    OccursLeft(a + b, c, t, |a| + p);
  }

  /** The shape of a join of at least one part: it begins with the first
      part, ends with the last, and holds exactly one separator between
      consecutive parts and none elsewhere (so its length is the parts'
      total plus one separator per gap). */
  lemma {:induction false} JoinShape(parts: seq<string>, sep: string)
    requires |parts| >= 1
    ensures |Join(parts, sep)| == TotalLength(parts) + |sep| * (|parts| - 1)
    ensures StartsWith(Join(parts, sep), parts[0])
    ensures EndsWith(Join(parts, sep), parts[|parts| - 1])
  {
    JoinLength(parts, sep);
    JoinStarts(parts, sep);
    JoinEnds(parts, sep);
  }

  lemma {:induction false} JoinLength(parts: seq<string>, sep: string)
    requires |parts| >= 1
    ensures |Join(parts, sep)| == TotalLength(parts) + |sep| * (|parts| - 1)
  {
    if |parts| > 1 {
      JoinLength(parts[1..], sep);
    } else {
      assert TotalLength(parts[1..]) == 0;
    }
  }

  lemma JoinStarts(parts: seq<string>, sep: string)
    requires |parts| >= 1
    ensures StartsWith(Join(parts, sep), parts[0])
  {
    if |parts| > 1 {
      var tail := Join(parts[1..], sep);
      ConcatAssoc(parts[0], sep, tail);
      PrefixOfConcat(parts[0], sep + tail);
    }
  }

  lemma {:induction false} JoinEnds(parts: seq<string>, sep: string)
    requires |parts| >= 1
    ensures EndsWith(Join(parts, sep), parts[|parts| - 1])
  {
    if |parts| > 1 {
      JoinEnds(parts[1..], sep);
      var tail := Join(parts[1..], sep);
      var last := parts[|parts| - 1];
      assert parts[1..][|parts| - 2] == last;
      SuffixOfConcat(parts[0] + sep, tail, |last|);
    }
  }


  /** A head joined before non-empty parts: the join starts with the head,
      is the head alone exactly when there are no parts, and otherwise is
      the head, one separator and the join of the parts, ending with the
      last part. */
  lemma JoinHead(b: string, ks: seq<string>, sep: string)
    requires forall k | 0 <= k < |ks| :: ks[k] != ""
    ensures StartsWith(Join([b] + ks, sep), b)
    ensures Join([b] + ks, sep) == b <==> ks == []
    ensures ks != [] ==> Join([b] + ks, sep) == b + sep + Join(ks, sep)
    ensures ks != [] ==> EndsWith(Join([b] + ks, sep), ks[|ks| - 1])
  {
    var xs := [b] + ks;
    assert xs[0] == b;
    assert xs[1..] == ks;
    JoinShape(xs, sep);
    if ks != [] {
      JoinShape(ks, sep);
      assert xs[|xs| - 1] == ks[|ks| - 1];
      assert |Join(xs, sep)| > |b|;
    }
  }

  /** A non-empty last part survives the filter as its last element. */
  lemma NonEmptyLast(parts: seq<string>)
    requires |parts| >= 1 && parts[|parts| - 1] != ""
    ensures NonEmpty(parts) != [] && NonEmpty(parts)[|NonEmpty(parts)| - 1] == parts[|parts| - 1]
  {
    var init, last := parts[..|parts| - 1], parts[|parts| - 1];
    assert parts == init + [last];
    NonEmptyConcat(init, [last]);
    NonEmptySingle(last);
  }

  /** A join of non-empty parts is empty exactly when there are no parts. */
  lemma JoinBlank(parts: seq<string>, sep: string)
    requires forall k | 0 <= k < |parts| :: parts[k] != ""
    ensures Join(parts, sep) == "" <==> parts == []
  {
    if parts != [] {
      JoinShape(parts, sep);
      assert |Join(parts, sep)| >= |parts[0]| > 0;
    }
  }
}
