/** The two Python string operations the option parser and the merge engine rely on:
    `str.split(sep)` (no limit, empty pieces kept) and `str.strip()` (no argument). */
module Text {

  /** Python's `str.isspace` for one character: the characters `str.strip()` removes. */
  predicate IsSpace(c: char)
  {
    var n := c as int;
    n == 0x20 || 0x09 <= n <= 0x0D || 0x1C <= n <= 0x1F || n == 0x85 || n == 0xA0 ||
    n == 0x1680 || 0x2000 <= n <= 0x200A || n == 0x2028 || n == 0x2029 ||
    n == 0x202F || n == 0x205F || n == 0x3000
  }

  /** The inverse of `Split`: the pieces glued back together with `sep` between them. */
  function Join(parts: seq<string>, sep: char): string
  {
    if |parts| == 0 then []
    else if |parts| == 1 then parts[0]
    else parts[0] + [sep] + Join(parts[1..], sep)
  }

  /** `s.split(sep)`: one more piece than there are separators, no piece holds a separator,
      and joining the pieces gives `s` back. */
  function Split(s: string, sep: char): (parts: seq<string>)
    ensures |parts| == multiset(s)[sep] + 1
    ensures forall i :: 0 <= i < |parts| ==> sep !in parts[i]
    ensures Join(parts, sep) == s
  {
    if s == [] then [[]]
    else
      var rest := Split(s[1..], sep);
      if s[0] == sep then
        SplitStepSeparator(s, sep, rest);
        [[]] + rest
      else
        SplitStepOther(s, sep, rest);
        [[s[0]] + rest[0]] + rest[1..]
  }

  /** The separators of `s` are those of its tail, plus its head if it is one. */
  lemma CountCons(s: string, sep: char)
    requires s != []
    ensures multiset(s)[sep] == multiset(s[1..])[sep] + if s[0] == sep then 1 else 0
  {
    assert s == [s[0]] + s[1..];
  }

  /** A separator in front starts a new, empty piece. */
  lemma SplitStepSeparator(s: string, sep: char, rest: seq<string>)
    requires s != [] && s[0] == sep
    requires |rest| == multiset(s[1..])[sep] + 1
    requires forall i :: 0 <= i < |rest| ==> sep !in rest[i]
    requires Join(rest, sep) == s[1..]
    ensures |[[]] + rest| == multiset(s)[sep] + 1
    ensures forall i :: 0 <= i < |[[]] + rest| ==> sep !in ([[]] + rest)[i]
    ensures Join([[]] + rest, sep) == s
  {
    CountCons(s, sep);
    assert ([[]] + rest)[1..] == rest;
    assert Join([[]] + rest, sep) == [sep] + s[1..];
  }

  /** Any other character in front joins the first piece. */
  lemma SplitStepOther(s: string, sep: char, rest: seq<string>)
    requires s != [] && s[0] != sep
    requires |rest| == multiset(s[1..])[sep] + 1
    requires forall i :: 0 <= i < |rest| ==> sep !in rest[i]
    requires Join(rest, sep) == s[1..]
    ensures var parts := [[s[0]] + rest[0]] + rest[1..];
      |parts| == multiset(s)[sep] + 1 &&
      (forall i :: 0 <= i < |parts| ==> sep !in parts[i]) &&
      Join(parts, sep) == s
  {
    CountCons(s, sep);
    JoinPrefix([s[0]], rest, sep);
    assert [s[0]] + s[1..] == s;
  }

  /** Gluing `x` to the front of the first piece glues it to the front of the join. */
  lemma JoinPrefix(x: string, parts: seq<string>, sep: char)
    requires |parts| >= 1
    ensures Join([x + parts[0]] + parts[1..], sep) == x + Join(parts, sep)
  {
    var q := [x + parts[0]] + parts[1..];
    if |parts| > 1 {
      assert q[1..] == parts[1..];
      assert Join(q, sep) == (x + parts[0]) + [sep] + Join(parts[1..], sep);
    }
  }

  /** A string without the separator splits into itself alone. */
  lemma {:induction false} SplitNoSeparator(s: string, sep: char)
    requires sep !in s
    ensures Split(s, sep) == [s]
  {
    if s != [] {
      SplitNoSeparator(s[1..], sep);
    }
  }

  /** Splitting `x + sep + y` peels off `x` when `x` holds no separator. */
  lemma {:induction false} SplitAfterPiece(x: string, sep: char, y: string)
    requires sep !in x
    ensures Split(x + [sep] + y, sep) == [x] + Split(y, sep)
  {
    var s := x + [sep] + y;
    if x == [] {
      assert s[0] == sep && s[1..] == y;
    } else {
      assert s[0] == x[0] != sep;
      assert s[1..] == x[1..] + [sep] + y;
      SplitAfterPiece(x[1..], sep, y);
      var rest := Split(s[1..], sep);
      assert rest == [x[1..]] + Split(y, sep);
      assert Split(s, sep) == [[x[0]] + rest[0]] + rest[1..];
      assert [x[0]] + x[1..] == x;
    }
  }

  /** Round trip: splitting the join of separator-free pieces gives the pieces back. */
  lemma {:induction false} SplitJoin(parts: seq<string>, sep: char)
    requires |parts| >= 1
    requires forall i :: 0 <= i < |parts| ==> sep !in parts[i]
    ensures Split(Join(parts, sep), sep) == parts
  {
    if |parts| == 1 {
      SplitNoSeparator(parts[0], sep);
    } else {
      SplitJoin(parts[1..], sep);
      SplitAfterPiece(parts[0], sep, Join(parts[1..], sep));
      assert [parts[0]] + parts[1..] == parts;
    }
  }

  /** Leading whitespace removed: only whitespace was dropped, and what is left does not
      start with whitespace. */
  function TrimStart(s: string): (r: string)
    ensures |r| <= |s| && r == s[|s| - |r|..]
    ensures r != [] ==> !IsSpace(r[0])
    ensures forall i :: 0 <= i < |s| - |r| ==> IsSpace(s[i])
    decreases |s|
  {
    if s != [] && IsSpace(s[0]) then TrimStart(s[1..]) else s
  }

  /** Trailing whitespace removed: only whitespace was dropped, and what is left does not
      end with whitespace. */
  function TrimEnd(s: string): (r: string)
    ensures |r| <= |s| && r == s[..|r|]
    ensures r != [] ==> !IsSpace(r[|r| - 1])
    ensures forall i :: |r| <= i < |s| ==> IsSpace(s[i])
    decreases |s|
  {
    if s != [] && IsSpace(s[|s| - 1]) then TrimEnd(s[..|s| - 1]) else s
  }

  /** `s.strip()`: `s` is `r` with whitespace only around it, and `r` neither starts nor
      ends with whitespace. */
  function Strip(s: string): (r: string)
    ensures r != [] ==> !IsSpace(r[0]) && !IsSpace(r[|r| - 1])
    ensures exists lo :: (0 <= lo <= |s| && r <= s[lo..] &&
      (forall i :: 0 <= i < lo ==> IsSpace(s[i])) &&
      (forall i :: lo + |r| <= i < |s| ==> IsSpace(s[i])))
  {
    StripAround(s, |s| - |TrimStart(s)|);
    TrimEnd(TrimStart(s))
  }

  /** The witness for `Strip`: the leading whitespace ends at `lo`. */
  lemma StripAround(s: string, lo: nat)
    requires lo == |s| - |TrimStart(s)|
    ensures var r := TrimEnd(TrimStart(s));
      0 <= lo <= |s| && r <= s[lo..] &&
      (forall i :: 0 <= i < lo ==> IsSpace(s[i])) &&
      (forall i :: lo + |r| <= i < |s| ==> IsSpace(s[i]))
  {
    var t := TrimStart(s);
    var r := TrimEnd(t);
    assert t == s[lo..];
    forall i | lo + |r| <= i < |s|
      ensures IsSpace(s[i])
    {
      assert s[i] == t[i - lo];
    }
  }

  /** A string that neither starts nor ends with whitespace is its own strip. */
  lemma StripClean(s: string)
    requires s == [] || (!IsSpace(s[0]) && !IsSpace(s[|s| - 1]))
    ensures Strip(s) == s
  {
    assert TrimStart(s) == s;
    assert TrimEnd(s) == s;
  }
}
