/** The String and Array operations of Ruby's core library the plugin relies on. */
module RubyStrings {
  import opened Wrappers

  /** The characters String#strip removes: NUL, tab, line feed, vertical tab, form feed, carriage return, space. */
  predicate IsStripped(c: char) {
    c == '\0' || c == '\t' || c == '\n' || c == '\U{000B}' || c == '\U{000C}' || c == '\r' || c == ' '
  }

  /** `s` holds nothing but what String#strip removes. */
  predicate AllWhitespace(s: string) {
    forall i | 0 <= i < |s| :: IsStripped(s[i])
  }

  /** `s` neither starts nor ends with what String#strip removes. */
  predicate Trimmed(s: string) {
    s == [] || (!IsStripped(s[0]) && !IsStripped(s[|s| - 1]))
  }

  /** `r` is `s` with a prefix and a suffix of nothing but whitespace cut off. */
  predicate StripOf(s: string, r: string) {
    |r| <= |s| && exists i | 0 <= i <= |s| - |r| :: StripAt(s, r, i)
  }

  /** `r` sits at offset i of `s`, with only whitespace before and after it. */
  predicate StripAt(s: string, r: string, i: nat)
    requires i + |r| <= |s|
  {
    r == s[i..i + |r|] &&
    (forall k | 0 <= k < i :: IsStripped(s[k])) &&
    (forall k | i + |r| <= k < |s| :: IsStripped(s[k]))
  }

  /** String#lstrip: `s` without its leading whitespace. */
  function LStrip(s: string): (r: string)
    ensures |r| <= |s| && r == s[|s| - |r|..]
    ensures r == [] || !IsStripped(r[0])
    ensures forall i | 0 <= i < |s| - |r| :: IsStripped(s[i])
  {
    if s != [] && IsStripped(s[0]) then LStrip(s[1..]) else s
  }

  /** String#rstrip: `s` without its trailing whitespace. */
  function RStrip(s: string): (r: string)
    ensures |r| <= |s| && r == s[..|r|]
    ensures r == [] || !IsStripped(r[|r| - 1])
    ensures forall i | |r| <= i < |s| :: IsStripped(s[i])
  {
    if s != [] && IsStripped(s[|s| - 1]) then RStrip(s[..|s| - 1]) else s
  }

  /**
   * String#strip: `s` without its leading and trailing whitespace. The
   * result is empty exactly when `s` is all whitespace; StripDetermined
   * shows these ensures leave no other choice.
   */
  function Strip(s: string): (r: string)
    ensures StripOf(s, r)
    ensures Trimmed(r)
    ensures r == [] <==> AllWhitespace(s)
  {
    StripPlacement(s);
    StripEmpty(s);
    RStrip(LStrip(s))
  }

  /** Where the strip of `s` sits in `s`. */
  lemma StripPlacement(s: string)
    ensures |s| - |LStrip(s)| + |RStrip(LStrip(s))| <= |s|
    ensures StripAt(s, RStrip(LStrip(s)), |s| - |LStrip(s)|)
  {
    var l := LStrip(s);
    PrefixOfSuffix(s, l, RStrip(l), |s| - |l|);
  }

  /**
   * A whitespace-bounded prefix `r` of a suffix `l` of `s` that starts at
   * i sits at i in `s`, with whitespace before and after it.
   */
  lemma PrefixOfSuffix(s: string, l: string, r: string, i: nat)
    requires i <= |s| && l == s[i..] && |r| <= |l| && r == l[..|r|]
    requires forall k | 0 <= k < i :: IsStripped(s[k])
    requires forall k | |r| <= k < |l| :: IsStripped(l[k])
    ensures i + |r| <= |s| && StripAt(s, r, i)
  {
    forall k | i + |r| <= k < |s| ensures IsStripped(s[k]) {
      assert s[k] == l[k - i];
    }
  }

  /** The strip of `s` is empty exactly when `s` is all whitespace. */
  lemma StripEmpty(s: string)
    ensures RStrip(LStrip(s)) == [] <==> AllWhitespace(s)
  {
    var l := LStrip(s);
    assert RStrip(l) == [] ==> l == [];
  }

  /** Two non-empty trimmed strips of the same string are the same string. */
  lemma StripDetermined(s: string, r1: string, r2: string)
    requires StripOf(s, r1) && Trimmed(r1) && r1 != []
    requires StripOf(s, r2) && Trimmed(r2) && r2 != []
    ensures r1 == r2
  {
    var i1 :| 0 <= i1 <= |s| - |r1| && StripAt(s, r1, i1);
    var i2 :| 0 <= i2 <= |s| - |r2| && StripAt(s, r2, i2);
    assert r1[0] == s[i1] && r2[0] == s[i2];
    assert r1[|r1| - 1] == s[i1 + |r1| - 1] && r2[|r2| - 1] == s[i2 + |r2| - 1];
    assert i1 == i2;
    assert |r1| == |r2|;
  }

  /** Array#join(sep) over strings. */
  function Join(parts: seq<string>, sep: string): string {
    if |parts| == 0 then ""
    else if |parts| == 1 then parts[0]
    else parts[0] + sep + Join(parts[1..], sep)
  }

  /**
   * `s` cut at every occurrence of `sep`, empty pieces kept: the inverse
   * of Join for pieces that do not contain `sep`.
   */
  function SplitAt(s: string, sep: char): (r: seq<string>)
    ensures |r| >= 1
    decreases |s|
  {
    if s == [] then [""]
    else
      var rest := SplitAt(s[1..], sep);
      if s[0] == sep then [""] + rest else [[s[0]] + rest[0]] + rest[1..]
  }

  /** Text free of `sep` joins the first piece of whatever follows it. */
  lemma {:induction false} SplitAtPrefix(a: string, t: string, sep: char)
    requires sep !in a
    ensures SplitAt(a + t, sep) == [a + SplitAt(t, sep)[0]] + SplitAt(t, sep)[1..]
    decreases |a|
  {
    if a != [] {
      assert (a + t)[1..] == a[1..] + t;
      SplitAtPrefix(a[1..], t, sep);
      assert [a[0]] + (a[1..] + SplitAt(t, sep)[0]) == a + SplitAt(t, sep)[0];
    } else {
      var r := SplitAt(t, sep);
      assert a + t == t && a + r[0] == r[0];
      assert [r[0]] + r[1..] == r;
    }
  }

  /** Splitting a join at its one-character separator gives back the parts. */
  lemma {:induction false} SplitJoin(parts: seq<string>, sep: char)
    requires |parts| >= 1
    requires forall i | 0 <= i < |parts| :: sep !in parts[i]
    ensures SplitAt(Join(parts, [sep]), sep) == parts
    decreases |parts|
  {
    if |parts| == 1 {
      SplitAtPrefix(parts[0], [], sep);
      assert parts[0] + [] == parts[0];
    } else {
      var rest := Join(parts[1..], [sep]);
      SplitJoin(parts[1..], sep);
      assert parts[0] + [sep] + rest == parts[0] + ([sep] + rest);
      SplitAtPrefix(parts[0], [sep] + rest, sep);
      assert ([sep] + rest)[1..] == rest;
      assert SplitAt([sep] + rest, sep) == [""] + parts[1..];
      assert parts[0] + "" == parts[0];
      assert [parts[0]] + parts[1..] == parts;
    }
  }

  /** Array#join with no separator: the pieces one after the other. */
  function Concat(parts: seq<string>): string {
    if parts == [] then "" else parts[0] + Concat(parts[1..])
  }

  /** Array#index: the position of the first element equal to `x`, or nil. */
  function IndexOf<T(==)>(s: seq<T>, x: T): (r: Option<nat>)
    ensures r.None? <==> x !in s
    ensures r.Some? ==> r.value < |s| && s[r.value] == x && x !in s[..r.value]
  {
    if |s| == 0 then None
    else if s[0] == x then Some(0)
    else match IndexOf(s[1..], x)
      case None => None
      case Some(i) =>
        assert s[..i + 1] == [s[0]] + s[1..][..i];
        Some(i + 1)
  }
}
