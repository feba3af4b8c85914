/** The few Python string operations the core relies on: `in`, `str.split`,
    `str.replace(c, '')` and `list.reverse()`, stated over `string`. */
module Text {

  datatype Option<+T> = None | Some(value: T)

  /** `p` occurs in `s` starting at index `i`. */
  predicate OccursAt(s: string, p: string, i: nat) {
    i + |p| <= |s| && s[i..i + |p|] == p
  }

  /** Shifting the text by one character shifts every occurrence by one. */
  lemma ShiftOccurs(s: string, p: string)
    requires |s| > 0
    ensures forall j: nat :: 1 <= j ==> (OccursAt(s, p, j) <==> OccursAt(s[1..], p, j - 1))
  {
    forall j: nat | 1 <= j
      ensures OccursAt(s, p, j) <==> OccursAt(s[1..], p, j - 1)
    {
      if j + |p| <= |s| {
        assert s[1..][j - 1..j - 1 + |p|] == s[j..j + |p|];
      }
    }
  }

  /** Index of the first occurrence of `p` in `s` (Python's `str.find`, None for -1). */
  function Find(s: string, p: string): (r: Option<nat>)
    ensures r.Some? ==> OccursAt(s, p, r.value)
    decreases |s|
  {
    if |s| < |p| then None
    else if s[..|p|] == p then Some(0)
    else
      match Find(s[1..], p)
      case None => None
      case Some(k) =>
        assert s[1..][k..k + |p|] == s[k + 1..k + 1 + |p|];
        Some(k + 1)
  }

  /** Find reports the first occurrence, and None only when there is none. */
  lemma {:induction false} FindFirst(s: string, p: string)
    ensures Find(s, p).Some? ==> forall j: nat :: j < Find(s, p).value ==> !OccursAt(s, p, j)
    ensures Find(s, p).None? ==> forall j: nat :: !OccursAt(s, p, j)
    decreases |s|
  {
    if |s| >= |p| && s[..|p|] != p {
      FindFirst(s[1..], p);
      ShiftOccurs(s, p);
    }
  }

  /** An occurrence anywhere makes the text contain the pattern. */
  lemma OccursContains(s: string, p: string, j: nat)
    requires OccursAt(s, p, j)
    ensures Contains(s, p)
  {
    FindFirst(s, p);
  }

  /** An occurrence with none before it is the one Find reports. */
  lemma FindAt(s: string, p: string, i: nat)
    requires OccursAt(s, p, i)
    requires forall j: nat :: j < i ==> !OccursAt(s, p, j)
    ensures Find(s, p) == Some(i)
  {
    FindFirst(s, p);
  }

  /** A text that does not contain the one-character text `[c]` has no `c`. */
  lemma NoCharWithout(s: string, c: char)
    requires !Contains(s, [c])
    ensures c !in s
  {
    if c in s {
      var i :| 0 <= i < |s| && s[i] == c;
      assert s[i..i + 1] == [c];
      OccursContains(s, [c], i);
    }
  }

  /** Python's `p in s`. */
  predicate Contains(s: string, p: string): (c: bool)
    ensures c <==> exists j: nat :: OccursAt(s, p, j)
  {
    FindFirst(s, p);
    Find(s, p).Some?
  }

  /** The text after the first occurrence of `sep`. */
  function After(s: string, sep: string): (rest: string)
    requires Contains(s, sep)
    ensures |rest| <= |s| - |sep|
  {
    s[Find(s, sep).value + |sep|..]
  }

  /** Python's `s.split(sep)[1]`: the text after the first occurrence of `sep`,
      up to the next occurrence of `sep` or the end of `s`. */
  function SplitSecond(s: string, sep: string): (r: string)
    requires sep != [] && Contains(s, sep)
    ensures r == After(s, sep) || r + sep <= After(s, sep)
    ensures r <= After(s, sep) && !Contains(r, sep)
    ensures r != After(s, sep) ==> Find(After(s, sep), sep) == Some(|r|)
  {
    var rest := After(s, sep);
    match Find(rest, sep)
    case None => rest
    case Some(k) =>
      FirstInPrefix(rest, sep, k);
      rest[..k]
  }

  /** The text before the first occurrence of `sep` holds no `sep`. */
  lemma FirstInPrefix(s: string, sep: string, k: nat)
    requires sep != [] && Find(s, sep) == Some(k)
    ensures s[..k] + sep <= s
    ensures !Contains(s[..k], sep)
  {
    FindFirst(s, sep);
    var head := s[..k];
    if Find(head, sep).Some? {
      PrefixOccurs(s, sep, k, Find(head, sep).value);
      assert false;
    }
  }

  /** An occurrence in a prefix is an occurrence in the whole text. */
  lemma PrefixOccurs(s: string, p: string, n: nat, j: nat)
    requires n <= |s| && OccursAt(s[..n], p, j)
    ensures OccursAt(s, p, j)
  {
    assert s[..n][j..j + |p|] == s[j..j + |p|];
  }

  /** Python's `s.replace(c, '')` for a one-character `c`. */
  function RemoveChar(s: string, c: char): (r: string)
    ensures c !in r
  {
    if s == [] then [] else (if s[0] == c then [] else [s[0]]) + RemoveChar(s[1..], c)
  }

  /** RemoveChar on a single character. */
  lemma RemoveCharSingle(ch: char, c: char)
    ensures RemoveChar([ch], c) == if ch == c then [] else [ch]
  {
    assert [ch][1..] == [];
    var kept: string := if ch == c then [] else [ch];
    assert kept + [] == kept;
  }

  /** RemoveChar drops every `c` and keeps every other character, as often as it occurs. */
  lemma {:induction false} RemoveCharContents(s: string, c: char)
    ensures multiset(RemoveChar(s, c)) == multiset(s)[c := 0]
  {
    if s != [] {
      RemoveCharContents(s[1..], c);
      assert s == [s[0]] + s[1..];
    }
  }

  /** Removing a character commutes with concatenation, so RemoveChar keeps
      the order of the characters it does not remove. */
  lemma {:induction false} RemoveCharAppend(a: string, b: string, c: char)
    ensures RemoveChar(a + b, c) == RemoveChar(a, c) + RemoveChar(b, c)
  {
    if a == [] {
      assert a + b == b;
    } else {
      assert (a + b)[0] == a[0];
      assert (a + b)[1..] == a[1..] + b;
      RemoveCharAppend(a[1..], b, c);
      var head: string := if a[0] == c then [] else [a[0]];
      assert RemoveChar(a + b, c) == head + RemoveChar(a[1..] + b, c);
      assert RemoveChar(a, c) == head + RemoveChar(a[1..], c);
    }
  }

  /** RemoveChar adds no character. */
  lemma {:induction false} RemoveCharSubset(s: string, c: char, ch: char)
    requires ch !in s
    ensures ch !in RemoveChar(s, c)
  {
    if s != [] {
      RemoveCharSubset(s[1..], c, ch);
    }
  }

  /** A text without `c` is left as it is. */
  lemma {:induction false} RemoveCharAbsent(s: string, c: char)
    requires c !in s
    ensures RemoveChar(s, c) == s
  {
    if s != [] {
      RemoveCharAbsent(s[1..], c);
    }
  }

  /** Python's `s.split(c)` for a one-character separator: consecutive
      separators give empty parts, and there is always at least one part. */
  function SplitOn(s: string, c: char): (parts: seq<string>)
    ensures |parts| >= 1
    ensures forall i :: 0 <= i < |parts| ==> c !in parts[i]
  {
    if s == [] then [[]]
    else
      var tail := SplitOn(s[1..], c);
      if s[0] == c then [[]] + tail
      else [[s[0]] + tail[0]] + tail[1..]
  }

  /** Python's `c.join(parts)`. */
  function Join(parts: seq<string>, c: char): (r: string)
    requires |parts| >= 1
    ensures parts[0] <= r
  {
    if |parts| == 1 then parts[0] else parts[0] + [c] + Join(parts[1..], c)
  }

  /** Joining the parts of a split gives back the text. */
  lemma {:induction false} JoinSplitOn(s: string, c: char)
    ensures Join(SplitOn(s, c), c) == s
  {
    if s != [] {
      var tail := SplitOn(s[1..], c);
      JoinSplitOn(s[1..], c);
      if s[0] == c {
        assert SplitOn(s, c)[1..] == tail;
      } else if |tail| == 1 {
        assert SplitOn(s, c) == [[s[0]] + tail[0]];
      } else {
        assert SplitOn(s, c)[1..] == tail[1..];
        assert Join(tail, c) == tail[0] + [c] + Join(tail[1..], c);
      }
    }
  }

  /** A text without the separator is one part. */
  lemma {:induction false} SplitOnAbsent(s: string, c: char)
    requires c !in s
    ensures SplitOn(s, c) == [s]
  {
    if s != [] {
      assert c !in s[1..] && s[0] != c;
      SplitOnAbsent(s[1..], c);
      assert [s[0]] + s[1..] == s;
    }
  }

  /** A separator followed by a separator-free word adds that word as the last part. */
  lemma {:induction false} SplitOnLastWord(a: string, c: char, w: string)
    requires c !in w
    ensures SplitOn(a + [c] + w, c) == SplitOn(a, c) + [w]
  {
    if a == [] {
      assert a + [c] + w == [c] + w;
      assert ([c] + w)[1..] == w;
      SplitOnAbsent(w, c);
    } else {
      assert (a + [c] + w)[1..] == a[1..] + [c] + w;
      SplitOnLastWord(a[1..], c, w);
    }
  }

  /** Splitting a join of separator-free parts gives back the parts. */
  lemma {:induction false} SplitOnJoin(parts: seq<string>, c: char)
    requires |parts| >= 1
    requires forall i :: 0 <= i < |parts| ==> c !in parts[i]
    ensures SplitOn(Join(parts, c), c) == parts
  {
    if |parts| == 1 {
      SplitOnAbsent(parts[0], c);
    } else {
      SplitOnJoin(parts[..|parts| - 1], c);
      JoinLast(parts, c);
      SplitOnLastWord(Join(parts[..|parts| - 1], c), c, parts[|parts| - 1]);
      assert parts[..|parts| - 1] + [parts[|parts| - 1]] == parts;
    }
  }

  /** Join peels off its last part as well as its first. */
  lemma {:induction false} JoinLast(parts: seq<string>, c: char)
    requires |parts| >= 2
    ensures Join(parts, c) == Join(parts[..|parts| - 1], c) + [c] + parts[|parts| - 1]
  {
    if |parts| > 2 {
      JoinLast(parts[1..], c);
      assert parts[1..][..|parts| - 2] == parts[..|parts| - 1][1..];
    }
  }

  /** There is only one prefix of `x` without `c` that runs up to a `c` or
      to the end of `x`. */
  lemma PrefixUntilUnique(x: string, c: char, r: string, t: string)
    requires r <= x && c !in r && (|r| == |x| || x[|r|] == c)
    requires t <= x && c !in t && (|t| == |x| || x[|t|] == c)
    ensures r == t
  {
  }

  /** Python's `list.reverse()`, as a value. */
  function Reverse<T>(s: seq<T>): (r: seq<T>)
    ensures |r| == |s|
    ensures forall i :: 0 <= i < |s| ==> r[i] == s[|s| - 1 - i]
  {
    if s == [] then [] else Reverse(s[1..]) + [s[0]]
  }

  /** The prefix of `s` before the first `c`, or all of `s` when there is no `c`. */
  function TakeUntil(s: string, c: char): (r: string)
    ensures c !in r && r <= s
    ensures |r| == |s| || s[|r|] == c
  {
    if s == [] || s[0] == c then [] else [s[0]] + TakeUntil(s[1..], c)
  }
}
