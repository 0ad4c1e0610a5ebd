/** The part of Go's `path/filepath` the configuration path relies on:
    `Join` glues the non-empty elements together with the platform separator.
    `Split` cuts a path at every separator, like `strings.Split`, and serves
    as the inverse against which `Join` is checked. */
module FilePath {

  /** The elements of `elems` that are not empty, in their original order. */
  function NonEmpty(elems: seq<string>): (r: seq<string>)
    ensures |r| <= |elems|
    ensures forall i :: 0 <= i < |r| ==> r[i] != "" && r[i] in elems
    ensures (forall i :: 0 <= i < |elems| ==> elems[i] == "") <==> r == []
  {
    if |elems| == 0 then []
    else if elems[0] == "" then NonEmpty(elems[1..])
    else [elems[0]] + NonEmpty(elems[1..])
  }

  /** The parts written one after the other with `sep` between neighbours. */
  function JoinParts(sep: char, parts: seq<string>): string
  {
    if |parts| == 0 then ""
    else if |parts| == 1 then parts[0]
    else parts[0] + [sep] + JoinParts(sep, parts[1..])
  }

  /** `filepath.Join(elems...)` before lexical cleaning: empty elements are
      ignored, and the rest are separated by `sep`. */
  function Join(sep: char, elems: seq<string>): (r: string)
    ensures r == "" <==> forall i :: 0 <= i < |elems| ==> elems[i] == ""
  {
    var parts := NonEmpty(elems);
    JoinPartsEmpty(sep, parts);
    JoinParts(sep, parts)
  }

  /** Joining non-empty parts gives the empty string only when there are no
      parts at all. */
  lemma {:induction false} JoinPartsEmpty(sep: char, parts: seq<string>)
    requires forall i :: 0 <= i < |parts| ==> parts[i] != ""
    ensures JoinParts(sep, parts) == "" <==> parts == []
  {
    if |parts| > 1 {
      assert |JoinParts(sep, parts)| >= |parts[0]| > 0;
    }
  }

  /** Position of the first `c` in `s`. */
  function IndexOf(c: char, s: string): (i: nat)
    requires c in s
    ensures i < |s| && s[i] == c && c !in s[..i]
  {
    if s[0] == c then 0
    else
      assert c in s[1..] by {
        var k :| 0 <= k < |s| && s[k] == c;
        assert s[1..][k - 1] == c;
      }
      var j := IndexOf(c, s[1..]);
      assert s[..j + 1] == [s[0]] + s[1..][..j];
      j + 1
  }

  /** `strings.Split(s, string(sep))`: the maximal separator-free pieces of
      `s`, in order. The empty string splits into one empty piece. */
  function Split(sep: char, s: string): (r: seq<string>)
    ensures |r| >= 1
    decreases |s|
  {
    if sep !in s then [s]
    else
      var i := IndexOf(sep, s);
      [s[..i]] + Split(sep, s[i + 1..])
  }

  /** The first occurrence is the only position before which `c` is absent. */
  lemma IndexOfIs(c: char, s: string, i: nat)
    requires i < |s| && s[i] == c && c !in s[..i]
    ensures IndexOf(c, s) == i
  {
    var j := IndexOf(c, s);
  }

  /** Splitting at the first separator, stated through its position. */
  lemma SplitFirst(sep: char, s: string, i: nat)
    requires i < |s| && s[i] == sep && sep !in s[..i]
    ensures Split(sep, s) == [s[..i]] + Split(sep, s[i + 1..])
  {
    IndexOfIs(sep, s, i);
  }

  /** A separator-free prefix is the first piece. */
  lemma SplitAfterAtom(sep: char, a: string, b: string)
    requires sep !in a
    ensures Split(sep, a + [sep] + b) == [a] + Split(sep, b)
  {
    var s := a + [sep] + b;
    assert s[..|a|] == a;
    assert s[|a| + 1..] == b;
    SplitFirst(sep, s, |a|);
  }

  /** The first separator of `a` is also the first of `a + [sep] + b`. */
  lemma SplitBeforeAppend(sep: char, a: string, b: string, k: nat)
    requires k < |a| && a[k] == sep && sep !in a[..k]
    ensures Split(sep, a + [sep] + b) == [a[..k]] + Split(sep, a[k + 1..] + [sep] + b)
  {
    var s := a + [sep] + b;
    assert s[..k] == a[..k];
    assert s[k + 1..] == a[k + 1..] + [sep] + b;
    SplitFirst(sep, s, k);
  }

  /** Re-associating a piece list that starts with a known first piece. */
  lemma ConsAppend(s: seq<string>, t: seq<string>, x: string, l: seq<string>, r: seq<string>)
    requires s == [x] + (l + r) && t == [x] + l
    ensures s == t + r
  {
  }

  /** Cutting at a separator splits the two sides independently. */
  lemma {:induction false} SplitAppend(sep: char, a: string, b: string)
    ensures Split(sep, a + [sep] + b) == Split(sep, a) + Split(sep, b)
    decreases |a|
  {
    if sep !in a {
      SplitAfterAtom(sep, a, b);
    } else {
      var k := IndexOf(sep, a);
      var rest := a[k + 1..];
      SplitBeforeAppend(sep, a, b, k);
      SplitFirst(sep, a, k);
      SplitAppend(sep, rest, b);
      ConsAppend(Split(sep, a + [sep] + b), Split(sep, a), a[..k], Split(sep, rest), Split(sep, b));
    }
  }

  /** A piece without separators splits into itself. */
  lemma SplitAtom(sep: char, a: string)
    requires sep !in a
    ensures Split(sep, a) == [a]
  {
  }

  /** `Split` inverts `JoinParts` on non-empty, separator-free parts. */
  lemma {:induction false} SplitJoinParts(sep: char, parts: seq<string>)
    requires |parts| >= 1
    requires forall i :: 0 <= i < |parts| ==> sep !in parts[i]
    ensures Split(sep, JoinParts(sep, parts)) == parts
  {
    if |parts| > 1 {
      SplitAppend(sep, parts[0], JoinParts(sep, parts[1..]));
      SplitJoinParts(sep, parts[1..]);
      assert parts == [parts[0]] + parts[1..];
    }
  }

  /** Round trip: splitting a joined path gives back exactly the non-empty
      elements, provided no element contains the separator. */
  lemma SplitJoin(sep: char, elems: seq<string>)
    requires exists i :: 0 <= i < |elems| && elems[i] != ""
    requires forall i :: 0 <= i < |elems| ==> sep !in elems[i]
    ensures Split(sep, Join(sep, elems)) == NonEmpty(elems)
  {
    var parts := NonEmpty(elems);
    forall i | 0 <= i < |parts|
      ensures sep !in parts[i]
    {
      var j :| 0 <= j < |elems| && elems[j] == parts[i];
    }
    SplitJoinParts(sep, parts);
  }

  /** Joining a possibly empty base with two non-empty names. */
  lemma JoinThree(sep: char, base: string, dir: string, file: string)
    requires dir != "" && file != ""
    ensures base != "" ==> Join(sep, [base, dir, file]) == base + [sep] + (dir + [sep] + file)
    ensures base == "" ==> Join(sep, [base, dir, file]) == dir + [sep] + file
  {
    assert [dir, file][1..] == [file];
    assert [base, dir, file][1..] == [dir, file];
    assert NonEmpty([dir, file]) == [dir, file];
    assert JoinParts(sep, [dir, file]) == dir + [sep] + file;
    if base != "" {
      assert NonEmpty([base, dir, file]) == [base, dir, file];
    }
  }

  /** Joining a possibly empty base with one non-empty name. */
  lemma JoinTwo(sep: char, base: string, name: string)
    requires name != ""
    ensures base != "" ==> Join(sep, [base, name]) == base + [sep] + name
    ensures base == "" ==> Join(sep, [base, name]) == name
  {
    assert [base, name][1..] == [name];
    assert NonEmpty([name]) == [name];
    if base != "" {
      assert NonEmpty([base, name]) == [base, name];
      assert JoinParts(sep, [base, name]) == base + [sep] + JoinParts(sep, [name]);
    }
  }

  /** Splitting `dir + [sep] + file` gives the two names back. */
  lemma SplitPair(sep: char, dir: string, file: string)
    requires sep !in dir && sep !in file
    ensures Split(sep, dir + [sep] + file) == [dir, file]
  {
    SplitAfterAtom(sep, dir, file);
    SplitAtom(sep, file);
  }

  /** Joining a base with two separator-free, non-empty names: the result is
      the base, a separator, then the names; the last two pieces of the split
      path are the two names, whatever the base holds. */
  lemma JoinUnder(sep: char, base: string, dir: string, file: string)
    requires dir != "" && file != ""
    requires sep !in dir && sep !in file
    ensures base != "" ==> Join(sep, [base, dir, file]) == base + [sep] + dir + [sep] + file
    ensures base == "" ==> Join(sep, [base, dir, file]) == dir + [sep] + file
    ensures var pieces := Split(sep, Join(sep, [base, dir, file]));
            |pieces| >= 2 && pieces[|pieces| - 2..] == [dir, file]
  {
    var tail := dir + [sep] + file;
    JoinThree(sep, base, dir, file);
    SplitPair(sep, dir, file);
    if base != "" {
      assert base + [sep] + dir + [sep] + file == base + [sep] + tail;
      SplitAppend(sep, base, tail);
      var pieces := Split(sep, base) + [dir, file];
      assert pieces[|pieces| - 2..] == [dir, file];
    }
  }
}
