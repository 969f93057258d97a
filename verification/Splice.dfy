/**
 The edit that turns one text into another: cut the common prefix and suffix
 and replace what is left (packages/offline/src/yjs-notes.ts:78-99).
 */
module Splice {

  function CommonPrefix(a: string, b: string): (n: nat)
    ensures n <= |a| && n <= |b|
  {
    if a == [] || b == [] || a[0] != b[0] then 0 else 1 + CommonPrefix(a[1..], b[1..])
  }

  function CommonSuffix(a: string, b: string): (n: nat)
    ensures n <= |a| && n <= |b|
  {
    if a == [] || b == [] || a[|a| - 1] != b[|b| - 1] then 0 else 1 + CommonSuffix(a[..|a| - 1], b[..|b| - 1])
  }

  lemma {:induction false} PrefixIsShared(a: string, b: string)
    ensures a[..CommonPrefix(a, b)] == b[..CommonPrefix(a, b)]
  {
    if CommonPrefix(a, b) > 0 {
      PrefixIsShared(a[1..], b[1..]);
      assert a == [a[0]] + a[1..] && b == [b[0]] + b[1..];
    }
  }

  lemma {:induction false} SuffixIsShared(a: string, b: string)
    ensures a[|a| - CommonSuffix(a, b)..] == b[|b| - CommonSuffix(a, b)..]
  {
    if CommonSuffix(a, b) > 0 {
      var n := CommonSuffix(a, b) - 1;
      SuffixIsShared(a[..|a| - 1], b[..|b| - 1]);
      assert a[|a| - 1 - n..] == a[..|a| - 1][|a| - 1 - n..] + [a[|a| - 1]];
      assert b[|b| - 1 - n..] == b[..|b| - 1][|b| - 1 - n..] + [b[|b| - 1]];
    }
  }

  lemma {:induction false} PrefixIsLongest(a: string, b: string, n: nat)
    requires n <= |a| && n <= |b| && a[..n] == b[..n]
    ensures n <= CommonPrefix(a, b)
    decreases n
  {
    if n > 0 {
      assert a[0] == a[..n][0] == b[..n][0] == b[0];
      assert a[1..][..n - 1] == a[..n][1..] && b[1..][..n - 1] == b[..n][1..];
      PrefixIsLongest(a[1..], b[1..], n - 1);
    }
  }

  lemma {:induction false} SuffixIsLongest(a: string, b: string, n: nat)
    requires n <= |a| && n <= |b| && a[|a| - n..] == b[|b| - n..]
    ensures n <= CommonSuffix(a, b)
    decreases n
  {
    if n > 0 {
      var front, front' := a[..|a| - 1], b[..|b| - 1];
      assert a[|a| - 1] == a[|a| - n..][n - 1] == b[|b| - n..][n - 1] == b[|b| - 1];
      assert front[|front| - (n - 1)..] == a[|a| - n..][..n - 1];
      assert front'[|front'| - (n - 1)..] == b[|b| - n..][..n - 1];
      SuffixIsLongest(front, front', n - 1);
    }
  }

  /** The text after `removed` units at `at` are replaced by `inserted`. */
  function Spliced(text: string, at: nat, removed: nat, inserted: string): string
    requires at + removed <= |text|
  {
    text[..at] + inserted + text[at + removed..]
  }

  /** What two rests share at the end, the whole texts share at the end. */
  lemma SharedTails(a: string, b: string, x: string, y: string, p: nat, s: nat)
    requires p <= |a| && p <= |b| && x == a[p..] && y == b[p..]
    requires s <= |x| && s <= |y| && x[|x| - s..] == y[|y| - s..]
    ensures a[|a| - s..] == b[|b| - s..]
  {
    assert x[|x| - s..] == a[|a| - s..];
    assert y[|y| - s..] == b[|b| - s..];
  }

  /** The shared text both loops of the original leave alone: a longest prefix,
      then a longest suffix that does not reach into it. */
  function Kept(current: string, next: string): (r: (nat, nat))
    ensures r.0 + r.1 <= |current| && r.0 + r.1 <= |next|
  {
    var p := CommonPrefix(current, next);
    var s := CommonSuffix(current[p..], next[p..]);
    (p, s)
  }

  lemma KeptPrefix(current: string, next: string)
    ensures current[..Kept(current, next).0] == next[..Kept(current, next).0]
  {
    PrefixIsShared(current, next);
  }

  lemma KeptSuffix(current: string, next: string, p: nat, s: nat)
    requires (p, s) == Kept(current, next)
    ensures current[|current| - s..] == next[|next| - s..]
  {
    var x, y := current[p..], next[p..];
    SuffixIsShared(x, y);
    SharedTails(current, next, x, y, p, s);
  }

  /** Any splice that produces `next` keeps a prefix and a suffix in common. */
  lemma SpliceKeepsEnds(current: string, next: string, at: nat, removed: nat, inserted: string)
    requires at + removed <= |current| && Spliced(current, at, removed, inserted) == next
    ensures at <= |next| && current[..at] == next[..at]
    ensures var tail := |current| - at - removed;
            tail <= |next| - at && current[|current| - tail..] == next[|next| - tail..]
  {
    var tail := |current| - at - removed;
    assert next[..at] == current[..at];
    assert next[|next| - tail..] == current[at + removed..];
  }

  lemma TailShrinks(a: string, b: string, n: nat, t: nat)
    requires t <= n <= |a| && n <= |b| && a[|a| - n..] == b[|b| - n..]
    ensures a[|a| - t..] == b[|b| - t..]
  {
    assert a[|a| - t..] == a[|a| - n..][n - t..];
    assert b[|b| - t..] == b[|b| - n..][n - t..];
  }

  lemma SharedTail(a: string, b: string, p: nat, t: nat)
    requires p + t <= |a| && p + t <= |b| && a[|a| - t..] == b[|b| - t..]
    ensures t <= CommonSuffix(a[p..], b[p..])
  {
    assert a[p..][|a[p..]| - t..] == a[|a| - t..];
    assert b[p..][|b[p..]| - t..] == b[|b| - t..];
    SuffixIsLongest(a[p..], b[p..], t);
  }

  /** A shared beginning and a shared end that do not overlap are never longer
      together than what is kept. */
  lemma KeptIsLongest(a: string, b: string, at: nat, tail: nat)
    requires at + tail <= |a| && at + tail <= |b|
    requires a[..at] == b[..at] && a[|a| - tail..] == b[|b| - tail..]
    ensures at + tail <= Kept(a, b).0 + Kept(a, b).1
  {
    var p := CommonPrefix(a, b);
    PrefixIsLongest(a, b, at);
    var room := if |a| < |b| then |a| - p else |b| - p;
    if tail <= room {
      SharedTail(a, b, p, tail);
    } else {
      TailShrinks(a, b, tail, room);
      SharedTail(a, b, p, room);
    }
  }

  /** No single replacement removes or inserts fewer units. */
  lemma SpliceIsMinimal(current: string, next: string, at: nat, removed: nat, inserted: string)
    requires at + removed <= |current| && Spliced(current, at, removed, inserted) == next
    ensures var (p, s) := Kept(current, next);
            |current| - p - s <= removed && |next| - p - s <= |inserted|
  {
    SpliceKeepsEnds(current, next, at, removed, inserted);
    KeptIsLongest(current, next, at, |current| - at - removed);
  }

  lemma KeptSplice(current: string, next: string)
    ensures var (p, s) := Kept(current, next);
            Spliced(current, p, |current| - p - s, next[p..|next| - s]) == next
  {
    var (p, s) := Kept(current, next);
    KeptPrefix(current, next);
    KeptSuffix(current, next, p, s);
    Middle(current, next, p, s);
  }

  /** Two texts with the same ends differ by what is between them. */
  lemma Middle(a: string, b: string, p: nat, s: nat)
    requires p + s <= |a| && p + s <= |b| && a[..p] == b[..p] && a[|a| - s..] == b[|b| - s..]
    ensures Spliced(a, p, |a| - p - s, b[p..|b| - s]) == b
  {
    assert b == b[..p] + b[p..|b| - s] + b[|b| - s..];
  }

  /** The text after the edit that `Kept` leaves over. */
  function Replaced(current: string, next: string): string {
    var (p, s) := Kept(current, next);
    Spliced(current, p, |current| - p - s, next[p..|next| - s])
  }

  lemma ReplacedIsNext(current: string, next: string)
    ensures Replaced(current, next) == next
  {
    KeptSplice(current, next);
  }

  class Text {
    var chars: string

    constructor (initial: string)
      ensures chars == initial
    {
      chars := initial;
    }

    method Delete(at: nat, count: nat)
      requires at + count <= |chars|
      modifies this
      ensures chars == old(chars)[..at] + old(chars)[at + count..]
    {
      chars := chars[..at] + chars[at + count..];
    }

    method InsertAt(at: nat, inserted: string)
      requires at <= |chars|
      modifies this
      ensures chars == old(chars)[..at] + inserted + old(chars)[at..]
    {
      chars := chars[..at] + inserted + chars[at..];
    }
  }

  method ScanPrefix(current: string, next: string) returns (prefix: nat)
    ensures prefix == CommonPrefix(current, next)
  {
    prefix := 0;
    while prefix < |current| && prefix < |next| && current[prefix] == next[prefix]
      invariant prefix <= |current| && prefix <= |next|
      invariant CommonPrefix(current, next) == prefix + CommonPrefix(current[prefix..], next[prefix..])
    {
      assert current[prefix..][1..] == current[prefix + 1..];
      assert next[prefix..][1..] == next[prefix + 1..];
      prefix := prefix + 1;
    }
  }

  lemma SuffixStep(a: string, b: string, n: nat)
    requires n < |a| && n < |b| && a[|a| - 1 - n] == b[|b| - 1 - n]
    ensures CommonSuffix(a[..|a| - n], b[..|b| - n]) == 1 + CommonSuffix(a[..|a| - (n + 1)], b[..|b| - (n + 1)])
  {
    assert a[..|a| - n][..|a| - n - 1] == a[..|a| - (n + 1)];
    assert b[..|b| - n][..|b| - n - 1] == b[..|b| - (n + 1)];
  }

  lemma SuffixStops(a: string, b: string, n: nat)
    requires n <= |a| && n <= |b|
    requires n == |a| || n == |b| || a[|a| - 1 - n] != b[|b| - 1 - n]
    ensures CommonSuffix(a[..|a| - n], b[..|b| - n]) == 0
  {
  }

  method ScanSuffix(current: string, next: string, prefix: nat) returns (suffix: nat)
    requires prefix <= |current| && prefix <= |next|
    ensures suffix == CommonSuffix(current[prefix..], next[prefix..])
  {
    ghost var a, b := current[prefix..], next[prefix..];
    assert a[..|a|] == a && b[..|b|] == b;
    suffix := 0;
    while suffix < |current| - prefix && suffix < |next| - prefix
          && current[|current| - 1 - suffix] == next[|next| - 1 - suffix]
      invariant suffix <= |a| && suffix <= |b|
      invariant CommonSuffix(a, b) == suffix + CommonSuffix(a[..|a| - suffix], b[..|b| - suffix])
    {
      SuffixStep(a, b, suffix);
      suffix := suffix + 1;
    }
    SuffixStops(a, b, suffix);
  }

  /** The text before, between and after the kept ends. */
  lemma DeleteThenInsert(current: string, p: nat, removed: nat, inserted: string)
    requires p + removed <= |current|
    ensures var cut := current[..p] + current[p + removed..];
            cut[..p] + inserted + cut[p..] == Spliced(current, p, removed, inserted)
  {
    var cut := current[..p] + current[p + removed..];
    assert cut[..p] == current[..p] && cut[p..] == current[p + removed..];
  }

  method ScanEnds(current: string, next: string) returns (prefix: nat, suffix: nat)
    ensures (prefix, suffix) == Kept(current, next)
  {
    prefix := ScanPrefix(current, next);
    suffix := ScanSuffix(current, next, prefix);
  }

  lemma KeptIsMinimal(current: string, next: string)
    ensures var (p, s) := Kept(current, next);
            forall at: nat, d: nat, i: string | at + d <= |current| && Spliced(current, at, d, i) == next ::
              |current| - p - s <= d && |next| - p - s <= |i|
  {
    forall at: nat, d: nat, i: string | at + d <= |current| && Spliced(current, at, d, i) == next
      ensures |current| - Kept(current, next).0 - Kept(current, next).1 <= d
      ensures |next| - Kept(current, next).0 - Kept(current, next).1 <= |i|
    {
      SpliceIsMinimal(current, next, at, d, i);
    }
  }

  /** One deletion and one insertion at the same place; empty ones are left out. */
  method Replace(text: Text, at: nat, removed: nat, inserted: string)
    requires at + removed <= |text.chars|
    modifies text
    ensures text.chars == Spliced(old(text.chars), at, removed, inserted)
  {
    DeleteThenInsert(text.chars, at, removed, inserted);
    if removed > 0 {
      text.Delete(at, removed);
    } else {
      assert text.chars[..at] + text.chars[at..] == text.chars;
    }
    if |inserted| > 0 {
      text.InsertAt(at, inserted);
    } else {
      assert text.chars[..at] + text.chars[at..] == text.chars;
    }
  }

  /** replaceMarkdown. The out-parameters report the edit that was made. */
  method ReplaceMarkdown(text: Text, current: string, next: string)
    returns (at: nat, removed: nat, inserted: string)
    requires text.chars == current
    modifies text
    ensures text.chars == next
    ensures at + removed <= |current| && Spliced(current, at, removed, inserted) == next
    ensures forall p: nat, d: nat, i: string | p + d <= |current| && Spliced(current, p, d, i) == next ::
              removed <= d && |inserted| <= |i|
  {
    var prefix, suffix := ScanEnds(current, next);
    at, removed, inserted := prefix, |current| - prefix - suffix, next[prefix..|next| - suffix];
    KeptSplice(current, next);
    KeptIsMinimal(current, next);
    Replace(text, at, removed, inserted);
  }
}
