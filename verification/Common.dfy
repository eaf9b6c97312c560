/** Small shared vocabulary: optional values, the concatenation of a list of pieces (the
    chunks of a stream, the deltas it releases), bringing a number into a range, and
    lower-casing of ASCII letters as `to_ascii_lowercase` does it. */
module Common {

  datatype Option<+T> = None | Some(value: T)

  /** The concatenation of a list of sequences, first to last. */
  function Flatten<T>(parts: seq<seq<T>>): (r: seq<T>) {
    if parts == [] then [] else parts[0] + Flatten(parts[1..])
  }

  lemma {:induction false} FlattenAppend<T>(a: seq<seq<T>>, b: seq<seq<T>>)
    ensures Flatten(a + b) == Flatten(a) + Flatten(b)
  {
    if a == [] {
      assert a + b == b;
    } else {
      assert (a + b)[1..] == a[1..] + b;
      FlattenAppend(a[1..], b);
    }
  }

  lemma {:induction false} FlattenSnoc<T>(a: seq<seq<T>>, last: seq<T>)
    ensures Flatten(a + [last]) == Flatten(a) + last
  {
    FlattenAppend(a, [last]);
    assert Flatten([last]) == last + Flatten<T>([]);
  }

  /** `k` brought into [lo, hi]. */
  function Clamp(k: nat, lo: nat, hi: nat): (r: nat)
    requires lo <= hi
    ensures lo <= r <= hi
  {
    if k <= lo then lo else if k <= hi then k else hi
  }

  /** ASCII lower-casing of one character; everything outside 'A'..'Z' is kept. */
  function LowerChar(c: char): char {
    if 'A' <= c <= 'Z' then ((c as int) + 32) as char else c
  }

  /** Letter by letter. */
  lemma {:induction false} LowerCharExactly(k: nat)
    requires k < 26
    ensures LowerChar("ABCDEFGHIJKLMNOPQRSTUVWXYZ"[k]) == "abcdefghijklmnopqrstuvwxyz"[k]
    ensures forall c: char :: c !in "ABCDEFGHIJKLMNOPQRSTUVWXYZ" ==> LowerChar(c) == c
  {
    forall c: char | 'A' <= c <= 'Z' ensures c in "ABCDEFGHIJKLMNOPQRSTUVWXYZ" {
      assert "ABCDEFGHIJKLMNOPQRSTUVWXYZ"[c as int - 'A' as int] == c;
    }
  }

  function Lower(s: string): (r: string)
    ensures |r| == |s|
    ensures forall i :: 0 <= i < |s| ==> r[i] == LowerChar(s[i])
  {
    if s == [] then [] else [LowerChar(s[0])] + Lower(s[1..])
  }

  predicate Contains(s: string, part: string) {
    part <= s || (s != "" && Contains(s[1..], part))
  }

  /** The part stands somewhere in the text. */
  ghost predicate Occurs(s: string, part: string) {
    exists i :: 0 <= i <= |s| && part <= s[i..]
  }

  lemma {:induction false} ContainsExactly(s: string, part: string)
    ensures Contains(s, part) <==> Occurs(s, part)
  {
    assert s[0..] == s;
    if s == "" {
      assert forall i :: 0 <= i <= |s| ==> s[i..] == s;
    } else {
      var t := s[1..];
      ContainsExactly(t, part);
      assert forall i :: 0 <= i <= |t| ==> t[i..] == s[i + 1..];
      assert forall i :: 0 < i <= |s| ==> s[i..] == t[i - 1..];
    }
  }

  datatype Ordering = Less | Equal | Greater

  function Reverse(o: Ordering): Ordering {
    match o case Less => Greater case Equal => Equal case Greater => Less
  }

  function CompareInt(a: int, b: int): Ordering {
    if a < b then Less else if a > b then Greater else Equal
  }

  /** Lexicographic by code point, which is also the order of the UTF-8 bytes. */
  function CompareString(a: string, b: string): Ordering {
    if a == "" then (if b == "" then Equal else Less)
    else if b == "" then Greater
    else if a[0] != b[0] then CompareInt(a[0] as int, b[0] as int)
    else CompareString(a[1..], b[1..])
  }

  lemma {:induction false} CompareStringLaws(a: string, b: string)
    ensures CompareString(b, a) == Reverse(CompareString(a, b))
    ensures CompareString(a, b) == Equal <==> a == b
  {
    if a != "" && b != "" && a[0] == b[0] {
      CompareStringLaws(a[1..], b[1..]);
      assert a == [a[0]] + a[1..] && b == [b[0]] + b[1..];
    }
  }

  lemma {:induction false} CompareStringTransitive(a: string, b: string, c: string)
    requires CompareString(a, b) != Greater && CompareString(b, c) != Greater
    ensures CompareString(a, c) != Greater
  {
    if a != "" && b != "" && c != "" && a[0] == b[0] && b[0] == c[0] {
      CompareStringTransitive(a[1..], b[1..], c[1..]);
    }
  }

  /** `a` comes before `b` in a dictionary: it is a beginning of `b`, or smaller where they part. */
  ghost predicate Before(a: string, b: string) {
    (a <= b && a != b) || exists i :: PartAt(a, b, i)
  }

  ghost predicate PartAt(a: string, b: string, i: nat) {
    i < |a| && i < |b| && a[..i] == b[..i] && a[i] < b[i]
  }

  lemma {:induction false} CompareStringExactly(a: string, b: string)
    ensures CompareString(a, b) == Less <==> Before(a, b)
  {
    if a != "" && b != "" {
      hide Before, PartAt;
      BeforeStep(a, b);
      if a[0] == b[0] { CompareStringExactly(a[1..], b[1..]); }
    }
  }

  lemma {:induction false} BeforeStep(a: string, b: string)
    requires a != "" && b != ""
    ensures Before(a, b) <==> a[0] < b[0] || (a[0] == b[0] && Before(a[1..], b[1..]))
  {
    var x, y := a[1..], b[1..];
    assert a == [a[0]] + x && b == [b[0]] + y;
    if a[0] < b[0] { assert a[..0] == b[..0] && PartAt(a, b, 0); }
    forall i: nat | PartAt(a, b, i) && i > 0 ensures a[0] == b[0] && PartAt(x, y, i - 1) {
      assert a[0] == a[..i][0] == b[..i][0] == b[0];
      assert x[..i - 1] == a[..i][1..] == b[..i][1..] == y[..i - 1];
    }
    if a[0] == b[0] {
      forall i: nat | PartAt(x, y, i) ensures PartAt(a, b, i + 1) {
        assert a[..i + 1] == [a[0]] + x[..i] && b[..i + 1] == [b[0]] + y[..i];
      }
    }
  }
}
