/** Scene paths in their order: ancestors first, siblings by name. */
module Paths {

  import opened SceneServer

  /** A path as letters: every name is closed by the least of them, so that a
      name stands before the names it begins, and both before any sibling after. */
  function Letters(p: Path): seq<int> {
    match p
    case EmptyPath => []
    case RootPath => [1]
    case Child(parent, name) => Letters(parent) + Codes(name) + [0]
  }

  function Codes(name: string): (r: seq<int>)
    ensures |r| == |name| && forall i :: 0 <= i < |r| ==> r[i] == 2 + name[i] as int
  {
    seq(|name|, i requires 0 <= i < |name| => 2 + name[i] as int)
  }

  predicate Lower(a: seq<int>, b: seq<int>) {
    b != [] && (a == [] || a[0] < b[0] || (a[0] == b[0] && Lower(a[1..], b[1..])))
  }

  predicate Before(a: Path, b: Path) { Lower(Letters(a), Letters(b)) }

  lemma {:induction false} LowerIsTotal(a: seq<int>, b: seq<int>)
    ensures Lower(a, b) || a == b || Lower(b, a)
    ensures !(Lower(a, b) && Lower(b, a))
  {
    if a != [] && b != [] && a[0] == b[0] {
      LowerIsTotal(a[1..], b[1..]);
      if a[1..] == b[1..] { assert a == [a[0]] + a[1..] && b == [b[0]] + b[1..]; }
    }
  }

  lemma {:induction false} LowerIsTransitive(a: seq<int>, b: seq<int>, c: seq<int>)
    requires Lower(a, b) && Lower(b, c)
    ensures Lower(a, c)
  {
    if a != [] && a[0] == b[0] == c[0] { LowerIsTransitive(a[1..], b[1..], c[1..]); }
  }

  /** Where the last name of a path begins among its letters. */
  lemma LastName(p: Path)
    requires p.Child?
    ensures var ls, k := Letters(p), |Letters(p.parent)|;
      && |ls| == k + |p.name| + 1 && ls[..k] == Letters(p.parent)
      && (forall i :: k <= i < |ls| - 1 ==> ls[i] == 2 + p.name[i - k] as int)
      && (k > 0 ==> ls[k - 1] < 2)
  {
    var k := |Letters(p.parent)|;
    if p.parent.Child? { assert Letters(p)[k - 1] == Letters(p.parent)[k - 1] == 0; }
  }

  lemma {:induction false} LettersDiffer(p: Path, q: Path)
    requires Letters(p) == Letters(q)
    ensures p == q
  {
    var ls := Letters(p);
    if p.Child? { assert ls[|ls| - 1] == 0; }
    if q.Child? { assert ls[|ls| - 1] == 0; }
    if p.Child? && q.Child? {
      LastName(p);
      LastName(q);
      var j, k := |Letters(p.parent)|, |Letters(q.parent)|;
      assert j == k;
      LettersDiffer(p.parent, q.parent);
      forall i | 0 <= i < |p.name| ensures p.name[i] == q.name[i] {
        assert ls[k + i] == 2 + p.name[i] as int == 2 + q.name[i] as int;
      }
    }
  }

  /** Any two paths are ordered, one way only. */
  lemma PathsAreOrdered(a: Path, b: Path)
    ensures Before(a, b) || a == b || Before(b, a)
    ensures !(Before(a, b) && Before(b, a)) && !Before(a, a)
  {
    LowerIsTotal(Letters(a), Letters(b));
    LowerIsTotal(Letters(a), Letters(a));
    if Letters(a) == Letters(b) { LettersDiffer(a, b); }
  }

  lemma BeforeIsTransitive(a: Path, b: Path, c: Path)
    requires Before(a, b) && Before(b, c)
    ensures Before(a, c)
  {
    LowerIsTransitive(Letters(a), Letters(b), Letters(c));
  }

  // ---------------------------------------------------------------- which way round

  /** `d` is the path itself or stands somewhere below it. */
  ghost predicate Within(a: Path, d: Path) {
    d == a || (d.Child? && Within(a, d.parent))
  }

  /** Where two names part, the one that ends or has the smaller letter is first. */
  ghost predicate Earlier(x: string, y: string, k: nat) {
    k <= |x| && k < |y| && x[..k] == y[..k] && (k == |x| || x[k] < y[k])
  }

  lemma {:induction false} PartsAt(pre: seq<int>, c: int, d: int, u: seq<int>, v: seq<int>)
    requires c < d
    ensures Lower(pre + [c] + u, pre + [d] + v)
  {
    if pre == [] {
      assert (pre + [c] + u)[0] == c && (pre + [d] + v)[0] == d;
    } else {
      PartsAt(pre[1..], c, d, u, v);
      assert (pre + [c] + u)[1..] == pre[1..] + [c] + u && (pre + [d] + v)[1..] == pre[1..] + [d] + v;
    }
  }

  lemma {:induction false} PrefixIsLower(pre: seq<int>, rest: seq<int>)
    requires rest != []
    ensures Lower(pre, pre + rest)
  {
    if pre != [] {
      PrefixIsLower(pre[1..], rest);
      assert (pre + rest)[1..] == pre[1..] + rest;
    } else {
      assert pre + rest == rest;
    }
  }

  lemma {:induction false} LettersWithin(a: Path, d: Path) returns (rest: seq<int>)
    requires Within(a, d)
    ensures Letters(d) == Letters(a) + rest && (d != a ==> rest != [])
  {
    if d == a { return []; }
    var up := LettersWithin(a, d.parent);
    rest := up + Codes(d.name) + [0];
  }

  /** An ancestor stands before everything below it. */
  lemma AncestorsFirst(a: Path, d: Path)
    requires Within(a, d) && d != a
    ensures Before(a, d)
  {
    var rest := LettersWithin(a, d);
    PrefixIsLower(Letters(a), rest);
  }

  lemma SplitAt(up: seq<int>, name: seq<int>, rest: seq<int>, k: nat)
    requires k < |name|
    ensures up + name + rest == (up + name[..k]) + [name[k]] + (name[k + 1..] + rest)
  {
    assert name == name[..k] + [name[k]] + name[k + 1..];
  }

  lemma CodesPart(x: string, y: string, k: nat)
    requires Earlier(x, y, k)
    ensures var xs, ys := Codes(x) + [0], Codes(y) + [0];
      k < |xs| && k < |ys| && xs[..k] == ys[..k] && xs[k] < ys[k]
  {
    forall i | 0 <= i < k ensures x[i] == y[i] { assert x[..k][i] == y[..k][i]; }
  }

  lemma PartsWithin(up: seq<int>, xs: seq<int>, ys: seq<int>, r: seq<int>, q: seq<int>, k: nat)
    requires k < |xs| && k < |ys| && xs[..k] == ys[..k] && xs[k] < ys[k]
    ensures Lower(up + xs + r, up + ys + q)
  {
    hide Lower;
    SplitAt(up, xs, r, k);
    SplitAt(up, ys, q, k);
    PartsAt(up + xs[..k], xs[k], ys[k], xs[k + 1..] + r, ys[k + 1..] + q);
  }

  /** Siblings stand by name, each with everything below it. */
  lemma SiblingsByName(parent: Path, x: string, y: string, k: nat, a: Path, b: Path)
    requires Earlier(x, y, k) && Within(Child(parent, x), a) && Within(Child(parent, y), b)
    ensures Before(a, b)
  {
    hide Codes, Earlier, Within, Lower;
    var r := LettersWithin(Child(parent, x), a);
    var q := LettersWithin(Child(parent, y), b);
    var up, xs, ys := Letters(parent), Codes(x) + [0], Codes(y) + [0];
    assert Letters(Child(parent, x)) == up + xs && Letters(Child(parent, y)) == up + ys;
    hide Letters;
    CodesPart(x, y, k);
    PartsWithin(up, xs, ys, r, q, k);
  }

  /** Names that differ part somewhere. */
  lemma {:induction false} NamesPart(x: string, y: string) returns (k: nat)
    requires x != y
    ensures Earlier(x, y, k) || Earlier(y, x, k)
    decreases |x|
  {
    if x == [] || y == [] || x[0] != y[0] { return 0; }
    assert x == [x[0]] + x[1..] && y == [y[0]] + y[1..];
    var later := NamesPart(x[1..], y[1..]);
    k := later + 1;
    assert x[..k] == [x[0]] + x[1..][..later] && y[..k] == [y[0]] + y[1..][..later];
  }
}
