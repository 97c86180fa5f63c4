/** `Compiler._node_id`: clean public ids, disambiguated against the growing symbol table. */
module Naming {
  import opened Primitives
  import opened Bytecode

  function Digits(n: nat): string {
    if n < 10 then [DIGITS[n]] else Digits(n / 10) + [DIGITS[n % 10]]
  }

  const DIGITS := "0123456789"

  lemma {:induction false} DigitsInjective(a: nat, b: nat)
    requires Digits(a) == Digits(b)
    ensures a == b
  {
    assert Digits(a)[|Digits(a)| - 1] == DIGITS[a % 10] && Digits(b)[|Digits(b)| - 1] == DIGITS[b % 10];
    DigitsNonEmpty(a / 10);
    DigitsNonEmpty(b / 10);
    if a >= 10 && b >= 10 {
      assert Front(Digits(a)) == Digits(a / 10) && Front(Digits(b)) == Digits(b / 10);
      DigitsInjective(a / 10, b / 10);
    }
  }

  lemma DigitsNonEmpty(n: nat)
    ensures |Digits(n)| > 0
  {
  }

  /** `f"{name}#{n}"`. */
  function Suffixed(name: string, n: nat): string {
    name + "#" + Digits(n)
  }

  lemma SuffixedInjective(name: string, a: nat, b: nat)
    requires Suffixed(name, a) == Suffixed(name, b)
    ensures a == b
  {
    assert Suffixed(name, a)[|name| + 1..] == Digits(a);
    assert Suffixed(name, b)[|name| + 1..] == Digits(b);
    DigitsInjective(a, b);
  }

  ghost predicate AllTaken(name: string, t: Table, n: nat) {
    forall k: nat :: 2 <= k < n ==> Suffixed(name, k) in t
  }

  /** Taken suffixes are distinct table keys, so there are no more of them than keys. */
  lemma {:induction false} TakenBound(name: string, t: Table, n: nat)
    requires 2 <= n && AllTaken(name, t, n)
    ensures n - 2 <= |t|
  {
    var ks := TakenKeys(name, t, n);
    assert ks <= t.Keys;
    SubsetSize(ks, t.Keys);
    assert |t.Keys| == |t|;
  }

  lemma {:induction false} TakenKeys(name: string, t: Table, n: nat) returns (ks: set<string>)
    requires 2 <= n && AllTaken(name, t, n)
    ensures ks <= t.Keys && |ks| == n - 2
    ensures forall x :: x in ks ==> exists k: nat :: 2 <= k < n && x == Suffixed(name, k)
  {
    ks := {};
    if n > 2 {
      ks := TakenKeys(name, t, n - 1);
      if Suffixed(name, n - 1) in ks {
        var k: nat :| 2 <= k < n - 1 && Suffixed(name, n - 1) == Suffixed(name, k);
        SuffixedInjective(name, n - 1, k);
      }
      ks := ks + {Suffixed(name, n - 1)};
    }
  }

  lemma {:induction false} SubsetSize<T>(a: set<T>, b: set<T>)
    requires a <= b
    ensures |a| <= |b|
  {
    if a != {} {
      var x :| x in a;
      SubsetSize(a - {x}, b - {x});
    }
  }

  /** The first free `#n`, searched upwards; the search ends because the table is finite. */
  function FirstFree(name: string, t: Table, n: nat): (m: nat)
    requires 2 <= n && AllTaken(name, t, n)
    ensures n <= m && AllTaken(name, t, m) && Suffixed(name, m) !in t
    decreases |t| + 3 - n
  {
    if Suffixed(name, n) in t then
      assert AllTaken(name, t, n + 1);
      TakenBound(name, t, n + 1);
      FirstFree(name, t, n + 1)
    else n
  }

  function NodeId(w: World, fn: Fn, t: Table): string {
    var a := w.attrs(fn);
    if a.name !in t || t[a.name] == fn then a.name
    else if a.qualname != "" && a.qualname != a.name && a.qualname !in t then a.qualname
    else Suffixed(a.name, FirstFree(a.name, t, 2))
  }

  /** An id is never handed out while it names another function. */
  lemma NodeIdNeverRebinds(w: World, fn: Fn, t: Table)
    ensures NodeId(w, fn, t) in t ==> t[NodeId(w, fn, t)] == fn
  {
  }

  /** The number that a string of decimal digits denotes. */
  function Numeral(s: string): int {
    if s == [] then 0 else 10 * Numeral(Front(s)) + (Last(s) as int - '0' as int)
  }

  /** `s` is how `n` is written in decimal: digits only, none of them a leading zero. */
  predicate Spells(s: string, n: nat) {
    && s != [] && (forall i :: 0 <= i < |s| ==> '0' <= s[i] <= '9') && (|s| > 1 ==> s[0] != '0')
    && Numeral(s) == n
  }

  lemma {:induction false} DigitsWrite(n: nat)
    ensures Spells(Digits(n), n)
    decreases n
  {
    if n < 10 {
      DigitIs(n);
      DigitAppended([], 0, n, n);
      assert [] + [DIGITS[n]] == Digits(n);
    } else {
      DigitsWrite(n / 10);
      DigitIs(n % 10);
      DigitAppended(Digits(n / 10), n / 10, n % 10, n);
    }
  }

  lemma DigitIs(d: nat)
    requires d < 10
    ensures '0' <= DIGITS[d] <= '9' && DIGITS[d] as int - '0' as int == d
  {
  }

  /** One digit more; before it stands nothing, or a numeral that is not zero. */
  lemma DigitAppended(s: string, m: nat, d: nat, n: nat)
    requires d < 10 && '0' <= DIGITS[d] <= '9' && DIGITS[d] as int - '0' as int == d && n == 10 * m + d
    requires if s == [] then m == 0 else Spells(s, m) && m > 0
    ensures Spells(s + [DIGITS[d]], n)
  {
    var x := s + [DIGITS[d]];
    assert Front(x) == s && Last(x) == DIGITS[d];
    if |s| == 1 {
      assert Numeral(Front(s)) == 0;
    }
  }

  /** `x` is `name#n`. */
  ghost predicate Numbered(x: string, name: string, n: nat) {
    exists s :: Spells(s, n) && x == name + "#" + s
  }

  ghost predicate NumberTaken(t: Table, name: string, n: nat) {
    exists x :: x in t && Numbered(x, name, n)
  }

  /** `x` is the free id `name#n` with the least `n`, counting from 2. */
  ghost predicate FirstNumbered(x: string, name: string, t: Table) {
    exists n: nat ::
      2 <= n && Numbered(x, name, n) && x !in t && forall k: nat :: 2 <= k < n ==> NumberTaken(t, name, k)
  }

  lemma SuffixedNumbered(name: string, n: nat)
    ensures Numbered(Suffixed(name, n), name, n)
  {
    DigitsWrite(n);
  }

  /**
   * The order of preference: the function's name unless another function has it; else its qualified name, if it
   * has one of its own and nobody has that; else the first free one of `name#2`, `name#3` and so on.
   */
  lemma NodeIdPrefers(w: World, fn: Fn, t: Table)
    ensures var a, id := w.attrs(fn), NodeId(w, fn, t);
            var mine := !(a.name in t && t[a.name] != fn);
            var qualified := a.qualname != "" && a.qualname != a.name && !(a.qualname in t);
            && (id == a.name <==> mine)
            && (!mine && qualified ==> id == a.qualname)
            && (!mine && !qualified ==> FirstNumbered(id, a.name, t))
  {
    var a := w.attrs(fn);
    if a.name in t && t[a.name] != fn && !(a.qualname != "" && a.qualname != a.name && !(a.qualname in t)) {
      var n := FirstFree(a.name, t, 2);
      SuffixedNumbered(a.name, n);
      forall k: nat | 2 <= k < n
        ensures NumberTaken(t, a.name, k)
      {
        SuffixedNumbered(a.name, k);
      }
    }
  }
}
