/** The textual key of one card, "node:devN", and its inverse. */
module CardKeys {
  import opened Leases

  function Digit(d: nat): (c: char)
    requires d < 10
    ensures '0' <= c <= '9' && (c as int) - ('0' as int) == d
  {
    (d + '0' as int) as char
  }

  function Digits(n: nat): (s: string)
    ensures s != [] && forall i :: 0 <= i < |s| ==> '0' <= s[i] <= '9'
  {
    if n < 10 then [Digit(n)] else Digits(n / 10) + [Digit(n % 10)]
  }

  function Value(s: string): int {
    if s == [] then 0 else 10 * Value(s[..|s| - 1]) + (s[|s| - 1] as int - '0' as int)
  }

  lemma {:induction false} DigitsRoundTrip(n: nat)
    ensures Value(Digits(n)) == n
  {
    if n < 10 {
      assert Digits(n)[..0] == [];
    } else {
      DigitsRoundTrip(n / 10);
      assert Digits(n)[..|Digits(n)| - 1] == Digits(n / 10);
    }
  }

  const SEPARATOR: string := ":dev"

  function KeyOf(node: string, dev: nat): Key {
    node + SEPARATOR + Digits(dev)
  }

  /** Where the last separator at or before `p` starts. */
  function LastSeparator(s: string, p: nat): (r: Option<nat>)
    requires p <= |s|
    ensures r.Some? ==> r.value + |SEPARATOR| <= |s|
  {
    if p + |SEPARATOR| <= |s| && s[p..p + |SEPARATOR|] == SEPARATOR then Some(p)
    else if p == 0 then None
    else LastSeparator(s, p - 1)
  }

  /** The node part of a key, split off at the last separator. */
  function NodeOf(key: Key): string {
    var p := LastSeparator(key, |key|);
    if p.Some? then key[..p.value] else key
  }

  function DevOf(key: Key): int {
    var p := LastSeparator(key, |key|);
    if p.Some? then Value(key[p.value + |SEPARATOR|..]) else 0
  }

  lemma {:induction false} SeparatorOfKey(node: string, dev: nat, p: nat)
    requires |node| <= p <= |KeyOf(node, dev)|
    ensures LastSeparator(KeyOf(node, dev), p) == Some(|node|)
  {
    var key := KeyOf(node, dev);
    if p == |node| {
      assert key[p..p + |SEPARATOR|] == SEPARATOR;
    } else {
      SeparatorOfKey(node, dev, p - 1);
      if p + |SEPARATOR| <= |key| {
        assert key[p..p + |SEPARATOR|][0] == key[p] == (SEPARATOR + Digits(dev))[p - |node|];
        assert key[p] != ':';
      }
    }
  }

  /** Splitting a key gives back its node and card, for every node name whatsoever. */
  lemma KeyRoundTrip(node: string, dev: nat)
    ensures NodeOf(KeyOf(node, dev)) == node && DevOf(KeyOf(node, dev)) == dev
  {
    var key := KeyOf(node, dev);
    SeparatorOfKey(node, dev, |key|);
    assert key[..|node|] == node;
    assert key[|node| + |SEPARATOR|..] == Digits(dev);
    DigitsRoundTrip(dev);
  }

  lemma KeysInjective()
    ensures forall n: string, i: nat, m: string, j: nat {:trigger KeyOf(n, i), KeyOf(m, j)} ::
              KeyOf(n, i) == KeyOf(m, j) ==> n == m && i == j
  {
    forall n: string, i: nat, m: string, j: nat | KeyOf(n, i) == KeyOf(m, j) ensures n == m && i == j {
      KeyRoundTrip(n, i);
      KeyRoundTrip(m, j);
    }
  }
}
