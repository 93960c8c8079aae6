// The keys of the stores, as bytes: big-endian sequence numbers, and identifiers joined by
// NUL bytes (sequenceKey and readUint64 in internal/eventqueue/store.go; serviceKey,
// activityKey, trafficKey and deleteMatching in internal/policy/store.go).
module Keys {
  import opened Prelude

  type Key = seq<byte>

  // ---- The order of a bucket ----

  predicate Less(a: Key, b: Key) {
    if a == [] then b != []
    else b != [] && (a[0] < b[0] || (a[0] == b[0] && Less(a[1..], b[1..])))
  }

  predicate AtMost(a: Key, b: Key) { a == b || Less(a, b) }

  // Keys that differ compare one way or the other.
  lemma {:induction false} LessIsTotal(a: Key, b: Key)
    ensures Less(a, b) || Less(b, a) || a == b
    ensures !(Less(a, b) && Less(b, a)) && !Less(a, a)
  {
    if a != [] && b != [] {
      assert a == [a[0]] + a[1..] && b == [b[0]] + b[1..];
      LessIsTotal(a[1..], b[1..]);
    }
    if a != [] && a[1..] != a {
      LessIsTotal(a[1..], a[1..]);
    }
  }

  // ---- Sequence numbers ----

  // The last n bytes of a number, most significant first.
  function BigEndian(v: nat, n: nat): (k: Key)
    ensures |k| == n
  {
    if n == 0 then [] else BigEndian(v / 256, n - 1) + [v % 256]
  }

  function Number(k: Key): nat {
    if k == [] then 0 else Number(k[..|k| - 1]) * 256 + k[|k| - 1]
  }

  function Power(n: nat): nat { if n == 0 then 1 else Power(n - 1) * 256 }

  function SequenceKey(v: u64): Key { BigEndian(v, 8) }

  // A value of any other length reads as zero.
  function ReadUint64(k: Key): nat { if |k| != 8 then 0 else Number(k) }

  lemma {:induction false} NumberOfBigEndian(v: nat, n: nat)
    requires v < Power(n)
    ensures Number(BigEndian(v, n)) == v
  {
    if n > 0 {
      assert v / 256 < Power(n - 1);
      NumberOfBigEndian(v / 256, n - 1);
      assert BigEndian(v, n)[..n - 1] == BigEndian(v / 256, n - 1);
    }
  }

  lemma {:induction false} BigEndianOfNumber(k: Key)
    ensures Number(k) < Power(|k|) && BigEndian(Number(k), |k|) == k
    decreases |k|
  {
    if k != [] {
      BigEndianOfNumber(k[..|k| - 1]);
      assert Number(k) / 256 == Number(k[..|k| - 1]) && Number(k) % 256 == k[|k| - 1];
    }
  }

  // The first byte decides unless it is shared.
  lemma {:induction false} NumberByFirst(k: Key)
    requires k != []
    ensures Number(k) == k[0] * Power(|k| - 1) + Number(k[1..]) && Number(k[1..]) < Power(|k| - 1)
    decreases |k|
  {
    BigEndianOfNumber(k[1..]);
    if |k| > 1 {
      var front, last := k[..|k| - 1], k[|k| - 1];
      var middle := front[1..];
      NumberByFirst(front);
      assert k[1..][..|k| - 2] == middle;
      Shifted(k[0], Power(|k| - 2), Number(middle), last);
      assert Number(k[1..]) == Number(middle) * 256 + last;
      assert Number(k) == (k[0] * Power(|k| - 2) + Number(middle)) * 256 + last;
    }
  }

  lemma Shifted(x: nat, power: nat, r: nat, last: byte)
    requires r < power
    ensures (x * power + r) * 256 + last == x * (power * 256) + (r * 256 + last)
    ensures r * 256 + last < power * 256
  {
  }

  lemma {:induction false} LessIsNumeric(a: Key, b: Key)
    requires |a| == |b|
    ensures Less(a, b) <==> Number(a) < Number(b)
    decreases |a|
  {
    if a != [] {
      NumberByFirst(a);
      NumberByFirst(b);
      LessIsNumeric(a[1..], b[1..]);
      if a[0] < b[0] {
        FirstDecides(a[0], b[0], Power(|a| - 1), Number(a[1..]), Number(b[1..]));
      } else if b[0] < a[0] {
        FirstDecides(b[0], a[0], Power(|a| - 1), Number(b[1..]), Number(a[1..]));
      }
    }
  }

  lemma FirstDecides(x: nat, y: nat, power: nat, r: nat, s: nat)
    requires x < y && r < power
    ensures x * power + r < y * power + s
  {
    assert y * power == x * power + power + (y - x - 1) * power;
    assert (y - x - 1) * power >= 0;
  }

  lemma EightBytes()
    ensures Power(8) == MAX_UINT64 + 1
  {
    assert Power(4) == 0x1_0000_0000;
    assert Power(8) == Power(4) * 256 * 256 * 256 * 256;
  }

  // A sequence number reads back, every eight bytes are the key of the number they read
  // as, and keys sort as their numbers do.
  lemma SequenceKeysAreNumbers(v: u64, w: u64, k: Key)
    ensures ReadUint64(SequenceKey(v)) == v
    ensures |k| == 8 ==> ReadUint64(k) <= MAX_UINT64 && SequenceKey(ReadUint64(k)) == k
    ensures Less(SequenceKey(v), SequenceKey(w)) <==> v < w
  {
    EightBytes();
    NumberOfBigEndian(v, 8);
    NumberOfBigEndian(w, 8);
    BigEndianOfNumber(k);
    LessIsNumeric(SequenceKey(v), SequenceKey(w));
  }

  // ---- Joined identifiers ----

  predicate HasNoNul(k: Key) { forall i :: 0 <= i < |k| ==> k[i] != 0 }

  function Joined(a: Key, b: Key): Key { a + [0] + b }

  function Prefix(a: Key): Key { a + [0] }

  // Two identifiers joined can be told apart again, as long as the first has no NUL.
  lemma JoinedIsInjective(a: Key, b: Key, c: Key, d: Key)
    requires HasNoNul(a) && HasNoNul(c)
    requires Joined(a, b) == Joined(c, d)
    ensures a == c && b == d
  {
    var k := Joined(a, b);
    assert k[|a|] == 0 && k[|c|] == 0;
    assert forall i :: 0 <= i < |a| ==> k[i] != 0;
    assert forall i :: 0 <= i < |c| ==> k[i] != 0;
    assert a == k[..|a|] && c == k[..|c|];
    assert b == k[|a| + 1..] && d == k[|c| + 1..];
  }

  // So a service key names one plugin, authorization and service.
  lemma ServiceKeysAreInjective(a: Key, b: Key, c: Key, a': Key, b': Key, c': Key)
    requires HasNoNul(a) && HasNoNul(b) && HasNoNul(a') && HasNoNul(b')
    requires Joined(Joined(a, b), c) == Joined(Joined(a', b'), c')
    ensures a == a' && b == b' && c == c'
  {
    assert Joined(Joined(a, b), c) == Joined(a, Joined(b, c));
    assert Joined(Joined(a', b'), c') == Joined(a', Joined(b', c'));
    JoinedIsInjective(a, Joined(b, c), a', Joined(b', c'));
    JoinedIsInjective(b, c, b', c');
  }

  // A key starts with the prefix of an identifier exactly when that is its first part.
  lemma PrefixNamesFirst(a: Key, b: Key, c: Key)
    requires HasNoNul(a) && HasNoNul(c)
    ensures Prefix(c) <= Joined(a, b) <==> a == c
  {
    var k := Joined(a, b);
    if Prefix(c) <= k {
      var d := k[|c| + 1..];
      assert k == Joined(c, d);
      JoinedIsInjective(a, b, c, d);
    }
    assert Prefix(a) <= k;
  }

  // ---- The prefix walk ----

  lemma {:induction false} PrefixIsAtMost(p: Key, k: Key)
    requires p <= k
    ensures AtMost(p, k)
  {
    if p != [] {
      assert p[1..] <= k[1..];
      PrefixIsAtMost(p[1..], k[1..]);
    }
  }

  // Keys with a prefix are not interrupted by others.
  lemma {:induction false} PrefixesAreTogether(p: Key, a: Key, b: Key, c: Key)
    requires p <= a && p <= c && AtMost(a, b) && AtMost(b, c)
    ensures p <= b
  {
    if p != [] && a != b && b != c {
      PrefixesAreTogether(p[1..], a[1..], b[1..], c[1..]);
      assert p == [p[0]] + p[1..] && b == [b[0]] + b[1..];
    }
  }

  lemma {:induction false} LessIsTransitive(a: Key, b: Key, c: Key)
    requires Less(a, b) && Less(b, c)
    ensures Less(a, c)
  {
    if a != [] && a[0] == b[0] == c[0] {
      LessIsTransitive(a[1..], b[1..], c[1..]);
    }
  }

  ghost predicate Sorted(keys: seq<Key>) {
    forall i, j :: 0 <= i < j < |keys| ==> Less(keys[i], keys[j])
  }

  // Seek, then advance while the prefix matches: this visits exactly the keys with the
  // prefix, each once.
  method Walk(keys: seq<Key>, prefix: Key) returns (from: nat, to: nat)
    requires Sorted(keys)
    ensures from <= to <= |keys|
    ensures forall i :: 0 <= i < |keys| ==> (prefix <= keys[i] <==> from <= i < to)
  {
    from := 0;
    while from < |keys| && Less(keys[from], prefix)
      invariant from <= |keys|
      invariant forall i :: 0 <= i < from ==> Less(keys[i], prefix)
    {
      from := from + 1;
    }
    to := from;
    while to < |keys| && prefix <= keys[to]
      invariant from <= to <= |keys|
      invariant forall i :: from <= i < to ==> prefix <= keys[i]
    {
      to := to + 1;
    }
    forall i | 0 <= i < |keys| && prefix <= keys[i]
      ensures from <= i < to
    {
      PrefixIsAtMost(prefix, keys[i]);
      LessIsTotal(keys[i], prefix);
      if to <= i {
        NothingMoreAfter(keys, prefix, from, to, i);
      }
    }
  }

  // The walk stops where the keys with the prefix end.
  lemma NothingMoreAfter(keys: seq<Key>, prefix: Key, from: nat, to: nat, i: nat)
    requires Sorted(keys) && from <= to <= i < |keys|
    requires !Less(keys[from], prefix) && prefix <= keys[i]
    ensures prefix <= keys[to]
  {
    LessIsTotal(keys[from], prefix);
    if from < to && Less(prefix, keys[from]) {
      LessIsTransitive(prefix, keys[from], keys[to]);
    }
    PrefixesAreTogether(prefix, prefix, keys[to], keys[i]);
  }
}
