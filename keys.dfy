// The chatbot service's API-key rotation (key_manager.py): the keys are read once from a
// file and handed out round-robin, one per call.
module KeyRotation {
  import opened Text

  datatype Loaded = Keys(keys: seq<string>) | ValueError(message: string)

  /** The stripped, non-blank lines of the file, in file order. */
  function StrippedKeys(lines: seq<string>): (keys: seq<string>)
    ensures |keys| <= |lines|
    ensures forall i :: 0 <= i < |keys| ==> keys[i] != [] && PyStrip(keys[i]) == keys[i]
  {
    if |lines| == 0 then []
    else
      var k := PyStrip(lines[0]);
      StripIdempotent(lines[0]);
      if k == [] then StrippedKeys(lines[1..]) else [k] + StrippedKeys(lines[1..])
  }

  /** load_api_keys: the keys of the file, or ValueError when there are none. */
  function LoadApiKeys(lines: seq<string>): (r: Loaded)
    ensures r.ValueError? <==> forall i :: 0 <= i < |lines| ==> PyStrip(lines[i]) == []
    ensures r.Keys? ==> r.keys == StrippedKeys(lines) && |r.keys| > 0
  {
    NoKeysIffBlank(lines);
    var keys := StrippedKeys(lines);
    if keys == [] then ValueError("No API keys found in api_keys.txt") else Keys(keys)
  }

  lemma {:induction false} NoKeysIffBlank(lines: seq<string>)
    ensures StrippedKeys(lines) == [] <==> forall i :: 0 <= i < |lines| ==> PyStrip(lines[i]) == []
  {
    if |lines| > 0 {
      NoKeysIffBlank(lines[1..]);
      assert forall i :: 1 <= i < |lines| ==> lines[i] == lines[1..][i - 1];
    }
  }

  /** Stripping a stripped line changes nothing. */
  lemma {:induction false} StripIdempotent(s: string)
    ensures PyStrip(PyStrip(s)) == PyStrip(s)
  {
    var t := TrimStart(s, IsPySpace);
    var u := TrimEnd(t, IsPySpace);
    if |u| > 0 {
      assert u[0] == t[0];
      assert LeadingCount(u, IsPySpace) == 0;
      assert TrimStart(u, IsPySpace) == u;
      assert u[|u| - 1] == t[|u| - 1];
      assert TrailingCount(u, IsPySpace) == 0;
    }
  }

  /** A file holding the loaded keys one per line loads to the same keys. */
  lemma {:induction false} ReloadIsIdentity(lines: seq<string>)
    ensures StrippedKeys(StrippedKeys(lines)) == StrippedKeys(lines)
  {
    if |lines| > 0 {
      ReloadIsIdentity(lines[1..]);
      var k := PyStrip(lines[0]);
      if k != [] {
        StripIdempotent(lines[0]);
        var keys := [k] + StrippedKeys(lines[1..]);
        assert keys[1..] == StrippedKeys(lines[1..]);
      }
    }
  }

  /** The `k`-th key handed out, counting from 0: the cycle's position modulo the key count. */
  function KeyAt(keys: seq<string>, k: nat): (key: string)
    requires |keys| > 0
    ensures key in keys
  {
    keys[k % |keys|]
  }

  /** The keys handed out by `m` consecutive calls starting at call number `k`. */
  function Rotation(keys: seq<string>, k: nat, m: nat): (r: seq<string>)
    requires |keys| > 0
    ensures |r| == m
    ensures forall j :: 0 <= j < m ==> r[j] == KeyAt(keys, k + j)
  {
    seq(m, j requires 0 <= j < m => KeyAt(keys, k + j))
  }

  /** Any |keys| consecutive calls hand out every key exactly as often as it is listed. */
  lemma {:induction false} FullRoundIsPermutation(keys: seq<string>, k: nat)
    requires |keys| > 0
    ensures multiset(Rotation(keys, k, |keys|)) == multiset(keys)
  {
    var n := |keys|;
    var s := k % n;
    var r := Rotation(keys, k, n);
    assert r == keys[s..] + keys[..s] by {
      forall j | 0 <= j < n
        ensures r[j] == (keys[s..] + keys[..s])[j]
      {
        ModOfShift(k, n, j);
      }
    }
    assert keys == keys[..s] + keys[s..];
  }

  /** Where call `k + j` lands in a cycle of `n` keys. */
  lemma ModOfShift(k: nat, n: nat, j: nat)
    requires 0 <= j < n
    ensures k % n + j < n ==> (k + j) % n == k % n + j
    ensures k % n + j >= n ==> (k + j) % n == k % n + j - n
  {
    var q := k / n;
    var s := k % n;
    assert k == q * n + s;
    if s + j < n {
      ModUnique(k + j, n, q, s + j);
    } else {
      assert k + j == (q + 1) * n + (s + j - n);
      ModUnique(k + j, n, q + 1, s + j - n);
    }
  }

  lemma ModUnique(x: nat, n: nat, q: nat, r: nat)
    requires 0 <= r < n && x == q * n + r
    ensures x % n == r
  {
    var q2 := x / n;
    var r2 := x % n;
    assert x == q2 * n + r2;
    if q2 < q {
      MulMonotone(q2 + 1, q, n);
    } else if q2 > q {
      MulMonotone(q + 1, q2, n);
    }
  }

  lemma MulMonotone(a: nat, b: nat, n: nat)
    requires a <= b
    ensures a * n <= b * n
  {
  }

  /** The module-level `api_keys_cycle`: the loaded keys and how many keys have been taken. */
  class KeyCycle {
    const keys: seq<string>
    var calls: nat

    constructor (keys: seq<string>)
      requires |keys| > 0
      ensures this.keys == keys && calls == 0
    {
      this.keys := keys;
      calls := 0;
    }

    /** get_api_key: the next key in round-robin order. */
    method GetApiKey() returns (key: string)
      requires |keys| > 0
      modifies this
      ensures key == KeyAt(keys, old(calls))
      ensures calls == old(calls) + 1
    {
      key := keys[calls % |keys|];
      calls := calls + 1;
    }

    /** `m` calls to get_api_key in a row. */
    method TakeKeys(m: nat) returns (taken: seq<string>)
      requires |keys| > 0
      modifies this
      ensures taken == Rotation(keys, old(calls), m)
      ensures calls == old(calls) + m
    {
      taken := [];
      var j := 0;
      while j < m
        invariant 0 <= j <= m
        invariant calls == old(calls) + j
        invariant taken == Rotation(keys, old(calls), j)
      {
        var key := GetApiKey();
        taken := taken + [key];
        j := j + 1;
      }
    }
  }
}
