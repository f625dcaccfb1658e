/** The order in which an ordinary JavaScript object lists its own string keys
    (OrdinaryOwnPropertyKeys, section 10.1.11.1 of ECMA-262): first every
    array index in ascending numeric order, then every other key in the order
    it was created. Assigning to a key that already exists does not move it. */
module PropertyKeys {
  import opened Booking

  /** The largest array index, 2^32 - 2 (section 6.1.7 of ECMA-262). */
  const MaxArrayIndex: nat := 4294967294

  predicate IsDigit(ch: char)
  {
    '0' <= ch <= '9'
  }

  predicate AllDigits(s: string)
  {
    forall i :: 0 <= i < |s| ==> IsDigit(s[i])
  }

  /** The number a string of decimal digits denotes. */
  function DigitsValue(s: string): nat
    requires AllDigits(s)
  {
    if s == [] then 0
    else 10 * DigitsValue(s[..|s| - 1]) + (s[|s| - 1] as int - '0' as int)
  }

  /** `k` is an array index: the canonical decimal form (no sign, no leading
      zero) of an integer from 0 to 2^32 - 2. */
  predicate IsArrayIndex(k: string)
  {
    && 0 < |k|
    && AllDigits(k)
    && (k[0] == '0' ==> |k| == 1)
    && DigitsValue(k) <= MaxArrayIndex
  }

  predicate Distinct(keys: seq<string>)
  {
    forall i, j :: 0 <= i < j < |keys| ==> keys[i] != keys[j]
  }

  /** Every array index in `keys` is preceded only by array indices that are
      not larger than it: the indices come first, in ascending order. */
  predicate IndicesFirstAscending(keys: seq<string>)
  {
    forall i, j ::
      0 <= i < j < |keys| && IsArrayIndex(keys[j]) ==>
        IsArrayIndex(keys[i]) && DigitsValue(keys[i]) <= DigitsValue(keys[j])
  }

  /** A list of own keys an ordinary object can have. */
  predicate OwnKeyOrder(keys: seq<string>)
  {
    Distinct(keys) && IndicesFirstAscending(keys)
  }

  /** The keys that are not array indices, in their order in `keys`. */
  function NonIndexKeys(keys: seq<string>): (r: seq<string>)
    ensures forall x :: x in r <==> x in keys && !IsArrayIndex(x)
    ensures Distinct(keys) ==> Distinct(r)
  {
    if keys == [] then []
    else
      var rest := NonIndexKeys(keys[1..]);
      assert forall x :: x in keys <==> x == keys[0] || x in keys[1..];
      if IsArrayIndex(keys[0]) then rest else [keys[0]] + rest
  }

  lemma {:induction false} NonIndexKeysAppend(keys: seq<string>, k: string)
    ensures NonIndexKeys(keys + [k]) == NonIndexKeys(keys) + (if IsArrayIndex(k) then [] else [k])
    decreases |keys|
  {
    if keys != [] {
      assert (keys + [k])[1..] == keys[1..] + [k];
      NonIndexKeysAppend(keys[1..], k);
    }
  }

  /** When no key is an array index, every key keeps its place. */
  lemma {:induction false} NonIndexKeysOfPlainKeys(keys: seq<string>)
    requires forall x :: x in keys ==> !IsArrayIndex(x)
    ensures NonIndexKeys(keys) == keys
    decreases |keys|
  {
    if keys != [] {
      NonIndexKeysOfPlainKeys(keys[1..]);
    }
  }

  /** Places a new array index `k` among the leading indices of `keys`, after
      those not larger than it. */
  function InsertIndexKey(keys: seq<string>, k: string): (r: seq<string>)
    requires IsArrayIndex(k)
    ensures |r| == |keys| + 1
    ensures forall x :: x in r <==> x == k || x in keys
    ensures NonIndexKeys(r) == NonIndexKeys(keys)
  {
    if keys == [] || !IsArrayIndex(keys[0]) || DigitsValue(k) <= DigitsValue(keys[0]) then
      [k] + keys
    else
      var rest := InsertIndexKey(keys[1..], k);
      assert forall x :: x in keys <==> x == keys[0] || x in keys[1..];
      [keys[0]] + rest
  }

  /** A key may go in front of an ordered key list when it is new and every
      array index behind it is an index not smaller than it. */
  lemma ConsKeepsOrder(x: string, tail: seq<string>)
    requires OwnKeyOrder(tail) && x !in tail
    requires forall y :: y in tail && IsArrayIndex(y) ==> IsArrayIndex(x) && DigitsValue(x) <= DigitsValue(y)
    ensures OwnKeyOrder([x] + tail)
  {
  }

  /** Inserting a new array index keeps the indices first and ascending and
      the keys distinct. */
  lemma {:induction false} InsertIndexKeyKeepsOrder(keys: seq<string>, k: string)
    requires IsArrayIndex(k) && k !in keys
    ensures OwnKeyOrder(keys) ==> OwnKeyOrder(InsertIndexKey(keys, k))
    decreases |keys|
  {
    if !OwnKeyOrder(keys) {
    } else if keys == [] || !IsArrayIndex(keys[0]) || DigitsValue(k) <= DigitsValue(keys[0]) {
      forall y | y in keys && IsArrayIndex(y)
        ensures DigitsValue(k) <= DigitsValue(y)
      {
        var j :| 0 <= j < |keys| && keys[j] == y;
        if j > 0 {
          assert IsArrayIndex(keys[0]) && DigitsValue(keys[0]) <= DigitsValue(keys[j]);
        }
      }
      ConsKeepsOrder(k, keys);
    } else {
      var rest := keys[1..];
      assert OwnKeyOrder(rest);
      InsertIndexKeyKeepsOrder(rest, k);
      var tail := InsertIndexKey(rest, k);
      forall y | y in tail && IsArrayIndex(y)
        ensures DigitsValue(keys[0]) <= DigitsValue(y)
      {
        if y != k {
          var j :| 0 <= j < |rest| && rest[j] == y;
          assert keys[j + 1] == y;
        }
      }
      ConsKeepsOrder(keys[0], tail);
    }
  }

  /** The own keys of an object after `obj[k] = v`, when they were `keys`
      before: an existing key stays where it is, a new array index joins the
      indices in numeric order, any other new key goes last. */
  function AddKey(keys: seq<string>, k: string): seq<string>
  {
    if k in keys then keys
    else if IsArrayIndex(k) then InsertIndexKey(keys, k)
    else keys + [k]
  }

  /** Assigning to a key adds it once and keeps an own-key order one; keys
      that are not array indices are listed in the order they were added. */
  lemma AddKeyProperties(keys: seq<string>, k: string)
    ensures k in keys ==> AddKey(keys, k) == keys
    ensures forall x :: x in AddKey(keys, k) <==> x == k || x in keys
    ensures OwnKeyOrder(keys) ==> OwnKeyOrder(AddKey(keys, k))
    ensures NonIndexKeys(AddKey(keys, k)) == NonIndexKeys(keys) + (if k in keys || IsArrayIndex(k) then [] else [k])
  {
    if k !in keys {
      if IsArrayIndex(k) {
        InsertIndexKeyKeepsOrder(keys, k);
      } else {
        NonIndexKeysAppend(keys, k);
      }
    }
  }

  /** The own keys of a fresh `{}` after assigning to the keys `cs`, in order. */
  function OwnKeysAfter(cs: seq<string>): seq<string>
  {
    if cs == [] then [] else AddKey(OwnKeysAfter(cs[..|cs| - 1]), cs[|cs| - 1])
  }

  /** The keys of the object are the distinct assigned keys, in an order an
      ordinary object can have. */
  lemma {:induction false} OwnKeysAfterProperties(cs: seq<string>)
    ensures OwnKeyOrder(OwnKeysAfter(cs))
    ensures forall x :: x in OwnKeysAfter(cs) <==> x in cs
    decreases |cs|
  {
    if cs != [] {
      var prior := cs[..|cs| - 1];
      assert forall x :: x in cs <==> x in prior || x == cs[|cs| - 1];
      OwnKeysAfterProperties(prior);
      AddKeyProperties(OwnKeysAfter(prior), cs[|cs| - 1]);
    }
  }

  /** The position at which `x` first occurs in `cs`. */
  function FirstIndex(cs: seq<string>, x: string): (i: nat)
    requires x in cs
    ensures i < |cs| && cs[i] == x
    ensures forall j :: 0 <= j < i ==> cs[j] != x
  {
    if cs[0] == x then 0 else 1 + FirstIndex(cs[1..], x)
  }

  lemma FirstIndexAppend(cs: seq<string>, c: string, x: string)
    requires x in cs
    ensures FirstIndex(cs + [c], x) == FirstIndex(cs, x)
  {
    var i, i' := FirstIndex(cs, x), FirstIndex(cs + [c], x);
    assert (cs + [c])[i] == x;
  }

  /** Each key of `ks` occurs in `cs`, and the keys of `ks` are in the order of
      their first occurrences in `cs`. */
  predicate InFirstSeenOrder(ks: seq<string>, cs: seq<string>)
  {
    forall i, j :: 0 <= i < j < |ks| ==>
      ks[i] in cs && ks[j] in cs && FirstIndex(cs, ks[i]) < FirstIndex(cs, ks[j])
  }

  /** Keys that are not array indices are listed in the order in which they
      were first assigned; later assignments to them move nothing. */
  lemma {:induction false} NonIndexKeysInFirstSeenOrder(cs: seq<string>)
    ensures InFirstSeenOrder(NonIndexKeys(OwnKeysAfter(cs)), cs)
    decreases |cs|
  {
    if cs != [] {
      var prior, c := cs[..|cs| - 1], cs[|cs| - 1];
      assert cs == prior + [c];
      NonIndexKeysInFirstSeenOrder(prior);
      OwnKeysAfterProperties(prior);
      AddKeyProperties(OwnKeysAfter(prior), c);
      var old_ks := NonIndexKeys(OwnKeysAfter(prior));
      var ks := NonIndexKeys(OwnKeysAfter(cs));
      var grows := c !in OwnKeysAfter(prior) && !IsArrayIndex(c);
      assert ks == old_ks + (if grows then [c] else []);
      forall i, j | 0 <= i < j < |ks|
        ensures ks[i] in cs && ks[j] in cs && FirstIndex(cs, ks[i]) < FirstIndex(cs, ks[j])
      {
        assert ks[i] == old_ks[i] && ks[i] in prior;
        FirstIndexAppend(prior, c, ks[i]);
        if j < |old_ks| {
          assert ks[j] == old_ks[j] && ks[j] in prior;
          FirstIndexAppend(prior, c, ks[j]);
        } else {
          assert ks[j] == c && c !in prior;
          assert FirstIndex(cs, c) == |prior|;
        }
      }
    }
  }

  /** With no array index among them, the keys come out exactly in the order
      in which each was first assigned. */
  lemma KeysInFirstSeenOrder(cs: seq<string>)
    requires forall c :: c in cs ==> !IsArrayIndex(c)
    ensures InFirstSeenOrder(OwnKeysAfter(cs), cs)
  {
    OwnKeysAfterProperties(cs);
    NonIndexKeysOfPlainKeys(OwnKeysAfter(cs));
    NonIndexKeysInFirstSeenOrder(cs);
  }

  /** A plain object whose values are numbers, such as the accumulator `{}`
      of the per-country reduce: the key-value pairs and the own-key order. */
  class NumberRecord {
    var values: map<string, int>
    var keys: seq<string>

    ghost predicate Valid()
      reads this
    {
      OwnKeyOrder(keys) && forall k :: k in keys <==> k in values
    }

    constructor ()
      ensures Valid() && values == map[] && keys == []
    {
      values := map[];
      keys := [];
    }

    /** `obj[k] || 0`: the stored number, 0 for a missing key. */
    function GetOrZero(k: string): int
      reads this
    {
      if k in values then values[k] else 0
    }

    /** `obj[k] = v`. */
    method Set(k: string, v: int)
      modifies this
      ensures old(Valid()) ==> Valid()
      ensures values == old(values)[k := v]
      ensures keys == AddKey(old(keys), k)
    {
      AddKeyProperties(keys, k);
      values := values[k := v];
      keys := AddKey(keys, k);
    }
  }
}
