/** Shared vocabulary: optional values, results, identifiers and order-preserving filtering. */
module Common {

  datatype Option<+T> = None | Some(value: T)

  datatype Result<+T, +E> = Ok(value: T) | Err(error: E)

  type Uuid = u: nat | u < 0x1_0000_0000_0000_0000_0000_0000_0000_0000

  const NIL_UUID: Uuid := 0

  type byte = b: int | 0 <= b < 256

  type Bytes = seq<byte>

  type uint64 = n: nat | n < 0x1_0000_0000_0000_0000

  const ZERO_BYTES: Bytes := [
    0, 0, 0, 0, 0, 0, 0, 0, 0, 0, 0, 0, 0, 0, 0, 0,
    0, 0, 0, 0, 0, 0, 0, 0, 0, 0, 0, 0, 0, 0, 0, 0]

  type Bytes32 = b: Bytes | |b| == 32 witness ZERO_BYTES

  lemma Associative<T>(a: seq<T>, b: seq<T>, c: seq<T>)
    ensures a + (b + c) == a + b + c
  {
  }

  lemma NextPrefix<T>(a: seq<T>, b: seq<T>, i: nat)
    requires i < |b|
    ensures a + b[..i + 1] == a + b[..i] + [b[i]]
  {
  }

  /** The elements of s that satisfy p, in their original order. */
  function Filter<T>(p: T -> bool, s: seq<T>): seq<T> {
    if s == [] then []
    else
      var init := Filter(p, s[..|s| - 1]);
      if p(s[|s| - 1]) then init + [s[|s| - 1]] else init
  }

  lemma FilterPush<T>(p: T -> bool, s: seq<T>, x: T)
    ensures Filter(p, s + [x]) == Filter(p, s) + (if p(x) then [x] else [])
  {
    assert (s + [x])[..|s|] == s;
  }

  lemma {:induction false} FilterStep<T>(p: T -> bool, s: seq<T>, i: nat)
    requires i < |s|
    ensures Filter(p, s[..i + 1]) == Filter(p, s[..i]) + (if p(s[i]) then [s[i]] else [])
    ensures Filter(p, s[..i + 1]) <= Filter(p, s)
  {
    assert s[..i + 1] == s[..i] + [s[i]];
    FilterPush(p, s[..i], s[i]);
    FilterPrefix(p, s[..i + 1], s);
  }

  lemma {:induction false} FilterConcat<T>(p: T -> bool, a: seq<T>, b: seq<T>)
    ensures Filter(p, a + b) == Filter(p, a) + Filter(p, b)
  {
    if b == [] {
      assert a + b == a;
    } else {
      var b0, x := b[..|b| - 1], b[|b| - 1];
      assert a + b == (a + b0) + [x];
      assert b == b0 + [x];
      FilterPush(p, a + b0, x);
      FilterPush(p, b0, x);
      FilterConcat(p, a, b0);
    }
  }

  lemma FilterPrefix<T>(p: T -> bool, a: seq<T>, b: seq<T>)
    requires a <= b
    ensures Filter(p, a) <= Filter(p, b)
  {
    assert b == a + b[|a|..];
    FilterConcat(p, a, b[|a|..]);
  }

  lemma {:induction false} FilterMember<T>(p: T -> bool, s: seq<T>, x: T)
    ensures x in Filter(p, s) <==> x in s && p(x)
  {
    if s != [] {
      var init, last := s[..|s| - 1], s[|s| - 1];
      assert s == init + [last];
      FilterMember(p, init, x);
    }
  }

  lemma {:induction false} FilterNone<T>(p: T -> bool, s: seq<T>)
    requires forall x :: x in s ==> !p(x)
    ensures Filter(p, s) == []
  {
    if s != [] {
      FilterNone(p, s[..|s| - 1]);
    }
  }

  lemma {:induction false} FilterAll<T>(p: T -> bool, s: seq<T>)
    requires forall x :: x in s ==> p(x)
    ensures Filter(p, s) == s
  {
    if s != [] {
      FilterAll(p, s[..|s| - 1]);
      assert s == s[..|s| - 1] + [s[|s| - 1]];
    }
  }

  lemma {:induction false} FilterSame<T>(p: T -> bool, q: T -> bool, s: seq<T>)
    requires forall x :: x in s ==> p(x) == q(x)
    ensures Filter(p, s) == Filter(q, s)
  {
    if s != [] {
      FilterSame(p, q, s[..|s| - 1]);
    }
  }

  // ---- stretches of a run ----

  /** Appending the steps to any run that ends in s makes one that ends in s'. */
  ghost predicate Leads<T(!new), S(!new)>(exec: seq<T> -> S, steps: seq<T>, s: S, s': S) {
    forall before :: exec(before) == s ==> exec(before + steps) == s'
  }

  lemma LeadsThen<T(!new), S(!new)>(exec: seq<T> -> S, first: seq<T>, more: seq<T>, s: S, s1: S, s2: S)
    requires Leads(exec, first, s, s1) && Leads(exec, more, s1, s2)
    ensures Leads(exec, first + more, s, s2)
  {
    forall before | exec(before) == s ensures exec(before + (first + more)) == s2 {
      assert before + (first + more) == (before + first) + more;
      assert exec(before + first) == s1;
    }
  }

  /** block(0), block(1), ..., block(n - 1). */
  function Blocks<T>(block: nat -> seq<T>, n: nat): seq<T> {
    if n == 0 then [] else Blocks(block, n - 1) + block(n - 1)
  }

  lemma {:induction false} BlocksLead<T(!new), S(!new)>(exec: seq<T> -> S, block: nat -> seq<T>, at: nat -> S, n: nat)
    requires forall k: nat :: k < n ==> Leads(exec, block(k), at(k), at(k + 1))
    ensures Leads(exec, Blocks(block, n), at(0), at(n))
  {
    if n == 0 {
      assert forall before: seq<T> :: before + [] == before;
    } else {
      BlocksLead(exec, block, at, n - 1);
      assert Leads(exec, block(n - 1), at(n - 1), at(n - 1 + 1));
      LeadsThen(exec, Blocks(block, n - 1), block(n - 1), at(0), at(n - 1), at(n));
    }
  }
}
