/** Fixed-size circular buffers with a length and two cursors, as the waiter's order
    queue and the receptionist's waiting list keep them. */
module Rings {

  datatype Ring<A> = Ring(slots: seq<A>, len: int, read: int, write: int)

  function Put<A>(s: seq<A>, i: int, x: A): seq<A> {
    if 0 <= i < |s| then s[i := x] else s
  }

  function At<A>(s: seq<A>, i: int, default: A): A {
    if 0 <= i < |s| then s[i] else default
  }

  /** Store at the write cursor and advance it; nothing checks for a full buffer. */
  function Push<A>(r: Ring<A>, x: A): Ring<A> {
    if |r.slots| == 0 then r
    else r.(slots := Put(r.slots, r.write, x), write := (r.write + 1) % |r.slots|, len := r.len + 1)
  }

  function Front<A>(r: Ring<A>, default: A): A {
    At(r.slots, r.read, default)
  }

  /** Advance the read cursor. */
  function Pop<A>(r: Ring<A>): Ring<A> {
    if |r.slots| == 0 then r
    else r.(read := (r.read + 1) % |r.slots|, len := r.len - 1)
  }

  /** The ring stores exactly the sequence s, oldest first. */
  ghost predicate Holds<A>(r: Ring<A>, s: seq<A>) {
    && 0 <= r.read < |r.slots|
    && r.len == |s| <= |r.slots|
    && r.write == (r.read + r.len) % |r.slots|
    && (forall i :: 0 <= i < |s| ==> r.slots[(r.read + i) % |r.slots|] == s[i])
  }

  /** Division with remainder is unique. */
  lemma ModUnique(y: int, k: int, r: int, m: int)
    requires y == k * m + r && 0 <= r < m
    ensures y % m == r
  {
    var k', r' := y / m, y % m;
    assert (k' - k) * m == r - r';
    MulAtLeast(k' - k, m);
  }

  lemma ModAdd(a: int, i: int, m: int)
    requires 0 < m
    ensures (a % m + i) % m == (a + i) % m
  {
    var b := a % m + i;
    var q, k := a / m, b / m;
    assert a + i == (q + k) * m + b % m;
    ModUnique(a + i, q + k, b % m, m);
  }

  lemma ModStep(a: int, i: int, m: int)
    requires 0 < m
    ensures ((a + 1) % m + i) % m == (a + 1 + i) % m
    ensures ((a + i) % m + 1) % m == (a + i + 1) % m
  {
    ModAdd(a + 1, i, m);
    ModAdd(a + i, 1, m);
  }

  /** Offsets below the capacity name different slots. */
  lemma ModDistinct(a: int, i: int, j: int, m: int)
    requires 0 < m && 0 <= i < j && j - i < m
    ensures (a + i) % m != (a + j) % m
  {
    if (a + i) % m == (a + j) % m {
      var p, q := (a + i) / m, (a + j) / m;
      assert (q - p) * m == j - i;
      MulAtLeast(q - p, m);
    }
  }

  lemma {:induction false} MulAtLeast(k: int, m: int)
    requires 0 <= m
    ensures 1 <= k ==> k * m >= m
    ensures k <= -1 ==> k * m <= -m
    decreases if k < 0 then -k else k
  {
    if k > 1 {
      MulAtLeast(k - 1, m);
      assert k * m == (k - 1) * m + m;
    } else if k < -1 {
      MulAtLeast(k + 1, m);
      assert k * m == (k + 1) * m - m;
    }
  }

  /** Appending is exact while a slot is free. */
  lemma PushKeepsOrder<A>(r: Ring<A>, s: seq<A>, x: A)
    requires Holds(r, s) && |s| < |r.slots|
    ensures Holds(Push(r, x), s + [x])
  {
    var m := |r.slots|;
    var r', s' := Push(r, x), s + [x];
    ModStep(r.read, r.len, m);
    forall i | 0 <= i < |s'|
      ensures r'.slots[(r'.read + i) % m] == s'[i]
    {
      if i < |s| {
        ModDistinct(r.read, i, |s|, m);
      }
    }
  }

  lemma PopKeepsOrder<A>(r: Ring<A>, s: seq<A>, default: A)
    requires Holds(r, s) && |s| > 0
    ensures Front(r, default) == s[0]
    ensures Holds(Pop(r), s[1..])
  {
    var m := |r.slots|;
    var r', s' := Pop(r), s[1..];
    ModUnique(r.read + 0, 0, r.read, m);
    assert r.slots[(r.read + 0) % m] == s[0];
    assert r'.write == (r'.read + r'.len) % m by {
      ModStep(r.read, r.len - 1, m);
    }
    forall i | 0 <= i < |s'|
      ensures r'.slots[(r'.read + i) % m] == s'[i]
    {
      ModStep(r.read, i, m);
      assert r.slots[(r.read + (i + 1)) % m] == s[i + 1];
    }
  }

  /** Short of the last slot the write cursor just moves on. */
  lemma PushAdvances<A>(r: Ring<A>, x: A)
    requires 0 <= r.write && r.write + 1 < |r.slots|
    ensures Push(r, x).write == r.write + 1
  {
    ModUnique(r.write + 1, 0, r.write + 1, |r.slots|);
  }
}
