/** Shared vocabulary of the listener-head model: results, block identifiers,
    bytes, unsigned narrowing, decimal rendering and the ascending enumeration
    that std::map and std::set use when they are iterated. */
module Common {

  datatype Option<+T> = None | Some(value: T)

  datatype Result<+T> = Success(value: T) | Failure(error: string)

  newtype byte = x: int | 0 <= x < 256

  /** AdnlNodeIdShort, OverlayIdShort and PublicKeyHash are 256-bit values that
      compare as big-endian numbers; the model keeps them as naturals. */
  type NodeId = nat
  type OverlayId = nat
  type KeyHash = nat

  const MasterchainId: int := -1
  const BasechainId: int := 0
  /** The workchain a default-constructed BlockId carries (ton-types.h, not part of this model). */
  const WorkchainInvalid: int := -0x8000_0000

  /** BlockIdExt: workchain, shard, seqno, root hash and file hash. */
  datatype BlockId = BlockId(workchain: int, shard: nat, seqno: nat, rootHash: nat, fileHash: nat)
  {
    predicate IsValid() { workchain != WorkchainInvalid }
    predicate IsMasterchain() { workchain == MasterchainId }
  }

  /** The value of a default-constructed BlockIdExt. */
  const DefaultBlockId: BlockId := BlockId(WorkchainInvalid, 0, 0, 0, 0)

  /** td::IPAddress, as the parts of it this model reads. */
  datatype IpAddress = IpAddress(ipv4: int, port: nat)

  const TwoTo32: nat := 0x1_0000_0000
  const U32Max: nat := 0xFFFF_FFFF

  /** Implicit conversion of a size_t to td::uint32: the value modulo 2^32. */
  function NarrowToU32(n: nat): (r: nat)
    ensures r < TwoTo32
    ensures n < TwoTo32 ==> r == n
    ensures (r - n) % TwoTo32 == 0
  {
    n % TwoTo32
  }

  /** The sequence read back to front. */
  function Reverse<T>(s: seq<T>): (r: seq<T>)
    ensures |r| == |s|
    decreases |s|
  {
    if s == [] then [] else Reverse(s[1..]) + [s[0]]
  }

  lemma {:induction false} ReverseAt<T>(s: seq<T>, i: nat)
    requires i < |s|
    ensures Reverse(s)[i] == s[|s| - 1 - i]
    decreases |s|
  {
    if i < |s| - 1 {
      ReverseAt(s[1..], i);
    }
  }

  lemma {:induction false} ReverseInvolutive<T>(s: seq<T>)
    ensures Reverse(Reverse(s)) == s
  {
    var r := Reverse(s);
    forall i | 0 <= i < |s|
      ensures Reverse(r)[i] == s[i]
    {
      ReverseAt(r, i);
      ReverseAt(s, |s| - 1 - i);
    }
  }

  /** std::to_string of a non-negative integer. */
  function DecimalDigit(d: nat): (c: char)
    requires d < 10
    ensures '0' <= c <= '9'
  {
    "0123456789"[d]
  }

  function NatToDecimal(n: nat): (s: string)
    ensures |s| >= 1
    ensures forall i :: 0 <= i < |s| ==> '0' <= s[i] <= '9'
    ensures n >= 10 ==> s[0] != '0'
    decreases n
  {
    if n < 10 then [DecimalDigit(n)] else NatToDecimal(n / 10) + [DecimalDigit(n % 10)]
  }

  /** std::to_string of a signed integer. */
  function IntToDecimal(n: int): (s: string)
    ensures |s| >= 1
  {
    if n < 0 then "-" + NatToDecimal(-n) else NatToDecimal(n)
  }

  /** The value a decimal string denotes; the inverse of NatToDecimal. */
  function DecimalValue(s: string): (n: nat)
    requires forall i :: 0 <= i < |s| ==> '0' <= s[i] <= '9'
    decreases |s|
  {
    if s == [] then 0 else 10 * DecimalValue(s[..|s| - 1]) + (s[|s| - 1] as int - '0' as int)
  }

  lemma {:induction false} DecimalRoundTrip(n: nat)
    ensures DecimalValue(NatToDecimal(n)) == n
    decreases n
  {
    if n >= 10 {
      DecimalRoundTrip(n / 10);
      var s := NatToDecimal(n);
      assert s[..|s| - 1] == NatToDecimal(n / 10);
    }
  }

  // ----- ascending enumeration of a finite set (the iteration order of std::set / std::map keys)

  ghost predicate StrictlyIncreasing(s: seq<nat>)
  {
    forall i, j :: 0 <= i < j < |s| ==> s[i] < s[j]
  }

  predicate IsLeast(m: nat, s: set<nat>)
  {
    m in s && forall y :: y in s ==> m <= y
  }

  lemma {:induction false} MinimumExists(s: set<nat>)
    requires s != {}
    ensures exists m :: IsLeast(m, s)
    decreases |s|
  {
    var x :| x in s;
    if s == {x} {
      assert IsLeast(x, s);
    } else {
      var rest := s - {x};
      MinimumExists(rest);
      var m :| IsLeast(m, rest);
      var least := if x < m then x else m;
      forall y | y in s
        ensures least <= y
      {
        if y != x {
          assert y in rest;
        }
      }
      assert IsLeast(least, s);
    }
  }

  ghost function Minimum(s: set<nat>): (m: nat)
    requires s != {}
    ensures m in s && forall y :: y in s ==> m <= y
  {
    MinimumExists(s);
    var m :| IsLeast(m, s); m
  }

  /** The elements of `s` in increasing order. */
  ghost function Ascending(s: set<nat>): (r: seq<nat>)
    ensures |r| == |s|
    ensures forall x :: x in r <==> x in s
    ensures StrictlyIncreasing(r)
    decreases |s|
  {
    if s == {} then []
    else
      var m := Minimum(s);
      var rest := Ascending(s - {m});
      assert forall x :: x in rest ==> m < x;
      [m] + rest
  }

  lemma ConcatAssociative<T>(a: seq<T>, b: seq<T>, c: seq<T>)
    ensures (a + b) + c == a + (b + c)
  {
  }

  lemma TakeSnoc<T>(s: seq<T>, i: nat)
    requires i < |s|
    ensures s[..i + 1] == s[..i] + [s[i]]
  {
  }

  lemma AscendingStep(s: set<nat>, m: nat)
    requires m in s && forall y :: y in s ==> m <= y
    ensures Ascending(s) == [m] + Ascending(s - {m})
  {
    var least := Minimum(s);
    assert m <= least && least <= m;
  }

  /** Walks a set from its least element upwards, as iterating a std::set does. */
  method AscendingOf(s: set<nat>) returns (r: seq<nat>)
    ensures r == Ascending(s)
  {
    var rest := s;
    r := [];
    while rest != {}
      invariant rest <= s
      invariant r + Ascending(rest) == Ascending(s)
      decreases |rest|
    {
      MinimumExists(rest);
      var m :| IsLeast(m, rest);
      AscendingStep(rest, m);
      ConcatAssociative(r, [m], Ascending(rest - {m}));
      r := r + [m];
      rest := rest - {m};
    }
  }
}
