/** Small vocabulary shared by every module of the model: an optional value
    and the fixed-width integers of the C and C++ sources. */
module Base {

  datatype Option<T> = None | Some(value: T)

  /** 2^32: the number of values of a C `UINT32` / `DWORD`. */
  const U32_LIMIT: nat := 0x1_0000_0000

  /** An unsigned 32-bit value (`UINT32`, `DWORD`). */
  type u32 = x: nat | x < U32_LIMIT

  /** An unsigned 8-bit value (`BYTE`). */
  type byte = x: nat | x < 256

  /** Incrementing a `UINT32` in place (`++x`, `InterlockedIncrement`):
      the successor, wrapping from 2^32 - 1 back to 0. */
  function Inc32(x: u32): (r: u32)
    ensures r == (x + 1) % U32_LIMIT
    ensures r == 0 <==> x == U32_LIMIT - 1
  {
    if x == U32_LIMIT - 1 then 0 else x + 1
  }

  /** The C conversion of a `UINT32` to a 32-bit `int`: values from 2^31 on
      read as negative numbers (two's complement). */
  function ToInt32(x: u32): (r: int)
    ensures -0x8000_0000 <= r < 0x8000_0000
    ensures r % U32_LIMIT == x
  {
    if x < 0x8000_0000 then x else x - U32_LIMIT
  }

  /** The C conversion of an `int` to `UINT32`: the value modulo 2^32, so
      that -1 becomes 0xFFFFFFFF. */
  function ToU32(x: int): (r: u32)
    ensures -0x8000_0000 <= x < 0x8000_0000 ==> ToInt32(r) == x
  {
    x % U32_LIMIT
  }

  /** Removal of the first element equal to `x` (`ArrayList_Remove`,
      `ListDictionary_Remove`): exactly one occurrence goes, the order of the
      rest is kept. */
  function RemoveFirst<T(==)>(s: seq<T>, x: T): (r: seq<T>)
    ensures x !in s ==> r == s
    ensures x in s ==> |r| == |s| - 1 && multiset(r) == multiset(s) - multiset{x}
    decreases |s|
  {
    if s == [] then []
    else
      assert s == [s[0]] + s[1..];
      if s[0] == x then s[1..] else [s[0]] + RemoveFirst(s[1..], x)
  }

  /** When the first occurrence of `x` is at `i`, removal cuts out index `i`
      and keeps everything before and after it in order. */
  lemma {:induction false} RemoveFirstAt<T>(s: seq<T>, x: T, i: nat)
    requires i < |s| && s[i] == x
    requires forall k | 0 <= k < i :: s[k] != x
    ensures RemoveFirst(s, x) == s[..i] + s[i + 1..]
    decreases i
  {
    var t := s[1..];
    if i == 0 {
      assert s == [s[0]] + t;
    } else {
      assert forall k | 0 <= k < i - 1 :: t[k] != x by {
        forall k | 0 <= k < i - 1 ensures t[k] != x {
          assert t[k] == s[k + 1];
        }
      }
      calc {
        RemoveFirst(s, x);
        { assert s[0] != x; }
        [s[0]] + RemoveFirst(t, x);
        { RemoveFirstAt(t, x, i - 1); }
        [s[0]] + (t[..i - 1] + t[i..]);
        { assert [s[0]] + t[..i - 1] == s[..i]; assert t[i..] == s[i + 1..]; }
        s[..i] + s[i + 1..];
      }
    }
  }
}
