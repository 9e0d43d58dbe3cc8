/** Owner recovery: a 256-bit window slid over witness elements at bit granularity. */
module WitnessScan {
  import opened Prelude
  import opened Chain

  /** Longer witness elements are skipped. */
  const OWNER_SCAN_MAX_ELEMENT: nat := 4096

  // ----- bits and shifts of a byte, by cases so that every shift is by a literal

  /** The bits of a byte, most significant first. */
  function Bit(b: bv8, j: nat): bool
    requires j < 8
  {
    match j
    case 0 => b & 0x80 != 0
    case 1 => b & 0x40 != 0
    case 2 => b & 0x20 != 0
    case 3 => b & 0x10 != 0
    case 4 => b & 0x08 != 0
    case 5 => b & 0x04 != 0
    case 6 => b & 0x02 != 0
    case _ => b & 0x01 != 0
  }

  function ShiftLeft(b: bv8, s: nat): bv8
    requires s < 8
  {
    match s
    case 0 => b
    case 1 => b << 1
    case 2 => b << 2
    case 3 => b << 3
    case 4 => b << 4
    case 5 => b << 5
    case 6 => b << 6
    case _ => b << 7
  }

  function ShiftRight(b: bv8, s: nat): bv8
    requires 1 <= s < 8
  {
    match s
    case 1 => b >> 1
    case 2 => b >> 2
    case 3 => b >> 3
    case 4 => b >> 4
    case 5 => b >> 5
    case 6 => b >> 6
    case _ => b >> 7
  }

  /** Two bytes joined at a shift read as the eight bits that straddle them. */
  lemma JoinedBits(a: bv8, b: bv8, s: nat, j: nat)
    requires 1 <= s < 8 && j < 8
    ensures Bit(ShiftLeft(a, s) | ShiftRight(b, 8 - s), j) == if j + s < 8 then Bit(a, j + s) else Bit(b, j + s - 8)
  {
    if s == 1 {} else if s == 2 {} else if s == 3 {} else if s == 4 {}
    else if s == 5 {} else if s == 6 {} else {}
  }

  lemma SameBitsSameByte(a: bv8, b: bv8)
    requires forall j :: 0 <= j < 8 ==> Bit(a, j) == Bit(b, j)
    ensures a == b
  {
    assert Bit(a, 0) == Bit(b, 0) && Bit(a, 1) == Bit(b, 1) && Bit(a, 2) == Bit(b, 2) && Bit(a, 3) == Bit(b, 3);
    assert Bit(a, 4) == Bit(b, 4) && Bit(a, 5) == Bit(b, 5) && Bit(a, 6) == Bit(b, 6) && Bit(a, 7) == Bit(b, 7);
  }

  // ----- windows

  function BitAt(bytes: seq<bv8>, p: nat): bool
    requires p < 8 * |bytes|
  {
    Bit(bytes[p / 8], p % 8)
  }

  /** The key is the 256-bit slice of the element at a bit offset. */
  ghost predicate SliceIs(e: seq<bv8>, bit: nat, key: Key)
    requires bit + 256 <= 8 * |e|
  {
    |key| == 32 && forall p :: 0 <= p < 256 ==> BitAt(key, p) == BitAt(e, bit + p)
  }

  /** Byte `i` of the window at a bit offset. The following byte always exists when the
      offset straddles bytes, so no default is ever read past the end. */
  function WindowByte(e: seq<bv8>, bit: nat, i: nat): bv8
    requires bit + 256 <= 8 * |e| && i < 32
  {
    var byte, shift := bit / 8, bit % 8;
    if shift == 0 then e[byte + i]
    else ShiftLeft(e[byte + i], shift) | ShiftRight(e[byte + i + 1], 8 - shift)
  }

  lemma Position(q: nat, r: nat, p: nat)
    requires r < 8 && p == 8 * q + r
    ensures p / 8 == q && p % 8 == r
  {
  }

  lemma WindowByteBits(e: seq<bv8>, bit: nat, i: nat, j: nat)
    requires bit + 256 <= 8 * |e| && i < 32 && j < 8
    ensures Bit(WindowByte(e, bit, i), j) == BitAt(e, bit + 8 * i + j)
  {
    var byte, shift, p := bit / 8, bit % 8, bit + 8 * i + j;
    if j + shift < 8 {
      Position(byte + i, j + shift, p);
    } else {
      Position(byte + i + 1, j + shift - 8, p);
    }
    if shift > 0 {
      WindowJoin(e, byte + i, shift, j);
    }
  }

  lemma WindowJoin(e: seq<bv8>, n: nat, shift: nat, j: nat)
    requires n + 1 < |e| && 1 <= shift < 8 && j < 8
    ensures Bit(ShiftLeft(e[n], shift) | ShiftRight(e[n + 1], 8 - shift), j)
         == if j + shift < 8 then Bit(e[n], j + shift) else Bit(e[n + 1], j + shift - 8)
  {
    JoinedBits(e[n], e[n + 1], shift, j);
  }

  /** The window as the scan fills it, byte by byte: it is exactly the slice. */
  method Window(e: seq<bv8>, bit: nat) returns (w: Key)
    requires bit + 256 <= 8 * |e|
    ensures SliceIs(e, bit, w)
  {
    w := [];
    for i := 0 to 32
      invariant |w| == i
      invariant forall k :: 0 <= k < i ==> w[k] == WindowByte(e, bit, k)
    {
      w := w + [WindowByte(e, bit, i)];
    }
    forall p | 0 <= p < 256 ensures BitAt(w, p) == BitAt(e, bit + p) {
      WindowByteBits(e, bit, p / 8, p % 8);
    }
  }

  /** A slice determines the key. */
  lemma SliceIsUnique(e: seq<bv8>, bit: nat, a: Key, b: Key)
    requires bit + 256 <= 8 * |e| && SliceIs(e, bit, a) && SliceIs(e, bit, b)
    ensures a == b
  {
    forall i | 0 <= i < 32 ensures a[i] == b[i] {
      forall j | 0 <= j < 8 ensures Bit(a[i], j) == Bit(b[i], j) {
        assert BitAt(a, 8 * i + j) == BitAt(b, 8 * i + j);
      }
      SameBitsSameByte(a[i], b[i]);
    }
  }

  // ----- the scan

  predicate Scanned(e: seq<bv8>) { 32 <= |e| <= OWNER_SCAN_MAX_ELEMENT }

  /** The element carries the key at some bit offset. */
  ghost predicate Carries(e: seq<bv8>, key: Key) {
    exists bit :: 0 <= bit <= 8 * |e| - 256 && SliceIs(e, bit, key)
  }

  /** Some scanned element of the stack carries the key. */
  ghost predicate StackCarries(stack: seq<seq<bv8>>, key: Key) {
    exists n :: 0 <= n < |stack| && 32 <= |stack[n]| <= 4096 && Carries(stack[n], key)
  }

  /** The sliding-window search: it returns a valid, matching key that the stack carries, and
      misses none: on `None` no valid matching key sits at any bit offset of any element. */
  method ScanForOwner(stack: seq<seq<bv8>>, validKey: Key -> bool, matches: Key -> bool) returns (r: Option<Key>)
    ensures r.Some? ==> validKey(r.value) && matches(r.value) && StackCarries(stack, r.value)
    ensures r.None? ==> forall key :: StackCarries(stack, key) && validKey(key) ==> !matches(key)
  {
    for n := 0 to |stack|
      invariant forall m, key :: 0 <= m < n && Scanned(stack[m]) && Carries(stack[m], key) && validKey(key) ==>
                  !matches(key)
    {
      var e := stack[n];
      if Scanned(e) {
        r := ScanElement(e, validKey, matches);
        if r.Some? {
          return;
        }
      }
    }
    r := None;
  }

  method ScanElement(e: seq<bv8>, validKey: Key -> bool, matches: Key -> bool) returns (r: Option<Key>)
    requires |e| >= 32
    ensures r.Some? ==> validKey(r.value) && matches(r.value) && Carries(e, r.value)
    ensures r.None? ==> forall key :: Carries(e, key) && validKey(key) ==> !matches(key)
  {
    for bit := 0 to 8 * |e| - 256 + 1
      invariant forall b, key :: 0 <= b < bit && SliceIs(e, b, key) && validKey(key) ==> !matches(key)
    {
      var w := Window(e, bit);
      if validKey(w) && matches(w) {
        return Some(w);
      }
      forall key | SliceIs(e, bit, key) && validKey(key) ensures !matches(key) {
        SliceIsUnique(e, bit, w, key);
      }
    }
    r := None;
  }
}
