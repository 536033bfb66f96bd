/**
 * Physical addresses as port paths (HDMI 1.4b section 8.7): a 16-bit address is
 * four 4-bit port numbers, the most significant nibble nearest the TV, and the
 * first zero nibble ends the path. The TV's `isTailOfActivePath` and
 * `isDirectConnectAddress` and the routing-path test the routing action uses.
 */
module CecPath {
  import opened Cec

  /** The `k`-th nibble, `k` = 3 for the top nibble: `(p >> 4k) & 0xF`. */
  function Nibble(p: PhysicalAddress, k: nat): (n: int)
    requires k < 4
    ensures 0 <= n < 16
  {
    (((p as bv16) >> (4 * k)) & 0xF) as int
  }

  /** The four nibbles, index `k` holding nibble `k` (index 3 is the top nibble). */
  function Nibbles(p: PhysicalAddress): (s: seq<int>)
    ensures |s| == 4
    ensures forall k :: 0 <= k < 4 ==> s[k] == Nibble(p, k)
  {
    [Nibble(p, 0), Nibble(p, 1), Nibble(p, 2), Nibble(p, 3)]
  }

  // --------------------------------------------------------- isTailOfActivePath

  /** The loop of `isTailOfActivePath` from nibble `k` down to nibble 0. */
  function TailFrom(path: seq<int>, active: seq<int>, k: int): bool
    requires |path| == 4 && |active| == 4 && -1 <= k < 4
    decreases k + 1
  {
    if k < 0 then false
    else if active[k] == 0 then true
    else if path[k] != active[k] then false
    else TailFrom(path, active, k - 1)
  }

  /** Whether `path` lies below the end of `activePath` (`isTailOfActivePath`). */
  function IsTailOfActivePath(path: PhysicalAddress, activePath: PhysicalAddress): bool {
    if activePath == 0 then false else TailFrom(Nibbles(path), Nibbles(activePath), 3)
  }

  /** `activePath` has a zero nibble at `z` and none above it. */
  predicate TopZeroAt(activePath: PhysicalAddress, z: nat)
  {
    z < 4 && Nibble(activePath, z) == 0 &&
    forall j :: z < j < 4 ==> Nibble(activePath, j) != 0
  }

  predicate HasZeroNibble(activePath: PhysicalAddress) {
    exists z :: 0 <= z < 4 && Nibble(activePath, z) == 0
  }

  /** `path` agrees with `activePath` on nibbles `lo+1 .. 3`. */
  predicate AgreesAbove(path: PhysicalAddress, activePath: PhysicalAddress, lo: int)
    requires -1 <= lo
  {
    forall j :: lo < j < 4 ==> Nibble(path, j) == Nibble(activePath, j)
  }

  lemma {:induction false} TailFromNoZero(path: seq<int>, active: seq<int>, k: int)
    requires |path| == 4 && |active| == 4 && -1 <= k < 4
    requires forall j :: 0 <= j <= k ==> active[j] != 0
    ensures !TailFrom(path, active, k)
    decreases k + 1
  {
    if k >= 0 {
      TailFromNoZero(path, active, k - 1);
    }
  }

  lemma {:induction false} TailFromTopZero(path: seq<int>, active: seq<int>, k: int, z: nat)
    requires |path| == 4 && |active| == 4 && z <= k < 4
    requires active[z] == 0
    requires forall j :: z < j <= k ==> active[j] != 0
    ensures TailFrom(path, active, k) <==> (forall j :: z < j <= k ==> path[j] == active[j])
    decreases k
  {
    if k > z {
      TailFromTopZero(path, active, k - 1, z);
    }
  }

  /** With the zero address or no zero nibble anywhere, nothing is a tail, `activePath` included. */
  lemma TailNeedsZeroNibble(path: PhysicalAddress, activePath: PhysicalAddress)
    requires activePath == 0 || !HasZeroNibble(activePath)
    ensures !IsTailOfActivePath(path, activePath)
  {
    if activePath != 0 {
      TailFromNoZero(Nibbles(path), Nibbles(activePath), 3);
    }
  }

  /**
   * Otherwise `path` is a tail exactly when it repeats `activePath`'s nibbles above
   * the first zero nibble.
   */
  lemma TailCharacterization(path: PhysicalAddress, activePath: PhysicalAddress, z: nat)
    requires activePath != 0 && TopZeroAt(activePath, z)
    ensures IsTailOfActivePath(path, activePath) <==> AgreesAbove(path, activePath, z)
  {
    TailFromTopZero(Nibbles(path), Nibbles(activePath), 3, z);
  }

  /** A nonzero address ending in a zero nibble is a tail of itself. */
  lemma ActivePathIsOwnTail(activePath: PhysicalAddress, z: nat)
    requires activePath != 0 && TopZeroAt(activePath, z)
    ensures IsTailOfActivePath(activePath, activePath)
  {
    TailCharacterization(activePath, activePath, z);
  }

  // ------------------------------------------------------ isDirectConnectAddress

  const ROUTING_PATH_TOP_MASK: bv16 := 0xF000

  /** A device plugged straight into a TV port: `(p & 0xF000) == p`. */
  function IsDirectConnectAddress(p: PhysicalAddress): bool {
    (p as bv16) & ROUTING_PATH_TOP_MASK == p as bv16
  }

  lemma DirectConnectMeansLowNibblesZero(p: PhysicalAddress)
    ensures IsDirectConnectAddress(p) <==> (Nibble(p, 0) == 0 && Nibble(p, 1) == 0 && Nibble(p, 2) == 0)
  {
    var b := p as bv16;
    assert b & 0xF000 == b <==> (b & 0xF == 0 && (b >> 4) & 0xF == 0 && (b >> 8) & 0xF == 0);
  }

  // ------------------------------------------------- routing-path membership

  /**
   * `isInActiveRoutingPath(activePath, newPath)` of the framework's HDMI utilities: the two
   * paths agree on every nibble, from the top, until either has a zero nibble. So a parent,
   * a descendant or the path itself is in the routing path; a sibling is not.
   */
  function InActiveRoutingPath(activePath: PhysicalAddress, newPath: PhysicalAddress): bool {
    InPathFrom(Nibbles(activePath), Nibbles(newPath), 3)
  }

  function InPathFrom(active: seq<int>, path: seq<int>, k: int): bool
    requires |active| == 4 && |path| == 4 && -1 <= k < 4
    decreases k + 1
  {
    if k < 0 then true
    else if active[k] == 0 || path[k] == 0 then true
    else if active[k] != path[k] then false
    else InPathFrom(active, path, k - 1)
  }

  lemma {:induction false} InPathFromReflexive(p: seq<int>, k: int)
    requires |p| == 4 && -1 <= k < 4
    ensures InPathFrom(p, p, k)
    decreases k + 1
  {
    if k >= 0 { InPathFromReflexive(p, k - 1); }
  }

  lemma {:induction false} InPathFromSymmetric(p: seq<int>, q: seq<int>, k: int)
    requires |p| == 4 && |q| == 4 && -1 <= k < 4
    ensures InPathFrom(p, q, k) == InPathFrom(q, p, k)
    decreases k + 1
  {
    if k >= 0 { InPathFromSymmetric(p, q, k - 1); }
  }

  /** Every path is in its own routing path, and the relation is symmetric. */
  lemma RoutingPathReflexiveAndSymmetric(p: PhysicalAddress, q: PhysicalAddress)
    ensures InActiveRoutingPath(p, p)
    ensures InActiveRoutingPath(p, q) == InActiveRoutingPath(q, p)
  {
    InPathFromReflexive(Nibbles(p), 3);
    InPathFromSymmetric(Nibbles(p), Nibbles(q), 3);
  }
}
