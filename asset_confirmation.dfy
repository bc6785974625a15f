/**
 * The confirmation step of asset discovery
 * (src/components/assets/AssetConfirmation.tsx): whether the picked search
 * result is an existing asset (its id has the textual layout of a UUID,
 * section 3 of RFC 4122) or an external one to be created, the label of the
 * confirm button, and the `isConfirming` flag.
 */
module AssetConfirmation {
  import opened Wrappers
  import opened Types
  import FormUrlEncoded

  predicate Hex(c: char) {
    FormUrlEncoded.IsHexDigit(c)
  }

  /** The positions of the four hyphens in `8-4-4-4-12`. */
  predicate DashAt(i: int) {
    i == 8 || i == 13 || i == 18 || i == 23
  }

  /**
   * `/^[0-9a-f]{8}-[0-9a-f]{4}-[0-9a-f]{4}-[0-9a-f]{4}-[0-9a-f]{12}$/i`:
   * 36 characters, hyphens at the four group boundaries, hexadecimal digits
   * of either case elsewhere. The version and variant digits are not checked.
   */
  predicate UuidShape(s: string) {
    |s| == 36 && forall i :: 0 <= i < 36 ==> (if DashAt(i) then s[i] == '-' else Hex(s[i]))
  }

  predicate HexGroup(g: string, n: int) {
    |g| == n && forall i :: 0 <= i < |g| ==> Hex(g[i])
  }

  /** Five groups of hexadecimal digits joined by hyphens. */
  function JoinGroups(a: string, b: string, c: string, d: string, e: string): string {
    a + "-" + b + "-" + c + "-" + d + "-" + e
  }

  /** Five hexadecimal groups of 8, 4, 4, 4 and 12 digits, joined, have the shape. */
  lemma JoinedGroupsHaveShape(a: string, b: string, c: string, d: string, e: string)
    requires HexGroup(a, 8) && HexGroup(b, 4) && HexGroup(c, 4) && HexGroup(d, 4) && HexGroup(e, 12)
    ensures UuidShape(JoinGroups(a, b, c, d, e))
  {
    var s := JoinGroups(a, b, c, d, e);
    forall i | 0 <= i < 36 ensures if DashAt(i) then s[i] == '-' else Hex(s[i]) {
      if i < 8 { assert s[i] == a[i]; }
      else if i == 8 { assert s[i] == '-'; }
      else if i < 13 { assert s[i] == b[i - 9]; }
      else if i == 13 { assert s[i] == '-'; }
      else if i < 18 { assert s[i] == c[i - 14]; }
      else if i == 18 { assert s[i] == '-'; }
      else if i < 23 { assert s[i] == d[i - 19]; }
      else if i == 23 { assert s[i] == '-'; }
      else { assert s[i] == e[i - 24]; }
    }
  }

  /** Every string with the shape is its five groups joined by hyphens. */
  lemma ShapeSplitsIntoGroups(s: string)
    requires UuidShape(s)
    ensures HexGroup(s[..8], 8) && HexGroup(s[9..13], 4) && HexGroup(s[14..18], 4)
    ensures HexGroup(s[19..23], 4) && HexGroup(s[24..], 12)
    ensures s == JoinGroups(s[..8], s[9..13], s[14..18], s[19..23], s[24..])
  {
    GroupOfShape(s, 0, 8);
    GroupOfShape(s, 9, 4);
    GroupOfShape(s, 14, 4);
    GroupOfShape(s, 19, 4);
    GroupOfShape(s, 24, 12);
    assert s[..8] == s[0..8] && s[24..] == s[24..36];
    SplitAtDashes(s);
  }

  /** A run of the shape that contains no hyphen position is a hexadecimal group. */
  lemma GroupOfShape(s: string, lo: int, n: int)
    requires UuidShape(s) && 0 <= lo && 0 <= n && lo + n <= 36
    requires forall i :: lo <= i < lo + n ==> !DashAt(i)
    ensures HexGroup(s[lo..lo + n], n)
  {
    var g := s[lo..lo + n];
    forall i | 0 <= i < n ensures Hex(g[i]) {
      assert g[i] == s[lo + i];
    }
  }

  /** Cutting out the hyphens and joining the pieces again gives the same string. */
  lemma SplitAtDashes(s: string)
    requires |s| == 36 && s[8] == '-' && s[13] == '-' && s[18] == '-' && s[23] == '-'
    ensures s == JoinGroups(s[0..8], s[9..13], s[14..18], s[19..23], s[24..36])
  {
    assert s == s[0..8] + [s[8]] + s[9..13] + [s[13]] + s[14..18] + [s[18]] + s[19..23] + [s[23]] + s[24..36];
  }

  /** The all-zero (nil) UUID passes, though it names no version. */
  lemma NilUuidAccepted()
    ensures UuidShape("00000000-0000-0000-0000-000000000000")
  {
    ZeroGroups();
    JoinedGroupsHaveShape("00000000", "0000", "0000", "0000", "000000000000");
    NilJoined();
  }

  lemma ZeroGroups()
    ensures HexGroup("00000000", 8) && HexGroup("0000", 4) && HexGroup("000000000000", 12)
  {
  }

  lemma NilJoined()
    ensures JoinGroups("00000000", "0000", "0000", "0000", "000000000000") == "00000000-0000-0000-0000-000000000000"
  {
  }

  // ---- The flags (lines 100-106) ----

  /** `isInternalId`: an id is present (and not empty) and has the UUID shape. */
  predicate IsInternalId(id: Option<string>) {
    PresentText(id) && UuidShape(id.value)
  }

  /** `isExistingAsset`. */
  predicate IsExistingAsset(a: SearchResult) {
    IsInternalId(a.id)
  }

  /** `isExternalAsset`: a non-empty external id and no internal id. */
  predicate IsExternalAsset(a: SearchResult) {
    PresentText(a.externalId) && !IsInternalId(a.id)
  }

  /** The two flags exclude each other; the presence test on the id adds nothing to the shape test. */
  lemma FlagsExclusive(a: SearchResult)
    ensures !(IsExistingAsset(a) && IsExternalAsset(a))
    ensures IsInternalId(a.id) <==> a.id.Some? && UuidShape(a.id.value)
    ensures !IsExistingAsset(a) && !IsExternalAsset(a) <==> !IsInternalId(a.id) && !PresentText(a.externalId)
  {
  }

  // ---- The button (lines 241-245) ----

  function ConfirmLabel(isConfirming: bool, a: SearchResult): (caption: string)
    ensures isConfirming ==> caption == "Confirmando..."
    ensures !isConfirming && IsExistingAsset(a) ==> caption == "Usar Asset"
    ensures !isConfirming && !IsExistingAsset(a) ==> caption == "Crear Asset"
  {
    if isConfirming then "Confirmando..." else if IsExistingAsset(a) then "Usar Asset" else "Crear Asset"
  }

  // ---- Confirmation (lines 42-52) ----

  class ConfirmationView {
    const asset: SearchResult
    var isConfirming: bool

    constructor (asset: SearchResult)
      ensures this.asset == asset && !isConfirming
    {
      this.asset := asset;
      isConfirming := false;
    }

    /**
     * `handleConfirm`: raise the flag, hand the asset to `onConfirm`, lower the
     * flag in `finally`; an error from `onConfirm` (`confirmThrows`) is rethrown.
     */
    method Confirm(confirmThrows: bool) returns (confirmed: SearchResult, rethrown: bool)
      modifies this
      ensures confirmed == asset
      ensures rethrown == confirmThrows
      ensures !isConfirming
    {
      isConfirming := true;
      confirmed := asset;
      rethrown := confirmThrows;
      isConfirming := false;
    }
  }
}
