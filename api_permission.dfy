/**
 * The extension API permission identifiers and the flag word every permission
 * description carries, with the five questions asked of that word.
 */
module ApiPermission {
  /** APIPermission::ID: two error codes, then the real permissions numbered from 0. */
  const Invalid: int := -2
  const Unknown: int := -1
  /** kAccessibilityFeaturesModify, the first real permission. */
  const FirstPermission: int := 0
  /** kEnumBoundary: one past the last of the 181 real permissions. */
  const EnumBoundary: int := 181

  /** Whether `id` names a real permission rather than an error code or the boundary. */
  predicate IsRealPermission(id: int)
  {
    FirstPermission <= id < EnumBoundary
  }

  /** The flag word is a C++ int; only its low bits are used. */
  type Flags = bv32

  const FlagNone: Flags := 0
  const FlagImpliesFullAccess: Flags := 1 << 0
  const FlagImpliesFullURLAccess: Flags := 1 << 1
  const FlagCannotBeOptional: Flags := 1 << 3
  const FlagInternal: Flags := 1 << 4
  const FlagSupportsContentCapabilities: Flags := 1 << 5

  /** Every declared flag other than kFlagNone. */
  const AllFlags: seq<Flags> := [FlagImpliesFullAccess, FlagImpliesFullURLAccess,
    FlagCannotBeOptional, FlagInternal, FlagSupportsContentCapabilities]

  /** Bit `k` of `f`, read by shifting rather than by masking. */
  predicate Bit(f: Flags, k: nat)
    requires k < 32
  {
    (f >> k) & 1 == 1
  }

  /** The immutable description of one permission. */
  datatype APIPermissionInfo = APIPermissionInfo(id: int, name: string, flags: Flags)

  /** The permission implies full access, such as native code. */
  function ImpliesFullAccess(info: APIPermissionInfo): (b: bool)
    ensures b <==> Bit(info.flags, 0)
  {
    info.flags & FlagImpliesFullAccess != 0
  }

  /** The permission implies access to every URL. */
  function ImpliesFullURLAccess(info: APIPermissionInfo): (b: bool)
    ensures b <==> Bit(info.flags, 1)
  {
    info.flags & FlagImpliesFullURLAccess != 0
  }

  /** The permission can be requested as optional: its cannot-be-optional bit is clear. */
  function SupportsOptional(info: APIPermissionInfo): (b: bool)
    ensures b <==> !Bit(info.flags, 3)
  {
    info.flags & FlagCannotBeOptional == 0
  }

  /** The permission is internal and cannot appear in a "permissions" list. */
  function IsInternal(info: APIPermissionInfo): (b: bool)
    ensures b <==> Bit(info.flags, 4)
  {
    info.flags & FlagInternal != 0
  }

  /** The permission may be granted to web contents through content capabilities. */
  function SupportsContentCapabilities(info: APIPermissionInfo): (b: bool)
    ensures b <==> Bit(info.flags, 5)
  {
    info.flags & FlagSupportsContentCapabilities != 0
  }

  /** The identifiers: the error codes sit below the real permissions, which end just before the boundary. */
  lemma IdLayout()
    ensures Invalid < Unknown < FirstPermission
    ensures !IsRealPermission(Invalid) && !IsRealPermission(Unknown) && !IsRealPermission(EnumBoundary)
    ensures IsRealPermission(FirstPermission) && IsRealPermission(EnumBoundary - 1)
    ensures EnumBoundary - FirstPermission == 181
  {
  }

  /** Each declared flag is a single bit, no two share one, and bit 2 is unused. */
  lemma FlagsAreDistinctBits()
    ensures forall i :: 0 <= i < |AllFlags| ==> AllFlags[i] != 0 && AllFlags[i] & (AllFlags[i] - 1) == 0
    ensures forall i, j :: 0 <= i < j < |AllFlags| ==> AllFlags[i] & AllFlags[j] == 0
    ensures forall i :: 0 <= i < |AllFlags| ==> AllFlags[i] & (1 << 2) == 0
  {
  }

  /** Setting kFlagInternal on a permission makes it internal and leaves the other four answers as they were. */
  lemma SetInternalOnly(info: APIPermissionInfo)
    ensures var marked := info.(flags := info.flags | FlagInternal);
      && IsInternal(marked)
      && (ImpliesFullAccess(marked) <==> ImpliesFullAccess(info))
      && (ImpliesFullURLAccess(marked) <==> ImpliesFullURLAccess(info))
      && (SupportsOptional(marked) <==> SupportsOptional(info))
      && (SupportsContentCapabilities(marked) <==> SupportsContentCapabilities(info))
  {
  }

  /** Setting kFlagCannotBeOptional withdraws optional support and changes nothing else. */
  lemma SetCannotBeOptionalOnly(info: APIPermissionInfo)
    ensures var marked := info.(flags := info.flags | FlagCannotBeOptional);
      && !SupportsOptional(marked)
      && (ImpliesFullAccess(marked) <==> ImpliesFullAccess(info))
      && (ImpliesFullURLAccess(marked) <==> ImpliesFullURLAccess(info))
      && (IsInternal(marked) <==> IsInternal(info))
      && (SupportsContentCapabilities(marked) <==> SupportsContentCapabilities(info))
  {
  }

  /** A permission declared with no flags is neither privileged nor internal and may be optional. */
  lemma NoFlagsPermission(info: APIPermissionInfo)
    requires info.flags == FlagNone
    ensures !ImpliesFullAccess(info) && !ImpliesFullURLAccess(info) && SupportsOptional(info)
    ensures !IsInternal(info) && !SupportsContentCapabilities(info)
  {
  }
}
