/**
 * The stateless half of CarUxRestrictionsUtil: the test whether a set of
 * restriction flags is blocked, and the shortening of a string to the
 * length limit that driving-time restrictions impose.
 */
module UxRestrictions {
  import opened Wrappers
  import opened Flags

  /**
   * The platform's restrictions record as this helper reads it: the active
   * restriction flags and the longest string allowed while they apply.
   * Both are Java ints.
   */
  datatype CarUxRestrictions = CarUxRestrictions(activeRestrictions: bv32, maxRestrictedStringLength: int)

  /** The platform flag that limits the length of displayed strings (bit 2). */
  const UX_RESTRICTIONS_LIMIT_STRING_LENGTH: bv32 := 0x4

  /** The exception `String.substring` throws for a negative end index. */
  datatype ComplyError = StringIndexOutOfBounds

  /**
   * Whether any of `restrictionFlags` is blocked by `uxr`; an absent
   * restrictions object blocks everything, for safety.
   */
  function IsRestricted(restrictionFlags: bv32, uxr: Option<CarUxRestrictions>): (r: bool)
    ensures uxr.None? ==> r
    ensures uxr.Some? ==> (r <==> SharesFlag(uxr.value.activeRestrictions, restrictionFlags))
  {
    match uxr
    case None => true
    case Some(u) =>
      AndNonZeroIffShared(u.activeRestrictions, restrictionFlags);
      u.activeRestrictions & restrictionFlags != 0
  }

  /** The length limit in force: the record's own, or the configured default when there is none. */
  function MaxStringLength(uxr: Option<CarUxRestrictions>, defaultMaxLength: int): (m: int)
  {
    if uxr.None? then defaultMaxLength else uxr.value.maxRestrictedStringLength
  }

  /**
   * A string complies with a length limit `maxLength` when it is no longer
   * than the limit, or is exactly `maxLength` characters followed by the ellipsis.
   */
  ghost predicate Complies(s: string, maxLength: nat, ellipsis: string)
  {
    |s| <= maxLength || (|s| == maxLength + |ellipsis| && s[maxLength..] == ellipsis)
  }

  /**
   * The string made to comply with `uxr`: unchanged when the length limit is
   * not in force or already met, otherwise its first `maxLength` characters
   * followed by `ellipsis`. A negative limit in force makes the Java
   * `substring` call throw, modelled as a failure.
   */
  function ComplyString(str: string, uxr: Option<CarUxRestrictions>, defaultMaxLength: int, ellipsis: string)
    : (r: Result<string, ComplyError>)
    ensures r.Failure? <==>
              IsRestricted(UX_RESTRICTIONS_LIMIT_STRING_LENGTH, uxr) && MaxStringLength(uxr, defaultMaxLength) < 0
    ensures !IsRestricted(UX_RESTRICTIONS_LIMIT_STRING_LENGTH, uxr) ==> r == Success(str)
    ensures |str| <= MaxStringLength(uxr, defaultMaxLength) ==> r == Success(str)
    ensures IsRestricted(UX_RESTRICTIONS_LIMIT_STRING_LENGTH, uxr) && r.Success? ==>
              Complies(r.value, MaxStringLength(uxr, defaultMaxLength), ellipsis)
    ensures IsRestricted(UX_RESTRICTIONS_LIMIT_STRING_LENGTH, uxr) && 0 <= MaxStringLength(uxr, defaultMaxLength) < |str| ==>
              var m := MaxStringLength(uxr, defaultMaxLength);
              r.Success? && |r.value| == m + |ellipsis| && r.value[..m] == str[..m] && r.value[m..] == ellipsis
  {
    if IsRestricted(UX_RESTRICTIONS_LIMIT_STRING_LENGTH, uxr) then
      var maxLength := MaxStringLength(uxr, defaultMaxLength);
      if |str| > maxLength then
        if maxLength < 0 then Failure(StringIndexOutOfBounds)
        else Success(str[..maxLength] + ellipsis)
      else Success(str)
    else Success(str)
  }

  /** With a restrictions record present, requesting no flags is never restricted. */
  lemma NoFlagsNeverRestricted(uxr: CarUxRestrictions)
    ensures !IsRestricted(0, Some(uxr))
  {
  }

  /** Requesting the union of two flag sets is restricted exactly when one of them is. */
  lemma IsRestrictedUnion(f: bv32, g: bv32, uxr: Option<CarUxRestrictions>)
    ensures IsRestricted(f | g, uxr) <==> IsRestricted(f, uxr) || IsRestricted(g, uxr)
  {
    if uxr.Some? {
      SharesFlagOr(uxr.value.activeRestrictions, f, g);
    }
  }

  /** With a restrictions record present, the configured default limit plays no part. */
  lemma ComplyStringIgnoresDefault(str: string, uxr: CarUxRestrictions, default1: int, default2: int, ellipsis: string)
    ensures ComplyString(str, Some(uxr), default1, ellipsis) == ComplyString(str, Some(uxr), default2, ellipsis)
  {
  }

  /**
   * Without a restrictions record, a string is complied as under a record that
   * has the length limit active with the default limit.
   */
  lemma ComplyStringAbsentAsDefaultLimit(str: string, defaultMaxLength: int, anyDefault: int, ellipsis: string)
    ensures ComplyString(str, None, defaultMaxLength, ellipsis) ==
            ComplyString(str, Some(CarUxRestrictions(UX_RESTRICTIONS_LIMIT_STRING_LENGTH, defaultMaxLength)), anyDefault, ellipsis)
  {
  }

  /** Complying a string that already complies changes nothing. */
  lemma ComplyStringIdempotent(str: string, uxr: Option<CarUxRestrictions>,
                               defaultMaxLength: int, ellipsis: string)
    requires ComplyString(str, uxr, defaultMaxLength, ellipsis).Success?
    ensures var once := ComplyString(str, uxr, defaultMaxLength, ellipsis).value;
            ComplyString(once, uxr, defaultMaxLength, ellipsis) == Success(once)
  {
    var m := MaxStringLength(uxr, defaultMaxLength);
    var once := ComplyString(str, uxr, defaultMaxLength, ellipsis).value;
    if IsRestricted(UX_RESTRICTIONS_LIMIT_STRING_LENGTH, uxr) && |str| > m {
      if |once| > m {
        assert once[..m] == str[..m];
        assert once == once[..m] + once[m..];
      }
    }
  }
}
