/**
 * Windows long-path normalisation (stout `internal::windows::longpath`).
 *
 * A wide path is marked with the long-path prefix `\\?\` when it is at
 * least `MaxPathLength` characters long, absolute, and not already marked.
 * Absoluteness (`path::absolute`) and the narrow-to-wide conversion
 * (`wide_stringify`) live in files that are not part of this model, so they
 * are parameters: `absolute` is any predicate on wide paths and `widen` any
 * conversion from narrow (byte) strings to wide strings.
 */
module LongPath {

  /**
   * A wide path, as a sequence of characters. Its length counts characters
   * (Unicode scalar values), not the UTF-16 code units of `std::wstring`.
   */
  type WidePath = seq<char>

  /** A narrow (`std::string`) path: a sequence of bytes. */
  type NarrowPath = seq<bv8>

  /** The smallest path-length limit among the Windows file APIs (`CreateDirectoryW`). */
  const MaxPathLength: nat := 248

  /** The long-path marker `\\?\`. */
  const LongPathPrefix: WidePath := ['\\', '\\', '?', '\\']

  predicate StartsWith(s: WidePath, prefix: WidePath)
  {
    |prefix| <= |s| && s[..|prefix|] == prefix
  }

  /** True when `longpath_internal` has to add the marker to `path`. */
  predicate NeedsPrefix(path: WidePath, absolute: WidePath -> bool)
  {
    |path| >= MaxPathLength && !StartsWith(path, LongPathPrefix) && absolute(path)
  }

  /** `longpath_internal(const std::wstring&)`. */
  function LongPathInternal(path: WidePath, absolute: WidePath -> bool): (r: WidePath)
    ensures r == path || r == LongPathPrefix + path
    ensures |path| >= MaxPathLength && absolute(path) ==> StartsWith(r, LongPathPrefix)
  {
    if NeedsPrefix(path, absolute) then LongPathPrefix + path else path
  }

  /**
   * `longpath_internal(std::wstring&&)`: the same decision, returning the
   * moved argument instead of a copy on the unchanged branch.
   */
  function LongPathInternalMoved(path: WidePath, absolute: WidePath -> bool): (r: WidePath)
    ensures r == LongPathInternal(path, absolute)
  {
    if |path| >= MaxPathLength && !StartsWith(path, LongPathPrefix) && absolute(path) then
      LongPathPrefix + path
    else
      path
  }

  /** `longpath_internal(const std::string&)` and `longpath_internal(std::string&&)`. */
  function LongPathInternalNarrow(path: NarrowPath, widen: NarrowPath -> WidePath,
                                  absolute: WidePath -> bool): (r: WidePath)
    ensures r == LongPathInternal(widen(path), absolute)
    ensures LongPathInternal(r, absolute) == r
  {
    LongPathIdempotent(widen(path), absolute);
    LongPathInternal(widen(path), absolute)
  }

  /** `longpath<T>(T&&)`: stringify the argument, then normalise the narrow string. */
  function LongPathOf<T>(path: T, stringify: T -> NarrowPath, widen: NarrowPath -> WidePath,
                         absolute: WidePath -> bool): (r: WidePath)
    ensures LongPathInternal(r, absolute) == r
    ensures r == LongPathInternal(widen(stringify(path)), absolute)
  {
    LongPathInternalNarrow(stringify(path), widen, absolute)
  }

  lemma ShortPathUnchanged(path: WidePath, absolute: WidePath -> bool)
    requires |path| < MaxPathLength
    ensures LongPathInternal(path, absolute) == path
  {
  }

  lemma MarkedPathUnchanged(path: WidePath, absolute: WidePath -> bool)
    requires StartsWith(path, LongPathPrefix)
    ensures LongPathInternal(path, absolute) == path
  {
  }

  lemma RelativePathUnchanged(path: WidePath, absolute: WidePath -> bool)
    requires !absolute(path)
    ensures LongPathInternal(path, absolute) == path
  {
  }

  lemma LongAbsolutePathMarked(path: WidePath, absolute: WidePath -> bool)
    requires |path| >= MaxPathLength && !StartsWith(path, LongPathPrefix) && absolute(path)
    ensures LongPathInternal(path, absolute) == LongPathPrefix + path
  {
  }

  /** The input is a suffix of the result, which is at most one prefix longer. */
  lemma InputIsSuffix(path: WidePath, absolute: WidePath -> bool)
    ensures var r := LongPathInternal(path, absolute);
      && |path| <= |r|
      && r[|r| - |path|..] == path
      && (|r| == |path| || |r| == |LongPathPrefix| + |path|)
  {
  }

  /** Normalising twice is the same as normalising once. */
  lemma LongPathIdempotent(path: WidePath, absolute: WidePath -> bool)
    ensures LongPathInternal(LongPathInternal(path, absolute), absolute)
         == LongPathInternal(path, absolute)
  {
    if NeedsPrefix(path, absolute) {
      var r := LongPathPrefix + path;
      assert r[..|LongPathPrefix|] == LongPathPrefix;
      assert StartsWith(r, LongPathPrefix);
    }
  }

  /** The marker is added exactly when the path needs it, never more than once. */
  lemma PrefixAddedIff(path: WidePath, absolute: WidePath -> bool)
    ensures LongPathInternal(path, absolute) != path <==> NeedsPrefix(path, absolute)
  {
    if NeedsPrefix(path, absolute) {
      assert |LongPathPrefix + path| != |path|;
    }
  }
}
