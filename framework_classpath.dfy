/**
  Derivation of `osgi.frameworkClassPath` from the framework-extension paths,
  and its entry in the VM property map.
 */
module FrameworkClasspath {
  import opened UrlScheme

  /** The property the extension classpath is stored under. */
  const FrameworkClassPathKey: string := "osgi.frameworkClassPath"
  /** What the classpath value starts with: the framework's own location. */
  const OwnLocation: string := ".,"

  /** The elements of `parts` separated by `sep`, with nothing before the first or after the last. */
  function Join(sep: string, parts: seq<string>): string
  {
    if |parts| == 0 then ""
    else if |parts| == 1 then parts[0]
    else parts[0] + sep + Join(sep, parts[1..])
  }

  /**
    `Collectors.joining(sep, prefix, suffix)`: the prefix and the suffix surround
    the whole joined string once, and are there even when there are no parts.
   */
  function Joining(sep: string, prefix: string, suffix: string, parts: seq<string>): (r: string)
    ensures |r| >= |prefix| + |suffix|
    ensures r[..|prefix|] == prefix && r[|r| - |suffix|..] == suffix
    ensures r[|prefix|..|r| - |suffix|] == Join(sep, parts)
    ensures parts == [] ==> r == prefix + suffix
  {
    prefix + Join(sep, parts) + suffix
  }

  /** Joining one more element adds the separator and that element, unchanged, at the end. */
  lemma {:induction false} JoinSnoc(sep: string, parts: seq<string>, p: string)
    requires |parts| > 0
    ensures Join(sep, parts + [p]) == Join(sep, parts) + sep + p
  {
    if |parts| > 1 {
      assert (parts + [p])[1..] == parts[1..] + [p];
      JoinSnoc(sep, parts[1..], p);
    }
  }

  /** The comma-joined extension paths with `file:` once, in front of the whole string. */
  function ExtensionClasspath(paths: seq<string>): (r: string)
    ensures |r| >= |FileScheme| && r[..|FileScheme|] == FileScheme
  {
    Joining(",", FileScheme, "", paths)
  }

  /**
    The `file:` scheme is not repeated for later paths: a path appended to a
    non-empty set of extensions appears after a comma exactly as it is.
   */
  lemma ExtensionClasspathSnoc(paths: seq<string>, p: string)
    requires |paths| > 0
    ensures ExtensionClasspath(paths + [p]) == ExtensionClasspath(paths) + "," + p
  {
    JoinSnoc(",", paths, p);
  }

  /** Two extensions: only the first carries the scheme. */
  lemma TwoExtensions()
    ensures ExtensionClasspath(["/a/ext1", "/a/ext2"]) == "file:/a/ext1,/a/ext2"
  {
    assert ["/a/ext1", "/a/ext2"][1..] == ["/a/ext2"];
  }

  /** Characters `String.trim()` removes: every code point up to the space character. */
  predicate IsTrimmed(c: char) {
    c <= ' '
  }

  /** `s` without its leading trimmed characters. */
  function TrimStart(s: string): (r: string)
    ensures |r| <= |s| && r == s[|s| - |r|..]
    ensures forall k :: 0 <= k < |s| - |r| ==> IsTrimmed(s[k])
    ensures r == [] || !IsTrimmed(r[0])
  {
    if |s| > 0 && IsTrimmed(s[0]) then TrimStart(s[1..]) else s
  }

  /** `s` without its trailing trimmed characters. */
  function TrimEnd(s: string): (r: string)
    ensures |r| <= |s| && r == s[..|r|]
    ensures forall k :: |r| <= k < |s| ==> IsTrimmed(s[k])
    ensures r == [] || !IsTrimmed(r[|r| - 1])
  {
    if |s| > 0 && IsTrimmed(s[|s| - 1]) then TrimEnd(s[..|s| - 1]) else s
  }

  /**
    `String.trim()`: empty exactly when every character is one it removes;
    otherwise it neither starts nor ends with such a character.
   */
  function Trim(s: string): (r: string)
    ensures r == [] <==> forall k :: 0 <= k < |s| ==> IsTrimmed(s[k])
    ensures r != [] ==> !IsTrimmed(r[0]) && !IsTrimmed(r[|r| - 1])
  {
    TrimEnd(TrimStart(s))
  }

  /** A string that starts with a character `trim()` keeps does not trim to the empty string. */
  lemma TrimKeepsVisibleStart(s: string)
    requires |s| > 0 && !IsTrimmed(s[0])
    ensures Trim(s) != "" && Trim(s)[0] == s[0]
  {
    assert TrimStart(s) == s;
  }

  /**
    The emptiness guard in front of the `put` never fails: the classpath string
    starts with `file:`, so trimming it never leaves it empty, even when there
    are no extension paths.
   */
  lemma ClasspathNeverBlank(paths: seq<string>)
    ensures Trim(ExtensionClasspath(paths)) != ""
  {
    var cp := ExtensionClasspath(paths);
    assert cp[0] == cp[..|FileScheme|][0] == 'f';
    TrimKeepsVisibleStart(cp);
  }

  /**
    `vmProperties` after the extension step. Without the framework-extensions
    key the map is unchanged. With it, `osgi.frameworkClassPath` is always set
    (the emptiness guard never fails) to `.,file:` followed by the comma-joined
    paths. No other key is added, removed or changed.
   */
  function WithFrameworkClassPath(vmProperties: map<string, string>, extensionsKey: string,
                                  paths: seq<string>): (r: map<string, string>)
    ensures extensionsKey !in vmProperties ==> r == vmProperties
    ensures extensionsKey in vmProperties ==>
              FrameworkClassPathKey in r && r[FrameworkClassPathKey] == ".,file:" + Join(",", paths)
    ensures r.Keys - {FrameworkClassPathKey} == vmProperties.Keys - {FrameworkClassPathKey}
    ensures forall k :: k in vmProperties && k != FrameworkClassPathKey ==> k in r && r[k] == vmProperties[k]
  {
    if extensionsKey in vmProperties then
      var classpath := ExtensionClasspath(paths);
      ClasspathNeverBlank(paths);
      ClasspathValue(paths);
      if Trim(classpath) != "" then vmProperties[FrameworkClassPathKey := OwnLocation + classpath]
      else vmProperties
    else vmProperties
  }

  /** The stored value spelled out: `.,` and `file:` once each, then the joined paths. */
  lemma ClasspathValue(paths: seq<string>)
    ensures OwnLocation + ExtensionClasspath(paths) == ".,file:" + Join(",", paths)
  {
    var joined := Join(",", paths);
    assert ExtensionClasspath(paths) == FileScheme + joined;
  }

  /** An empty set of extensions still writes the bare `.,file:`. */
  lemma EmptyExtensionsWriteBareScheme(vmProperties: map<string, string>, extensionsKey: string)
    requires extensionsKey in vmProperties
    ensures var r := WithFrameworkClassPath(vmProperties, extensionsKey, []);
            FrameworkClassPathKey in r && r[FrameworkClassPathKey] == ".,file:"
  {
  }
}
