// The path rewrite of the merged-usr Debian adapter. On distributions where `/lib` is a
// symbolic link to `/usr/lib`, the package database may have registered a library under
// either location, so every library path that starts with `/lib` or `/usr/lib` is turned
// into the wildcard form `*/lib...`, which one `dpkg -S` query matches in both places.
module MergedUsr {
  import opened AnchoredRegex

  const Lib := "/lib"
  const UsrLib := "/usr/lib"
  const WildcardLib := "*/lib"

  /** The pattern `^([/]usr)?[/]lib` without its anchor (the anchor is `ReplaceAnchored`). */
  const LibPattern := Concat(Optional(Lit("/usr")), Lit("/lib"))

  /** True when the anchored pattern finds a match: the path begins with `/lib` or
      `/usr/lib`, with no path-segment boundary required after `lib`. */
  predicate HasLibPrefix(path: string) {
    Lib <= path || UsrLib <= path
  }

  /** A path that starts with `*` has neither prefix. */
  lemma StarPathHasNoLibPrefix(t: string)
    requires |t| > 0 && t[0] == '*'
    ensures !HasLibPrefix(t)
  {
  }

  /** The rewrite of one path. */
  function NormalizeLibPath(path: string): (r: string)
    ensures r == path <==> !HasLibPrefix(path)
    ensures HasLibPrefix(path) ==> WildcardLib <= r
    ensures !HasLibPrefix(r)
  {
    if UsrLib <= path then
      var r := WildcardLib + path[|UsrLib|..];
      StarPathHasNoLibPrefix(r);
      r
    else if Lib <= path then
      var r := WildcardLib + path[|Lib|..];
      StarPathHasNoLibPrefix(r);
      r
    else path
  }

  /** The rewrite mapped over a list of paths, as `_.map` does. */
  function NormalizeAll(paths: seq<string>): (r: seq<string>)
    ensures |r| == |paths|
    ensures forall i :: 0 <= i < |paths| ==> r[i] == NormalizeLibPath(paths[i])
  {
    if |paths| == 0 then []
    else [NormalizeLibPath(paths[0])] + NormalizeAll(paths[1..])
  }

  /** `DebianLibSymlinked._parseLibrariesInfo`: the base Debian parse of the raw
      `dpkg` output, with every path rewritten. The base parser belongs to the Debian
      adapter, which is not part of this model, so it is a parameter. */
  function ParseLibrariesInfo(baseParse: string -> seq<string>, rawInfo: string): (r: seq<string>)
    ensures |r| == |baseParse(rawInfo)|
    ensures forall i :: 0 <= i < |r| ==> r[i] == NormalizeLibPath(baseParse(rawInfo)[i])
  {
    NormalizeAll(baseParse(rawInfo))
  }

  /** Matching a literal from `i` succeeds exactly when the literal occurs there. */
  lemma LitEndsAt(t: string, s: string, i: nat)
    requires i <= |s|
    ensures Ends(Lit(t), s, i) == (if t <= s[i..] then [i + |t|] else [])
  {
  }

  lemma ContinueTwo(re: Regex, s: string, a: nat, b: nat)
    requires a <= |s| && b <= |s|
    ensures Continue(re, s, 0, [a, b]) == Ends(re, s, a) + Ends(re, s, b)
  {
    assert [a, b][1..] == [b];
    assert [b][1..] == [];
  }

  lemma ContinueOne(re: Regex, s: string, a: nat)
    requires a <= |s|
    ensures Continue(re, s, 0, [a]) == Ends(re, s, a)
  {
    assert [a][1..] == [];
  }

  /** The matches of the pattern at 0, spelled out over its two alternatives. */
  lemma PatternEnds(path: string)
    ensures Ends(LibPattern, path, 0)
         == Continue(Lit("/lib"), path, 0, Ends(Lit("/usr"), path, 0) + [0])
  {
  }

  /** How a `/usr/lib` path splits around the optional group. */
  lemma UsrLibSplit(path: string)
    requires UsrLib <= path
    ensures "/usr" <= path[0..]
    ensures "/lib" <= path[4..]
    ensures !("/lib" <= path[0..])
  {
    assert path[0..] == path;
    assert path[..4] == UsrLib[..4];
    assert path[4..][..4] == path[4..8] == UsrLib[4..8];
    assert path[1] == UsrLib[1];
  }

  /** A `/usr/lib` path: the group is taken and `/lib` follows it. */
  lemma PatternEndsUsrLib(path: string)
    requires UsrLib <= path
    ensures Ends(LibPattern, path, 0) == [8]
  {
    UsrLibSplit(path);
    PatternEnds(path);
    var usr := Ends(Lit("/usr"), path, 0);
    assert usr == [4];
    assert usr + [0] == [4, 0];
    ContinueTwo(Lit("/lib"), path, 4, 0);
    assert Ends(Lit("/lib"), path, 4) == [8];
    assert Ends(Lit("/lib"), path, 0) == [];
  }

  /** A `/usr` path without `/lib` after it: neither alternative matches. */
  lemma PatternEndsUsrOnly(path: string)
    requires "/usr" <= path && !(UsrLib <= path)
    ensures Ends(LibPattern, path, 0) == []
  {
    PatternEnds(path);
    assert path[0..] == path;
    LitEndsAt("/usr", path, 0);
    ContinueTwo(Lit("/lib"), path, 4, 0);
    LitEndsAt("/lib", path, 4);
    assert !("/lib" <= path) by { assert path[1] == "/usr"[1]; }
    LitEndsAt("/lib", path, 0);
  }

  /** A path not under `/usr`: only the empty alternative of the group remains. */
  lemma PatternEndsNoUsr(path: string)
    requires !("/usr" <= path)
    ensures Ends(LibPattern, path, 0) == (if Lib <= path then [4] else [])
  {
    PatternEnds(path);
    assert path[0..] == path;
    LitEndsAt("/usr", path, 0);
    ContinueOne(Lit("/lib"), path, 0);
    LitEndsAt("/lib", path, 0);
  }

  /** The direct definition agrees with the JavaScript `path.replace(/^([/]usr)?[/]lib/, '*' + '/lib')`. */
  lemma NormalizeIsRegexReplace(path: string)
    ensures NormalizeLibPath(path) == ReplaceAnchored(LibPattern, WildcardLib, path)
  {
    if UsrLib <= path {
      PatternEndsUsrLib(path);
    } else if "/usr" <= path {
      PatternEndsUsrOnly(path);
      assert !(Lib <= path) by { assert path[1] == "/usr"[1]; }
    } else {
      PatternEndsNoUsr(path);
    }
  }

  /** A path under `/lib` keeps everything after the prefix verbatim. */
  lemma LibPathRewritten(rest: string)
    ensures NormalizeLibPath(Lib + rest) == WildcardLib + rest
  {
    var p := Lib + rest;
    assert !(UsrLib <= p) by { assert p[1] == 'l'; }
    assert p[|Lib|..] == rest;
  }

  /** A path under `/usr/lib` keeps everything after the prefix verbatim; later
      occurrences of `/lib` or `/usr/lib` in `rest` are not touched. */
  lemma UsrLibPathRewritten(rest: string)
    ensures NormalizeLibPath(UsrLib + rest) == WildcardLib + rest
  {
    var p := UsrLib + rest;
    assert UsrLib <= p by { assert p[..|UsrLib|] == UsrLib; }
    assert p[|UsrLib|..] == rest;
  }

  /** The historical and the merged location of a library normalise to the same query. */
  lemma BothRegistrationsAgree(rest: string)
    ensures NormalizeLibPath(Lib + rest) == NormalizeLibPath(UsrLib + rest)
  {
    LibPathRewritten(rest);
    UsrLibPathRewritten(rest);
  }

  /** No segment boundary is required after `lib`. */
  lemma NoSegmentBoundary()
    ensures NormalizeLibPath("/library/x") == "*/library/x"
    ensures NormalizeLibPath("/usr/libexec") == "*/libexec"
  {
    LibPathRewritten("rary/x");
    assert "/library/x" == Lib + "rary/x";
    assert WildcardLib + "rary/x" == "*/library/x";
    UsrLibPathRewritten("exec");
    assert "/usr/libexec" == UsrLib + "exec";
    assert WildcardLib + "exec" == "*/libexec";
  }

  /** Only the leading prefix is substituted. */
  lemma OnlyLeadingPrefix()
    ensures NormalizeLibPath("/lib/usr/lib/x") == "*/lib/usr/lib/x"
  {
    LibPathRewritten("/usr/lib/x");
    assert "/lib/usr/lib/x" == Lib + "/usr/lib/x";
    assert WildcardLib + "/usr/lib/x" == "*/lib/usr/lib/x";
  }

  /** Paths that merely contain `lib`, or start with `/usr` but not `/usr/lib`, pass through. */
  lemma NonLibPathsUnchanged()
    ensures NormalizeLibPath("/usr/x") == "/usr/x"
    ensures NormalizeLibPath("lib/x") == "lib/x"
    ensures NormalizeLibPath("/opt/lib/x") == "/opt/lib/x"
  {
    var a, c := "/usr/x", "/opt/lib/x";
    assert !(UsrLib <= a) by { assert a[5] != UsrLib[5]; }
    assert !(Lib <= c) by { assert c[1] != Lib[1]; }
    assert !(UsrLib <= c) by { assert c[1] != UsrLib[1]; }
  }

  // The spellings of the two example paths, kept apart so that each equality of
  // literals is proved on its own.
  const LibcRest := "/x86_64-linux-gnu/libc.so.6"
  const LibsslRest := "/x86_64-linux-gnu/libssl.so.1.1"

  lemma LibcSpelling()
    ensures "/lib" + "/x86_64-linux-gnu/libc.so.6" == "/lib/x86_64-linux-gnu/libc.so.6"
  {
  }

  lemma LibcWildcardSpelling()
    ensures "*/lib" + "/x86_64-linux-gnu/libc.so.6" == "*/lib/x86_64-linux-gnu/libc.so.6"
  {
  }

  lemma LibsslSpelling()
    ensures "/usr/lib" + "/x86_64-linux-gnu/libssl.so.1.1" == "/usr/lib/x86_64-linux-gnu/libssl.so.1.1"
  {
  }

  lemma LibsslWildcardSpelling()
    ensures "*/lib" + "/x86_64-linux-gnu/libssl.so.1.1" == "*/lib/x86_64-linux-gnu/libssl.so.1.1"
  {
  }

  /** The worked example: one `/lib` and one `/usr/lib` library become wildcard
      queries, in the order the base parser listed them. */
  lemma ParseExample(baseParse: string -> seq<string>, rawInfo: string)
    requires baseParse(rawInfo)
      == ["/lib/x86_64-linux-gnu/libc.so.6", "/usr/lib/x86_64-linux-gnu/libssl.so.1.1"]
    ensures ParseLibrariesInfo(baseParse, rawInfo)
      == ["*/lib/x86_64-linux-gnu/libc.so.6", "*/lib/x86_64-linux-gnu/libssl.so.1.1"]
  {
    LibPathRewritten(LibcRest);
    UsrLibPathRewritten(LibsslRest);
    LibcSpelling();
    LibcWildcardSpelling();
    LibsslSpelling();
    LibsslWildcardSpelling();
    var r := ParseLibrariesInfo(baseParse, rawInfo);
    assert r[0] == "*/lib/x86_64-linux-gnu/libc.so.6";
    assert r[1] == "*/lib/x86_64-linux-gnu/libssl.so.1.1";
  }

  /** Rewriting a rewritten path changes nothing. */
  lemma NormalizeIdempotent(path: string)
    ensures NormalizeLibPath(NormalizeLibPath(path)) == NormalizeLibPath(path)
  {
  }

  /** Rewriting a rewritten list changes nothing. */
  lemma {:induction false} NormalizeAllIdempotent(paths: seq<string>)
    ensures NormalizeAll(NormalizeAll(paths)) == NormalizeAll(paths)
  {
    var once := NormalizeAll(paths);
    var twice := NormalizeAll(once);
    forall i | 0 <= i < |paths|
      ensures twice[i] == once[i]
    {
      NormalizeIdempotent(paths[i]);
    }
  }

  /** The rewrite works element by element: it commutes with concatenation. */
  lemma {:induction false} NormalizeAllAppend(a: seq<string>, b: seq<string>)
    ensures NormalizeAll(a + b) == NormalizeAll(a) + NormalizeAll(b)
    decreases |a|
  {
    if |a| == 0 {
      assert a + b == b;
    } else {
      assert (a + b)[1..] == a[1..] + b;
      NormalizeAllAppend(a[1..], b);
    }
  }

  /** A rewritten path read as a `dpkg -S` pattern, whose leading `*` matches any
      leading text: it matches a registration when the text after the `*` ends it.
      Only patterns whose single wildcard is the leading `*` are described here. */
  predicate WildcardMatches(pattern: string, registered: string) {
    |pattern| > 0 && pattern[0] == '*' && IsSuffix(pattern[1..], registered)
  }

  /** True when `s` ends with `t`. */
  predicate IsSuffix(t: string, s: string) {
    |t| <= |s| && s[|s| - |t|..] == t
  }

  /** The point of the rewrite: whichever of the two locations the build reported,
      the query matches a library registered under either location. */
  lemma QueryMatchesEitherRegistration(rest: string, reported: string)
    requires reported == Lib + rest || reported == UsrLib + rest
    ensures WildcardMatches(NormalizeLibPath(reported), Lib + rest)
    ensures WildcardMatches(NormalizeLibPath(reported), UsrLib + rest)
  {
    LibPathRewritten(rest);
    UsrLibPathRewritten(rest);
    var q := WildcardLib + rest;
    assert q[1..] == Lib + rest;
    assert (UsrLib + rest)[4..] == Lib + rest;
  }
}
