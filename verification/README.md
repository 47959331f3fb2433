# Distro package-resolution layer of blacksmith, in Dafny

blacksmith builds components for a target platform and works out which native
runtime packages a build depends on, by asking the target distribution's package
database who owns each shared library. This project models two pure pieces of that
layer and proves their behaviour:

- **The distro factory** (`getDistro`): a closed dispatch from a platform
  `{os, arch, distro, version}` to one of four adapters — `Debian`,
  `DebianLibSymlinked` (the merged-usr variant), `Centos` (the Red Hat family) and
  `Photon` — built from the platform's `arch`, or to the error
  `Distro type <distro> is not supported`. Strings are compared exactly and
  case-sensitively; the only version-sensitive branch is ubuntu `"20"`.
- **The merged-usr path rewrite** (`DebianLibSymlinked._parseLibrariesInfo`): on a
  distribution where `/lib` is a link to `/usr/lib`, each library path produced by
  the base Debian parser that starts with `/lib` or `/usr/lib` becomes `*/lib…`, so
  one `dpkg -S` query finds the owning package whichever location it was registered
  under.

Modules:

- `Wrappers` (`wrappers.dfy`): `Result<T> = Ok(value) | Err(message)`, standing for
  a returned value or a thrown `Error`.
- `AnchoredRegex` (`anchored_regex.dfy`): a reference semantics for the regex
  fragment the rewrite uses (literals, greedy `( … )?`, concatenation) and for
  `String.prototype.replace` with a `^`-anchored pattern without the `g` flag. A
  backtracking matcher lists its match ends in the order it tries them.
- `MergedUsr` (`merged_usr.dfy`): `NormalizeLibPath` (one path), `NormalizeAll`
  (the `_.map`) and `ParseLibrariesInfo` (the override). The lemmas prove that the
  direct definition equals the regex replace, and cover the prefix cases,
  idempotence, order and length.
- `Distro` (`distro.dfy`): `Platform`, `Adapter`, `GetDistro`, a reference table of
  expected adapter families, and the per-adapter `ParseLibrariesInfo` dispatch that
  links the factory to the rewrite.

The base Debian parser, and the Centos and Photon parsers, are not part of this
model. They appear as function parameters (`string -> seq<string>`), and every
property of the rewrite is stated relative to what the base parser returns.

## Model

| member | source | states |
|---|---|---|
| Distro.GetDistro | lib/distro/index.js:9-41 | succeeds exactly when the distro is one of ubuntu, debian, rhel, amazonlinux, ol, centos, photon; otherwise fails with the message `Distro type <distro> is not supported`; every adapter carries the platform's arch; the merged-usr adapter is chosen if and only if distro is ubuntu and version is exactly "20" |
| Distro.GetDistroMatchesTable | lib/distro/index.js:11-35 | on every supported distro the adapter's family agrees with an independent lookup table (ubuntu by version, the four Red Hat names to Centos, photon to Photon, debian to Debian) |
| Distro.UbuntuVersions | lib/distro/index.js:12-19 | ubuntu gives DebianLibSymlinked(arch) when version is "20" and Debian(arch) for every other version |
| Distro.UbuntuVersionIsExact | lib/distro/index.js:13 | the version test is string equality: "20" selects merged-usr, "20.04" and "18" do not |
| Distro.DebianAnyVersion | lib/distro/index.js:21-23 | debian gives Debian(arch) whatever the version |
| Distro.RedHatFamilyIsCentos | lib/distro/index.js:25-31 | rhel, amazonlinux, ol and centos each give Centos(arch) |
| Distro.PhotonIsPhoton | lib/distro/index.js:32-34 | photon gives Photon(arch) |
| Distro.UnsupportedIsError | lib/distro/index.js:36-38 | any distro outside the supported set produces no adapter and the error message carries the distro string verbatim |
| Distro.UnknownDistroExample | test/distro/index.js:15 | distro "??" fails with exactly `Distro type ?? is not supported` |
| Distro.NearMissesRejected | lib/distro/index.js:11 | matching is exact and case-sensitive: "Ubuntu" and "debian " are rejected |
| Distro.OnlyUbuntuReadsVersion | lib/distro/index.js:11-35 | two platforms with the same arch and distro get the same result unless the distro is ubuntu and the versions differ; os never matters |
| Distro.ParseLibrariesInfo | lib/distro/debianlibsymlinked.js:41-46 | the plain Debian adapter returns the base Debian parse unchanged; the merged-usr adapter returns one path per base path |
| Distro.UbuntuParse | lib/distro/index.js:12-18 | for the adapter the factory picks for ubuntu or debian, library paths are rewritten exactly when distro is ubuntu and version is "20", and otherwise passed through |
| Distro.Ubuntu20ParseExample | lib/distro/index.js:13-15 | ubuntu "20" selects the merged-usr adapter, and its parse turns the libc path under /lib and the libssl path under /usr/lib into the two `*/lib` queries, in order |
| MergedUsr.NormalizeLibPath | lib/distro/debianlibsymlinked.js:44 | a path is left unchanged if and only if it starts with neither /lib nor /usr/lib; a rewritten path starts with `*/lib`; no result starts with either prefix again |
| MergedUsr.NormalizeIsRegexReplace | lib/distro/debianlibsymlinked.js:44 | the rewrite equals `replace` with the anchored, non-global pattern `^([/]usr)?[/]lib` and replacement `*/lib`, under the reference regex semantics |
| MergedUsr.NormalizeAll | lib/distro/debianlibsymlinked.js:42-45 | the output has the input's length, and element i is the rewrite of input element i |
| MergedUsr.ParseLibrariesInfo | lib/distro/debianlibsymlinked.js:41-46 | the override returns as many paths as the base parser, in the same order, each one rewritten |
| MergedUsr.LibPathRewritten | lib/distro/debianlibsymlinked.js:44 | `/lib` + r becomes `*/lib` + r, for any r |
| MergedUsr.UsrLibPathRewritten | lib/distro/debianlibsymlinked.js:44 | `/usr/lib` + r becomes `*/lib` + r, for any r; later /lib or /usr/lib text in r is kept verbatim |
| MergedUsr.BothRegistrationsAgree | lib/distro/debianlibsymlinked.js:33-39 | `/lib` + r and `/usr/lib` + r normalise to the same string |
| MergedUsr.NoSegmentBoundary | lib/distro/debianlibsymlinked.js:44 | no path-segment boundary is needed after lib: "/library/x" becomes "*/library/x" and "/usr/libexec" becomes "*/libexec" |
| MergedUsr.OnlyLeadingPrefix | lib/distro/debianlibsymlinked.js:44 | only the leading prefix is substituted: "/lib/usr/lib/x" becomes "*/lib/usr/lib/x" |
| MergedUsr.NonLibPathsUnchanged | lib/distro/debianlibsymlinked.js:44 | "/usr/x", "lib/x" and "/opt/lib/x" pass through unchanged |
| MergedUsr.NormalizeIdempotent | lib/distro/debianlibsymlinked.js:44 | rewriting a rewritten path changes nothing |
| MergedUsr.NormalizeAllIdempotent | lib/distro/debianlibsymlinked.js:42-45 | rewriting a rewritten list changes nothing |
| MergedUsr.NormalizeAllAppend | lib/distro/debianlibsymlinked.js:42-45 | the list rewrite commutes with concatenation: it works element by element and keeps order |
| MergedUsr.QueryMatchesEitherRegistration | lib/distro/debianlibsymlinked.js:22-39 | whichever of `/lib` + r or `/usr/lib` + r the build reported, the rewritten query, read as a pattern with a leading `*` wildcard, matches a library registered under either location |
| MergedUsr.ParseExample | lib/distro/debianlibsymlinked.js:41-46 | a base parse of the libc path under /lib and the libssl path under /usr/lib becomes the two `*/lib` paths, in order |

## Left out

- The build manager (environment construction, component scheduling, `continueAt`, `forceRebuild`, incremental artifact naming and caching, packaging): its implementation is not part of this model, and its tests only check files and log text left by real builds.
- The internals of the Debian, Centos and Photon adapters (`lib/distro/debian.js`, `centos.js`, `photon.js` are not part of this model), including `getRuntimePackages`, which runs `dpkg` or `rpm`. Their raw-output parsers are function parameters.
- The adapters' constructor `options` (a logger) and the Docker image they hold: they play no part in selection or in the rewrite.
- JavaScript `undefined` fields: the model's platform fields are strings. A missing `version` behaves like any string other than "20". A missing `distro` gives the same message as the string "undefined".
- Distro.ParseLibrariesInfo: says nothing about the Centos and Photon results beyond forwarding to their given parsers, because their code is not part of this model.
- MergedUsr.QueryMatchesEitherRegistration: models `dpkg -S` pattern matching only for a leading `*` followed by text without wildcards. Glob characters inside a library path are not modelled.
- The test for unknown distros places its assertion inside the callback, so it does not check that anything is thrown. The error message is taken from `lib/distro/index.js:37`, which agrees with it.
