/**
 The distro factory: a closed dispatch from a target platform to the package-resolution
 adapter for its distribution, or to the "unsupported" error the JavaScript code throws.
 Adapters are plain values here; the constructor `options` (a logger) play no part in
 the choice and are left out.
 */
module Distro {
  import opened Wrappers
  import MergedUsr

  /** The target platform triple; `os` is never read by the factory. */
  datatype Platform = Platform(os: string, arch: string, distro: string, version: string)

  /** The four adapter classes, each built from the platform's architecture. */
  datatype Adapter =
    | Debian(arch: string)
    | DebianLibSymlinked(arch: string)
    | Centos(arch: string)
    | Photon(arch: string)

  /** The distro strings the factory accepts, compared exactly and case-sensitively. */
  const SupportedDistros: set<string> :=
    {"ubuntu", "debian", "rhel", "amazonlinux", "ol", "centos", "photon"}

  /** The message of the error thrown for any other distro string. */
  function UnsupportedMessage(distro: string): string {
    "Distro type " + distro + " is not supported"
  }

  /** `getDistro(platform, options)`. */
  function GetDistro(p: Platform): (r: Result<Adapter>)
    ensures r.Ok? <==> p.distro in SupportedDistros
    ensures r.Err? ==> r.message == UnsupportedMessage(p.distro)
    ensures r.Ok? ==> r.value.arch == p.arch
    ensures r.Ok? && r.value.DebianLibSymlinked? <==> p.distro == "ubuntu" && p.version == "20"
  {
    match p.distro
    case "ubuntu" =>
      // on ubuntu 20, /lib is a link to /usr/lib: the merged-usr adapter
      if p.version == "20" then Ok(DebianLibSymlinked(p.arch)) else Ok(Debian(p.arch))
    case "debian" => Ok(Debian(p.arch))
    case "rhel" => Ok(Centos(p.arch))
    case "amazonlinux" => Ok(Centos(p.arch))
    case "ol" => Ok(Centos(p.arch))
    case "centos" => Ok(Centos(p.arch))
    case "photon" => Ok(Photon(p.arch))
    case _ => Err(UnsupportedMessage(p.distro))
  }

  /** The family a successful adapter belongs to, independently of its architecture:
      a reference table for the dispatch. */
  datatype Family = DebianFamily | MergedUsrFamily | RedHatFamily | PhotonFamily

  function FamilyOf(a: Adapter): Family {
    match a
    case Debian(_) => DebianFamily
    case DebianLibSymlinked(_) => MergedUsrFamily
    case Centos(_) => RedHatFamily
    case Photon(_) => PhotonFamily
  }

  /** The expected family of each supported distro, as a lookup table. */
  function ExpectedFamily(distro: string, version: string): (f: Family)
    requires distro in SupportedDistros
  {
    var table := map[
      "debian" := DebianFamily, "rhel" := RedHatFamily, "amazonlinux" := RedHatFamily,
      "ol" := RedHatFamily, "centos" := RedHatFamily, "photon" := PhotonFamily];
    if distro == "ubuntu" then (if version == "20" then MergedUsrFamily else DebianFamily)
    else table[distro]
  }

  /** The factory agrees with the table on every supported platform. */
  lemma GetDistroMatchesTable(p: Platform)
    requires p.distro in SupportedDistros
    ensures GetDistro(p).Ok?
    ensures FamilyOf(GetDistro(p).value) == ExpectedFamily(p.distro, p.version)
  {
  }

  lemma UbuntuVersions(arch: string, version: string, os: string)
    ensures GetDistro(Platform(os, arch, "ubuntu", version))
         == if version == "20" then Ok(DebianLibSymlinked(arch)) else Ok(Debian(arch))
  {
  }

  /** The version comparison is exact: "20.04" is not "20". */
  lemma UbuntuVersionIsExact(arch: string)
    ensures GetDistro(Platform("linux", arch, "ubuntu", "20")) == Ok(DebianLibSymlinked(arch))
    ensures GetDistro(Platform("linux", arch, "ubuntu", "20.04")) == Ok(Debian(arch))
    ensures GetDistro(Platform("linux", arch, "ubuntu", "18")) == Ok(Debian(arch))
  {
  }

  lemma DebianAnyVersion(p: Platform)
    requires p.distro == "debian"
    ensures GetDistro(p) == Ok(Debian(p.arch))
  {
  }

  lemma RedHatFamilyIsCentos(p: Platform)
    requires p.distro in {"rhel", "amazonlinux", "ol", "centos"}
    ensures GetDistro(p) == Ok(Centos(p.arch))
  {
  }

  lemma PhotonIsPhoton(p: Platform)
    requires p.distro == "photon"
    ensures GetDistro(p) == Ok(Photon(p.arch))
  {
  }

  /** Any distro string outside the table is rejected with the offending string in
      the message, and no adapter is produced. */
  lemma UnsupportedIsError(p: Platform)
    requires p.distro !in SupportedDistros
    ensures GetDistro(p) == Err("Distro type " + p.distro + " is not supported")
  {
  }

  lemma UnknownDistroExample(arch: string)
    ensures GetDistro(Platform("linux", arch, "??", "")) == Err("Distro type ?? is not supported")
  {
    var d := "??";
    assert d != "ol" by { assert d[0] != "ol"[0]; }
    UnsupportedIsError(Platform("linux", arch, d, ""));
    assert "Distro type " + d + " is not supported" == "Distro type ?? is not supported";
  }

  /** Matching is case-sensitive and exact: near misses are rejected. */
  lemma NearMissesRejected(arch: string)
    ensures GetDistro(Platform("linux", arch, "Ubuntu", "20")).Err?
    ensures GetDistro(Platform("linux", arch, "debian ", "8")).Err?
  {
    var u, d := "Ubuntu", "debian ";
    assert u != "ubuntu" by { assert u[0] != "ubuntu"[0]; }
    assert u != "debian" by { assert u[0] != "debian"[0]; }
    assert u != "centos" by { assert u[0] != "centos"[0]; }
    assert u != "photon" by { assert u[0] != "photon"[0]; }
    assert u !in SupportedDistros;
    assert d !in SupportedDistros;
  }

  /** The version matters only for ubuntu, and the os never matters. */
  lemma {:induction false} OnlyUbuntuReadsVersion(p: Platform, q: Platform)
    requires p.arch == q.arch && p.distro == q.distro
    requires p.distro != "ubuntu" || p.version == q.version
    ensures GetDistro(p) == GetDistro(q)
  {
  }

  /** Per-family raw-output parsers. Those of the Debian, Centos and Photon adapters are
      not part of this model, so they are given. */
  datatype BaseParsers = BaseParsers(
    debian: string -> seq<string>,
    centos: string -> seq<string>,
    photon: string -> seq<string>)

  /** `adapter._parseLibrariesInfo(rawInfo)`: the merged-usr adapter overrides the Debian
      parse; the others use their own. */
  function ParseLibrariesInfo(a: Adapter, parsers: BaseParsers, rawInfo: string): (r: seq<string>)
    ensures a.DebianLibSymlinked? ==> |r| == |parsers.debian(rawInfo)|
    ensures a.Debian? ==> r == parsers.debian(rawInfo)
  {
    match a
    case Debian(_) => parsers.debian(rawInfo)
    case DebianLibSymlinked(_) => MergedUsr.ParseLibrariesInfo(parsers.debian, rawInfo)
    case Centos(_) => parsers.centos(rawInfo)
    case Photon(_) => parsers.photon(rawInfo)
  }

  /** Only ubuntu 20 rewrites library paths; every other Debian-family platform
      passes the Debian parse through. */
  lemma UbuntuParse(p: Platform, parsers: BaseParsers, rawInfo: string)
    requires p.distro == "ubuntu" || p.distro == "debian"
    ensures GetDistro(p).Ok?
    ensures p.distro == "ubuntu" && p.version == "20" ==>
      ParseLibrariesInfo(GetDistro(p).value, parsers, rawInfo)
        == MergedUsr.NormalizeAll(parsers.debian(rawInfo))
    ensures !(p.distro == "ubuntu" && p.version == "20") ==>
      ParseLibrariesInfo(GetDistro(p).value, parsers, rawInfo) == parsers.debian(rawInfo)
  {
  }

  /** The worked example: ubuntu 20 turns one `/lib` and one `/usr/lib` path into
      wildcard queries, in order. */
  lemma Ubuntu20ParseExample(parsers: BaseParsers, rawInfo: string)
    requires parsers.debian(rawInfo)
      == ["/lib/x86_64-linux-gnu/libc.so.6", "/usr/lib/x86_64-linux-gnu/libssl.so.1.1"]
    ensures GetDistro(Platform("linux", "x64", "ubuntu", "20")) == Ok(DebianLibSymlinked("x64"))
    ensures ParseLibrariesInfo(DebianLibSymlinked("x64"), parsers, rawInfo)
      == ["*/lib/x86_64-linux-gnu/libc.so.6", "*/lib/x86_64-linux-gnu/libssl.so.1.1"]
  {
    MergedUsr.ParseExample(parsers.debian, rawInfo);
  }
}
