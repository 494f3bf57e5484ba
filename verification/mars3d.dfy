/**
 * `mars3dPlugin` (src/mars3d.ts): a Vite plugin that serves the mars3d-cesium
 * build (and, with `useStatic`, the mars3d toolkit) in dev mode, and in a
 * build either copies their runtime files into the output directory or loads
 * them from the unpkg CDN, injecting the matching tags into index.html.
 *
 * The factory's closure becomes the class `Mars3dPlugin`: the resolved
 * options are constants, the variables the hooks assign are fields.
 */
module Mars3d {
  import opened Js
  import opened Paths
  import opened Vite

  /** The object form of `useCDN`: a version per library, each optional. */
  datatype CdnVersions = CdnVersions(mars3d: Option<string>, cesium: Option<string>, turf: Option<string>)

  /** `useCDN?: boolean | { mars3d?, cesium?, turf? }`. */
  datatype UseCdn = CdnFlag(on: bool) | CdnObject(versions: CdnVersions)

  /** `if (useCDN)`: `true`, or any object, even one naming no version. Only `false` is falsy. */
  predicate CdnTruthy(u: UseCdn): (b: bool)
    ensures !b <==> u == CdnFlag(false)
  {
    u.CdnObject? || u.on
  }

  /** The options object as the caller passes it; absent properties are `None`. */
  datatype Options = Options(
    mars3dPackageName: Option<string>,
    mars3dRunPath: Option<string>,
    cesiumPackageName: Option<string>,
    cesiumRunPath: Option<string>,
    useStatic: Option<bool>,
    useCDN: Option<UseCdn>)

  /** The options after the factory has filled in its defaults. */
  datatype Settings = Settings(
    mars3dPackageName: string,
    mars3dRunPath: string,
    cesiumPackageName: string,
    cesiumRunPath: string,
    useStatic: bool,
    useCDN: UseCdn)

  /**
   * The factory's defaults. A destructuring default applies only to a
   * property that is absent, so an empty package name is kept; a run path
   * is replaced whenever it is falsy, absent or empty.
   */
  function Defaults(o: Options): (s: Settings)
    ensures o.mars3dPackageName.None? ==> s.mars3dPackageName == "mars3d"
    ensures o.mars3dPackageName.Some? ==> s.mars3dPackageName == o.mars3dPackageName.value
    ensures o.cesiumPackageName.None? ==> s.cesiumPackageName == "mars3d-cesium"
    ensures o.cesiumPackageName.Some? ==> s.cesiumPackageName == o.cesiumPackageName.value
    ensures Truthy(o.mars3dRunPath) ==> s.mars3dRunPath == o.mars3dRunPath.value
    ensures !Truthy(o.mars3dRunPath) ==> s.mars3dRunPath == "/" + s.mars3dPackageName + "/"
    ensures Truthy(o.cesiumRunPath) ==> s.cesiumRunPath == o.cesiumRunPath.value
    ensures !Truthy(o.cesiumRunPath) ==> s.cesiumRunPath == "/" + s.cesiumPackageName + "/"
    ensures s.mars3dRunPath != "" && s.cesiumRunPath != ""
    ensures s.useStatic <==> IsTrue(o.useStatic)
    ensures o.useCDN.None? ==> !CdnTruthy(s.useCDN)
    ensures o.useCDN.Some? ==> s.useCDN == o.useCDN.value
  {
    var mars3dPackageName := if o.mars3dPackageName.Some? then o.mars3dPackageName.value else "mars3d";
    var cesiumPackageName := if o.cesiumPackageName.Some? then o.cesiumPackageName.value else "mars3d-cesium";
    Settings(
      mars3dPackageName,
      OrElse(o.mars3dRunPath, "/" + mars3dPackageName + "/"),
      cesiumPackageName,
      OrElse(o.cesiumRunPath, "/" + cesiumPackageName + "/"),
      if o.useStatic.Some? then o.useStatic.value else false,
      if o.useCDN.Some? then o.useCDN.value else CdnFlag(false))
  }

  /** Where the cesium build lies in the project's node_modules. */
  function CesiumNpmPath(s: Settings): string {
    "node_modules/" + s.cesiumPackageName + "/Build/Cesium/"
  }

  /** Where the mars3d build lies in the project's node_modules. */
  function Mars3dNpmPath(s: Settings): string {
    "node_modules/" + s.mars3dPackageName + "/dist/"
  }

  // ---------------------------------------------------------------------
  // config
  // ---------------------------------------------------------------------

  /**
   * The base the `config` hook settles on. The inner test for the empty
   * string sits inside the truthy branch, so it can never fire: an empty
   * base becomes "/", never "./".
   */
  function ResolveBase(cBase: Option<string>): (base: string)
    ensures base != ""
    ensures Truthy(cBase) ==> base == cBase.value
    ensures !Truthy(cBase) ==> base == "/"
    ensures base == "./" ==> cBase == Some("./")
  {
    if Truthy(cBase) then
      var b := cBase.value;
      if b == "" then "./" else b
    else "/"
  }

  // ---------------------------------------------------------------------
  // configureServer
  // ---------------------------------------------------------------------

  /**
   * The routes `configureServer` adds, in order: the cesium build first,
   * then, with `useStatic`, the mars3d build. Every mount path is absolute.
   */
  function DevRoutes(s: Settings, cesiumBaseUrl: string, mars3dBaseUrl: string): (routes: seq<Route>)
    ensures |routes| == if s.useStatic then 2 else 1
    ensures routes[0] == Route(PathJoin(["/", cesiumBaseUrl]), CesiumNpmPath(s))
    ensures s.useStatic ==> routes[1] == Route(PathJoin(["/", mars3dBaseUrl]), Mars3dNpmPath(s))
    ensures forall i :: 0 <= i < |routes| ==> routes[i].mount != [] && routes[i].mount[0] == '/'
  {
    JoinAbsolute(["/", cesiumBaseUrl]);
    JoinAbsolute(["/", mars3dBaseUrl]);
    [Route(PathJoin(["/", cesiumBaseUrl]), CesiumNpmPath(s))]
      + (if s.useStatic then [Route(PathJoin(["/", mars3dBaseUrl]), Mars3dNpmPath(s))] else [])
  }

  /**
   * With no base and no cesium run path, and a package name that is one
   * plain path segment, `CESIUM_BASE_URL` is `/<package>/` and the dev
   * server mounts the cesium build at exactly that URL.
   */
  lemma DefaultCesiumBaseUrl(o: Options, mars3dBaseUrl: string)
    requires !Truthy(o.cesiumRunPath) && Clean(Defaults(o).cesiumPackageName)
    ensures var s := Defaults(o);
      var url := PathJoin([ResolveBase(None), s.cesiumRunPath]);
      url == "/" + s.cesiumPackageName + "/" && DevRoutes(s, url, mars3dBaseUrl)[0].mount == url
  {
    var n := Defaults(o).cesiumPackageName;
    assert JoinSegs([n]) == n;
    JoinRootDirectory([n]);
  }

  // ---------------------------------------------------------------------
  // closeBundle
  // ---------------------------------------------------------------------

  /** The cesium entries copied, in the order they are copied. */
  const CesiumAssets: seq<string> := ["Assets", "ThirdParty", "Workers", "Widgets", "Cesium.js"]

  /** The mars3d entries copied with `useStatic`, in the order they are copied. */
  const Mars3dAssets: seq<string> := ["img", "mars3d.css", "mars3d.js"]

  /** `fs.copy(path.join(npmPath, item), path.join(outDir, `${runPath}/${item}`))` for each item, in order. */
  function Copies(npmPath: string, outDir: string, runPath: string, items: seq<string>): (ops: seq<CopyOp>)
    ensures |ops| == |items|
    ensures forall i :: 0 <= i < |items| ==>
      ops[i] == CopyOp(PathJoin([npmPath, items[i]]), PathJoin([outDir, runPath + "/" + items[i]]))
  {
    if items == [] then []
    else
      var item := items[0];
      [CopyOp(PathJoin([npmPath, item]), PathJoin([outDir, runPath + "/" + item]))]
        + Copies(npmPath, outDir, runPath, items[1..])
  }

  /**
   * Every copy `closeBundle` would make, in order: none unless building
   * without the CDN; then the cesium entries, then, with `useStatic`, the
   * mars3d entries. The base path takes no part.
   */
  function CopyPlan(s: Settings, isBuild: bool, outDir: string): (plan: seq<CopyOp>)
    ensures !isBuild || CdnTruthy(s.useCDN) ==> plan == []
    ensures isBuild && !CdnTruthy(s.useCDN) ==> |plan| == if s.useStatic then 8 else 5
  {
    if isBuild && !CdnTruthy(s.useCDN) then
      Copies(CesiumNpmPath(s), outDir, s.cesiumRunPath, CesiumAssets)
        + (if s.useStatic then Copies(Mars3dNpmPath(s), outDir, s.mars3dRunPath, Mars3dAssets) else [])
    else []
  }

  /** In a local build every cesium copy precedes every mars3d copy, each into its own run path. */
  lemma CopyPlanOrder(s: Settings, outDir: string, i: nat)
    requires !CdnTruthy(s.useCDN) && i < |CopyPlan(s, true, outDir)|
    ensures i < 5 ==>
      && CopyPlan(s, true, outDir)[i].src == PathJoin([CesiumNpmPath(s), CesiumAssets[i]])
      && CopyPlan(s, true, outDir)[i].dst == PathJoin([outDir, s.cesiumRunPath + "/" + CesiumAssets[i]])
    ensures 5 <= i ==>
      && s.useStatic
      && CopyPlan(s, true, outDir)[i].src == PathJoin([Mars3dNpmPath(s), Mars3dAssets[i - 5]])
      && CopyPlan(s, true, outDir)[i].dst == PathJoin([outDir, s.mars3dRunPath + "/" + Mars3dAssets[i - 5]])
  {
    var cesium := Copies(CesiumNpmPath(s), outDir, s.cesiumRunPath, CesiumAssets);
    if i >= 5 {
      var mars3d := Copies(Mars3dNpmPath(s), outDir, s.mars3dRunPath, Mars3dAssets);
      assert CopyPlan(s, true, outDir)[i] == mars3d[i - 5];
    } else {
      assert CopyPlan(s, true, outDir)[i] == cesium[i];
    }
  }

  /** Every entry copied is one plain path segment. */
  lemma AssetsClean()
    ensures AllClean(CesiumAssets) && AllClean(Mars3dAssets)
  {
  }

  /**
   * With run paths left to their defaults, each entry lands at
   * `<outDir>/<package>/<entry>`: the separator the default run path ends
   * with and the one written after it collapse. The output directory is any
   * path of plain segments, absolute (as `configResolved` leaves it, see
   * `ResolvedOutDirAbsolute`) or relative.
   */
  lemma DefaultCopyDestinations(s: Settings, absolute: bool, outDir: seq<string>, i: nat)
    requires |outDir| >= 1 && AllClean(outDir)
    requires Clean(s.cesiumPackageName) && s.cesiumRunPath == "/" + s.cesiumPackageName + "/"
    requires Clean(s.mars3dPackageName) && s.mars3dRunPath == "/" + s.mars3dPackageName + "/"
    requires !CdnTruthy(s.useCDN) && i < |CopyPlan(s, true, OutDirText(absolute, outDir))|
    ensures i < 5 ==>
      CopyPlan(s, true, OutDirText(absolute, outDir))[i].dst
        == OutDirText(absolute, outDir) + "/" + s.cesiumPackageName + "/" + CesiumAssets[i]
    ensures 5 <= i ==>
      CopyPlan(s, true, OutDirText(absolute, outDir))[i].dst
        == OutDirText(absolute, outDir) + "/" + s.mars3dPackageName + "/" + Mars3dAssets[i - 5]
  {
    CopyPlanOrder(s, OutDirText(absolute, outDir), i);
    AssetsClean();
    if i < 5 {
      JoinOutDirEntry(absolute, outDir, s.cesiumPackageName, CesiumAssets[i]);
    } else {
      JoinOutDirEntry(absolute, outDir, s.mars3dPackageName, Mars3dAssets[i - 5]);
    }
  }

  lemma JoinOutDirEntry(absolute: bool, outDir: seq<string>, pkg: string, entry: string)
    requires |outDir| >= 1 && AllClean(outDir) && Clean(pkg) && Clean(entry)
    ensures PathJoin([OutDirText(absolute, outDir), "/" + pkg + "/" + "/" + entry])
      == OutDirText(absolute, outDir) + "/" + pkg + "/" + entry
  {
    if absolute {
      JoinRunPathEntryAbsolute(outDir, pkg, entry);
    } else {
      assert OutDirText(absolute, outDir) == JoinSegs(outDir);
      JoinRunPathEntry(outDir, pkg, entry);
    }
  }

  /** An output directory of plain segments, written absolute or relative. */
  function OutDirText(absolute: bool, outDir: seq<string>): string
  {
    (if absolute then "/" else "") + JoinSegs(outDir)
  }

  /**
   * `configResolved` joins an absolute project root of plain segments with a
   * relative `build.outDir` of plain segments: the output directory is the
   * absolute path of both, the form `DefaultCopyDestinations` covers.
   */
  lemma ResolvedOutDirAbsolute(root: seq<string>, out: seq<string>)
    requires |root| >= 1 && AllClean(root) && |out| >= 1 && AllClean(out)
    ensures PathJoin([OutDirText(true, root), JoinSegs(out)]) == OutDirText(true, root + out)
  {
    JoinUnderAbsolute(root, out);
  }

  /**
   * The awaited copies inside `closeBundle`'s one `try`: `failAt` is the
   * position of the first copy that fails, if any. That copy is attempted,
   * the error is logged, the remaining copies are skipped, and no error
   * leaves the hook.
   */
  method RunCopies(plan: seq<CopyOp>, failAt: Option<nat>) returns (attempted: seq<CopyOp>, errorLogged: bool)
    ensures errorLogged <==> failAt.Some? && failAt.value < |plan|
    ensures errorLogged ==> attempted == plan[..failAt.value + 1]
    ensures !errorLogged ==> attempted == plan
  {
    attempted, errorLogged := [], false;
    var i := 0;
    while i < |plan| && !errorLogged
      invariant 0 <= i <= |plan|
      invariant attempted == plan[..i]
      invariant errorLogged <==> failAt.Some? && failAt.value < i
      invariant errorLogged ==> i == failAt.value + 1
    {
      attempted := attempted + [plan[i]];
      errorLogged := failAt == Some(i);
      i := i + 1;
    }
    assert !errorLogged ==> attempted == plan;
  }

  // ---------------------------------------------------------------------
  // transformIndexHtml
  // ---------------------------------------------------------------------

  datatype Library = CesiumLib | Mars3dLib | TurfLib

  /** The version the `useCDN` object names for `lib`, if it is an object. */
  function PinnedVersion(u: UseCdn, lib: Library): Option<string>
  {
    if u.CdnFlag? then None
    else match lib
      case CesiumLib => u.versions.cesium
      case Mars3dLib => u.versions.mars3d
      case TurfLib => u.versions.turf
  }

  /** The `@version` suffix of a CDN package name: empty unless a version is pinned. */
  function CdnSuffix(u: UseCdn, lib: Library): (suffix: string)
    ensures suffix == "" <==> !Truthy(PinnedVersion(u, lib))
    ensures suffix != "" ==> suffix == "@" + PinnedVersion(u, lib).value
  {
    if u.CdnObject? then
      var v := PinnedVersion(u, lib);
      if Truthy(v) then "@" + v.value else ""
    else ""
  }

  const Unpkg: string := "https://unpkg.com/"

  /** The cesium tags in CDN mode: stylesheet, the `CESIUM_BASE_URL` global, the script. */
  function CesiumCdnTags(pkg: string, version: string): seq<Tag>
  {
    [ Link(Unpkg + pkg + version + "/Build/Cesium/Widgets/widgets.css", None),
      ScriptInline("window['CESIUM_BASE_URL'] = '" + Unpkg + pkg + version + "/Build/Cesium'", None),
      ScriptSrc(Unpkg + pkg + version + "/Build/Cesium/Cesium.js", None) ]
  }

  /** The mars3d tags in CDN mode: turf, then the mars3d stylesheet and script. */
  function Mars3dCdnTags(pkg: string, version: string, turfVersion: string): seq<Tag>
  {
    [ ScriptSrc(Unpkg + "@turf/turf" + turfVersion + "/turf.min.js", None),
      Link(Unpkg + pkg + version + "/dist/mars3d.css", None),
      ScriptSrc(Unpkg + pkg + version + "/dist/mars3d.js", None) ]
  }

  /** The cesium tags of a local build, under the cesium base URL. */
  function CesiumLocalTags(cesiumBaseUrl: string): seq<Tag>
  {
    [ Link(NormalizePath(PathJoin([cesiumBaseUrl, "Widgets/widgets.css"])), None),
      ScriptSrc(NormalizePath(PathJoin([cesiumBaseUrl, "Cesium.js"])), None) ]
  }

  /** The mars3d tags of a local build, under the mars3d base URL. */
  function Mars3dLocalTags(mars3dBaseUrl: string): seq<Tag>
  {
    [ Link(NormalizePath(PathJoin([mars3dBaseUrl, "mars3d.css"])), None),
      ScriptSrc(NormalizePath(PathJoin([mars3dBaseUrl, "mars3d.js"])), None) ]
  }

  /** The tags `transformIndexHtml` returns: none in dev, cesium's then (with `useStatic`) mars3d's in a build. */
  function HtmlTags(s: Settings, isBuild: bool, cesiumBaseUrl: string, mars3dBaseUrl: string): (tags: seq<Tag>)
    ensures !isBuild ==> tags == []
    ensures isBuild && CdnTruthy(s.useCDN) ==> |tags| == if s.useStatic then 6 else 3
    ensures isBuild && !CdnTruthy(s.useCDN) ==> |tags| == if s.useStatic then 4 else 2
  {
    if !isBuild then []
    else if CdnTruthy(s.useCDN) then
      CesiumCdnTags(s.cesiumPackageName, CdnSuffix(s.useCDN, CesiumLib))
        + (if s.useStatic
           then Mars3dCdnTags(s.mars3dPackageName, CdnSuffix(s.useCDN, Mars3dLib), CdnSuffix(s.useCDN, TurfLib))
           else [])
    else
      CesiumLocalTags(cesiumBaseUrl) + (if s.useStatic then Mars3dLocalTags(mars3dBaseUrl) else [])
  }

  /**
   * The cesium tags always come first: turning `useStatic` on only appends
   * the mars3d tags after them, and in CDN mode the first three tags are the
   * stylesheet, the inline `CESIUM_BASE_URL` assignment and the script.
   */
  lemma CesiumTagsFirst(s: Settings, cesiumBaseUrl: string, mars3dBaseUrl: string)
    ensures HtmlTags(s.(useStatic := false), true, cesiumBaseUrl, mars3dBaseUrl)
         <= HtmlTags(s.(useStatic := true), true, cesiumBaseUrl, mars3dBaseUrl)
    ensures CdnTruthy(s.useCDN) ==>
      var tags := HtmlTags(s, true, cesiumBaseUrl, mars3dBaseUrl);
      tags[0].Link? && tags[1].ScriptInline? && tags[2].ScriptSrc?
      && (s.useStatic ==> tags[3].ScriptSrc? && tags[4].Link? && tags[5].ScriptSrc?)
    ensures !CdnTruthy(s.useCDN) ==>
      var tags := HtmlTags(s, true, cesiumBaseUrl, mars3dBaseUrl);
      tags[0].Link? && tags[1].ScriptSrc? && (s.useStatic ==> tags[2].Link? && tags[3].ScriptSrc?)
  {
    if CdnTruthy(s.useCDN) {
      var cesium := CesiumCdnTags(s.cesiumPackageName, CdnSuffix(s.useCDN, CesiumLib));
      var mars3d := Mars3dCdnTags(s.mars3dPackageName, CdnSuffix(s.useCDN, Mars3dLib), CdnSuffix(s.useCDN, TurfLib));
      assert HtmlTags(s.(useStatic := false), true, cesiumBaseUrl, mars3dBaseUrl) == cesium + [];
      assert HtmlTags(s.(useStatic := true), true, cesiumBaseUrl, mars3dBaseUrl) == cesium + mars3d;
    } else {
      var cesium := CesiumLocalTags(cesiumBaseUrl);
      var mars3d := Mars3dLocalTags(mars3dBaseUrl);
      assert HtmlTags(s.(useStatic := false), true, cesiumBaseUrl, mars3dBaseUrl) == cesium + [];
      assert HtmlTags(s.(useStatic := true), true, cesiumBaseUrl, mars3dBaseUrl) == cesium + mars3d;
    }
  }

  /** CDN URLs are absolute: they depend on neither the base nor the base URLs computed from it. */
  lemma CdnTagsIgnoreBase(s: Settings, cesiumBaseUrl: string, mars3dBaseUrl: string, cesiumBaseUrl': string, mars3dBaseUrl': string)
    requires CdnTruthy(s.useCDN)
    ensures HtmlTags(s, true, cesiumBaseUrl, mars3dBaseUrl) == HtmlTags(s, true, cesiumBaseUrl', mars3dBaseUrl')
  {
  }

  /** A cesium version pinned in the `useCDN` object shows up as `@version` right after the package name. */
  lemma CdnPinnedCesium(s: Settings, version: string)
    requires s.useCDN.CdnObject? && s.useCDN.versions.cesium == Some(version) && version != ""
    ensures var tags := HtmlTags(s, true, "", "");
      var at := |Unpkg| + |s.cesiumPackageName|;
      |tags[2].src| > at && "@" + version <= tags[2].src[at..]
      && tags[2].src == Unpkg + s.cesiumPackageName + "@" + version + "/Build/Cesium/Cesium.js"
  {
    var tags := HtmlTags(s, true, "", "");
    var src := Unpkg + s.cesiumPackageName + "@" + version + "/Build/Cesium/Cesium.js";
    assert tags[2].src == src;
    assert src[|Unpkg| + |s.cesiumPackageName|..] == "@" + version + "/Build/Cesium/Cesium.js";
  }

  /**
   * In CDN mode every URL carries its own library's version suffix: the
   * cesium stylesheet, `CESIUM_BASE_URL` global and script carry cesium's,
   * the turf script turf's, and the mars3d stylesheet and script mars3d's.
   * The base URLs computed for a local build play no part.
   */
  lemma CdnTagUrls(s: Settings, cesiumBaseUrl: string, mars3dBaseUrl: string)
    requires CdnTruthy(s.useCDN)
    ensures var tags := HtmlTags(s, true, cesiumBaseUrl, mars3dBaseUrl);
      var cesium := Unpkg + s.cesiumPackageName + CdnSuffix(s.useCDN, CesiumLib);
      var mars3d := Unpkg + s.mars3dPackageName + CdnSuffix(s.useCDN, Mars3dLib);
      && tags[0] == Link(cesium + "/Build/Cesium/Widgets/widgets.css", None)
      && tags[1] == ScriptInline("window['CESIUM_BASE_URL'] = '" + cesium + "/Build/Cesium'", None)
      && tags[2] == ScriptSrc(cesium + "/Build/Cesium/Cesium.js", None)
      && (s.useStatic ==>
            && tags[3] == ScriptSrc(Unpkg + "@turf/turf" + CdnSuffix(s.useCDN, TurfLib) + "/turf.min.js", None)
            && tags[4] == Link(mars3d + "/dist/mars3d.css", None)
            && tags[5] == ScriptSrc(mars3d + "/dist/mars3d.js", None))
  {
  }

  /** `useCDN: true` pins nothing: every CDN URL names the bare package. */
  lemma CdnTrueUnpinned(s: Settings)
    requires s.useCDN == CdnFlag(true)
    ensures var tags := HtmlTags(s, true, "", "");
      tags[0].href == Unpkg + s.cesiumPackageName + "/Build/Cesium/Widgets/widgets.css"
      && tags[1].body == "window['CESIUM_BASE_URL'] = '" + Unpkg + s.cesiumPackageName + "/Build/Cesium'"
      && tags[2].src == Unpkg + s.cesiumPackageName + "/Build/Cesium/Cesium.js"
      && (s.useStatic ==>
            tags[3].src == Unpkg + "@turf/turf/turf.min.js"
            && tags[4].href == Unpkg + s.mars3dPackageName + "/dist/mars3d.css"
            && tags[5].src == Unpkg + s.mars3dPackageName + "/dist/mars3d.js")
  {
    assert CdnSuffix(s.useCDN, CesiumLib) == "";
    assert CdnSuffix(s.useCDN, Mars3dLib) == "";
    assert CdnSuffix(s.useCDN, TurfLib) == "";
    assert Unpkg + s.cesiumPackageName + "" == Unpkg + s.cesiumPackageName;
    assert Unpkg + s.mars3dPackageName + "" == Unpkg + s.mars3dPackageName;
    assert Unpkg + "@turf/turf" + "" == Unpkg + "@turf/turf";
  }

  /**
   * In a local build the tag URLs are plain POSIX joins under the base URLs
   * (`normalizePath` leaves them as they are), and they are absolute when
   * the base URLs are.
   */
  lemma LocalTagUrls(s: Settings, cesiumBaseUrl: string, mars3dBaseUrl: string)
    requires !CdnTruthy(s.useCDN)
    ensures var tags := HtmlTags(s, true, cesiumBaseUrl, mars3dBaseUrl);
      tags[0] == Link(PathJoin([cesiumBaseUrl, "Widgets/widgets.css"]), None)
      && tags[1] == ScriptSrc(PathJoin([cesiumBaseUrl, "Cesium.js"]), None)
      && (s.useStatic ==>
            tags[2] == Link(PathJoin([mars3dBaseUrl, "mars3d.css"]), None)
            && tags[3] == ScriptSrc(PathJoin([mars3dBaseUrl, "mars3d.js"]), None))
    ensures cesiumBaseUrl != [] && cesiumBaseUrl[0] == '/' ==>
      var tags := HtmlTags(s, true, cesiumBaseUrl, mars3dBaseUrl);
      tags[0].href[0] == '/' && tags[1].src[0] == '/'
  {
    JoinIsNormal([cesiumBaseUrl, "Widgets/widgets.css"]);
    JoinIsNormal([cesiumBaseUrl, "Cesium.js"]);
    JoinIsNormal([mars3dBaseUrl, "mars3d.css"]);
    JoinIsNormal([mars3dBaseUrl, "mars3d.js"]);
    if cesiumBaseUrl != [] && cesiumBaseUrl[0] == '/' {
      JoinAbsolute([cesiumBaseUrl, "Widgets/widgets.css"]);
      JoinAbsolute([cesiumBaseUrl, "Cesium.js"]);
    }
  }

  // ---------------------------------------------------------------------
  // The plugin object
  // ---------------------------------------------------------------------

  class Mars3dPlugin {
    const name: string
    const settings: Settings
    var isBuild: bool
    var base: string
    var outDir: string
    var cesiumBaseUrl: string
    var mars3dBaseUrl: string
    /** Whether `config` has run, so that the fields it assigns are no longer `undefined`. */
    ghost var configured: bool

    /** The factory's guarantee: both run paths are non-empty. */
    ghost predicate Valid() {
      settings.cesiumRunPath != "" && settings.mars3dRunPath != ""
    }

    /** `mars3dPlugin(options)`: fills in the defaults; `isBuild` starts false. */
    constructor (options: Options)
      ensures Valid()
      ensures name == "vite-plugin-mars3d" && settings == Defaults(options)
      ensures !isBuild && !configured
    {
      name := "vite-plugin-mars3d";
      settings := Defaults(options);
      isBuild := false;
      base, outDir, cesiumBaseUrl, mars3dBaseUrl := "", "", "", "";
      configured := false;
    }

    /**
     * The `config` hook: records the command, the base, the output directory
     * and the two base URLs, and returns the configuration Vite merges in.
     * A build marks cesium (and, with `useStatic`, mars3d) external and
     * replaces the `build` object; dev pre-bundles mars3d and not cesium.
     */
    method Config(cBase: Option<string>, cOutDir: Option<string>, command: string) returns (uc: UserConfig)
      requires Valid()
      modifies this
      ensures configured
      ensures isBuild <==> command == "build"
      ensures base == ResolveBase(cBase)
      ensures outDir == OrElse(cOutDir, "dist")
      ensures cesiumBaseUrl == PathJoin([base, settings.cesiumRunPath])
      ensures mars3dBaseUrl == PathJoin([base, settings.mars3dRunPath])
      ensures uc.define == map["CESIUM_BASE_URL" := JsonString(cesiumBaseUrl), "MARS3D_BASE_URL" := JsonString(mars3dBaseUrl)]
      ensures isBuild ==>
        && uc.optimizeDeps.None?
        && uc.build.assetsInlineLimit.None? && uc.build.chunkSizeWarningLimit.None?
        && uc.build.rollupOptions.Some?
        && uc.build.rollupOptions.value.external
           == [settings.cesiumPackageName] + (if settings.useStatic then [settings.mars3dPackageName] else [])
      ensures isBuild ==>
        var globals := uc.build.rollupOptions.value.globals;
        && globals.Keys == {settings.cesiumPackageName} + (if settings.useStatic then {settings.mars3dPackageName} else {})
        && (settings.useStatic ==> globals[settings.mars3dPackageName] == "mars3d")
        && ((!settings.useStatic || settings.mars3dPackageName != settings.cesiumPackageName)
            ==> globals[settings.cesiumPackageName] == "Cesium")
      ensures !isBuild ==>
        && uc.build == BuildOptions(Some(0), Some(4000), None)
        && uc.optimizeDeps == Some(OptimizeDeps([settings.mars3dPackageName], [settings.cesiumPackageName]))
    {
      isBuild := command == "build";
      base := ResolveBase(cBase);
      outDir := OrElse(cOutDir, "dist");
      var cesiumRunPath := if settings.cesiumRunPath != "" then settings.cesiumRunPath else "/" + settings.cesiumPackageName + "/";
      var mars3dRunPath := if settings.mars3dRunPath != "" then settings.mars3dRunPath else "/" + settings.mars3dPackageName + "/";
      cesiumBaseUrl := PathJoin([base, cesiumRunPath]);
      mars3dBaseUrl := PathJoin([base, mars3dRunPath]);
      configured := true;

      uc := UserConfig(
        BuildOptions(Some(0), Some(4000), None),
        map["CESIUM_BASE_URL" := JsonString(cesiumBaseUrl), "MARS3D_BASE_URL" := JsonString(mars3dBaseUrl)],
        None);

      if isBuild {
        var external := [settings.cesiumPackageName];
        var globals := map[settings.cesiumPackageName := "Cesium"];
        if settings.useStatic {
          external := external + [settings.mars3dPackageName];
          globals := globals[settings.mars3dPackageName := "mars3d"];
        }
        assert external == [settings.cesiumPackageName] + (if settings.useStatic then [settings.mars3dPackageName] else []);
        assert globals.Keys == {settings.cesiumPackageName} + (if settings.useStatic then {settings.mars3dPackageName} else {});
        uc := uc.(build := BuildOptions(None, None, Some(RollupOptions(external, globals))));
      } else {
        uc := uc.(optimizeDeps := Some(OptimizeDeps([settings.mars3dPackageName], [settings.cesiumPackageName])));
      }
    }

    /** The `configResolved` hook: the output directory becomes the root joined with Vite's resolved one. */
    method ConfigResolved(root: string, resolvedOutDir: string)
      modifies this`outDir
      ensures outDir == PathJoin([root, resolvedOutDir])
    {
      outDir := PathJoin([root, resolvedOutDir]);
    }

    /** The `configureServer` hook: appends the dev routes to the middleware chain. */
    method ConfigureServer(middlewares: Middlewares)
      requires configured
      modifies middlewares
      ensures middlewares.routes == old(middlewares.routes) + DevRoutes(settings, cesiumBaseUrl, mars3dBaseUrl)
    {
      middlewares.Use(PathJoin(["/", cesiumBaseUrl]), CesiumNpmPath(settings));
      if settings.useStatic {
        middlewares.Use(PathJoin(["/", mars3dBaseUrl]), Mars3dNpmPath(settings));
      }
    }

    /**
     * The `closeBundle` hook: in a build without the CDN, makes the copies of
     * `CopyPlan` in order, stopping at the first that fails (see `RunCopies`).
     */
    method CloseBundle(failAt: Option<nat>) returns (attempted: seq<CopyOp>, errorLogged: bool)
      ensures var plan := CopyPlan(settings, isBuild, outDir);
        errorLogged <==> failAt.Some? && failAt.value < |plan|
      ensures var plan := CopyPlan(settings, isBuild, outDir);
        if errorLogged then attempted == plan[..failAt.value + 1] else attempted == plan
    {
      attempted, errorLogged := [], false;
      if isBuild && !CdnTruthy(settings.useCDN) {
        attempted, errorLogged := RunCopies(CopyPlan(settings, isBuild, outDir), failAt);
      }
    }

    /** The `transformIndexHtml` hook: pushes the tags for the current mode, in order. */
    method TransformIndexHtml() returns (tags: seq<Tag>)
      ensures tags == HtmlTags(settings, isBuild, cesiumBaseUrl, mars3dBaseUrl)
    {
      tags := [];
      if !isBuild {
        return;
      }
      if CdnTruthy(settings.useCDN) {
        var cesiumVersion := CdnSuffix(settings.useCDN, CesiumLib);
        var mars3dVersion := CdnSuffix(settings.useCDN, Mars3dLib);
        var turfVersion := CdnSuffix(settings.useCDN, TurfLib);
        var cesiumTags := CesiumCdnTags(settings.cesiumPackageName, cesiumVersion);
        tags := tags + cesiumTags;
        assert tags == cesiumTags;
        if settings.useStatic {
          tags := tags + Mars3dCdnTags(settings.mars3dPackageName, mars3dVersion, turfVersion);
        }
      } else {
        var cesiumTags := CesiumLocalTags(cesiumBaseUrl);
        tags := tags + cesiumTags;
        assert tags == cesiumTags;
        if settings.useStatic {
          tags := tags + Mars3dLocalTags(mars3dBaseUrl);
        }
      }
    }
  }
}
