/**
 * `vitePluginEarth` (src/index.ts): a Vite plugin that serves the cesium
 * build under `/<libPath>/Cesium` in dev mode, copies it into
 * `<outDir>/<libPath>/Cesium` after a build, and always injects its
 * stylesheet and script into the head of index.html.
 *
 * The factory's closure becomes the class `EarthPlugin`: the values it
 * computes once are constants, the variables `config` assigns are fields.
 */
module Earth {
  import opened Js
  import opened Paths
  import opened Vite

  /** The options object; absent properties are `None`. */
  datatype Options = Options(libPath: Option<string>, useUnminified: Option<bool>, pkgName: Option<string>)

  /** The default parameter, used when the factory is called without an argument. */
  const DefaultOptions: Options := Options(Some("lib"), Some(false), Some("cesium"))

  /** A template literal's rendering of an optional string: `undefined` prints as such. */
  function TemplateText(s: Option<string>): string {
    if s.Some? then s.value else "undefined"
  }

  /** Where the cesium package keeps its builds, relative to the project. */
  function CesiumBuildPath(pkgName: Option<string>): (path: string)
    ensures pkgName.Some? ==> path == "./node_modules/" + pkgName.value + "/Build"
    ensures pkgName.None? ==> path == "./node_modules/undefined/Build"
  {
    "./node_modules/" + TemplateText(pkgName) + "/Build"
  }

  /** The build directory served in dev mode: the unminified one on request. */
  function ServedBuild(useUnminified: bool): string {
    if useUnminified then "CesiumUnminified" else "Cesium"
  }

  /**
   * The one route `configureServer` adds: the cesium build mounted under
   * `/<libPath>/Cesium`, whatever the base. Vite's `normalizePath` leaves
   * the joined directory as it is.
   */
  function DevRoute(libPath: string, useUnminified: bool, cesiumBuildPath: string): (r: Route)
    ensures r.mount != [] && r.mount[0] == '/'
    ensures NormalizePath(r.root) == r.root && NoDoubleSlash(r.root)
  {
    JoinIsNormal([cesiumBuildPath, ServedBuild(useUnminified)]);
    Route("/" + libPath + "/Cesium", PathJoin([cesiumBuildPath, ServedBuild(useUnminified)]))
  }

  /**
   * The copy `closeBundle` makes: always the minified build, the directory
   * dev mode serves without `useUnminified`, into `<outDir>/<libPath>/Cesium`,
   * which is absolute when the output directory is.
   */
  function BuildCopy(cesiumBuildPath: string, outDir: string, libPath: string): (c: CopyOp)
    ensures c.src == DevRoute(libPath, false, cesiumBuildPath).root
    ensures outDir != [] && outDir[0] == '/' ==> c.dst != [] && c.dst[0] == '/'
  {
    var c := CopyOp(PathJoin([cesiumBuildPath, "Cesium"]), PathJoin([outDir, libPath, "Cesium"]));
    if outDir != [] && outDir[0] == '/' then
      JoinAbsolute([outDir, libPath, "Cesium"]);
      c
    else
      c
  }

  /**
   * The tags `transformIndexHtml` returns, in dev and build alike: the
   * stylesheet, then the script, both in the head, under `<base>/<libPath>/Cesium`.
   * Both URLs are absolute when the base is.
   */
  function HeadTags(base: string, libPath: string): (tags: seq<Tag>)
    ensures |tags| == 2 && tags[0].Link? && tags[1].ScriptSrc?
    ensures tags[0].injectTo == Some(Head) && tags[1].injectTo == Some(Head)
    ensures base != [] && base[0] == '/' ==>
      tags[0].href != [] && tags[0].href[0] == '/' && tags[1].src != [] && tags[1].src[0] == '/'
  {
    var tags := [ Link(PathJoin([base, libPath, "Cesium/Widgets/widgets.css"]), Some(Head)),
                  ScriptSrc(PathJoin([base, libPath, "Cesium/Cesium.js"]), Some(Head)) ];
    if base != [] && base[0] == '/' then
      JoinAbsolute([base, libPath, "Cesium/Widgets/widgets.css"]);
      JoinAbsolute([base, libPath, "Cesium/Cesium.js"]);
      tags
    else
      tags
  }

  /**
   * The two tag URLs are already normal: `normalizePath` changes neither,
   * and neither holds a doubled separator.
   */
  lemma HeadTagsNormal(base: string, libPath: string)
    ensures var tags := HeadTags(base, libPath);
      && NormalizePath(tags[0].href) == tags[0].href && NormalizePath(tags[1].src) == tags[1].src
      && NoDoubleSlash(tags[0].href) && NoDoubleSlash(tags[1].src)
  {
    JoinIsNormal([base, libPath, "Cesium/Widgets/widgets.css"]);
    JoinIsNormal([base, libPath, "Cesium/Cesium.js"]);
  }

  /** A file under a plain directory of a plain library directory, joined onto the root. */
  lemma JoinLibraryFile(libPath: string, dir: string, file: seq<string>)
    requires Clean(libPath) && Clean(dir) && |file| >= 1 && AllClean(file)
    ensures PathJoin(["/", libPath, dir + "/" + JoinSegs(file)]) == "/" + libPath + "/" + dir + "/" + JoinSegs(file)
  {
    var q := [dir] + file;
    assert JoinSegs(q) == dir + "/" + JoinSegs(file) by {
      JoinSegsAppend([dir], file);
    }
    assert AllClean(q) by {
      AllCleanConcat([dir], file);
    }
    assert PathJoin(["/", JoinSegs([libPath]), JoinSegs(q)]) == "/" + JoinSegs([libPath] + q) by {
      JoinUnderRoot([libPath], q);
    }
    assert JoinSegs([libPath] + q) == libPath + "/" + JoinSegs(q) by {
      JoinSegsAppend([libPath], q);
    }
    var f := JoinSegs(file);
    assert JoinSegs([libPath]) == libPath;
    assert ["/", JoinSegs([libPath]), JoinSegs(q)] == ["/", libPath, dir + "/" + f];
    assert "/" + (libPath + "/" + (dir + "/" + f)) == "/" + libPath + "/" + dir + "/" + f by {
      ConcatSix("/", libPath, "/", dir, "/", f);
    }
  }

  /** A file of a plain directory, joined onto the root and a plain library directory, lies under `/<libPath>/<dir>`. */
  lemma LibraryFileUnderMount(libPath: string, dir: string, mountDir: string, file: seq<string>,
                              fileText: string, pathText: string, tailText: string)
    requires Clean(libPath) && Clean(dir) && mountDir == "/" + dir
    requires |file| >= 1 && AllClean(file) && JoinSegs(file) == fileText
    requires pathText == dir + "/" + fileText && tailText == "/" + fileText
    ensures PathJoin(["/", libPath, pathText]) == "/" + libPath + mountDir + tailText
  {
    JoinLibraryFile(libPath, dir, file);
    assert "/" + libPath + "/" + dir + "/" + fileText == "/" + libPath + ("/" + dir) + ("/" + fileText) by {
      Regroup("/", libPath, "/", dir, "/", fileText);
    }
  }

  /**
   * With the root as base and a plain library directory, the tags point
   * inside the dev route's mount.
   */
  lemma TagsUnderDevMount(libPath: string, useUnminified: bool, cesiumBuildPath: string)
    requires Clean(libPath)
    ensures var mount := DevRoute(libPath, useUnminified, cesiumBuildPath).mount;
      HeadTags("/", libPath)
        == [Link(mount + "/Widgets/widgets.css", Some(Head)), ScriptSrc(mount + "/Cesium.js", Some(Head))]
  {
    var mount := "/" + libPath + "/Cesium";
    assert PathJoin(["/", libPath, "Cesium/Widgets/widgets.css"]) == mount + "/Widgets/widgets.css" by {
      CesiumDirectory();
      StylesheetSegments();
      StylesheetText();
      StylesheetPath();
      LibraryFileUnderMount(libPath, "Cesium", "/Cesium", ["Widgets", "widgets.css"],
        "Widgets/widgets.css", "Cesium/Widgets/widgets.css", "/Widgets/widgets.css");
    }
    assert PathJoin(["/", libPath, "Cesium/Cesium.js"]) == mount + "/Cesium.js" by {
      CesiumDirectory();
      ScriptText();
      ScriptPath();
      LibraryFileUnderMount(libPath, "Cesium", "/Cesium", ["Cesium.js"], "Cesium.js", "Cesium/Cesium.js", "/Cesium.js");
    }
  }

  lemma CesiumDirectory()
    ensures Clean("Cesium") && "/Cesium" == "/" + "Cesium"
  {
  }

  lemma StylesheetSegments()
    ensures AllClean(["Widgets", "widgets.css"])
  {
  }

  lemma StylesheetText()
    ensures JoinSegs(["Widgets", "widgets.css"]) == "Widgets/widgets.css"
  {
    assert ["Widgets", "widgets.css"][1..] == ["widgets.css"];
  }

  lemma StylesheetPath()
    ensures "Cesium/Widgets/widgets.css" == "Cesium" + "/" + "Widgets/widgets.css"
    ensures "/Widgets/widgets.css" == "/" + "Widgets/widgets.css"
  {
  }

  lemma ScriptText()
    ensures AllClean(["Cesium.js"])
    ensures JoinSegs(["Cesium.js"]) == "Cesium.js"
  {
  }

  lemma ScriptPath()
    ensures "Cesium/Cesium.js" == "Cesium" + "/" + "Cesium.js"
    ensures "/Cesium.js" == "/" + "Cesium.js"
  {
  }

  /** The builds directory of a plain package name, as a path of segments. */
  lemma BuildSegments(pkgName: string)
    requires Clean(pkgName)
    ensures AllClean(["node_modules", pkgName, "Build"])
    ensures JoinSegs(["node_modules", pkgName, "Build"]) == "node_modules/" + pkgName + "/Build"
    ensures CesiumBuildPath(Some(pkgName)) == "./" + ("node_modules/" + pkgName + "/Build")
  {
    assert JoinSegs(["node_modules", pkgName, "Build"]) == "node_modules/" + pkgName + "/Build" by {
      JoinSegsThree("node_modules", pkgName, "Build");
      BuildText(pkgName);
    }
    assert CesiumBuildPath(Some(pkgName)) == "./" + ("node_modules/" + pkgName + "/Build") by {
      BuildPathText(pkgName);
    }
  }

  lemma BuildText(pkgName: string)
    ensures "node_modules" + "/" + pkgName + "/" + "Build" == "node_modules/" + pkgName + "/Build"
  {
  }

  lemma BuildPathText(pkgName: string)
    ensures "./node_modules/" + pkgName + "/Build" == "./" + ("node_modules/" + pkgName + "/Build")
  {
  }

  /** The cesium build of a plain package name joined with one plain directory. */
  lemma JoinBuildDirectory(pkgName: string, dir: string)
    requires Clean(pkgName) && Clean(dir)
    ensures PathJoin([CesiumBuildPath(Some(pkgName)), dir]) == "node_modules/" + pkgName + "/Build" + "/" + dir
  {
    var build := ["node_modules", pkgName, "Build"];
    BuildSegments(pkgName);
    assert JoinSegs([dir]) == dir;
    assert PathJoin(["./" + JoinSegs(build), JoinSegs([dir])]) == JoinSegs(build + [dir]) by {
      JoinDotted(build, [dir]);
    }
    assert JoinSegs(build + [dir]) == JoinSegs(build) + "/" + dir by {
      JoinSegsAppend(build, [dir]);
    }
  }

  /**
   * With a plain package name, dev mode serves
   * `node_modules/<pkgName>/Build/Cesium` (or `CesiumUnminified`) and a
   * build copies `node_modules/<pkgName>/Build/Cesium`: the leading "./"
   * disappears in the join, and the copy ignores `useUnminified`.
   */
  lemma BuildDirectories(pkgName: string, libPath: string, useUnminified: bool, outDir: string)
    requires Clean(pkgName)
    ensures DevRoute(libPath, useUnminified, CesiumBuildPath(Some(pkgName))).root
      == "node_modules/" + pkgName + "/Build" + "/" + ServedBuild(useUnminified)
    ensures BuildCopy(CesiumBuildPath(Some(pkgName)), outDir, libPath).src
      == "node_modules/" + pkgName + "/Build" + "/" + "Cesium"
    ensures !useUnminified ==>
      DevRoute(libPath, useUnminified, CesiumBuildPath(Some(pkgName))).root
        == BuildCopy(CesiumBuildPath(Some(pkgName)), outDir, libPath).src
  {
    var served := ServedBuild(useUnminified);
    assert Clean(served) by {
      assert Clean("CesiumUnminified") && Clean("Cesium");
    }
    JoinBuildDirectory(pkgName, served);
    JoinBuildDirectory(pkgName, "Cesium");
  }

  /** With plain names the copy's destination is `<outDir>/<libPath>/Cesium`. */
  lemma CopyDestination(cesiumBuildPath: string, outDir: string, libPath: string)
    requires Clean(outDir) && Clean(libPath)
    ensures BuildCopy(cesiumBuildPath, outDir, libPath).dst == outDir + "/" + libPath + "/Cesium"
  {
    assert JoinSegs([outDir]) == outDir && JoinSegs([libPath]) == libPath && JoinSegs(["Cesium"]) == "Cesium";
    JoinRelative([outDir], [libPath], ["Cesium"]);
    assert [outDir] + [libPath] + ["Cesium"] == [outDir, libPath, "Cesium"];
    JoinSegsThree(outDir, libPath, "Cesium");
    assert outDir + "/" + libPath + "/" + "Cesium" == outDir + "/" + libPath + "/Cesium" by {
      SlashCesium(outDir + "/" + libPath);
    }
  }

  lemma SlashCesium(a: string)
    ensures a + "/" + "Cesium" == a + "/Cesium"
  {
  }

  class EarthPlugin {
    const name: string
    const cesiumBuildPath: string
    const libPath: string
    const useUnminified: bool
    var base: string
    var outDir: string
    var isBuild: bool

    /**
     * `vitePluginEarth(options)`: the default object replaces only a missing
     * argument; within a given object, a falsy `libPath` becomes "lib" and a
     * missing `pkgName` is written into the path as "undefined".
     */
    constructor (options: Option<Options>)
      ensures name == "vite-plugin-earth"
      ensures var o := if options.Some? then options.value else DefaultOptions;
        && cesiumBuildPath == CesiumBuildPath(o.pkgName)
        && libPath == OrElse(o.libPath, "lib")
        && (useUnminified <==> IsTrue(o.useUnminified))
      ensures libPath != ""
      ensures options.None? ==> libPath == "lib" && !useUnminified && cesiumBuildPath == "./node_modules/cesium/Build"
      ensures base == "/" && outDir == "dist" && !isBuild
    {
      var o := if options.Some? then options.value else DefaultOptions;
      name := "vite-plugin-earth";
      cesiumBuildPath := CesiumBuildPath(o.pkgName);
      base, outDir, isBuild := "/", "dist", false;
      libPath := OrElse(o.libPath, "lib");
      useUnminified := if o.useUnminified.Some? then o.useUnminified.value else false;
    }

    /** The `config` hook: records the command, the base and the output directory; it returns nothing. */
    method Config(cBase: Option<string>, cOutDir: Option<string>, command: string)
      modifies this
      ensures isBuild <==> command == "build"
      ensures base == OrElse(cBase, "/") && base != ""
      ensures outDir == OrElse(cOutDir, "dist") && outDir != ""
    {
      isBuild := command == "build";
      base := OrElse(cBase, "/");
      outDir := OrElse(cOutDir, "dist");
    }

    /** The `configureServer` hook: appends the cesium route to the middleware chain. */
    method ConfigureServer(middlewares: Middlewares)
      modifies middlewares
      ensures middlewares.routes == old(middlewares.routes) + [DevRoute(libPath, useUnminified, cesiumBuildPath)]
    {
      var root := NormalizePath(PathJoin([cesiumBuildPath, if useUnminified then "CesiumUnminified" else "Cesium"]));
      JoinIsNormal([cesiumBuildPath, ServedBuild(useUnminified)]);
      middlewares.Use("/" + libPath + "/Cesium", root);
    }

    /**
     * The `closeBundle` hook: after a build, the one copy; a failing copy is
     * swallowed without a trace, so what is attempted does not depend on it.
     */
    method CloseBundle() returns (attempted: seq<CopyOp>)
      ensures isBuild ==> attempted == [BuildCopy(cesiumBuildPath, outDir, libPath)]
      ensures !isBuild ==> attempted == []
    {
      attempted := [];
      if isBuild {
        attempted := attempted + [CopyOp(PathJoin([cesiumBuildPath, "Cesium"]), PathJoin([outDir, libPath, "Cesium"]))];
      }
    }

    /** The `transformIndexHtml` hook: pushes the two head tags, in dev and build alike. */
    method TransformIndexHtml() returns (tags: seq<Tag>)
      ensures tags == HeadTags(base, libPath)
    {
      tags := [];
      var href := NormalizePath(PathJoin([base, libPath, "Cesium/Widgets/widgets.css"]));
      JoinIsNormal([base, libPath, "Cesium/Widgets/widgets.css"]);
      tags := tags + [Link(href, Some(Head))];
      var src := NormalizePath(PathJoin([base, libPath, "Cesium/Cesium.js"]));
      JoinIsNormal([base, libPath, "Cesium/Cesium.js"]);
      tags := tags + [ScriptSrc(src, Some(Head))];
    }
  }
}
