# vite-plugin-earth, modelled in Dafny

This project models the decision logic of the two Vite plugins in
vite-plugin-earth. The plugins integrate the Cesium globe renderer, and the
mars3d toolkit built on top of it, into a Vite project.

- `mars3dPlugin` (src/mars3d.ts) fills in its option defaults. In the
  `config` hook it settles the base, the output directory and the two base
  URLs `CESIUM_BASE_URL` and `MARS3D_BASE_URL`. It returns the configuration
  Vite merges in: externals and globals in a build, pre-bundling hints in
  dev. It then mounts the library builds on the dev server. After a local
  build it copies their runtime files into the output directory. It injects
  the stylesheet and script tags into `index.html`, pointing either at the
  copies or at the unpkg CDN.
- `vitePluginEarth` (src/index.ts) mounts the Cesium build under
  `/<libPath>/Cesium` in dev mode. After a build it copies the build into
  `<outDir>/<libPath>/Cesium`. In both modes it injects the stylesheet and
  the script into the head of the page.

Each plugin factory returns an object whose hooks share variables of the
factory's closure. Each factory becomes a class:

- the options, resolved once, are constants;
- the variables the hooks assign are fields, and the hooks are methods;
- a method's contract ties its result or new state to a specification
  function, and lemmas state what the source promises about those functions.

Modules:

- `Js` (js.dfy): JavaScript truthiness on optional values, `x || y`, and
  `JSON.stringify` on strings, with a reader that inverts it.
- `Paths` (paths.dfy): `path.posix.join` and `path.posix.normalize`, written
  after Node's segment-stack algorithm, and Vite's `normalizePath`.
- `Vite` (vite.dfy): HTML tag descriptors, dev-server routes, copy operations,
  the configuration object, and the middleware chain as an append-only list.
- `Mars3d` (mars3d.dfy): `mars3dPlugin` as the class `Mars3dPlugin`.
- `Earth` (earth.dfy): `vitePluginEarth` as the class `EarthPlugin`.

Where the code and the design description disagree, the model follows the
code:

- The design says an empty base becomes `./`. In the code the test for `''`
  sits inside `if (c.base)`, so it can never fire, and an empty base becomes
  `/`. `Mars3d.ResolveBase` models this.
- The design says a base URL always ends in exactly one separator. The code
  joins the base with the run path as given. A default run path ends in `/`,
  and a user-supplied one need not.
- The design says a dev page gets one stylesheet tag. In the code
  `mars3dPlugin` returns no tags at all outside a build (src/mars3d.ts:170-172),
  and `vitePluginEarth` returns its stylesheet and its script in both modes
  (src/index.ts:61-85). `Mars3d.HtmlTags` and `Earth.HeadTags` model this.
- The design says a local build also gets a script that assigns the base URL
  to a global. In the code a local build gets only the stylesheet and the
  script (two tags, four with `useStatic`, src/mars3d.ts:232-262), and
  `CESIUM_BASE_URL` reaches the page through `define` instead
  (src/mars3d.ts:105-108). Only CDN mode emits an inline script.
- The design describes features these files do not have, so none of them is
  modelled:
  - bundled, external and CDN modes per library (the code only tests the
    truthiness of `useCDN`);
  - rejection of `..` in run paths;
  - isolation between build invocations.

## Model

| member | source | states |
|---|---|---|
| Js.OrElse | src/index.ts:34-35 | `x or fallback` (the JavaScript logical or) is `x` when `x` is a non-empty string, and otherwise the fallback. It is never empty when the fallback is not. |
| Js.EscapeChar | src/mars3d.ts:105-108 | A character is written as an escape sequence exactly when JSON requires it: a quote, a backslash or a control character. Any other character is written as itself. |
| Js.Escape | src/mars3d.ts:106-107 | The escaped text is never shorter than the string: each character becomes itself or a longer escape sequence. |
| Js.JsonString | src/mars3d.ts:106-107 | `JSON.stringify` of a string is a literal that starts and ends with a double quote and is at least two characters longer than the string. |
| Js.JsonStringPlain | src/mars3d.ts:105-108 | A base URL with no quote, backslash or control character is defined as that text between double quotes. |
| Js.JsonStringRoundTrip | src/mars3d.ts:105-108 | Reading back the JSON literal that `JSON.stringify` writes for a string gives that string. |
| Paths.PathJoin | src/mars3d.ts:137 | `path.join` never returns the empty path, and returns `.` when there is nothing to join. |
| Paths.NormalizePath | src/mars3d.ts:238 | Vite's `normalizePath` never returns the empty path, and turns the empty path into `.`. |
| Paths.Normalize | src/mars3d.ts:238 | Normalisation never returns the empty path; an empty input becomes `.`. |
| Paths.NormalizeIdempotent | src/mars3d.ts:238 | Normalising a normalised path changes nothing. |
| Paths.NormalizeAbsolute | src/mars3d.ts:97-98 | A normalised path starts with `/` exactly when the input does. |
| Paths.NormalizeTrailing | src/mars3d.ts:97-98 | A trailing separator survives normalisation, so a run path such as `/mars3d-cesium/` keeps its final `/` in the base URL. |
| Paths.NormalizeNoDoubleSlash | src/mars3d.ts:97-98 | A normalised path never holds two separators in a row. |
| Paths.NormalizeClean | src/index.ts:53-56 | A relative path made of plain segments is already normal. |
| Paths.NormalizeDotted | src/index.ts:23 | A leading `./` before plain segments is dropped by normalisation. |
| Paths.JoinIsNormal | src/index.ts:41-46 | `normalizePath` leaves the result of any `path.join` unchanged, and that result has no doubled separator. |
| Paths.JoinAbsolute | src/mars3d.ts:141 | A join whose first argument is absolute is absolute. |
| Paths.JoinUnderRoot | src/index.ts:68-79 | The root joined with two relative paths of plain segments is `/` followed by all their segments. |
| Paths.JoinRelative | src/index.ts:53-56 | Three relative paths of plain segments join into one path of all their segments, one separator apart. |
| Paths.JoinDotted | src/index.ts:42-45 | A `./`-prefixed path of plain segments joined with another loses the `./`. |
| Paths.JoinRootDirectory | src/mars3d.ts:97 | The root joined with an absolute directory path with a trailing separator gives that directory path back. |
| Paths.JoinRunPathEntry | src/mars3d.ts:151-160 | A plain directory joined with `/<name>/` + `/<entry>` is `<dir>/<name>/<entry>`: the two separators between the run path and the entry collapse. |
| Paths.JoinRunPathEntryAbsolute | src/mars3d.ts:151-160 | The same collapse under an absolute directory: `/<dir>` joined with `/<name>/` + `/<entry>` is `/<dir>/<name>/<entry>`. |
| Paths.JoinUnderAbsolute | src/mars3d.ts:137 | An absolute path of plain segments joined with a relative one of plain segments is `/` followed by the segments of both. |
| Vite.Middlewares.Use | src/mars3d.ts:141 | `middlewares.use` appends one route at the end of the chain and changes nothing else. |
| Mars3d.Defaults | src/mars3d.ts:53-69 | Package names default to `mars3d` and `mars3d-cesium` only when absent. A falsy run path becomes `/<package>/`, so run paths are never empty. `useStatic` defaults to false, and `useCDN` defaults to a falsy value. |
| Mars3d.ResolveBase | src/mars3d.ts:82-89 | The base is the user's base when truthy and `/` otherwise. It is never empty, and it is `./` only when the user gave `./`: the `''` branch is dead. |
| Mars3d.DevRoutes | src/mars3d.ts:140-146 | The cesium route comes first, and the mars3d route follows iff `useStatic`. Each mount is `join('/', baseUrl)` and starts with `/`, and each root is the package's build directory. |
| Mars3d.DefaultCesiumBaseUrl | src/mars3d.ts:97 | With no base and no cesium run path, `CESIUM_BASE_URL` is `/<cesiumPackageName>/`, and the dev server mounts the cesium build at exactly that URL. |
| Mars3d.Copies | src/mars3d.ts:151-160 | One copy per entry, in order: from `join(npmPath, entry)` to `join(outDir, runPath + '/' + entry)`. |
| Mars3d.CopyPlan | src/mars3d.ts:148-161 | Nothing is copied unless building with a falsy `useCDN`. Otherwise there are 5 copies, or 8 with `useStatic`. |
| Mars3d.CopyPlanOrder | src/mars3d.ts:151-160 | Copy `i` is the `i`-th cesium entry (Assets, ThirdParty, Workers, Widgets, Cesium.js), copied into the cesium run path. From copy 5 on, the copies are the mars3d entries (img, mars3d.css, mars3d.js), which occur only with `useStatic`. |
| Mars3d.CdnTruthy | src/mars3d.ts:174 | `if (useCDN)` (and `!useCDN` in `closeBundle`): only `false` is falsy. `true` and every object, even one naming no version, are truthy. |
| Mars3d.DefaultCopyDestinations | src/mars3d.ts:151-160 | With default run paths and an output directory of plain segments, absolute as `configResolved` makes it or relative, each entry lands at `<outDir>/<package>/<entry>`. The base plays no part. |
| Mars3d.ResolvedOutDirAbsolute | src/mars3d.ts:137 | `configResolved` joins an absolute root with a relative output directory into the absolute path of both: the form `DefaultCopyDestinations` covers. |
| Mars3d.RunCopies | src/mars3d.ts:150-164 | The awaited copies in one `try`. Without a failure, every copy is attempted in order. When copy `k` fails, copies 0..k are attempted, the error is logged, and nothing after copy `k` runs. |
| Mars3d.CdnSuffix | src/mars3d.ts:179-187 | The suffix is `@<version>` when `useCDN` is an object naming a non-empty version for that library, and is empty otherwise (including `useCDN === true`). |
| Mars3d.HtmlTags | src/mars3d.ts:168-264 | No tags outside a build. A CDN build has 3 tags, or 6 with `useStatic`; a local build has 2, or 4 with `useStatic`. |
| Mars3d.CesiumTagsFirst | src/mars3d.ts:189-231 | Turning `useStatic` on only appends mars3d tags after the cesium ones. CDN tags run stylesheet, inline `CESIUM_BASE_URL` script, script; then turf script, stylesheet, script. Local tags run stylesheet, script, and the same again for mars3d. |
| Mars3d.CdnTagsIgnoreBase | src/mars3d.ts:189-231 | CDN tags do not depend on the base URLs, so they do not depend on the base. |
| Mars3d.CdnPinnedCesium | src/mars3d.ts:180-204 | A cesium version pinned in the `useCDN` object appears as `@<version>` right after the package name in the cesium script URL. |
| Mars3d.CdnTagUrls | src/mars3d.ts:189-230 | In CDN mode each URL carries its own library's suffix. The cesium stylesheet, the inline `CESIUM_BASE_URL` script and the cesium script use cesium's. The turf script uses turf's. The mars3d stylesheet and script use mars3d's. |
| Mars3d.CdnTrueUnpinned | src/mars3d.ts:183-230 | `useCDN: true` gives unversioned unpkg URLs for cesium, turf and mars3d. |
| Mars3d.LocalTagUrls | src/mars3d.ts:232-262 | Local tags point at `join(baseUrl, file)`, which `normalizePath` leaves as it is. The cesium URLs are absolute when `CESIUM_BASE_URL` is. |
| Mars3d.Mars3dPlugin.constructor | src/mars3d.ts:53-79 | The plugin is named `vite-plugin-mars3d`, holds the defaulted options, and starts outside a build. |
| Mars3d.Mars3dPlugin.Config | src/mars3d.ts:80-134 | `isBuild` iff the command is `build`. Base from `ResolveBase`; `outDir` is the user's or `dist`. Base URLs are `join(base, runPath)`, and `define` holds their JSON text. A build replaces `build`: cesium (and mars3d iff `useStatic`) external, mapped to `Cesium` and `mars3d`, no inline or size limits, no pre-bundling hints. Dev keeps the limits, includes mars3d and excludes cesium in `optimizeDeps`. |
| Mars3d.Mars3dPlugin.ConfigResolved | src/mars3d.ts:136-138 | `outDir` becomes Vite's root joined with its resolved output directory. |
| Mars3d.Mars3dPlugin.ConfigureServer | src/mars3d.ts:140-146 | Appends exactly `DevRoutes` to the middleware chain. |
| Mars3d.Mars3dPlugin.CloseBundle | src/mars3d.ts:148-166 | Attempts the copy plan in order and stops after the first failure. No error escapes, and an error is logged iff a planned copy failed. |
| Mars3d.Mars3dPlugin.TransformIndexHtml | src/mars3d.ts:168-265 | The tags pushed are exactly `HtmlTags` for the current mode, options and base URLs. |
| Earth.CesiumBuildPath | src/index.ts:23 | The builds directory is `./node_modules/<pkgName>/Build`. A missing `pkgName` is written as `undefined`. |
| Earth.DevRoute | src/index.ts:38-47 | The mount is absolute whatever the base. The served directory is already normal, so `normalizePath` changes nothing, and it has no doubled separator. |
| Earth.BuildCopy | src/index.ts:53-56 | The build copies the very directory dev mode serves without `useUnminified`. The destination is absolute when the output directory is. |
| Earth.HeadTags | src/index.ts:61-85 | Exactly two tags: the stylesheet link, then the script, both injected into the head. Both URLs are absolute when the base is. |
| Earth.HeadTagsNormal | src/index.ts:68-79 | Both tag URLs are already normal, so `normalizePath` changes neither, and neither has a doubled separator. |
| Earth.TagsUnderDevMount | src/index.ts:37-82 | With base `/` and a plain `libPath`, the two tag URLs lie inside the dev route's mount `/<libPath>/Cesium`. |
| Earth.BuildDirectories | src/index.ts:37-56 | Dev mode serves `node_modules/<pkg>/Build/CesiumUnminified` iff `useUnminified`, else `.../Build/Cesium`. The build copies `.../Build/Cesium` regardless. Without `useUnminified`, the two directories coincide. |
| Earth.CopyDestination | src/index.ts:53-56 | With a plain output directory and `libPath`, the copy goes to `<outDir>/<libPath>/Cesium`. |
| Earth.EarthPlugin.constructor | src/index.ts:16-28 | The default object replaces only a missing argument. A falsy `libPath` becomes `lib`, and `useUnminified` holds only when it is `true`. The base starts as `/`, the output directory as `dist`, and the plugin starts outside a build. |
| Earth.EarthPlugin.Config | src/index.ts:32-36 | `isBuild` iff the command is `build`. The base is the user's base or `/`, and `outDir` is the user's or `dist`. Neither is empty. |
| Earth.EarthPlugin.ConfigureServer | src/index.ts:37-49 | Appends exactly one route: `/<libPath>/Cesium`, whatever the base, serving the unminified or minified build. |
| Earth.EarthPlugin.CloseBundle | src/index.ts:50-59 | In a build, exactly the one copy of the minified build into `<outDir>/<libPath>/Cesium`. Outside a build, none. A failure is swallowed. |
| Earth.EarthPlugin.TransformIndexHtml | src/index.ts:61-85 | The tags are the stylesheet then the script under `join(base, libPath, 'Cesium/…')`, in dev and build alike. |

## Left out

- File I/O is not modelled. `fs.copy`, `fs.copySync` and `serveStatic` are
  represented by the `CopyOp` and `Route` values they would receive. A copy
  failure is a parameter: the index of the first copy that fails.
- Mars3d.Mars3dPlugin.CloseBundle: `errorLogged` records that `console.error`
  was called. The message text and the error object are not modelled.
- Earth.EarthPlugin.CloseBundle: the copy is listed whether or not it fails.
  The empty `catch` makes a failure unobservable, so the model has no
  failure parameter.
- `rollup-plugin-external-globals` is not modelled. The model keeps the
  globals map handed to it.
- The `Plugin` and `UserConfig` types of Vite are left out, and so is
  Vite's merging of the returned configuration.
- The asynchrony of `closeBundle` is not modelled. Its awaits only sequence
  the copies, which the model does in order.
- Paths.NormalizePath: this is Vite's `normalizePath` on a POSIX host.
  Backslash conversion on Windows is not modelled, and neither is
  `path.join` with Windows separators. The platform `path.join` used in the
  source is taken to be `path.posix.join`.
- Js.JsonStringRoundTrip: it covers strings of Unicode scalar values only.
  Lone surrogates, which JSON.stringify escapes as `\uXXXX`, cannot occur in
  a Dafny string.
- Mars3d.Mars3dPlugin.ConfigureServer requires the hooks to run in Vite's
  order, `config` first. The base URLs it reads are `undefined` until
  `config` runs. A ghost flag records this. The other hooks, and all of
  `EarthPlugin`, need no such requirement.
- Earth.TagsUnderDevMount: covers the base `/` only. With another base the
  tag URLs carry the base and the dev mount does not. Whether a request
  still reaches the mount depends on how Vite's dev server treats the base
  before plugin middlewares, and that code is not part of this model.
- `vitePluginEarth` wraps `libPath` in `String(...)` and also accepts the
  `String` and `Boolean` wrapper objects of its option types. The model
  treats both options as plain values.
- The demo project and the package configuration files only invoke the
  plugins, so they are not modelled.
