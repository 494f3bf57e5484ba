/**
 * The parts of Vite's plugin interface the two plugins produce or touch:
 * HTML tag descriptors, the dev server's middleware chain, the file copies
 * made after bundling, and the configuration a `config` hook returns.
 */
module Vite {
  import opened Js

  /** Where Vite inserts a tag; `None` in a tag leaves Vite's default. */
  datatype InjectTo = Head | Body | HeadPrepend | BodyPrepend

  /** An `HtmlTagDescriptor` of the three shapes the plugins emit. */
  datatype Tag =
    | Link(href: string, injectTo: Option<InjectTo>)          // <link rel="stylesheet" href=...>
    | ScriptSrc(src: string, injectTo: Option<InjectTo>)      // <script src=...></script>
    | ScriptInline(body: string, injectTo: Option<InjectTo>)  // <script>body</script>

  /** `middlewares.use(mount, serveStatic(root))`. */
  datatype Route = Route(mount: string, root: string)

  /** One `fs.copy(src, dst)` / `fs.copySync(src, dst)`. */
  datatype CopyOp = CopyOp(src: string, dst: string)

  /** `build.rollupOptions`: the external modules and the globals handed to the external-globals plugin. */
  datatype RollupOptions = RollupOptions(external: seq<string>, globals: map<string, string>)

  datatype BuildOptions = BuildOptions(
    assetsInlineLimit: Option<int>,
    chunkSizeWarningLimit: Option<int>,
    rollupOptions: Option<RollupOptions>)

  datatype OptimizeDeps = OptimizeDeps(included: seq<string>, excluded: seq<string>)  // `include` and `exclude`

  /** The partial configuration a `config` hook returns for Vite to merge. */
  datatype UserConfig = UserConfig(build: BuildOptions, define: map<string, string>, optimizeDeps: Option<OptimizeDeps>)

  /** The dev server's connect middleware chain, which only grows. */
  class Middlewares {
    var routes: seq<Route>

    constructor ()
      ensures routes == []
    {
      routes := [];
    }

    method Use(mount: string, root: string)
      modifies this
      ensures routes == old(routes) + [Route(mount, root)]
    {
      routes := routes + [Route(mount, root)];
    }
  }
}
