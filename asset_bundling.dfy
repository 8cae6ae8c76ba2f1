/** The build-output classifiers of the shop theme's bundler configuration:
    which chunk a module goes to, which directory an emitted asset goes to,
    and how URLs are written inside built stylesheets. Each is a pure test
    on strings; "undefined" (let the bundler decide) is `None`. */
module AssetBundling {
  import opened Strings
  import opened Php

  /** `manualChunks(id)`: modules outside `node_modules` are left to the
      bundler; inside it the first match in the order `vue`, `vee-validate`,
      `axios` names the chunk, and everything else goes to `vendor`. */
  function ManualChunks(id: string): (chunk: Option<string>)
    ensures chunk.None? <==> !Contains(id, "node_modules")
    ensures chunk.Some? ==> chunk.value in {"vue", "vee-validate", "axios", "vendor"}
    ensures chunk == Some("vue") <==> Contains(id, "node_modules") && Contains(id, "vue")
    ensures chunk == Some("vee-validate") <==>
      Contains(id, "node_modules") && !Contains(id, "vue") && Contains(id, "vee-validate")
    ensures chunk == Some("axios") <==>
      Contains(id, "node_modules") && !Contains(id, "vue") && !Contains(id, "vee-validate")
      && Contains(id, "axios")
  {
    if Contains(id, "node_modules") then
      if Contains(id, "vue") then Some("vue")
      else if Contains(id, "vee-validate") then Some("vee-validate")
      else if Contains(id, "axios") then Some("axios")
      else Some("vendor")
    else None
  }

  /** An application module stays out of the manual chunks. */
  lemma ApplicationModule()
    ensures ManualChunks("/src/Resources/assets/js/app.js").None?
  {
    MissingCharNotContained("/src/Resources/assets/js/app.js", "node_modules", 0);
  }

  /** A package whose path names both `vue` and `axios` goes to `vue`: the
      first test wins. */
  lemma VueWinsOverAxios()
    ensures ManualChunks("node_modules/vue-axios/index.js") == Some("vue")
  {
    assert "node_modules/vue-axios/index.js" == "" + "node_modules" + "/vue-axios/index.js";
    ContainsInMiddle("", "node_modules", "/vue-axios/index.js");
    assert "node_modules/vue-axios/index.js" == "node_modules/" + "vue" + "-axios/index.js";
    ContainsInMiddle("node_modules/", "vue", "-axios/index.js");
  }

  /** A package whose path has no `v` and no `x` goes to `vendor`. */
  lemma VendorChunk(path: string)
    requires 'v' !in path && 'x' !in path
    ensures ManualChunks("node_modules/" + path) == Some("vendor")
  {
    var id := "node_modules/" + path;
    assert id == "" + "node_modules" + ("/" + path);
    ContainsInMiddle("", "node_modules", "/" + path);
    assert 'v' !in id && 'x' !in id;
    MissingCharNotContained(id, "vue", 0);
    MissingCharNotContained(id, "vee-validate", 0);
    MissingCharNotContained(id, "axios", 1);
  }

  /** Files of the `axios` package go to `axios` when nothing in their path
      names `vue` or `vee-validate`. */
  lemma AxiosChunk(path: string)
    requires 'v' !in path
    ensures ManualChunks("node_modules/axios/" + path) == Some("axios")
  {
    var id := "node_modules/axios/" + path;
    assert id == "" + "node_modules" + ("/axios/" + path);
    ContainsInMiddle("", "node_modules", "/axios/" + path);
    assert id == "node_modules/" + "axios" + ("/" + path);
    ContainsInMiddle("node_modules/", "axios", "/" + path);
    assert 'v' !in id;
    MissingCharNotContained(id, "vue", 0);
    MissingCharNotContained(id, "vee-validate", 0);
  }

  const ImagesTemplate := "images/[name]-[hash][extname]"
  const FontsTemplate := "fonts/[name]-[hash][extname]"
  const CssTemplate := "css/[name]-[hash][extname]"

  /** The last piece of `name.split('.')`. */
  function Extension(name: string): string {
    var info := Split(name, '.');
    info[|info| - 1]
  }

  /** `/png|jpe?g|gif|svg/.test(ext)`: unanchored, so a substring test. */
  predicate ImageExtension(ext: string) {
    Contains(ext, "png") || Contains(ext, "jpg") || Contains(ext, "jpeg")
    || Contains(ext, "gif") || Contains(ext, "svg")
  }

  /** `/woff|woff2|eot|ttf|otf/.test(ext)`. */
  predicate FontExtension(ext: string) {
    Contains(ext, "woff") || Contains(ext, "woff2") || Contains(ext, "eot")
    || Contains(ext, "ttf") || Contains(ext, "otf")
  }

  /** `assetFileNames`: images first, then fonts, then everything else as a
      stylesheet. Exactly one of the three templates is chosen. */
  function AssetFileNames(name: string): (template: string)
    ensures template == ImagesTemplate || template == FontsTemplate || template == CssTemplate
    ensures template == ImagesTemplate <==> ImageExtension(Extension(name))
    ensures template == FontsTemplate <==>
      !ImageExtension(Extension(name)) && FontExtension(Extension(name))
    ensures template == CssTemplate <==>
      !ImageExtension(Extension(name)) && !FontExtension(Extension(name))
  {
    var ext := Extension(name);
    if ImageExtension(ext) then ImagesTemplate
    else if FontExtension(ext) then FontsTemplate
    else CssTemplate
  }

  /** The extension is the text after the last `.`, or the whole name when
      it has none. */
  lemma ExtensionIsAfterLastDot(name: string)
    ensures Extension(name) == AfterLast(name, '.')
    ensures '.' !in name ==> Extension(name) == name
  {
    if '.' in name {
      DottedExtension(name);
    } else {
      DotlessExtension(name);
    }
  }

  lemma DotlessExtension(name: string)
    requires '.' !in name
    ensures Extension(name) == name && AfterLast(name, '.') == name
  {
    SplitFree(name, '.');
    var r := AfterLast(name, '.');
    assert |r| == |name|;
  }

  lemma DottedExtension(name: string)
    requires '.' in name
    ensures Extension(name) == AfterLast(name, '.')
  {
    var ext := Extension(name);
    SplitLast(name, '.');
    var front := name[..|name| - |ext| - 1];
    assert name == front + ['.'] + ext;
    AfterLastTail(front, '.', ext);
  }

  /** The extension of `base.ext`, for an extension without a dot. */
  lemma ExtensionOf(base: string, ext: string)
    requires '.' !in ext
    ensures Extension(base + "." + ext) == ext
  {
    assert base + "." + ext == base + ['.'] + ext;
    SplitAppend(base, ext, '.');
    SplitFree(ext, '.');
  }

  /** `webp` is no image extension here: WebP files land under `css/`. */
  lemma WebpIsStylesheet(base: string)
    ensures AssetFileNames(base + ".webp") == CssTemplate
  {
    var ext := "webp";
    ExtensionOf(base, ext);
    assert base + ".webp" == base + "." + ext;
    assert 'g' !in ext && 'f' !in ext && '2' !in ext && 't' !in ext;
    MissingCharNotContained(ext, "png", 2);
    MissingCharNotContained(ext, "jpg", 2);
    MissingCharNotContained(ext, "jpeg", 3);
    MissingCharNotContained(ext, "gif", 2);
    MissingCharNotContained(ext, "svg", 2);
    MissingCharNotContained(ext, "woff", 3);
    MissingCharNotContained(ext, "woff2", 4);
    MissingCharNotContained(ext, "eot", 2);
    MissingCharNotContained(ext, "ttf", 2);
    MissingCharNotContained(ext, "otf", 2);
  }

  lemma SvgIsImage(base: string)
    ensures AssetFileNames(base + ".svg") == ImagesTemplate
  {
    ExtensionOf(base, "svg");
    assert base + ".svg" == base + "." + "svg";
    ContainsInMiddle("", "svg", "");
    assert "" + "svg" + "" == "svg";
  }

  /** `woff2` reaches the font test: no image pattern occurs in it. */
  lemma Woff2IsFont(base: string)
    ensures AssetFileNames(base + ".woff2") == FontsTemplate
  {
    var ext := "woff2";
    ExtensionOf(base, ext);
    assert base + ".woff2" == base + "." + ext;
    ContainsInMiddle("", "woff", "2");
    assert 'p' !in ext && 'j' !in ext && 'g' !in ext;
    MissingCharNotContained(ext, "png", 0);
    MissingCharNotContained(ext, "jpg", 0);
    MissingCharNotContained(ext, "jpeg", 0);
    MissingCharNotContained(ext, "gif", 0);
    MissingCharNotContained(ext, "svg", 2);
  }

  /** A name without a dot is its own extension and is classified whole:
      `svg-sprite` is an image. */
  lemma DotlessName(rest: string)
    requires '.' !in rest
    ensures AssetFileNames("svg" + rest) == ImagesTemplate
  {
    assert '.' !in "svg" + rest;
    ExtensionIsAfterLastDot("svg" + rest);
    ContainsInMiddle("", "svg", rest);
    assert "" + "svg" + rest == "svg" + rest;
  }

  /** `renderBuiltUrl`: inside built stylesheets an asset is referenced by
      its base name alone, the longest slash-free tail of the file name once
      trailing slashes are dropped; for every other host the bundler
      decides. */
  function RenderBuiltUrl(filename: string, hostType: string): (url: Option<string>)
    ensures url.Some? <==> hostType == "css"
    ensures url.Some? ==> '/' !in url.value && EndsWith(RTrim(filename, '/'), url.value)
    ensures url.Some? ==> var t := RTrim(filename, '/');
      |url.value| == |t| || t[|t| - |url.value| - 1] == '/'
  {
    BasenameIsLastSegment(filename);
    if hostType == "css" then Some(Basename(filename)) else None
  }

  /** A stylesheet reference to `dir/file` is `file`. */
  lemma CssReferenceIsFileName(dir: string, file: string)
    requires |file| > 0 && '/' !in file
    ensures RenderBuiltUrl(dir + "/" + file, "css") == Some(file)
    ensures RenderBuiltUrl(dir + "/" + file, "js").None?
  {
    BasenameOfPath(dir, file);
  }
}
