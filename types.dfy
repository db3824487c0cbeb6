/** The registry of document types: the table `acceptedTypes`, in the
    order its properties are written (none of its keys is integer-like, so
    `for…in` and `Object.keys` visit them in that order), and the lookups
    over it. Commented-out entries of the table are not part of it. */
module Types {

  import opened Wrappers
  import opened JsText
  import opened Models
  import opened Patterns

  /** `acceptedType`: highlighter id, file-name pattern and MIME type. */
  datatype AcceptedType = AcceptedType(shiki: string, fileExtensionRegex: ExtensionRegex, mime: string)

  /** One property of `acceptedTypes`: its display key and its value. */
  datatype Entry = Entry(key: string, info: AcceptedType)

  /** The `i`th property of `acceptedTypes`, in source order; the table is
      written out in groups of eight. */
  function EntryAt(i: nat): Entry
    requires i < 126
  {
    if i < 64 then
      if i < 32 then
        if i < 16 then
          if i < 8 then
            EntriesFrom0(i)
          else
            EntriesFrom8(i)
        else
          if i < 24 then
            EntriesFrom16(i)
          else
            EntriesFrom24(i)
      else
        if i < 48 then
          if i < 40 then
            EntriesFrom32(i)
          else
            EntriesFrom40(i)
        else
          if i < 56 then
            EntriesFrom48(i)
          else
            EntriesFrom56(i)
    else
      if i < 96 then
        if i < 80 then
          if i < 72 then
            EntriesFrom64(i)
          else
            EntriesFrom72(i)
        else
          if i < 88 then
            EntriesFrom80(i)
          else
            EntriesFrom88(i)
      else
        if i < 112 then
          if i < 104 then
            EntriesFrom96(i)
          else
            EntriesFrom104(i)
        else
          if i < 120 then
            EntriesFrom112(i)
          else
            EntriesFrom120(i)
  }

  function EntriesFrom0(i: nat): Entry
    requires 0 <= i < 8
  {
    match i
    case 0 => Entry("ABAP", AcceptedType("abap", ExtensionRegex([Exact("abap")]), "text/x-abap"))
    case 1 => Entry("ActionScript", AcceptedType("actionscript-3", ExtensionRegex([Exact("as")]), "text/x-actionscript"))
    case 2 => Entry("Ada", AcceptedType("ada", ExtensionRegex([Exact("ada"), Exact("adb"), Exact("ads")]), "text/x-ada"))
    case 3 => Entry("APL", AcceptedType("apl", ExtensionRegex([Exact("apl")]), "text/apl"))
    case 4 => Entry("AppleScript", AcceptedType("applescript", ExtensionRegex([Exact("applescript")]), "text/x-applescript"))
    case 5 => Entry("AsciiDoc", AcceptedType("asciidoc", ExtensionRegex([Exact("adoc"), Exact("asciidoc")]), "text/x-asciidoc"))
    case 6 => Entry("Assembly", AcceptedType("asm", ExtensionRegex([Exact("asm"), Exact("s"), Exact("S")]), "text/x-asm"))
    case 7 => Entry("Batch File", AcceptedType("bat", ExtensionRegex([Exact("bat"), Exact("cmd")]), "application/x-msdownload"))
  }

  function EntriesFrom8(i: nat): Entry
    requires 8 <= i < 16
  {
    match i
    case 8 => Entry("Berry", AcceptedType("berry", ExtensionRegex([Exact("be")]), "text/x-berry"))
    case 9 => Entry("BibTex", AcceptedType("bibtex", ExtensionRegex([Exact("bib")]), "application/x-bibtex"))
    case 10 => Entry("C", AcceptedType("c", ExtensionRegex([Exact("c"), Exact("h")]), "text/x-c"))
    case 11 => Entry("Clojure", AcceptedType("clojure", ExtensionRegex([Exact("clj"), Exact("cljs"), Exact("cljc")]), "text/x-clojure"))
    case 12 => Entry("CMake", AcceptedType("cmake", ExtensionRegex([Exact("cmake")]), "text/x-cmake"))
    case 13 => Entry("COBOL", AcceptedType("cobol", ExtensionRegex([Exact("cob"), Exact("cbl")]), "text/x-cobol"))
    case 14 => Entry("CoffeeScript", AcceptedType("coffee", ExtensionRegex([Exact("coffee")]), "application/vnd.coffeescript"))
    case 15 => Entry("Common Lisp", AcceptedType("common-lisp", ExtensionRegex([Exact("lisp"), Exact("lsp")]), "text/x-common-lisp"))
  }

  function EntriesFrom16(i: nat): Entry
    requires 16 <= i < 24
  {
    match i
    case 16 => Entry("Coq", AcceptedType("coq", ExtensionRegex([Exact("v")]), "text/x-coq"))
    case 17 => Entry("C++", AcceptedType("cpp", ExtensionRegex([Exact("cpp"), Exact("hpp")]), "text/x-c"))
    case 18 => Entry("Crystal", AcceptedType("crystal", ExtensionRegex([Exact("cr")]), "text/x-crystal"))
    case 19 => Entry("C#", AcceptedType("csharp", ExtensionRegex([Exact("cs")]), "text/x-csharp"))
    case 20 => Entry("CSS", AcceptedType("css", ExtensionRegex([Exact("css")]), "text/css"))
    case 21 => Entry("CSV", AcceptedType("csv", ExtensionRegex([Exact("csv")]), "text/csv"))
    case 22 => Entry("CUE", AcceptedType("cue", ExtensionRegex([Exact("cue")]), "application/x-cue"))
    case 23 => Entry("D", AcceptedType("d", ExtensionRegex([Exact("d"), Exact("di")]), "text/x-d"))
  }

  function EntriesFrom24(i: nat): Entry
    requires 24 <= i < 32
  {
    match i
    case 24 => Entry("Dart", AcceptedType("dart", ExtensionRegex([Exact("dart")]), "application/dart"))
    case 25 => Entry("Diff", AcceptedType("diff", ExtensionRegex([Exact("diff"), Exact("patch")]), "text/x-diff"))
    case 26 => Entry("Elixir", AcceptedType("elixir", ExtensionRegex([Exact("ex"), Exact("exs")]), "text/x-elixir"))
    case 27 => Entry("Elm", AcceptedType("elm", ExtensionRegex([Exact("elm")]), "text/x-elm"))
    case 28 => Entry("Emacs Lisp", AcceptedType("emacs-lisp", ExtensionRegex([Exact("el"), Exact("elc")]), "application/x-elc"))
    case 29 => Entry("Erlang", AcceptedType("erlang", ExtensionRegex([Exact("hrl"), Exact("erl")]), "text/x-erlang"))
    case 30 => Entry("Fish", AcceptedType("fish", ExtensionRegex([Exact("fish")]), "application/x-fish"))
    case 31 => Entry("F#", AcceptedType("fsharp", ExtensionRegex([Exact("fs"), Exact("fsi"), Exact("fsx")]), "text/x-fsharp"))
  }

  function EntriesFrom32(i: nat): Entry
    requires 32 <= i < 40
  {
    match i
    case 32 => Entry("GDScript", AcceptedType("gdscript", ExtensionRegex([Exact("gd")]), "text/x-gdscript"))
    case 33 => Entry("Gherkin", AcceptedType("gherkin", ExtensionRegex([Exact("feature")]), "text/x-gherkin"))
    case 34 => Entry("Go", AcceptedType("go", ExtensionRegex([Exact("go")]), "text/x-go"))
    case 35 => Entry("Groovy", AcceptedType("groovy", ExtensionRegex([Exact("groovy")]), "text/x-groovy"))
    case 36 => Entry("Hack", AcceptedType("hack", ExtensionRegex([Exact("hack")]), "application/x-httpd-php"))
    case 37 => Entry("Haskell", AcceptedType("haskell", ExtensionRegex([Exact("hs"), Exact("lhs")]), "text/x-haskell"))
    case 38 => Entry("Haxe", AcceptedType("haxe", ExtensionRegex([Exact("hx")]), "text/x-haxe"))
    case 39 => Entry("HLSL", AcceptedType("hlsl", ExtensionRegex([Exact("hlsl")]), "text/x-hlsl"))
  }

  function EntriesFrom40(i: nat): Entry
    requires 40 <= i < 48
  {
    match i
    case 40 => Entry("HTML", AcceptedType("html", ExtensionRegex([Exact("htm"), Exact("html")]), "text/html"))
    case 41 => Entry("HTTP", AcceptedType("http", ExtensionRegex([Exact("http")]), "application/http"))
    case 42 => Entry("Hy", AcceptedType("hy", ExtensionRegex([Exact("hy")]), "text/x-hy"))
    case 43 => Entry("INI", AcceptedType("ini", ExtensionRegex([Exact("ini")]), "text/x-ini"))
    case 44 => Entry("Java", AcceptedType("java", ExtensionRegex([Exact("java")]), "text/x-java-source"))
    case 45 => Entry("JavaScript", AcceptedType("javascript", ExtensionRegex([Exact("js")]), "text/javascript"))
    case 46 => Entry("Jinja", AcceptedType("jinja", ExtensionRegex([Exact("jinja"), Exact("jinja2")]), "text/x-django"))
    case 47 => Entry("JSON", AcceptedType("json", ExtensionRegex([Exact("json")]), "application/json"))
  }

  function EntriesFrom48(i: nat): Entry
    requires 48 <= i < 56
  {
    match i
    case 48 => Entry("JSON5", AcceptedType("json5", ExtensionRegex([Exact("json"), Exact("json5")]), "application/json5"))
    case 49 => Entry("JSON with Comments", AcceptedType("jsonc", ExtensionRegex([Exact("json"), Exact("jsonc")]), "text/javascript"))
    case 50 => Entry("JSON Lines", AcceptedType("jsonl", ExtensionRegex([Exact("jsonl")]), "application/jsonl"))
    case 51 => Entry("JSX", AcceptedType("jsx", ExtensionRegex([Exact("jsx")]), "text/jsx"))
    case 52 => Entry("Julia", AcceptedType("julia", ExtensionRegex([Exact("jl")]), "text/x-julia"))
    case 53 => Entry("Kotlin", AcceptedType("kotlin", ExtensionRegex([Exact("kt"), Exact("kts")]), "text/x-kotlin"))
    case 54 => Entry("LaTeX", AcceptedType("latex", ExtensionRegex([Exact("tex"), Exact("sty"), Exact("cls")]), "application/x-latex"))
    case 55 => Entry("Lean 4", AcceptedType("lean", ExtensionRegex([Exact("lean")]), "text/x-lean4"))
  }

  function EntriesFrom56(i: nat): Entry
    requires 56 <= i < 64
  {
    match i
    case 56 => Entry("Less", AcceptedType("less", ExtensionRegex([Exact("less")]), "text/x-less"))
    case 57 => Entry("Log", AcceptedType("log", ExtensionRegex([Exact("log")]), "text/x-log"))
    case 58 => Entry("Lua", AcceptedType("lua", ExtensionRegex([Exact("lua")]), "text/x-lua"))
    case 59 => Entry("Luau", AcceptedType("luau", ExtensionRegex([Exact("luau")]), "text/x-lua"))
    case 60 => Entry("Markdown", AcceptedType("markdown", ExtensionRegex([Exact("md"), Exact("markdown"), Exact("mdown"), Exact("mkdn"), Exact("mkd"), Exact("mdtxt"), Exact("mdtext")]), "text/markdown"))
    case 61 => Entry("MATLAB", AcceptedType("matlab", ExtensionRegex([Exact("m"), Exact("mat"), Exact("mlx")]), "text/x-matlab"))
    case 62 => Entry("MDX", AcceptedType("mdx", ExtensionRegex([Exact("mdx")]), "text/x-gfm"))
    case 63 => Entry("Mojo", AcceptedType("mojo", ExtensionRegex([Exact("mojo")]), "text/x-mojo"))
  }

  function EntriesFrom64(i: nat): Entry
    requires 64 <= i < 72
  {
    match i
    case 64 => Entry("Nginx", AcceptedType("nginx", ExtensionRegex([Wildcard("nginx", "conf")]), "text/x-nginx-conf"))
    case 65 => Entry("Nim", AcceptedType("nim", ExtensionRegex([Exact("nim")]), "text/x-nim"))
    case 66 => Entry("Nushell", AcceptedType("nushell", ExtensionRegex([Exact("nu")]), "text/x-sh"))
    case 67 => Entry("Objective C", AcceptedType("objective-c", ExtensionRegex([Exact("m"), Exact("h")]), "text/x-objective-c"))
    case 68 => Entry("Objective C++", AcceptedType("objective-cpp", ExtensionRegex([Exact("mm"), Exact("h")]), "text/x-objective-c++"))
    case 69 => Entry("OCaml", AcceptedType("ocaml", ExtensionRegex([Exact("ml"), Exact("mli")]), "text/x-ocaml"))
    case 70 => Entry("Pascal", AcceptedType("pascal", ExtensionRegex([Exact("pas"), Exact("pp"), Exact("p"), Exact("inc"), Exact("dpr")]), "text/x-pascal"))
    case 71 => Entry("Perl", AcceptedType("perl", ExtensionRegex([Exact("pl"), Exact("pm")]), "text/x-perl"))
  }

  function EntriesFrom72(i: nat): Entry
    requires 72 <= i < 80
  {
    match i
    case 72 => Entry("PHP", AcceptedType("php", ExtensionRegex([Exact("php"), Exact("php3"), Exact("php4"), Exact("php5")]), "text/x-php"))
    case 73 => Entry("Gettext PO", AcceptedType("po", ExtensionRegex([Exact("po"), Exact("pot")]), "text/x-gettext"))
    case 74 => Entry("PostCSS", AcceptedType("postcss", ExtensionRegex([Exact("pcss"), Exact("postcss")]), "text/css"))
    case 75 => Entry("PowerShell", AcceptedType("powershell", ExtensionRegex([Exact("ps1"), Exact("psm1"), Exact("psd1")]), "application/x-powershell"))
    case 76 => Entry("Prolog", AcceptedType("prolog", ExtensionRegex([Exact("pl"), Exact("pro"), Exact("P")]), "text/x-prolog"))
    case 77 => Entry("Protocol Buffer 3", AcceptedType("proto", ExtensionRegex([Exact("proto")]), "text/x-protobuf"))
    case 78 => Entry("Pug", AcceptedType("pug", ExtensionRegex([Exact("pug"), Exact("jade")]), "text/x-pug"))
    case 79 => Entry("Puppet", AcceptedType("puppet", ExtensionRegex([Exact("pp")]), "text/x-puppet"))
  }

  function EntriesFrom80(i: nat): Entry
    requires 80 <= i < 88
  {
    match i
    case 80 => Entry("PureScript", AcceptedType("purescript", ExtensionRegex([Exact("purs")]), "text/x-haskell"))
    case 81 => Entry("Python", AcceptedType("python", ExtensionRegex([Exact("py"), Exact("pyi")]), "text/x-python"))
    case 82 => Entry("QML", AcceptedType("qml", ExtensionRegex([Exact("qml")]), "application/x-qml"))
    case 83 => Entry("R", AcceptedType("r", ExtensionRegex([Exact("r"), Exact("rds"), Exact("RData")]), "text/x-rsrc"))
    case 84 => Entry("Racket", AcceptedType("racket", ExtensionRegex([Exact("rkt")]), "text/x-racket"))
    case 85 => Entry("Raku", AcceptedType("raku", ExtensionRegex([Exact("raku"), Exact("rak"), Exact("p6"), Exact("pm")]), "text/x-perl"))
    case 86 => Entry("RegExp", AcceptedType("regexp", ExtensionRegex([Exact("regex"), Exact("regexp")]), "text/x-regex"))
    case 87 => Entry("ReStructuredText", AcceptedType("rst", ExtensionRegex([Exact("rst"), Exact("rest")]), "text/x-rst"))
  }

  function EntriesFrom88(i: nat): Entry
    requires 88 <= i < 96
  {
    match i
    case 88 => Entry("Ruby", AcceptedType("ruby", ExtensionRegex([Exact("rb")]), "text/x-ruby"))
    case 89 => Entry("Rust", AcceptedType("rust", ExtensionRegex([Exact("rs")]), "text/x-rust"))
    case 90 => Entry("SAS", AcceptedType("sas", ExtensionRegex([Exact("sas")]), "application/x-sas"))
    case 91 => Entry("Sass", AcceptedType("sass", ExtensionRegex([Exact("sass")]), "text/x-sass"))
    case 92 => Entry("Scala", AcceptedType("scala", ExtensionRegex([Exact("scala")]), "text/x-scala"))
    case 93 => Entry("Scheme", AcceptedType("scheme", ExtensionRegex([Exact("scm")]), "text/x-scheme"))
    case 94 => Entry("SCSS", AcceptedType("scss", ExtensionRegex([Exact("scss")]), "text/x-scss"))
    case 95 => Entry("Shell", AcceptedType("shellscript", ExtensionRegex([Exact("sh"), Exact("bash")]), "application/x-sh"))
  }

  function EntriesFrom96(i: nat): Entry
    requires 96 <= i < 104
  {
    match i
    case 96 => Entry("Smalltalk", AcceptedType("smalltalk", ExtensionRegex([Exact("st")]), "text/x-stsrc"))
    case 97 => Entry("Closure Templates", AcceptedType("soy", ExtensionRegex([Exact("soy")]), "text/x-soy"))
    case 98 => Entry("SPARQL", AcceptedType("sparql", ExtensionRegex([Exact("sparql"), Exact("rq")]), "application/sparql-query"))
    case 99 => Entry("SQL", AcceptedType("sql", ExtensionRegex([Exact("sql")]), "text/x-sql"))
    case 100 => Entry("Svelte", AcceptedType("svelte", ExtensionRegex([Exact("svelte")]), "text/x-svelte"))
    case 101 => Entry("Swift", AcceptedType("swift", ExtensionRegex([Exact("swift"), Exact("playground")]), "text/x-swift"))
    case 102 => Entry("SystemVerilog", AcceptedType("system-verilog", ExtensionRegex([Exact("sv")]), "text/x-verilog"))
    case 103 => Entry("Terraform", AcceptedType("terraform", ExtensionRegex([Exact("tf"), Exact("tfvars")]), "application/x-terraform"))
  }

  function EntriesFrom104(i: nat): Entry
    requires 104 <= i < 112
  {
    match i
    case 104 => Entry("TeX", AcceptedType("tex", ExtensionRegex([Exact("tex")]), "application/x-tex"))
    case 105 => Entry("TOML", AcceptedType("toml", ExtensionRegex([Exact("toml")]), "text/x-toml"))
    case 106 => Entry("TSV", AcceptedType("tsv", ExtensionRegex([Exact("tsv")]), "text/tab-separated-values"))
    case 107 => Entry("TSX", AcceptedType("tsx", ExtensionRegex([Exact("tsx")]), "text/typescript-tsx"))
    case 108 => Entry("Turtle", AcceptedType("turtle", ExtensionRegex([Exact("ttl")]), "text/turtle"))
    case 109 => Entry("Twig", AcceptedType("twig", ExtensionRegex([Exact("twig")]), "text/x-twig"))
    case 110 => Entry("TypeScript", AcceptedType("typescript", ExtensionRegex([Exact("ts")]), "text/x-typescript"))
    case 111 => Entry("TypeSpec", AcceptedType("typespec", ExtensionRegex([Exact("tsp")]), "text/x-tsp"))
  }

  function EntriesFrom112(i: nat): Entry
    requires 112 <= i < 120
  {
    match i
    case 112 => Entry("Typst", AcceptedType("typst", ExtensionRegex([Exact("typ")]), "text/x-typst"))
    case 113 => Entry("Vala", AcceptedType("vala", ExtensionRegex([Exact("vala")]), "text/x-vala"))
    case 114 => Entry("Visual Basic", AcceptedType("vb", ExtensionRegex([Exact("vb"), Exact("vbs")]), "text/x-vbasic"))
    case 115 => Entry("Verilog", AcceptedType("verilog", ExtensionRegex([Exact("v")]), "text/x-verilog"))
    case 116 => Entry("VHDL", AcceptedType("vhdl", ExtensionRegex([Exact("vhdl"), Exact("vhd")]), "text/x-vhdl"))
    case 117 => Entry("Vim Script", AcceptedType("viml", ExtensionRegex([Exact("vim")]), "text/x-vim"))
    case 118 => Entry("WebAssembly", AcceptedType("wasm", ExtensionRegex([Exact("wasm"), Exact("mat")]), "application/wasm"))
    case 119 => Entry("WGSL", AcceptedType("wgsl", ExtensionRegex([Exact("wgsl")]), "text/wgsl"))
  }

  function EntriesFrom120(i: nat): Entry
    requires 120 <= i < 126
  {
    match i
    case 120 => Entry("WebAssembly Interface Types", AcceptedType("wit", ExtensionRegex([Exact("wit")]), "text/x-webidl"))
    case 121 => Entry("XML", AcceptedType("xml", ExtensionRegex([Exact("xml"), Exact("xsl"), Exact("xslt"), Exact("xsd"), Exact("svg"), Exact("rss")]), "application/xml"))
    case 122 => Entry("XSL", AcceptedType("xsl", ExtensionRegex([Exact("xsl")]), "application/xml"))
    case 123 => Entry("YAML", AcceptedType("yaml", ExtensionRegex([Exact("yaml"), Exact("yml")]), "application/yaml"))
    case 124 => Entry("Zig", AcceptedType("zig", ExtensionRegex([Exact("zig")]), "text/zig"))
    case 125 => Entry("Text", AcceptedType("txt", ExtensionRegex([Exact("txt"), Exact("text")]), "text/plain"))
  }
  /** `acceptedTypes`, as the ordered sequence of its properties. */
  function AcceptedTypes(): seq<Entry> {
    seq(126, i requires 0 <= i < 126 => EntryAt(i))
  }

  /** What a `for…in` loop over the table looks for in an entry. */
  datatype Criterion =
    | HasKey(key: string)
    | HasMime(mime: string)
    | MatchesName(name: string)
    | HasMimeAndMatchesName(mime: string, name: string)

  predicate Meets(e: Entry, c: Criterion) {
    match c
    case HasKey(key) => e.key == key
    case HasMime(mime) => e.info.mime == mime
    case MatchesName(name) => Test(e.info.fileExtensionRegex, name)
    case HasMimeAndMatchesName(mime, name) => e.info.mime == mime && Test(e.info.fileExtensionRegex, name)
  }

  /** `k` is the first index of `t` whose entry meets `c`. */
  ghost predicate IsFirst(t: seq<Entry>, k: int, c: Criterion) {
    0 <= k < |t| && Meets(t[k], c) && forall j :: 0 <= j < k ==> !Meets(t[j], c)
  }

  /** The first index at or after `from` whose entry meets `c`: the shape of
      every `for…in` loop over the table, which returns on its first hit. */
  function FirstIndex(t: seq<Entry>, c: Criterion, from: nat): (r: Option<nat>)
    requires from <= |t|
    decreases |t| - from
    ensures r.Some? ==> from <= r.value < |t| && Meets(t[r.value], c) && forall j :: from <= j < r.value ==> !Meets(t[j], c)
    ensures r.None? ==> forall j :: from <= j < |t| ==> !Meets(t[j], c)
  {
    if from == |t| then None
    else if Meets(t[from], c) then Some(from)
    else FirstIndex(t, c, from + 1)
  }

  /** The first index of `t` whose entry meets `c`, if any. */
  function Find(t: seq<Entry>, c: Criterion): (r: Option<nat>)
    ensures r.None? <==> forall k :: 0 <= k < |t| ==> !Meets(t[k], c)
    ensures forall k :: IsFirst(t, k, c) <==> r == Some(k)
  {
    FirstIndex(t, c, 0)
  }

  /** `getType(name)`: the type held under the key `name`, compared
      case-sensitively, and `null` when no key is `name`. */
  function GetType(name: string): (r: Option<AcceptedType>)
    ensures r.None? <==> forall k :: 0 <= k < |AcceptedTypes()| ==> AcceptedTypes()[k].key != name
    ensures forall k :: IsFirst(AcceptedTypes(), k, HasKey(name)) ==> r == Some(AcceptedTypes()[k].info)
  {
    match Find(AcceptedTypes(), HasKey(name))
    case Some(k) => Some(AcceptedTypes()[k].info)
    case None => None
  }

  /** `Object.keys(acceptedTypes)`. */
  function Keys(): (keys: seq<string>)
    ensures |keys| == |AcceptedTypes()|
    ensures forall i :: 0 <= i < |keys| ==> keys[i] == AcceptedTypes()[i].key
  {
    seq(|AcceptedTypes()|, i requires 0 <= i < |AcceptedTypes()| => AcceptedTypes()[i].key)
  }

  /** `getAllTypes(ordered)`: the keys in table order, or sorted in the
      default order of `Array.prototype.sort`. */
  function GetAllTypes(ordered: bool := true): (r: seq<string>)
    ensures !ordered ==> |r| == |AcceptedTypes()| && forall i :: 0 <= i < |r| ==> r[i] == AcceptedTypes()[i].key
    ensures ordered ==> Sorted(r) && multiset(r) == multiset(Keys())
  {
    if ordered then Sort(Keys()) else Keys()
  }

  /** `extractTypeFromName(name)`: the type of the first entry whose pattern
      matches `name`, and `null` exactly when none does. */
  function ExtractTypeFromName(name: string): (r: Option<AcceptedType>)
    ensures r.None? <==> forall k :: 0 <= k < |AcceptedTypes()| ==> !Meets(AcceptedTypes()[k], MatchesName(name))
    ensures forall k :: IsFirst(AcceptedTypes(), k, MatchesName(name)) ==> r == Some(AcceptedTypes()[k].info)
  {
    match Find(AcceptedTypes(), MatchesName(name))
    case Some(k) => Some(AcceptedTypes()[k].info)
    case None => None
  }

  /** `extractNameFromName(name)`: the key of the first entry whose pattern
      matches `name`, and `null` exactly when none does. */
  function ExtractNameFromName(name: string): (r: Option<string>)
    ensures r.None? <==> forall k :: 0 <= k < |AcceptedTypes()| ==> !Meets(AcceptedTypes()[k], MatchesName(name))
    ensures forall k :: IsFirst(AcceptedTypes(), k, MatchesName(name)) ==> r == Some(AcceptedTypes()[k].key)
  {
    match Find(AcceptedTypes(), MatchesName(name))
    case Some(k) => Some(AcceptedTypes()[k].key)
    case None => None
  }

  /** The union `NewDocument | Document`; the lookups read only its `type`
      and `name`. */
  datatype DocumentLike = OfNewDocument(newDocument: NewDocument) | OfDocument(document: Document) {
    function Type(): string {
      match this
      case OfNewDocument(d) => d.type_
      case OfDocument(d) => d.type_
    }

    function Name(): string {
      match this
      case OfNewDocument(d) => d.name
      case OfDocument(d) => d.name
    }
  }

  /** `extractTypeFromDocument(document)`: the first entry whose MIME type is
      the document's type, whatever its name; when no MIME type is, the
      lookup by name. */
  function ExtractTypeFromDocument(document: DocumentLike): (r: Option<AcceptedType>)
    ensures forall k :: IsFirst(AcceptedTypes(), k, HasMime(document.Type())) ==> r == Some(AcceptedTypes()[k].info)
    ensures (forall k :: 0 <= k < |AcceptedTypes()| ==> AcceptedTypes()[k].info.mime != document.Type()) ==>
      r == ExtractTypeFromName(document.Name())
  {
    match Find(AcceptedTypes(), HasMime(document.Type()))
    case Some(k) => Some(AcceptedTypes()[k].info)
    case None => ExtractTypeFromName(document.Name())
  }

  /** `extractNameFromDocument(document)`: the key of the first entry whose
      MIME type is the document's type and whose pattern matches its name;
      when there is none, the lookup by name. */
  function ExtractNameFromDocument(document: DocumentLike): (r: Option<string>)
    ensures forall k :: IsFirst(AcceptedTypes(), k, HasMimeAndMatchesName(document.Type(), document.Name())) ==> r == Some(AcceptedTypes()[k].key)
    ensures (forall k :: 0 <= k < |AcceptedTypes()| ==> !Meets(AcceptedTypes()[k], HasMimeAndMatchesName(document.Type(), document.Name()))) ==>
      r == ExtractNameFromName(document.Name())
  {
    match Find(AcceptedTypes(), HasMimeAndMatchesName(document.Type(), document.Name()))
    case Some(k) => Some(AcceptedTypes()[k].key)
    case None => ExtractNameFromName(document.Name())
  }

  /** `DEFAULT_MIME`. */
  const DefaultMime: string := "text/plain"

  /** `DEFAULT_SHIKI`, the highlighter language used when none is known. */
  const DefaultShiki: string := "text"

  /** `DEFAULT_TYPE`. */
  const DefaultType: string := "Text"

  /** The properties every object inherits from `Object.prototype`. */
  const ObjectPrototypeMembers: set<string> := {
    "constructor", "hasOwnProperty", "isPrototypeOf", "propertyIsEnumerable",
    "toLocaleString", "toString", "valueOf", "__proto__",
    "__defineGetter__", "__defineSetter__", "__lookupGetter__", "__lookupSetter__"
  }

  /** What `acceptedTypes[name]` reads: an entry of the table, or a member
      inherited from `Object.prototype`. */
  datatype PropertyValue = TypeEntry(info: AcceptedType) | InheritedMember(member: string)

  /** `getType(name)` as written: `acceptedTypes[name]` also finds the
      inherited members, which are not `undefined`, so they are returned. */
  function GetTypeAsWritten(name: string): (r: Option<PropertyValue>)
    ensures forall k :: IsFirst(AcceptedTypes(), k, HasKey(name)) ==> r == Some(TypeEntry(AcceptedTypes()[k].info))
    ensures (forall k :: 0 <= k < |AcceptedTypes()| ==> AcceptedTypes()[k].key != name) ==>
      (r.None? <==> name !in ObjectPrototypeMembers)
    ensures r.Some? && r.value.InheritedMember? ==> r.value.member == name && name in ObjectPrototypeMembers
  {
    match Find(AcceptedTypes(), HasKey(name))
    case Some(k) => Some(TypeEntry(AcceptedTypes()[k].info))
    case None => if name in ObjectPrototypeMembers then Some(InheritedMember(name)) else None
  }
}
