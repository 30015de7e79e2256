/** The file-extension table that picks a language handler, and the
    language names shown for a file. */
module LanguageRegistry {
  import opened Wrappers
  import opened Text
  import opened OrderedKeys

  /** The four registered handlers; every C/C++ extension shares one, and
      so does every JavaScript/TypeScript extension. */
  datatype Handler = PythonHandler | JavaHandler | CppHandler | JavaScriptHandler

  /** The registry, in insertion order. */
  const LanguageHandlers: seq<(string, Handler)> := [
    (".py", PythonHandler),
    (".java", JavaHandler),
    (".c", CppHandler), (".cpp", CppHandler), (".cc", CppHandler), (".cxx", CppHandler),
    (".h", CppHandler), (".hpp", CppHandler), (".hxx", CppHandler),
    (".js", JavaScriptHandler), (".jsx", JavaScriptHandler), (".ts", JavaScriptHandler),
    (".tsx", JavaScriptHandler), (".mjs", JavaScriptHandler), (".cjs", JavaScriptHandler)
  ]

  /** Handler of the first entry whose extension ends `filename`. */
  function FirstMatch(table: seq<(string, Handler)>, filename: string): (r: Option<Handler>)
    ensures r.None? <==> forall i :: 0 <= i < |table| ==> !EndsWith(filename, table[i].0)
    ensures r.Some? ==> exists i :: 0 <= i < |table| && EndsWith(filename, table[i].0) && r.value == table[i].1
                                    && forall j :: 0 <= j < i ==> !EndsWith(filename, table[j].0)
  {
    if table == [] then None
    else if EndsWith(filename, table[0].0) then Some(table[0].1)
    else
      var r := FirstMatch(table[1..], filename);
      assert forall i :: 1 <= i < |table| ==> table[i] == table[1..][i - 1];
      r
  }

  /** `get_handler_for_file`: the handler of the first registered
      extension that ends the name, or nothing. */
  function GetHandlerForFile(filename: string): (r: Option<Handler>)
    ensures r.None? <==> forall i :: 0 <= i < |Extensions| ==> !EndsWith(filename, Extensions[i])
    ensures r.Some? ==> exists i :: 0 <= i < |Extensions| && EndsWith(filename, Extensions[i])
                                    && r.value == LanguageHandlers[i].1
  {
    RegistryKeys();
    FirstMatch(LanguageHandlers, filename)
  }

  /** The registered extensions, in the registry's order. */
  const Extensions: seq<string> := [".py", ".java", ".c", ".cpp", ".cc", ".cxx", ".h", ".hpp", ".hxx",
                                     ".js", ".jsx", ".ts", ".tsx", ".mjs", ".cjs"]

  lemma RegistryKeys()
    ensures |LanguageHandlers| == |Extensions| == 15
    ensures forall i :: 0 <= i < |Extensions| ==> LanguageHandlers[i].0 == Extensions[i]
  {
  }

  /** An extension: a dot followed by a name without dots. */
  predicate IsExtension(e: string) {
    |e| >= 2 && e[0] == '.' && '.' !in e[1..]
  }

  lemma ExtensionsWellFormed()
    ensures forall i :: 0 <= i < |Extensions| ==> IsExtension(Extensions[i])
  {
  }

  lemma ExtensionsDistinct()
    ensures Distinct(Extensions)
  {
  }

  /** `get_supported_extensions`: the registry's keys in insertion order,
      fifteen distinct extensions. */
  function GetSupportedExtensions(): (exts: seq<string>)
    ensures exts == Extensions
    ensures |exts| == 15 && Distinct(exts)
    ensures forall i :: 0 <= i < |exts| ==> IsExtension(exts[i])
  {
    RegistryKeys();
    ExtensionsWellFormed();
    ExtensionsDistinct();
    seq(|LanguageHandlers|, i requires 0 <= i < |LanguageHandlers| => LanguageHandlers[i].0)
  }

  /** `is_supported_file`: some registered extension ends the name. */
  function IsSupportedFile(filename: string): (b: bool)
    ensures b <==> exists i :: 0 <= i < |Extensions| && EndsWith(filename, Extensions[i])
  {
    RegistryKeys();
    GetHandlerForFile(filename).Some?
  }

  /** Index of the last dot in `filename`, or -1. */
  function LastDot(filename: string): (k: int)
    ensures -1 <= k < |filename|
    ensures k >= 0 ==> filename[k] == '.'
    ensures forall j :: k < j < |filename| ==> filename[j] != '.'
  {
    if filename == [] then -1
    else if filename[|filename| - 1] == '.' then |filename| - 1
    else LastDot(filename[..|filename| - 1])
  }

  /** The name from its last dot on; empty when it has no dot. */
  function DotSuffix(filename: string): string {
    var k := LastDot(filename);
    if k < 0 then "" else filename[k..]
  }

  /** An extension ends a name exactly when it is the part of the name from
      its last dot on. */
  lemma EndsWithExtension(filename: string, e: string)
    requires IsExtension(e)
    ensures EndsWith(filename, e) <==> DotSuffix(filename) == e
  {
    var k := LastDot(filename);
    if EndsWith(filename, e) {
      var start := |filename| - |e|;
      assert filename[start] == e[0] == '.';
      forall j | start < j < |filename| ensures filename[j] != '.' {
        assert filename[j] == e[j - start] == e[1..][j - start - 1];
      }
      assert k == start;
    }
  }

  /** No registered extension ends another one. */
  lemma NoExtensionEndsAnother(i: nat, j: nat)
    requires i < |Extensions| && j < |Extensions| && i != j
    ensures !EndsWith(Extensions[i], Extensions[j])
  {
    ExtensionsWellFormed();
    ExtensionsDistinct();
    var e := Extensions[i];
    assert EndsWith(e, e) by { assert e[|e| - |e|..] == e; }
    EndsWithExtension(e, e);
    EndsWithExtension(e, Extensions[j]);
  }

  /** A name has at most one registered extension, so the order of the
      registry does not change the handler it gives. */
  lemma MatchIsUnique(filename: string, i: nat)
    requires i < |Extensions| && EndsWith(filename, Extensions[i])
    ensures GetHandlerForFile(filename) == Some(LanguageHandlers[i].1)
  {
    RegistryKeys();
    ExtensionsWellFormed();
    ExtensionsDistinct();
    EndsWithExtension(filename, Extensions[i]);
    forall j | 0 <= j < |LanguageHandlers| && j != i
      ensures !EndsWith(filename, LanguageHandlers[j].0)
    {
      EndsWithExtension(filename, Extensions[j]);
    }
  }

  /** Support is decided by the part of the name after its last dot. */
  lemma SupportedIffRegisteredSuffix(filename: string)
    ensures IsSupportedFile(filename) <==> DotSuffix(filename) in Extensions
  {
    ExtensionsWellFormed();
    forall i | 0 <= i < |Extensions| ensures EndsWith(filename, Extensions[i]) <==> DotSuffix(filename) == Extensions[i] {
      EndsWithExtension(filename, Extensions[i]);
    }
  }

  /** The names a handler's files are shown under. */
  function NamesOf(h: Handler): set<string> {
    match h
    case PythonHandler => {"Python"}
    case JavaHandler => {"Java"}
    case CppHandler => {"C", "C++"}
    case JavaScriptHandler => {"JavaScript", "JavaScript (React)", "TypeScript", "TypeScript (React)"}
  }

  /** Each test of the name chain compares the name's last-dot part
      with one extension. */
  lemma NameChainSuffixes(filename: string)
    ensures var x := DotSuffix(filename);
      && (EndsWith(filename, ".py") <==> x == ".py")
      && (EndsWith(filename, ".java") <==> x == ".java")
      && (EndsWith(filename, ".c") <==> x == ".c")
      && (EndsWith(filename, ".h") <==> x == ".h")
      && (EndsWith(filename, ".cpp") <==> x == ".cpp")
      && (EndsWith(filename, ".cc") <==> x == ".cc")
      && (EndsWith(filename, ".cxx") <==> x == ".cxx")
      && (EndsWith(filename, ".hpp") <==> x == ".hpp")
      && (EndsWith(filename, ".hxx") <==> x == ".hxx")
      && (EndsWith(filename, ".js") <==> x == ".js")
      && (EndsWith(filename, ".mjs") <==> x == ".mjs")
      && (EndsWith(filename, ".cjs") <==> x == ".cjs")
      && (EndsWith(filename, ".jsx") <==> x == ".jsx")
      && (EndsWith(filename, ".ts") <==> x == ".ts")
      && (EndsWith(filename, ".tsx") <==> x == ".tsx")
  {
    EndsWithExtension(filename, ".py");
    EndsWithExtension(filename, ".java");
    EndsWithExtension(filename, ".c");
    EndsWithExtension(filename, ".h");
    EndsWithExtension(filename, ".cpp");
    EndsWithExtension(filename, ".cc");
    EndsWithExtension(filename, ".cxx");
    EndsWithExtension(filename, ".hpp");
    EndsWithExtension(filename, ".hxx");
    EndsWithExtension(filename, ".js");
    EndsWithExtension(filename, ".mjs");
    EndsWithExtension(filename, ".cjs");
    EndsWithExtension(filename, ".jsx");
    EndsWithExtension(filename, ".ts");
    EndsWithExtension(filename, ".tsx");
  }

  /** The name chain read on the part of the name from its last dot on. */
  function SuffixName(x: string): string {
    if x == ".py" then "Python"
    else if x == ".java" then "Java"
    else if x == ".c" || x == ".h" then "C"
    else if x == ".cpp" || x == ".cc" || x == ".cxx" || x == ".hpp" || x == ".hxx" then "C++"
    else if x == ".js" || x == ".mjs" || x == ".cjs" then "JavaScript"
    else if x == ".jsx" then "JavaScript (React)"
    else if x == ".ts" then "TypeScript"
    else if x == ".tsx" then "TypeScript (React)"
    else "Unknown"
  }

  /** `get_language_name`: the display name depends only on the part of
      the name from its last dot on. */
  function GetLanguageName(filename: string): (r: string)
    ensures r == SuffixName(DotSuffix(filename))
  {
    NameChainSuffixes(filename);
    if EndsWith(filename, ".py") then "Python"
    else if EndsWith(filename, ".java") then "Java"
    else if EndsWith(filename, ".c") || EndsWith(filename, ".h") then "C"
    else if EndsWith(filename, ".cpp") || EndsWith(filename, ".cc") || EndsWith(filename, ".cxx")
         || EndsWith(filename, ".hpp") || EndsWith(filename, ".hxx") then "C++"
    else if EndsWith(filename, ".js") || EndsWith(filename, ".mjs") || EndsWith(filename, ".cjs") then "JavaScript"
    else if EndsWith(filename, ".jsx") then "JavaScript (React)"
    else if EndsWith(filename, ".ts") then "TypeScript"
    else if EndsWith(filename, ".tsx") then "TypeScript (React)"
    else "Unknown"
  }

  lemma SuffixNameUnknown(x: string)
    ensures SuffixName(x) == "Unknown" <==> x !in Extensions
  {
  }

  lemma SuffixNameOfHandler(i: nat)
    requires i < |Extensions|
    ensures SuffixName(Extensions[i]) in NamesOf(LanguageHandlers[i].1)
  {
  }

  /** A file is shown as "Unknown" exactly when no handler takes it. */
  lemma UnknownIffUnsupported(filename: string)
    ensures GetLanguageName(filename) == "Unknown" <==> !IsSupportedFile(filename)
  {
    SuffixNameUnknown(DotSuffix(filename));
    SupportedIffRegisteredSuffix(filename);
  }

  /** The name shown for a supported file is one of its handler's names. */
  lemma HandlerAgreesWithName(filename: string)
    requires IsSupportedFile(filename)
    ensures GetLanguageName(filename) in NamesOf(GetHandlerForFile(filename).value)
  {
    var i :| 0 <= i < |Extensions| && EndsWith(filename, Extensions[i]);
    MatchIsUnique(filename, i);
    ExtensionsWellFormed();
    EndsWithExtension(filename, Extensions[i]);
    SuffixNameOfHandler(i);
  }
}
