/**
 * Choosing how a code block is highlighted: the pattern lists of the six
 * language detectors, the first-match language detection over them, the
 * "looks like code" test, and the display name of a language tag.
 *
 * Regular expressions are kept as their source text and flags; whether a
 * pattern matches a text is the parameter `test`, standing for the
 * JavaScript regular expression engine.
 */
module Highlighting {
  import opened Wrappers
  import opened Strings

  /** A regular expression literal: its source and its flags. */
  datatype Pattern = Pattern(source: string, flags: string)

  /** `patterns.some(p => p.test(content))`. */
  function AnyMatches(patterns: seq<Pattern>, content: string, test: (Pattern, string) -> bool): (r: bool)
    ensures r <==> exists i :: 0 <= i < |patterns| && test(patterns[i], content)
  {
    if patterns == [] then false
    else test(patterns[0], content) || AnyMatches(patterns[1..], content, test)
  }

  /** The patterns of `shouldHighlight`. */
  const CodePatterns: seq<Pattern> := [
    Pattern(@"\bclass\s+\w+", ""),
    Pattern(@"\bpublic\s+static\s+void", ""),
    Pattern(@"\bimport\s+[\w.]+", ""),
    Pattern(@"\bfunction\s+\w+", ""),
    Pattern(@"\bdef\s+\w+", ""),
    Pattern(@"\bpackage\s+\w+", ""),
    Pattern(@"\bfunc\s+\w+", ""),
    Pattern(@"\breturn\s+\w+", ""),
    Pattern(@"\b(if|for|while)\s*\(", "")
  ]

  /** `shouldHighlight`: some common code pattern occurs, whatever the language. */
  function ShouldHighlight(content: string, test: (Pattern, string) -> bool): (r: bool)
    ensures r <==> exists i :: 0 <= i < |CodePatterns| && test(CodePatterns[i], content)
  {
    AnyMatches(CodePatterns, content, test)
  }

  /** The six detectors, named after the language each recognises. */
  datatype Detector = Docker | Java | Python | Go | JavaScript | Sql

  /** The order in which `detectLanguage` tries the detectors. */
  const DetectionOrder: seq<Detector> := [Docker, Java, Python, Go, JavaScript, Sql]

  /** The tag `detectLanguage` answers for a detector. */
  function Tag(d: Detector): string {
    match d
    case Docker => "dockerfile"
    case Java => "java"
    case Python => "python"
    case Go => "go"
    case JavaScript => "javascript"
    case Sql => "sql"
  }

  const JavaPatterns: seq<Pattern> :=
    [ Pattern(@"\bpublic\s+class\s+\w+", ""),
      Pattern(@"\bpublic\s+static\s+void\s+main", ""),
      Pattern(@"\bimport\s+java\.", ""),
      Pattern(@"\bSystem\.out\.print", ""),
      Pattern(@"\bnew\s+\w+\s*\(", ""),
      Pattern(@"\b(ArrayList|HashMap|String)\s*<", ""),
      Pattern(@"\bpublic\s+\w+\s+\w+\s*\(", ""),
      Pattern(@"\bprivate\s+\w+\s+\w+", ""),
      Pattern(@"\b@Override\b", ""),
      Pattern(@"\bextends\s+\w+", ""),
      Pattern(@"\bimplements\s+\w+", "") ]

  const PythonPatterns: seq<Pattern> :=
    [ Pattern(@"\bdef\s+\w+\s*\(", ""),
      Pattern(@"\bimport\s+\w+", ""),
      Pattern(@"\bfrom\s+\w+\s+import", ""),
      Pattern(@"\bclass\s+\w+\s*\(", ""),
      Pattern(@"\bclass\s+\w+\s*:", ""),
      Pattern(@"\bif\s+__name__\s*==\s*[""']__main__[""']:", ""),
      Pattern(@"\bprint\s*\(", ""),
      Pattern(@"\bself\.", ""),
      Pattern(@"\brange\s*\(", "") ]

  const GoPatterns: seq<Pattern> :=
    [ Pattern(@"\bpackage\s+\w+", ""),
      Pattern(@"\bfunc\s+\w+\s*\(", ""),
      Pattern(@"\bfunc\s+main\s*\(\s*\)", ""),
      Pattern(@"\bimport\s*\(", ""),
      Pattern(@"\bvar\s+\w+\s+\w+", ""),
      Pattern(@"\bfmt\.", ""),
      Pattern(@"\bmake\s*\(", ""),
      Pattern(@"\btype\s+\w+\s+struct", ""),
      Pattern(@"\b:=\b", ""),
      Pattern(@"\bfunc\s*\(", "") ]

  const JavaScriptPatterns: seq<Pattern> :=
    [ Pattern(@"\b(const|let|var)\s+\w+", ""),
      Pattern(@"\bfunction\s+\w+", ""),
      Pattern(@"\b(async|await)\b", ""),
      Pattern(@"\bconsole\.(log|error|warn)", ""),
      Pattern(@"\bexport\s+(default|const|function)", ""),
      Pattern(@"\bimport\s+.*from", ""),
      Pattern(@"=>\s*{", ""),
      Pattern(@"\b(React|useState|useEffect)\b", "") ]

  /** Dockerfile instructions, each anchored at a line start (flag "m"). */
  const DockerPatterns: seq<Pattern> :=
    [ Pattern(@"^\s*FROM\s+[\w\/\:\.-]+", "m"),
      Pattern(@"^\s*RUN\s+", "m"),
      Pattern(@"^\s*COPY\s+", "m"),
      Pattern(@"^\s*ADD\s+", "m"),
      Pattern(@"^\s*WORKDIR\s+", "m"),
      Pattern(@"^\s*EXPOSE\s+\d+", "m"),
      Pattern(@"^\s*ENV\s+\w+", "m"),
      Pattern(@"^\s*CMD\s*\[", "m"),
      Pattern(@"^\s*ENTRYPOINT\s*\[", "m"),
      Pattern(@"^\s*VOLUME\s+", "m"),
      Pattern(@"^\s*USER\s+", "m"),
      Pattern(@"^\s*LABEL\s+", "m"),
      Pattern(@"^\s*ARG\s+", "m") ]

  /** SQL keywords, matched case-insensitively (flag "i"). */
  const SqlPatterns: seq<Pattern> :=
    [ Pattern(@"\b(SELECT|INSERT|UPDATE|DELETE|CREATE|DROP|ALTER)\s+", "i"),
      Pattern(@"\bFROM\s+\w+", "i"),
      Pattern(@"\bWHERE\s+", "i"),
      Pattern(@"\bJOIN\s+", "i"),
      Pattern(@"\bGROUP\s+BY\b", "i"),
      Pattern(@"\bORDER\s+BY\b", "i") ]

  function Patterns(d: Detector): seq<Pattern> {
    match d
    case Docker => DockerPatterns
    case Java => JavaPatterns
    case Python => PythonPatterns
    case Go => GoPatterns
    case JavaScript => JavaScriptPatterns
    case Sql => SqlPatterns
  }

  /**
   * `isDockerCode`, `isJavaCode`, ...: a detector recognises a text exactly
   * when one of the patterns of its list matches it.
   */
  function IsCode(d: Detector, content: string, test: (Pattern, string) -> bool): (r: bool)
    ensures r <==> exists i :: 0 <= i < |Patterns(d)| && test(Patterns(d)[i], content)
  {
    AnyMatches(Patterns(d), content, test)
  }

  /**
   * `detectLanguage`: the tag of the first detector, in `DetectionOrder`,
   * that recognises the content; `None` when none does.
   */
  function DetectLanguage(content: string, test: (Pattern, string) -> bool): (r: Option<string>)
    ensures r.Some? ==> r.value in {"dockerfile", "java", "python", "go", "javascript", "sql"}
  {
    if IsCode(Docker, content, test) then Some("dockerfile")
    else if IsCode(Java, content, test) then Some("java")
    else if IsCode(Python, content, test) then Some("python")
    else if IsCode(Go, content, test) then Some("go")
    else if IsCode(JavaScript, content, test) then Some("javascript")
    else if IsCode(Sql, content, test) then Some("sql")
    else None
  }

  /** No tag is detected exactly when no detector recognises the text. */
  lemma DetectLanguageNoneIff(content: string, test: (Pattern, string) -> bool)
    ensures DetectLanguage(content, test).None? <==> forall d :: !IsCode(d, content, test)
  {
  }

  /**
   * The first detector in `DetectionOrder` that recognises the text decides
   * the tag, whatever the later detectors say.
   */
  lemma DetectLanguageFirstMatch(content: string, test: (Pattern, string) -> bool)
    ensures forall i :: (0 <= i < |DetectionOrder| && IsCode(DetectionOrder[i], content, test)
                         && (forall j :: 0 <= j < i ==> !IsCode(DetectionOrder[j], content, test)))
                        ==> DetectLanguage(content, test) == Some(Tag(DetectionOrder[i]))
  {
    var order := DetectionOrder;
    assert order[0] == Docker && order[1] == Java && order[2] == Python;
    assert order[3] == Go && order[4] == JavaScript && order[5] == Sql;
    forall i | 0 <= i < |order| && IsCode(order[i], content, test)
                && (forall j :: 0 <= j < i ==> !IsCode(order[j], content, test))
      ensures DetectLanguage(content, test) == Some(Tag(order[i]))
    {
      FirstMatchAt(content, test, i);
    }
  }

  lemma FirstMatchAt(content: string, test: (Pattern, string) -> bool, i: nat)
    requires i < |DetectionOrder| && IsCode(DetectionOrder[i], content, test)
    requires forall j :: 0 <= j < i ==> !IsCode(DetectionOrder[j], content, test)
    ensures DetectLanguage(content, test) == Some(Tag(DetectionOrder[i]))
  {
    var order := DetectionOrder;
    assert order[0] == Docker && order[1] == Java && order[2] == Python;
    assert order[3] == Go && order[4] == JavaScript && order[5] == Sql;
    if i >= 1 { assert !IsCode(Docker, content, test) by { assert !IsCode(order[0], content, test); } }
    if i >= 2 { assert !IsCode(Java, content, test) by { assert !IsCode(order[1], content, test); } }
    if i >= 3 { assert !IsCode(Python, content, test) by { assert !IsCode(order[2], content, test); } }
    if i >= 4 { assert !IsCode(Go, content, test) by { assert !IsCode(order[3], content, test); } }
    if i >= 5 { assert !IsCode(JavaScript, content, test) by { assert !IsCode(order[4], content, test); } }
  }

  // ---------------------------------------------------------------------
  // Display names
  // ---------------------------------------------------------------------

  /** The own entries of the display-name table. */
  function OwnDisplayName(key: string): Option<string> {
    if key == "java" then Some("Java")
    else if key == "python" then Some("Python")
    else if key == "go" then Some("Go")
    else if key == "javascript" then Some("JavaScript")
    else if key == "typescript" then Some("TypeScript")
    else if key == "dockerfile" then Some("Docker")
    else if key == "sql" then Some("SQL")
    else if key == "bash" then Some("Bash")
    else if key == "shell" then Some("Shell")
    else if key == "json" then Some("JSON")
    else if key == "yaml" then Some("YAML")
    else if key == "markdown" then Some("Markdown")
    else if key == "html" then Some("HTML")
    else if key == "css" then Some("CSS")
    else None
  }

  /**
   * The properties an object literal inherits from `Object.prototype` whose
   * names are all lower case, the only ones a lower-cased key can reach.
   */
  predicate IsInheritedMember(key: string) {
    key in {"constructor", "__proto__"}
  }

  /** What an expression of `getLanguageDisplayName` can evaluate to. */
  datatype DisplayValue = Text(text: string) | InheritedMember(name: string)

  /**
   * `names[lang.toLowerCase()] || lang` as written: indexing the object
   * literal also finds the members it inherits, which are functions or
   * objects and therefore truthy, so they are returned instead of a name.
   */
  function DisplayNameAsWritten(lang: string): (r: DisplayValue)
    ensures OwnDisplayName(ToLower(lang)).Some? ==> r == Text(OwnDisplayName(ToLower(lang)).value)
  {
    var key := ToLower(lang);
    match OwnDisplayName(key)
    case Some(name) => Text(name)
    case None => if IsInheritedMember(key) then InheritedMember(key) else Text(lang)
  }

  /** The tag "Constructor" yields the inherited `Object` constructor, not a string. */
  lemma DisplayNameAsWrittenLeaksPrototype()
    ensures DisplayNameAsWritten("Constructor") == InheritedMember("constructor")
  {
    var key := ToLower("Constructor");
    assert key == "constructor";
  }

  /**
   * `getLanguageDisplayName` with an own-key lookup: the table's name for a
   * known tag in any letter case, and the tag itself, unchanged, otherwise.
   */
  function GetLanguageDisplayName(lang: string): (r: string)
    ensures OwnDisplayName(ToLower(lang)).Some? ==> r == OwnDisplayName(ToLower(lang)).value
    ensures OwnDisplayName(ToLower(lang)).None? ==> r == lang
  {
    match OwnDisplayName(ToLower(lang))
    case Some(name) => name
    case None => lang
  }

  /** Both versions agree on every tag that is not an inherited member name. */
  lemma DisplayNameAgreesOffPrototype(lang: string)
    requires !IsInheritedMember(ToLower(lang))
    ensures DisplayNameAsWritten(lang) == Text(GetLanguageDisplayName(lang))
  {
  }

  /** The display name looks a tag up whatever its letter case. */
  lemma DisplayNameIgnoresCase(a: string, b: string)
    requires ToLower(a) == ToLower(b)
    requires OwnDisplayName(ToLower(a)).Some?
    ensures GetLanguageDisplayName(a) == GetLanguageDisplayName(b)
  {
  }

  /** Lower-case ASCII text is its own lower-case form. */
  lemma ToLowerOfLowerAscii(s: string)
    requires forall i :: 0 <= i < |s| ==> 'a' <= s[i] <= 'z'
    ensures ToLower(s) == s
  {
  }

  /** Every tag `detectLanguage` answers has a display name of its own. */
  lemma DetectedTagHasDisplayName(content: string, test: (Pattern, string) -> bool)
    ensures DetectLanguage(content, test).Some? ==>
      OwnDisplayName(ToLower(DetectLanguage(content, test).value)).Some?
      && GetLanguageDisplayName(DetectLanguage(content, test).value)
         == OwnDisplayName(DetectLanguage(content, test).value).value
  {
    var r := DetectLanguage(content, test);
    if r.Some? {
      DetectableTagHasDisplayName(r.value);
    }
  }

  lemma DetectableTagHasDisplayName(tag: string)
    requires tag in {"dockerfile", "java", "python", "go", "javascript", "sql"}
    ensures OwnDisplayName(ToLower(tag)).Some?
    ensures GetLanguageDisplayName(tag) == OwnDisplayName(tag).value
  {
    if tag == "dockerfile" {
      TagHasDisplayName(Docker);
    } else if tag == "java" {
      TagHasDisplayName(Java);
    } else if tag == "python" {
      TagHasDisplayName(Python);
    } else if tag == "go" {
      TagHasDisplayName(Go);
    } else if tag == "javascript" {
      TagHasDisplayName(JavaScript);
    } else {
      TagHasDisplayName(Sql);
    }
  }

  lemma TagHasDisplayName(d: Detector)
    ensures OwnDisplayName(ToLower(Tag(d))).Some?
    ensures GetLanguageDisplayName(Tag(d)) == OwnDisplayName(Tag(d)).value
  {
    ToLowerOfLowerAscii(Tag(d));
  }
}
