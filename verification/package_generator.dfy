/** The generator of the aggregate `Package.swift` manifest: a header naming
    the tools version, an optional macOS platform clause, one dependency per
    discovered package, a single `PACKAGES` target depending on all of them,
    and a `swiftLanguageVersions` trailer. */
module PackageGenerator {
  import opened Options
  import opened Versions
  import opened Decimal
  import opened Text

  /** A discovered dependency. Its other coordinates are only ever read by
      the renderer, which is a parameter of the generator. */
  datatype Package = Package(name: string)

  /** How one package is written inside the manifest's dependency list for a
      given tools version. */
  type Renderer = (Package, Version) -> string

  const MasterPackageName: string := "PACKAGES"
  const GenerationVersion: nat := 2
  const GeneratorVersionLine: string := "// danger-dependency-generator-version:" + NatToString(GenerationVersion)
  const DependencyIndent: string := "        "
  const DependencySeparator: string := ",\n"
  const NameSeparator: string := "\", \""

  // ---------------------------------------------------------------- header

  const ToolsVersionPrefix: string := "// swift-tools-version:"

  /** The first header line: major and minor of the tools version. */
  function ToolsVersionLine(tools: Version): string {
    ToolsVersionPrefix + NatToString(tools.major) + "." + NatToString(tools.minor)
  }

  function Header(tools: Version): string {
    ToolsVersionLine(tools) + "\n" + GeneratorVersionLine
  }

  /** The header is exactly two lines: the tools-version line and the
      generator-version line carrying 2. */
  lemma HeaderLines(tools: Version)
    ensures GeneratorVersionLine == "// danger-dependency-generator-version:" + "2"
    ensures Split(Header(tools), "\n") == [ToolsVersionLine(tools), GeneratorVersionLine]
  {
    DigitsExclude(tools.major, '\n');
    DigitsExclude(tools.minor, '\n');
    DigitsExclude(GenerationVersion, '\n');
    SplitTwoLines(ToolsVersionLine(tools), GeneratorVersionLine);
  }

  /** Two tools versions give the same header exactly when they agree on
      major and minor; the patch component never shows. */
  lemma HeaderDeterminesMajorMinor(a: Version, b: Version)
    ensures Header(a) == Header(b) <==> a.major == b.major && a.minor == b.minor
  {
    if Header(a) == Header(b) {
      DigitsExclude(a.major, '.');
      DigitsExclude(b.major, '.');
      CutFields(ToolsVersionPrefix, NatToString(a.major), ".", NatToString(a.minor),
                NatToString(b.major), NatToString(b.minor), "\n", GeneratorVersionLine);
      NatToStringInjective(a.major, b.major);
      NatToStringInjective(a.minor, b.minor);
    }
  }

  // -------------------------------------------------------------- platform

  /** The macOS versions the generator knows a platform clause for: 10.10
      through 10.15, and every major release from 11 on. */
  predicate SupportsMacOS(macOS: Option<Version>) {
    match macOS
    case None => false
    case Some(v) => (v.major == 10 && 10 <= v.minor <= 15) || v.major >= 11
  }

  /** The `.macOS(...)` platform clause, or "" when there is none. */
  function Platform(macOS: Option<Version>): (clause: string)
    ensures clause != "" <==> SupportsMacOS(macOS)
  {
    match macOS
    case None => ""
    case Some(v) =>
      if v.major == 10 && 10 <= v.minor <= 15 then ".macOS(.v10_" + NatToString(v.minor) + ")"
      else if v.major >= 11 then ".macOS(.v" + NatToString(v.major) + ")"
      else ""
  }

  /** For a supported version the clause identifies it: another version gives
      the same clause exactly when it has the same major and, for major 10,
      the same minor. From 11 on the minor and the patch are ignored. */
  lemma PlatformIdentifies(a: Version, b: Version)
    requires SupportsMacOS(Some(a))
    ensures Platform(Some(a)) == Platform(Some(b)) <==>
              SupportsMacOS(Some(b)) && a.major == b.major && (a.major == 10 ==> a.minor == b.minor)
  {
    if Platform(Some(a)) == Platform(Some(b)) {
      if a.major == 10 && b.major == 10 {
        ClauseInjective(".macOS(.v10_", a.minor, b.minor);
      } else if a.major >= 11 && b.major >= 11 {
        ClauseInjective(".macOS(.v", a.major, b.major);
      } else if a.major == 10 {
        PlatformSchemesDiffer(a.minor, b.major);
      } else {
        PlatformSchemesDiffer(b.minor, a.major);
      }
    }
  }

  /** Within one clause scheme the number after the prefix is recovered
      from the clause. */
  lemma ClauseInjective(prefix: string, m1: nat, m2: nat)
    requires prefix + NatToString(m1) + ")" == prefix + NatToString(m2) + ")"
    ensures m1 == m2
  {
    assert prefix + NatToString(m1) + ")" == prefix + (NatToString(m1) + ")");
    assert prefix + NatToString(m2) + ")" == prefix + (NatToString(m2) + ")");
    CancelPrefix(prefix, NatToString(m1) + ")", NatToString(m2) + ")");
    CancelSuffix(NatToString(m1), NatToString(m2), ")");
    NatToStringInjective(m1, m2);
  }

  /** A 10.x clause never coincides with an 11-and-later one: the latter has
      only digits where the former has `10_`. */
  lemma PlatformSchemesDiffer(minor: nat, major: nat)
    ensures ".macOS(.v10_" + NatToString(minor) + ")" != ".macOS(.v" + NatToString(major) + ")"
  {
    var legacy := ".macOS(.v10_" + NatToString(minor) + ")";
    var modern := ".macOS(.v" + NatToString(major) + ")";
    var digits := NatToString(major);
    assert legacy[11] == '_';
    if |digits| >= 3 {
      assert modern[11] == digits[2];
    } else if |digits| == 2 {
      assert modern[11] == ')';
    }
  }

  /** An absent macOS version and the zero version both give no clause. */
  lemma PlatformAbsent()
    ensures Platform(None) == ""
    ensures Platform(Some(Version(0, 0, 0))) == ""
  {
  }

  // ------------------------------------------------------ language version

  /** The tools version's major, or major.minor for exactly 4.2.0. */
  function LanguageVersion(tools: Version): string {
    var versionString := NatToString(tools.major);
    if tools == Version(4, 2, 0) then versionString + "." + NatToString(tools.minor) else versionString
  }

  /** The trailer reads back as the tools major everywhere except at exactly
      4.2.0, where it is "4.2"; only that version puts a dot in it. */
  lemma LanguageVersionDecodes(tools: Version)
    ensures tools == Version(4, 2, 0) ==> LanguageVersion(tools) == "4.2"
    ensures tools != Version(4, 2, 0) ==> ParseNat(LanguageVersion(tools)) == Some(tools.major)
    ensures '.' in LanguageVersion(tools) <==> tools == Version(4, 2, 0)
  {
    ParseNatToString(tools.major);
    DigitsExclude(tools.major, '.');
    if tools == Version(4, 2, 0) {
      var s := LanguageVersion(tools);
      assert s[1] == '.';
    }
  }

  // ---------------------------------------------------------- dependencies

  /** One line of the dependency list per package, in input order. */
  function DependencyEntries(packages: seq<Package>, tools: Version, render: Renderer): seq<string> {
    seq(|packages|, i requires 0 <= i < |packages| => DependencyIndent + render(packages[i], tools))
  }

  function DependenciesBlock(packages: seq<Package>, tools: Version, render: Renderer): string {
    Join(DependencyEntries(packages, tools, render), DependencySeparator)
  }

  /** The dependency block holds every package's rendering in input order:
      splitting the package list between two packages splits the block at
      one separator. */
  lemma DependenciesBlockSplits(packages: seq<Package>, tools: Version, render: Renderer, k: nat)
    requires 0 < k < |packages|
    ensures DependenciesBlock(packages, tools, render) ==
              DependenciesBlock(packages[..k], tools, render) + DependencySeparator +
              DependenciesBlock(packages[k..], tools, render)
  {
    var entries := DependencyEntries(packages, tools, render);
    assert entries == DependencyEntries(packages[..k], tools, render) + DependencyEntries(packages[k..], tools, render);
    JoinConcat(DependencyEntries(packages[..k], tools, render), DependencyEntries(packages[k..], tools, render), DependencySeparator);
  }

  /** No separator leads or trails the block: it opens with the first
      package's line and closes with the last's. */
  lemma DependenciesBlockEnds(packages: seq<Package>, tools: Version, render: Renderer)
    requires |packages| >= 1
    ensures StartsWith(DependenciesBlock(packages, tools, render), DependencyIndent + render(packages[0], tools))
    ensures EndsWith(DependenciesBlock(packages, tools, render), DependencyIndent + render(packages[|packages| - 1], tools))
  {
    JoinEnds(DependencyEntries(packages, tools, render), DependencySeparator);
  }

  // ---------------------------------------------------------------- target

  function Names(packages: seq<Package>): seq<string> {
    seq(|packages|, i requires 0 <= i < |packages| => packages[i].name)
  }

  /** The contents of the target's `dependencies: [...]` array. */
  function TargetDependencies(names: seq<string>): string {
    if |names| == 0 then "" else "\"" + Join(names, NameSeparator) + "\""
  }

  function Quoted(names: seq<string>): seq<string> {
    seq(|names|, i requires 0 <= i < |names| => "\"" + names[i] + "\"")
  }

  /** The target array is each name quoted, joined by ", ": the empty list
      gives `[]` with no stray quote or comma. */
  lemma {:induction false} TargetDependenciesQuoteEach(names: seq<string>)
    ensures TargetDependencies(names) == Join(Quoted(names), ", ")
    decreases |names|
  {
    if |names| > 1 {
      var rest := names[1..];
      TargetDependenciesQuoteEach(rest);
      assert Quoted(names) == [Quoted(names)[0]] + Quoted(rest);
      QuoteStep(names[0], Join(rest, NameSeparator));
    }
  }

  /** Quoting a name and the rest of the list and putting `, ` between them
      is quoting the list joined with the quote-comma-quote separator. */
  lemma QuoteStep(name: string, rest: string)
    ensures "\"" + (name + NameSeparator + rest) + "\"" == ("\"" + name + "\"") + ", " + ("\"" + rest + "\"")
  {
    assert NameSeparator == "\"" + ", " + "\"";
  }

  /** Reads a target dependency array back into its names. */
  function DecodeTargetDependencies(s: string): seq<string> {
    if |s| < 2 then [] else Split(s[1..|s| - 1], NameSeparator)
  }

  predicate QuoteFree(packages: seq<Package>) {
    forall i :: 0 <= i < |packages| ==> '"' !in packages[i].name
  }

  /** When no name contains a double quote (every identifier qualifies), the
      target array decodes to exactly the package names in input order, so
      its i-th entry and the dependency block's i-th entry describe the same
      package. */
  lemma TargetDependenciesRoundTrip(packages: seq<Package>, tools: Version, render: Renderer)
    requires QuoteFree(packages)
    ensures DecodeTargetDependencies(TargetDependencies(Names(packages))) == Names(packages)
    ensures |DecodeTargetDependencies(TargetDependencies(Names(packages)))| == |DependencyEntries(packages, tools, render)|
    ensures forall i :: 0 <= i < |packages| ==>
              DecodeTargetDependencies(TargetDependencies(Names(packages)))[i] == packages[i].name &&
              DependencyEntries(packages, tools, render)[i] == DependencyIndent + render(packages[i], tools)
  {
    var names := Names(packages);
    if |names| > 0 {
      var s := TargetDependencies(names);
      assert s[1..|s| - 1] == Join(names, NameSeparator);
      SplitJoin(names, NameSeparator);
    }
  }

  // -------------------------------------------------------------- manifest

  /** Everything up to and including the package name line. */
  function Preamble(tools: Version): string {
    Header(tools) + "\n\n" +
    "import PackageDescription\n\n" +
    "let package = Package(\n" +
    "    name: \"" + MasterPackageName + "\",\n"
  }

  /** The `platforms:` line, left out entirely when there is no clause. */
  function PlatformsEntry(clause: string): string {
    if clause == "" then "" else "    platforms: [" + clause + "],\n"
  }

  const ProductsLead: string := "    products: ["

  const ProductsEntry: string :=
    ProductsLead + (".library(name: \"DangerDependencies\", " +
    "type: .dynamic, targets: [\"" + MasterPackageName + "\"])]," + "\n")

  function DependenciesEntry(block: string): string {
    "    dependencies: [\n" + block + "\n    ],\n"
  }

  function TargetsEntry(targetDependencies: string): string {
    "    targets: [.target(name: \"" + MasterPackageName + "\", dependencies: [" + targetDependencies + "])],\n"
  }

  function LanguageVersionsEntry(versionString: string): string {
    "    swiftLanguageVersions: [.version(\"" + versionString + "\")]\n)"
  }

  /** Everything after the `platforms:` line. */
  function Remainder(tools: Version, packages: seq<Package>, render: Renderer): string {
    ProductsEntry +
    (DependenciesEntry(DependenciesBlock(packages, tools, render)) +
     TargetsEntry(TargetDependencies(Names(packages))) +
     LanguageVersionsEntry(LanguageVersion(tools)))
  }

  /** The whole manifest, section by section. */
  function Manifest(tools: Version, macOS: Option<Version>, packages: seq<Package>, render: Renderer): string {
    Preamble(tools) + (PlatformsEntry(Platform(macOS)) + Remainder(tools, packages, render))
  }

  /** Right after the package name the manifest has a `platforms:` line
      exactly when the macOS version is supported, and that line is never an
      empty array. */
  lemma ManifestPlatformsLine(tools: Version, macOS: Option<Version>, packages: seq<Package>, render: Renderer)
    ensures StartsWith(Manifest(tools, macOS, packages, render), Preamble(tools))
    ensures (StartsWith(Manifest(tools, macOS, packages, render)[|Preamble(tools)|..], "    platforms: [")
             <==> SupportsMacOS(macOS))
    ensures SupportsMacOS(macOS) ==>
              StartsWith(Manifest(tools, macOS, packages, render)[|Preamble(tools)|..],
                         "    platforms: [" + Platform(macOS) + "],\n") &&
              Platform(macOS) != ""
  {
    ProductsEntryStarts(tools, packages, render);
    PlatformsLineAfter(Preamble(tools), Platform(macOS), Remainder(tools, packages, render));
  }

  /** The platforms line, placed between any preamble and a remainder that
      does not itself open with one. */
  lemma PlatformsLineAfter(pre: string, clause: string, tail: string)
    requires !StartsWith(tail, "    platforms: [")
    ensures StartsWith(pre + (PlatformsEntry(clause) + tail), pre)
    ensures (StartsWith((pre + (PlatformsEntry(clause) + tail))[|pre|..], "    platforms: [") <==> clause != "")
    ensures clause != "" ==>
              StartsWith((pre + (PlatformsEntry(clause) + tail))[|pre|..], "    platforms: [" + clause + "],\n")
  {
    AfterPrefix(pre, PlatformsEntry(clause) + tail);
    if clause != "" {
      PlatformsEntryStarts(clause, tail);
    }
  }

  lemma PlatformsEntryStarts(clause: string, tail: string)
    requires clause != ""
    ensures StartsWith(PlatformsEntry(clause) + tail, "    platforms: [")
    ensures StartsWith(PlatformsEntry(clause) + tail, "    platforms: [" + clause + "],\n")
  {
    AfterPrefix(PlatformsEntry(clause), tail);
    var lead := "    platforms: [";
    assert PlatformsEntry(clause) == lead + (clause + "],\n");
    AfterPrefix(lead, clause + "],\n");
    assert (PlatformsEntry(clause) + tail)[..|lead|] == PlatformsEntry(clause)[..|lead|];
  }

  lemma ProductsEntryStarts(tools: Version, packages: seq<Package>, render: Renderer)
    ensures !StartsWith(Remainder(tools, packages, render), "    platforms: [")
  {
    var sections := DependenciesEntry(DependenciesBlock(packages, tools, render)) +
                    TargetsEntry(TargetDependencies(Names(packages))) +
                    LanguageVersionsEntry(LanguageVersion(tools));
    var product := ".library(name: \"DangerDependencies\", " +
                   "type: .dynamic, targets: [\"" + MasterPackageName + "\"])]," + "\n";
    LeadExcludesPlatforms(ProductsLead, product, sections);
  }

  /** Anything opening with the products lead does not open with the
      platforms lead: they differ in their sixth character. */
  lemma LeadExcludesPlatforms(lead: string, rest: string, sections: string)
    requires lead == "    products: ["
    ensures !StartsWith(lead + rest + sections, "    platforms: [")
  {
    assert (lead + rest + sections)[5] == 'r';
  }

  /** With no packages the dependency list is empty and the target's array
      is `[]`. */
  lemma ManifestWithoutPackages(tools: Version, render: Renderer)
    ensures DependenciesBlock([], tools, render) == ""
    ensures DependenciesEntry(DependenciesBlock([], tools, render)) == "    dependencies: [\n" + "\n    ],\n"
    ensures TargetsEntry(TargetDependencies(Names([]))) ==
              "    targets: [.target(name: \"" + MasterPackageName + "\", dependencies: [" + "])],\n"
  {
  }

  // -------------------------------------------------------------- examples

  /** The header keeps only major.minor of the tools version. */
  lemma HeaderExample()
    ensures Header(Version(5, 1, 3)) == "// swift-tools-version:5.1" + "\n" + "// danger-dependency-generator-version:2"
  {
    assert NatToString(5) == "5" && NatToString(1) == "1" && NatToString(2) == "2";
    assert ToolsVersionLine(Version(5, 1, 3)) == "// swift-tools-version:5.1";
    assert GeneratorVersionLine == "// danger-dependency-generator-version:2";
  }

  /** The platform table on concrete versions: 10.9 lies below the 10.10 the
      table starts at, 10.16 above its end. */
  lemma PlatformExamples()
    ensures Platform(Some(Version(10, 9, 0))) == ""
    ensures Platform(Some(Version(10, 10, 0))) == ".macOS(.v10_10)"
    ensures Platform(Some(Version(10, 15, 0))) == ".macOS(.v10_15)"
    ensures Platform(Some(Version(10, 16, 0))) == ""
    ensures Platform(Some(Version(11, 0, 0))) == ".macOS(.v11)"
    ensures Platform(Some(Version(12, 3, 0))) == ".macOS(.v12)"
  {
    assert NatToString(10) == "10";
    assert NatToString(11) == "11";
    assert NatToString(12) == "12";
    assert NatToString(15) == "15";
  }

  /** 4.2.0 is the only version written as major.minor; 4.2.1 is not. */
  lemma LanguageVersionExamples()
    ensures LanguageVersion(Version(4, 2, 0)) == "4.2"
    ensures LanguageVersion(Version(4, 2, 1)) == "4"
    ensures LanguageVersion(Version(5, 0, 0)) == "5"
  {
  }

  /** A single package `Alamofire`: its rendering alone fills the dependency
      block and its quoted name alone fills the target array. */
  lemma SinglePackageSections(tools: Version, render: Renderer)
    ensures DependenciesBlock([Package("Alamofire")], tools, render) ==
              DependencyIndent + render(Package("Alamofire"), tools)
    ensures TargetDependencies(Names([Package("Alamofire")])) == "\"" + "Alamofire" + "\""
  {
    assert Names([Package("Alamofire")]) == ["Alamofire"];
    assert DependencyEntries([Package("Alamofire")], tools, render) ==
             [DependencyIndent + render(Package("Alamofire"), tools)];
  }

  // --------------------------------------------------------------- builder

  /** Appends one dependency line per package to `opening`, the way the
      generator's loop does: a separator before every line but the first. */
  method AppendDependencies(opening: string, packages: seq<Package>, tools: Version, render: Renderer)
    returns (description: string)
    ensures description == opening + DependenciesBlock(packages, tools, render)
  {
    description := opening;
    var index := 0;
    while index < |packages|
      invariant 0 <= index <= |packages|
      invariant description == opening + DependenciesBlock(packages[..index], tools, render)
    {
      ghost var done := DependencyEntries(packages[..index], tools, render);
      ghost var entry := DependencyIndent + render(packages[index], tools);
      assert DependencyEntries(packages[..index + 1], tools, render) == done + [entry];
      if index > 0 {
        description := description + DependencySeparator;
        JoinAppend(done, entry, DependencySeparator);
      }
      description := description + DependencyIndent + render(packages[index], tools);
      index := index + 1;
    }
    assert packages[..index] == packages;
  }

  /** Appends the single `PACKAGES` target, whose array lists every package
      name quoted and separated by `, `; an empty list leaves it as `[]`. */
  method AppendTarget(prefix: string, packages: seq<Package>) returns (description: string)
    ensures description == prefix + TargetsEntry(Join(Quoted(Names(packages)), ", "))
  {
    description := prefix + "    targets: [.target(name: \"" + MasterPackageName + "\", dependencies: [";
    ghost var beforeNames := description;
    if |packages| > 0 {
      description := description + "\"";
      description := description + Join(Names(packages), NameSeparator);
      description := description + "\"";
      AppendThree(beforeNames, "\"", Join(Names(packages), NameSeparator), "\"");
    }
    description := description + "])],\n";
    TargetDependenciesQuoteEach(Names(packages));
    AppendFive(prefix, "    targets: [.target(name: \"", MasterPackageName, "\", dependencies: [",
               TargetDependencies(Names(packages)), "])],\n");
  }

  /** Appends the `swiftLanguageVersions` trailer that closes the manifest:
      "4.2" for exactly 4.2.0, otherwise the tools major written without
      leading zeros. */
  method AppendLanguageVersions(prefix: string, tools: Version) returns (description: string)
    ensures tools == Version(4, 2, 0) ==> description == prefix + LanguageVersionsEntry("4.2")
    ensures tools != Version(4, 2, 0) ==>
              exists v :: description == prefix + LanguageVersionsEntry(v) &&
                          Canonical(v) && ParseNat(v) == Some(tools.major)
  {
    var versionString := NatToString(tools.major);
    if tools == Version(4, 2, 0) {
      versionString := versionString + "." + NatToString(tools.minor);
    }
    description := prefix + "    swiftLanguageVersions: [.version(\"" + versionString + "\")]\n)";
    AppendThree(prefix, "    swiftLanguageVersions: [.version(\"", versionString, "\")]\n)");
    LanguageVersionDecodes(tools);
    assert versionString == LanguageVersion(tools);
  }

  /** The manifest is its sections appended one after another, in the order
      the generator writes them. */
  lemma ManifestInBuildOrder(tools: Version, macOS: Option<Version>, packages: seq<Package>, render: Renderer)
    ensures Manifest(tools, macOS, packages, render) ==
              Preamble(tools) + PlatformsEntry(Platform(macOS)) + ProductsEntry +
              "    dependencies: [\n" + DependenciesBlock(packages, tools, render) + "\n    ],\n" +
              TargetsEntry(TargetDependencies(Names(packages))) + LanguageVersionsEntry(LanguageVersion(tools))
  {
    SectionsInOrder(Preamble(tools), PlatformsEntry(Platform(macOS)), ProductsEntry,
                    DependenciesBlock(packages, tools, render),
                    TargetsEntry(TargetDependencies(Names(packages))), LanguageVersionsEntry(LanguageVersion(tools)));
  }

  lemma SectionsInOrder(preamble: string, platforms: string, products: string, block: string,
                        targets: string, trailer: string)
    ensures preamble + (platforms + (products + (DependenciesEntry(block) + targets + trailer))) ==
            preamble + platforms + products + "    dependencies: [\n" + block + "\n    ],\n" + targets + trailer
  {
    var opening := preamble + platforms + products;
    AppendFive(opening, "    dependencies: [\n", block, "\n    ],\n", targets, trailer);
    NestRight(preamble, platforms, products, DependenciesEntry(block) + targets + trailer);
  }

  /** The trailer's promise pins it down: "4.2" at 4.2.0, and otherwise the
      only numeral without leading zeros that reads as the major. */
  lemma TrailerIsLanguageVersion(prefix: string, description: string, tools: Version)
    requires tools == Version(4, 2, 0) ==> description == prefix + LanguageVersionsEntry("4.2")
    requires tools != Version(4, 2, 0) ==>
               exists v :: description == prefix + LanguageVersionsEntry(v) &&
                           Canonical(v) && ParseNat(v) == Some(tools.major)
    ensures description == prefix + LanguageVersionsEntry(LanguageVersion(tools))
  {
    LanguageVersionDecodes(tools);
    if tools != Version(4, 2, 0) {
      var v :| description == prefix + LanguageVersionsEntry(v) &&
               Canonical(v) && ParseNat(v) == Some(tools.major);
      CanonicalUnique(v, tools.major);
    }
  }

  /** Builds the manifest in the generator's order: header and package name,
      the optional `platforms:` line, the product, the dependency lines, the
      target and the trailer. */
  method GenerateMasterPackageDescription(tools: Version, macOS: Option<Version>,
                                          packages: seq<Package>, render: Renderer)
    returns (description: string)
    ensures description == Manifest(tools, macOS, packages, render)
  {
    var header := Header(tools);
    var platform := Platform(macOS);
    description := header + "\n\n" +
      "import PackageDescription\n\n" +
      "let package = Package(\n" +
      "    name: \"" + MasterPackageName + "\",\n";
    ghost var preamble := description;
    description := description +
      (if platform == "" then "" else "    platforms: [" + platform + "],\n") +
      ProductsEntry +
      "    dependencies: [\n";
    description := AppendDependencies(description, packages, tools, render);
    description := description + "\n    ],\n";
    ghost var dependenciesDone := description;
    description := AppendTarget(description, packages);
    ghost var targetsDone := description;
    TargetDependenciesQuoteEach(Names(packages));
    description := AppendLanguageVersions(description, tools);
    TrailerIsLanguageVersion(targetsDone, description, tools);
    ManifestInBuildOrder(tools, macOS, packages, render);
  }
}
