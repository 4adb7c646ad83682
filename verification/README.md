# Package manifest generator of the Danger dependency resolver

This project models the part of danger-swift's dependency resolver that writes
the aggregate Swift Package Manager manifest (`Package.swift`). The resolver
discovers a list of dependency packages. The generator then turns that list,
a Swift tools version and an optional macOS version into one manifest text. The
text declares a package `PACKAGES`, an optional `platforms:` line, a dynamic
library product `DangerDependencies`, one dependency line per package, a single
`PACKAGES` target that depends on every package, and a `swiftLanguageVersions`
trailer.

Files and modules:

- `options.dfy` (`Options`): `Option`, whose `None` is the library's "null" version.
- `versions.dfy` (`Versions`): `Version = {major, minor, patch}`.
- `decimal.dfy` (`Decimal`): decimal rendering of a number, as Swift string
  interpolation of an `Int` writes it. It comes with the parser that inverts it.
- `text.dfy` (`Text`): `Join` (Swift's `joined(separator:)`), its inverse
  `Split`, and small facts about concatenation.
- `package_generator.dfy` (`PackageGenerator`):
  - the header, the platform clause and the language-version trailer;
  - the dependency block and the target's dependency array;
  - the whole manifest as a pure function `Manifest`;
  - `GenerateMasterPackageDescription`, which builds the same text the way the
    source does, with a loop that appends one dependency line at a time. Its
    contract proves that the loop's result equals `Manifest`.

How a package is written inside the dependency list (`dependencyString(forToolsVersion:)`)
is a parameter, `render: (Package, Version) -> string`. The package list is a
plain `seq<Package>` parameter. So the manifest is a function of its inputs:
the same inputs give the same text. Determinism and idempotence therefore hold
by construction and need no separate lemma.

The source accepts macOS 10.x only for minors 10 through 15 (`10...15`), so
10.9 gives no platform clause (`PlatformExamples`).

## Model

| member | source | states |
|---|---|---|
| Decimal.NatToString | Sources/DangerDependenciesResolver/PackageGenerator.swift:74 | Interpolating a version number gives a non-empty run of decimal digits, with no leading zero except for 0 itself. |
| Decimal.ParseNatToString | Sources/DangerDependenciesResolver/PackageGenerator.swift:74 | Reading the rendered digits back gives the number, so no information is lost when a version component is written. |
| Text.SplitJoin | Sources/DangerDependenciesResolver/PackageGenerator.swift:55 | `joined(separator:)` loses nothing: splitting at the separator recovers the parts in order, provided no part contains the separator's first character. |
| Text.JoinAppend | Sources/DangerDependenciesResolver/PackageGenerator.swift:42-48 | Adding a part to a non-empty joined list adds exactly one separator and then the part. This is the step the appending loop takes. |
| Text.JoinEnds | Sources/DangerDependenciesResolver/PackageGenerator.swift:42-48 | A joined non-empty list starts with its first part and ends with its last, so no separator leads or trails. |
| PackageGenerator.HeaderLines | Sources/DangerDependenciesResolver/PackageGenerator.swift:73-79 | The header is exactly two lines: the tools-version line, then `// danger-dependency-generator-version:2`. |
| PackageGenerator.HeaderDeterminesMajorMinor | Sources/DangerDependenciesResolver/PackageGenerator.swift:73-79 | Two tools versions give the same header if and only if they share major and minor. The patch component never shows. |
| PackageGenerator.HeaderExample | Sources/DangerDependenciesResolver/PackageGenerator.swift:73-79 | Tools 5.1.3 gives `// swift-tools-version:5.1` followed by the generator-version line. |
| PackageGenerator.Platform | Sources/DangerDependenciesResolver/PackageGenerator.swift:81-91 | The clause is non-empty exactly for a present version that is 10.10 through 10.15 or has major 11 or later. Null, major below 10 and 10.x outside 10..15 give "". |
| PackageGenerator.PlatformIdentifies | Sources/DangerDependenciesResolver/PackageGenerator.swift:83-90 | A supported version's clause equals another version's clause if and only if the other is supported, has the same major and, for major 10, the same minor. From 11 on the minor and patch are ignored. |
| PackageGenerator.PlatformSchemesDiffer | Sources/DangerDependenciesResolver/PackageGenerator.swift:84-87 | A `.v10_N` clause never coincides with a `.vM` clause. |
| PackageGenerator.PlatformAbsent | Sources/DangerDependenciesResolver/PackageGenerator.swift:82 | The null version gives the empty clause, and so does the zero version. |
| PackageGenerator.PlatformExamples | Sources/DangerDependenciesResolver/PackageGenerator.swift:81-91 | 10.9 and 10.16 give "". 10.10 and 10.15 give `.macOS(.v10_10)` and `.macOS(.v10_15)`. 11.0 gives `.macOS(.v11)` and 12.3 gives `.macOS(.v12)`. |
| PackageGenerator.LanguageVersionDecodes | Sources/DangerDependenciesResolver/PackageGenerator.swift:61-67 | The trailer's version string is "4.2" for exactly 4.2.0. Otherwise it parses back to the tools major. It contains a dot if and only if the version is 4.2.0. |
| PackageGenerator.LanguageVersionExamples | Sources/DangerDependenciesResolver/PackageGenerator.swift:61-67 | 4.2.0 gives "4.2", 4.2.1 gives "4" and 5.0.0 gives "5". |
| PackageGenerator.DependenciesBlockSplits | Sources/DangerDependenciesResolver/PackageGenerator.swift:42-48 | Cutting the package list between two packages cuts the block at exactly one `",\n"`: the lines come in input order. |
| PackageGenerator.DependenciesBlockEnds | Sources/DangerDependenciesResolver/PackageGenerator.swift:42-48 | A non-empty block starts with the first package's indented rendering and ends with the last's, so no separator leads or trails. |
| PackageGenerator.TargetDependenciesQuoteEach | Sources/DangerDependenciesResolver/PackageGenerator.swift:51-59 | The target array is every name quoted, joined by `", "`. An empty list gives nothing between the brackets. |
| PackageGenerator.TargetDependenciesRoundTrip | Sources/DangerDependenciesResolver/PackageGenerator.swift:51-59 | For names without double quotes, the target array decodes to exactly the package names in input order. Its i-th entry names the package whose rendering is the dependency block's i-th entry. |
| PackageGenerator.ManifestPlatformsLine | Sources/DangerDependenciesResolver/PackageGenerator.swift:32-38 | After the package-name line the manifest continues with `    platforms: [` if and only if the macOS version is supported. That line always holds the non-empty clause and is never an empty array. |
| PackageGenerator.ManifestWithoutPackages | Sources/DangerDependenciesResolver/PackageGenerator.swift:40-59 | With no packages the dependency block is empty, the dependency section is `    dependencies: [\n\n    ],\n` and the target line's dependency array is `[]`, with no quote or comma. |
| PackageGenerator.SinglePackageSections | Sources/DangerDependenciesResolver/PackageGenerator.swift:42-57 | For the single package Alamofire, its indented rendering alone fills the dependency block and `"Alamofire"` alone fills the target array, with no separator. |
| PackageGenerator.AppendDependencies | Sources/DangerDependenciesResolver/PackageGenerator.swift:42-48 | The enumerate loop, which writes a separator before every line but the first, appends exactly the joined dependency block. |
| PackageGenerator.AppendTarget | Sources/DangerDependenciesResolver/PackageGenerator.swift:51-59 | The appended target line's array is the list of each package name in quotes, joined by `", "`. So the quotes the loop writes only at the ends and in the separator land around every name. |
| PackageGenerator.AppendLanguageVersions | Sources/DangerDependenciesResolver/PackageGenerator.swift:61-67 | The appended trailer names version "4.2" for tools 4.2.0. For any other tools version it names a canonical decimal numeral that reads back as the tools major. |
| PackageGenerator.TrailerIsLanguageVersion | Sources/DangerDependenciesResolver/PackageGenerator.swift:61-67 | Those two promises admit exactly one trailer, the one `LanguageVersion` gives. |
| Decimal.CanonicalUnique | Sources/DangerDependenciesResolver/PackageGenerator.swift:61 | A digit string without a leading zero is the only one of its kind for its value: it is the interpolation of the number it reads as. |
| PackageGenerator.GenerateMasterPackageDescription | Sources/DangerDependenciesResolver/PackageGenerator.swift:26-67 | The text built step by step equals the sectioned manifest: preamble, optional platforms line, product, dependencies, target, trailer. |

## Left out

- Writing the file (`fileCreator.createFile`, `appendingPath("Package.swift")`, the UTF-8 `Data` conversion, lines 69-70) is I/O through an injected capability. The model ends with the manifest text.
- Default construction of the package-list maker and file creator (lines 12-24) wires in filesystem readers. The package list is a parameter instead.
- `makePackageList()` is not modelled. Its scanning lives outside this file, and its result is the `packages` parameter.
- The body of `dependencyString(forToolsVersion:)` is defined in a file that is not part of this model. It is the `render` parameter. For the same reason `Package` carries only its `name`.
- Only `major`, `minor`, `patch`, equality and the null value of the external `Version` library are used. Its pre-release and build-metadata fields and its ordering are not modelled. Components are natural numbers, so negative values are not covered.
- Whether the library's null value is itself the version 0.0.0 is not modelled. `PlatformAbsent` shows that both give the same (empty) clause anyway.
- TargetDependenciesRoundTrip: assumes no package name contains a double quote (every identifier qualifies). The source does not check names, and a name with a quote would make the array unreadable.
- DependenciesBlockSplits: states the block as an ordered decomposition, not as a split round trip. A rendering may itself contain `",\n"`, so the block cannot always be split back.
- `Tests/RunnerLibTests/XCTestManifests.swift` is a static table of test names with no behaviour to model.
