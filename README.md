# ant4eclipse: compiler name environment and product definition

This project models two classes of ant4eclipse and proves properties of the model in Dafny.

**`NameEnvironmentImpl`** adapts a `ClassFileLoader` to the two queries of the Eclipse
compiler's `INameEnvironment`:

- `findType` takes a compound type name, either as one array of segments or as a type name
  plus package segments. It builds the dotted qualified name and asks the loader for a class
  file first, then for a source file.
- A class file becomes a binary answer. That answer carries the file's access restriction
  only when `hasAccessRestriction()` says the file has one.
- A source file becomes a compilation-unit answer with no restriction.
- When the loader has neither, the answer is null.
- `isPackage` builds the qualified package name and returns the loader's `hasPackage`
  verdict unchanged.

The loader is a value of three arbitrary total functions (`loadClass`, `loadSource`,
`hasPackage`), so every property holds for every loader. The binary type, source file and
access restriction are opaque types. `ClassName` is modelled as a wrapper around the
qualified string. No loader implementation (archive, directory, chained) is part of this
model, so nothing is claimed about search order across a class path.

One quirk of `isPackage` follows from the code. A parent of exactly one empty segment joins
to `""`, so no separator is added. For every other parent, the name asked about is the dotted
join of `parent ++ [package]` (`QualifiedPackageNameIsDotted`).

**`ProductDefinition`** is the in-memory form of an Eclipse `*.product` file. The `class
ProductDefinition` keeps the Java fields:

- nullable strings become `Option<string>`;
- `Hashtable`/`HashMap` fields become `map`s;
- the `ArrayList`s become `seq`s.

Each mutator's `modifies` clause names only the fields it may change. Every mutator
requires and ensures the object invariant `Valid()`, which records:

- stored VM and config.ini entries are trimmed;
- stored VM and program arguments never contain a newline.

Java library behaviour the classes rely on lives in the `JavaLang` module:

- `String.trim()` removes every char up to U+0020 from both ends;
- `String.replace(char, char)`;
- the `String.compareTo` order behind `Arrays.sort` of a `String[]`;
- joining segments with one separator character, and splitting a string again.

Files: `wrappers.dfy` (the `Option` type), `java_lang.dfy`, `name_environment.dfy`,
`product_definition.dfy`.

## Model

| member | source | states |
|---|---|---|
| EcjNameEnvironment.NameEnvironmentImpl.constructor | org.ant4eclipse.jdt.ecj/src/org/ant4eclipse/jdt/ecj/internal/tools/NameEnvironmentImpl.java:46-50 | the adapter holds exactly the (non-null) loader it was given; the field is a `const`, so it never changes |
| EcjNameEnvironment.NameEnvironmentImpl.JoinSegments | org.ant4eclipse.jdt.ecj/src/org/ant4eclipse/jdt/ecj/internal/tools/NameEnvironmentImpl.java:65-71 | the StringBuffer loop builds the segments joined with '.' between consecutive segments only |
| EcjNameEnvironment.NameEnvironmentImpl.FindType | org.ant4eclipse.jdt.ecj/src/org/ant4eclipse/jdt/ecj/internal/tools/NameEnvironmentImpl.java:62-77 | the answer is the class lookup of the dotted compound name |
| EcjNameEnvironment.NameEnvironmentImpl.FindTypeInPackage | org.ant4eclipse.jdt.ecj/src/org/ant4eclipse/jdt/ecj/internal/tools/NameEnvironmentImpl.java:82-93 | "segment." per package segment, then the type name: the same lookup as the single-array form applied to packageName ++ [typeName]; a null package array looks up the type name alone |
| EcjNameEnvironment.NameEnvironmentImpl.IsPackage | org.ant4eclipse.jdt.ecj/src/org/ant4eclipse/jdt/ecj/internal/tools/NameEnvironmentImpl.java:105-125 | the result is exactly the loader's hasPackage verdict for the qualified package name |
| EcjNameEnvironment.NameEnvironmentImpl.ToJavaName | org.ant4eclipse.jdt.ecj/src/org/ant4eclipse/jdt/ecj/internal/tools/NameEnvironmentImpl.java:194-206 | "" for a null array, otherwise the dotted join of its segments |
| EcjNameEnvironment.NameEnvironmentImpl.FindClass | org.ant4eclipse.jdt.ecj/src/org/ant4eclipse/jdt/ecj/internal/tools/NameEnvironmentImpl.java:145-183 | null exactly when neither a class file nor a source file is found; binary exactly when a class file is found, with its binary type and its restriction only when the file has one; otherwise a compilation unit of the source file with no restriction; a restriction in any answer is the class file's own |
| EcjNameEnvironment.QualifiedPackageNameIsDotted | org.ant4eclipse.jdt.ecj/src/org/ant4eclipse/jdt/ecj/internal/tools/NameEnvironmentImpl.java:105-112 | a null parent gives the package segment alone; for a non-null parent the name equals the dotted join of parent ++ [package] if and only if the parent is not one empty segment |
| EcjNameEnvironment.DottedNameDeterminesSegments | org.ant4eclipse.jdt.ecj/src/org/ant4eclipse/jdt/ecj/internal/tools/NameEnvironmentImpl.java:65-71 | splitting the built name at '.' gives back the dot-free segments, so no separator is added before, after or twice between them |
| EcjNameEnvironment.LoadSourceNotConsulted | org.ant4eclipse.jdt.ecj/src/org/ant4eclipse/jdt/ecj/internal/tools/NameEnvironmentImpl.java:148-160 | when loadClass finds a class file, two loaders that agree on it give the same answer whatever their loadSource says |
| JavaLang.JoinSplit | org.ant4eclipse.jdt.ecj/src/org/ant4eclipse/jdt/ecj/internal/tools/NameEnvironmentImpl.java:198-203 | joining the pieces of any split string gives the string back (join and split are inverse) |
| JavaLang.SplitJoin | org.ant4eclipse.jdt.ecj/src/org/ant4eclipse/jdt/ecj/internal/tools/NameEnvironmentImpl.java:66-71 | splitting the join of a non-empty list of segments that hold no separator gives the list back (empty segments are allowed) |
| JavaLang.TerminatedThenLast | org.ant4eclipse.jdt.ecj/src/org/ant4eclipse/jdt/ecj/internal/tools/NameEnvironmentImpl.java:84-90 | every segment followed by the separator, then one more segment, equals the join of the extended list |
| JavaLang.JoinSnoc | org.ant4eclipse.jdt.ecj/src/org/ant4eclipse/jdt/ecj/internal/tools/NameEnvironmentImpl.java:66-71 | appending a segment to a non-empty list adds exactly one separator and that segment |
| JavaLang.JoinEmpty | org.ant4eclipse.jdt.ecj/src/org/ant4eclipse/jdt/ecj/internal/tools/NameEnvironmentImpl.java:107-108 | the join is empty exactly for no segment or a single empty segment |
| JavaLang.Trim | org.ant4eclipse.lib.pde/src/org/ant4eclipse/lib/pde/model/product/ProductDefinition.java:250 | the result has no char <= U+0020 at either end, is the slice of the input right after its leading run of such chars, and only such chars follow it in the input |
| JavaLang.TrimIdempotent | org.ant4eclipse.lib.pde/src/org/ant4eclipse/lib/pde/model/product/ProductDefinition.java:345 | trimming a trimmed value changes nothing |
| JavaLang.Replace | org.ant4eclipse.lib.pde/src/org/ant4eclipse/lib/pde/model/product/ProductDefinition.java:280 | same length; every occurrence of the old char becomes the new char, every other char stays |
| JavaLang.LessTransitive | org.ant4eclipse.lib.pde/src/org/ant4eclipse/lib/pde/model/product/ProductDefinition.java:124 | the compareTo order is transitive |
| JavaLang.LessTotal | org.ant4eclipse.lib.pde/src/org/ant4eclipse/lib/pde/model/product/ProductDefinition.java:124 | any two different strings are ordered one way or the other |
| JavaLang.LessAsymmetric | org.ant4eclipse.lib.pde/src/org/ant4eclipse/lib/pde/model/product/ProductDefinition.java:124 | never both a < b and b < a |
| JavaLang.LessIrreflexive | org.ant4eclipse.lib.pde/src/org/ant4eclipse/lib/pde/model/product/ProductDefinition.java:124 | no string is below itself |
| JavaLang.Least | org.ant4eclipse.lib.pde/src/org/ant4eclipse/lib/pde/model/product/ProductDefinition.java:124 | the chosen element of a non-empty set is in the set and below every other element |
| JavaLang.SortedStrings | org.ant4eclipse.lib.pde/src/org/ant4eclipse/lib/pde/model/product/ProductDefinition.java:123-124 | exactly the elements of the set, each once, in strictly ascending compareTo order |
| Product.NormalizedArgs | org.ant4eclipse.lib.pde/src/org/ant4eclipse/lib/pde/model/product/ProductDefinition.java:280 | the stored argument text contains no newline and is trimmed |
| Product.NormalizedAll | org.ant4eclipse.lib.pde/src/org/ant4eclipse/lib/pde/model/product/ProductDefinition.java:280 | element k of the result is the normalised form of argument text k |
| Product.AppendedAllJoins | org.ant4eclipse.lib.pde/src/org/ant4eclipse/lib/pde/model/product/ProductDefinition.java:274-282 | after a series of additions for one OS, the entry is the old entry and one space (when there was one) followed by the normalised texts joined by single spaces |
| Product.ProductDefinition.constructor | org.ant4eclipse.lib.pde/src/org/ant4eclipse/lib/pde/model/product/ProductDefinition.java:86-103 | no name, uid, id, application, launcher name or splash plugin; version 0.0.0; not based on features; every map and list empty; the invariant holds |
| Product.ProductDefinition.AddFeature | org.ant4eclipse.lib.pde/src/org/ant4eclipse/lib/pde/model/product/ProductDefinition.java:113-115 | the feature's version becomes the given one, replacing an earlier one; every other feature keeps its version |
| Product.ProductDefinition.GetFeatureIds | org.ant4eclipse.lib.pde/src/org/ant4eclipse/lib/pde/model/product/ProductDefinition.java:122-126 | exactly the registered feature ids, each once, ascending |
| Product.ProductDefinition.AddConfigurationRecord | org.ant4eclipse.lib.pde/src/org/ant4eclipse/lib/pde/model/product/ProductDefinition.java:355-357 | afterwards hasConfigurationRecord(record id) holds and getConfigurationRecord(record id) is the record; other records stay |
| Product.ProductDefinition.AddVm | org.ant4eclipse.lib.pde/src/org/ant4eclipse/lib/pde/model/product/ProductDefinition.java:248-252 | null changes nothing; otherwise the trimmed VM replaces the OS entry and getVm returns it |
| Product.ProductDefinition.AddConfigIni | org.ant4eclipse.lib.pde/src/org/ant4eclipse/lib/pde/model/product/ProductDefinition.java:343-347 | null changes nothing; otherwise the trimmed path replaces the OS entry and getConfigIni returns it |
| Product.ProductDefinition.AddVmArgs | org.ant4eclipse.lib.pde/src/org/ant4eclipse/lib/pde/model/product/ProductDefinition.java:274-282 | null changes nothing; otherwise getVmArgs(os) becomes the old entry plus one space (when there was an entry) plus the newline-free trimmed text; other OSes keep their arguments; no stored argument holds a newline |
| Product.ProductDefinition.AddProgramArgs | org.ant4eclipse.lib.pde/src/org/ant4eclipse/lib/pde/model/product/ProductDefinition.java:308-316 | the same append rule for the program arguments |
| Product.ProductDefinition.AddPlugin | org.ant4eclipse.lib.pde/src/org/ant4eclipse/lib/pde/model/product/ProductDefinition.java:380-386 | a fragment is appended to the fragment list only, any other plugin to the plugin list only; order and duplicates are kept |
| Product.ProductDefinition.GetPluginAndFragmentIds | org.ant4eclipse.lib.pde/src/org/ant4eclipse/lib/pde/model/product/ProductDefinition.java:412-420 | the plugin ids followed by the fragment ids |
| Product.ProductDefinition.SetName | org.ant4eclipse.lib.pde/src/org/ant4eclipse/lib/pde/model/product/ProductDefinition.java:428-443 | getName returns the new name; hasName holds exactly when it is non-null |
| Product.ProductDefinition.SetUid | org.ant4eclipse.lib.pde/src/org/ant4eclipse/lib/pde/model/product/ProductDefinition.java:452-465 | getUid returns the new uid |
| Product.ProductDefinition.SetId | org.ant4eclipse.lib.pde/src/org/ant4eclipse/lib/pde/model/product/ProductDefinition.java:473-488 | getId returns the new id; hasId holds exactly when it is non-null |
| Product.ProductDefinition.SetApplication | org.ant4eclipse.lib.pde/src/org/ant4eclipse/lib/pde/model/product/ProductDefinition.java:496-511 | getApplication returns the new id; hasApplication holds exactly when it is non-null |
| Product.ProductDefinition.SetVersion | org.ant4eclipse.lib.pde/src/org/ant4eclipse/lib/pde/model/product/ProductDefinition.java:519-534 | getVersion returns the new version; hasVersion holds exactly when it is non-null |
| Product.ProductDefinition.SetLaunchername | org.ant4eclipse.lib.pde/src/org/ant4eclipse/lib/pde/model/product/ProductDefinition.java:223-238 | getLaunchername returns the new name; hasLaunchername holds exactly when it is non-null |
| Product.ProductDefinition.SetSplashplugin | org.ant4eclipse.lib.pde/src/org/ant4eclipse/lib/pde/model/product/ProductDefinition.java:200-215 | getSplashplugin returns the new id; hasSplashplugin holds exactly when it is non-null |
| Product.ProductDefinition.SetBasedOnFeatures | org.ant4eclipse.lib.pde/src/org/ant4eclipse/lib/pde/model/product/ProductDefinition.java:542-553 | isBasedOnFeatures returns the new flag |

`findClass(String)` (NameEnvironmentImpl.java:131-134) is `FindClassNamed`; the contracts
of `FindType` and `FindTypeInPackage` are stated through it. The getters `getVmArgs` and
`getProgramArgs` (ProductDefinition.java:292-298, 326-332) are `ArgsOf`: the entry, or `""`
when there is none. `AppendArgs` is the map update both argument methods make. The remaining getters and `has*` predicates are the functions of the
same names; the setter rows above state what they return.

## Left out

- Tracing through `A4ELogging` in `NameEnvironmentImpl` is not modelled. It only writes
  diagnostics and never changes a result. For the same reason the class file's library
  location and the source file's path, which only feed those traces, are left out.
- `cleanup()` does nothing in the source and is not modelled.
- The loader's implementations, `ClassName.fromQualifiedClassName`, `CompilationUnitImpl`
  and `NameEnvironmentAnswer` are not part of this model. The loader is abstract,
  `ClassName` wraps the qualified string, and any validation done while parsing that string
  is not captured.
- No loader implementation is modelled, so nothing is claimed about first-match order across
  a class path. The javadoc of `isPackage` (NameEnvironmentImpl.java:101-103) says it returns
  true for top-level packages. The code returns whatever `hasPackage` says, and the model
  follows the code.
- Some null inputs raise a `NullPointerException` in the source, and the Dafny types exclude
  them instead:
  - a null `compoundTypeName` array (NameEnvironmentImpl.java:66);
  - a null segment inside any `char[][]`;
  - a null `typeName`;
  - a null `isPackage` `packageName` (NameEnvironmentImpl.java:109, 111);
  - a null `featureid` or `version` in `addFeature`, whose `Hashtable` refuses null;
  - a null record in `addConfigurationRecord`.
- Two null inputs the source would accept are also excluded by the Dafny types:
  - a null `pluginid`, which `ArrayList.add` stores (ProductDefinition.java:382, 384). Its
    javadoc demands "Neither null nor empty" (ProductDefinition.java:376).
  - a record whose id is null, which the `HashMap` stores under the null key
    (ProductDefinition.java:356, 168, 179).
- Where the source handles null, the model keeps it: `packageName` of the two-argument
  `findType`, `toJavaName`'s array, the `addVm`/`addConfigIni`/`addVmArgs`/`addProgramArgs`
  arguments, and the setters.
- `ProductDefinition.hashCode` is not modelled. It depends on 32-bit overflowing arithmetic
  and `String.hashCode`.
- `ProductDefinition.toString` is not modelled. It is formatting that follows the order of
  `ProductOs.values()`.
- `getFeatureIdentifiers` is not modelled. It follows the `Hashtable` iteration order, which
  is unspecified.
- `getConfigurationRecords` is not modelled. Its sort depends on `BundleStartRecord.compareTo`.
- `ProductOs` and everything in a `BundleStartRecord` except its id are opaque.
- The OSGi `Version` is a plain value with no operations.
- Product.ProductDefinition.GetFeatureIds: orders strings by Unicode code point.
  `String.compareTo` orders by UTF-16 code unit, and the two orders differ only between
  supplementary characters and chars in U+E000..U+FFFF.
- Strings are sequences of Unicode scalar values. A Java `String` is UTF-16, so unpaired
  surrogates are not representable here.
