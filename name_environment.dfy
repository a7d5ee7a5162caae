/**
 * The adapter that answers the Eclipse compiler's name-environment queries
 * (INameEnvironment) from one class file loader: it turns the compiler's compound
 * names into dotted qualified names, asks the loader for a binary class and then for
 * a source file, and passes package queries straight through.
 *
 * The loader and the artefacts it hands back belong to code outside this model, so
 * the loader is an arbitrary value of three total functions and the artefacts are
 * opaque types.
 */
module EcjNameEnvironment {
  import opened Wrappers
  import opened JavaLang

  /** The compiled form of a type as the compiler consumes it (IBinaryType). */
  type BinaryType

  /** A visibility rule of a class path entry (AccessRestriction). */
  type AccessRestriction

  /** A source file located by the loader (SourceFile). */
  type SourceFile

  /** The qualified class name the loader is asked about (ClassName.fromQualifiedClassName). */
  datatype ClassName = ClassName(qualifiedClassName: string)

  /**
   * A class file located by the loader: its binary type and the pair of queries
   * hasAccessRestriction() / getAccessRestriction(), kept apart because the adapter
   * consults the first before it reads the second.
   */
  datatype ClassFile = ClassFile(
    binaryType: BinaryType,
    hasAccessRestriction: bool,
    accessRestriction: Option<AccessRestriction>)

  /** The loader's three queries; None stands for a null result. */
  datatype ClassFileLoader = ClassFileLoader(
    loadClass: ClassName -> Option<ClassFile>,
    loadSource: ClassName -> Option<SourceFile>,
    hasPackage: string -> bool)

  /** The compiler's view of a source file that still has to be compiled (CompilationUnitImpl). */
  datatype CompilationUnit = CompilationUnit(sourceFile: SourceFile)

  /** The compiler-shaped answer for a found type (NameEnvironmentAnswer). */
  datatype NameEnvironmentAnswer =
    | BinaryTypeAnswer(binaryType: BinaryType, accessRestriction: Option<AccessRestriction>)
    | CompilationUnitAnswer(compilationUnit: CompilationUnit, accessRestriction: Option<AccessRestriction>)

  /** Segments joined with '.' between consecutive segments. */
  function DottedName(segments: seq<string>): string
  {
    Join(segments, '.')
  }

  /**
   * The package name isPackage asks the loader about: the joined parent (empty for a
   * null parent), then '.' and the package segment, or the package segment alone when
   * the joined parent is empty.
   */
  function QualifiedPackageName(parentPackageName: Option<seq<string>>, packageName: string): string
  {
    var parent := if parentPackageName.Some? then DottedName(parentPackageName.value) else "";
    if |parent| > 0 then parent + "." + packageName else packageName
  }

  /**
   * isPackage asks for exactly the dotted name of parent ++ [packageName], except for a
   * parent that is one empty segment: that joins to "" and so adds no separator.
   */
  lemma QualifiedPackageNameIsDotted(parentPackageName: seq<string>, packageName: string)
    ensures QualifiedPackageName(None, packageName) == DottedName([packageName])
    ensures QualifiedPackageName(Some(parentPackageName), packageName) == DottedName(parentPackageName + [packageName])
            <==> parentPackageName != [""]
  {
    JoinEmpty(parentPackageName, '.');
    if parentPackageName == [] {
      assert parentPackageName + [packageName] == [packageName];
    } else {
      JoinSnoc(parentPackageName, packageName, '.');
    }
  }

  /** A qualified name built from dot-free segments splits back into those segments. */
  lemma DottedNameDeterminesSegments(segments: seq<string>)
    requires |segments| > 0
    requires forall i :: 0 <= i < |segments| ==> '.' !in segments[i]
    ensures Split(DottedName(segments), '.') == segments
  {
    SplitJoin(segments, '.');
  }

  class NameEnvironmentImpl {

    /** The loader every query is answered from; it never changes. */
    const classFileLoader: ClassFileLoader

    /** The loader reference is non-null by its type, which is what Assert.notNull checks. */
    constructor(classFileLoader: ClassFileLoader)
      ensures this.classFileLoader == classFileLoader
    {
      this.classFileLoader := classFileLoader;
    }

    /**
     * findClass(ClassName): a class file wins and becomes a binary answer that carries
     * the file's restriction only when the file says it has one; otherwise a source file
     * becomes a compilation-unit answer without restriction; otherwise null.
     */
    function FindClass(className: ClassName): (answer: Option<NameEnvironmentAnswer>)
      ensures answer.None? <==> classFileLoader.loadClass(className).None? && classFileLoader.loadSource(className).None?
      ensures (answer.Some? && answer.value.BinaryTypeAnswer?) <==> classFileLoader.loadClass(className).Some?
      ensures answer.Some? && answer.value.BinaryTypeAnswer? ==>
                var classFile := classFileLoader.loadClass(className).value;
                && answer.value.binaryType == classFile.binaryType
                && (classFile.hasAccessRestriction ==> answer.value.accessRestriction == classFile.accessRestriction)
                && (!classFile.hasAccessRestriction ==> answer.value.accessRestriction.None?)
      ensures answer.Some? && answer.value.CompilationUnitAnswer? ==>
                && classFileLoader.loadClass(className).None?
                && classFileLoader.loadSource(className) == Some(answer.value.compilationUnit.sourceFile)
                && answer.value.accessRestriction.None?
      ensures answer.Some? && answer.value.accessRestriction.Some? ==>
                && classFileLoader.loadClass(className).Some?
                && classFileLoader.loadClass(className).value.accessRestriction == answer.value.accessRestriction
    {
      match classFileLoader.loadClass(className)
      case Some(classFile) =>
        Some(BinaryTypeAnswer(classFile.binaryType,
                              if classFile.hasAccessRestriction then classFile.accessRestriction else None))
      case None =>
        match classFileLoader.loadSource(className)
        case Some(sourceFile) => Some(CompilationUnitAnswer(CompilationUnit(sourceFile), None))
        case None => None
    }

    /** findClass(String): the string is taken as a qualified class name. */
    function FindClassNamed(className: string): Option<NameEnvironmentAnswer>
    {
      FindClass(ClassName(className))
    }

    /** The loop shared by findType(char[][]) and toJavaName: '.' after every segment but the last. */
    static method JoinSegments(segments: seq<string>) returns (name: string)
      ensures name == DottedName(segments)
    {
      var buffer := "";
      var i := 0;
      while i < |segments|
        invariant 0 <= i <= |segments|
        invariant i == 0 ==> buffer == ""
        invariant i < |segments| ==> buffer == Terminated(segments[..i], '.')
        invariant 0 < i == |segments| ==> buffer == DottedName(segments)
      {
        assert segments[..i + 1][..i] == segments[..i];
        buffer := buffer + segments[i];
        if i < |segments| - 1 {
          buffer := buffer + ".";
        } else {
          TerminatedThenLast(segments[..i], segments[i], '.');
          assert segments[..i] + [segments[i]] == segments;
        }
        i := i + 1;
      }
      name := buffer;
    }

    /** toJavaName: the dotted name of the segments, "" for a null array. */
    static method ToJavaName(names: Option<seq<string>>) returns (name: string)
      ensures names.None? ==> name == ""
      ensures names.Some? ==> name == DottedName(names.value)
    {
      name := "";
      if names.Some? {
        name := JoinSegments(names.value);
      }
    }

    /** findType(char[][]): look the dotted compound name up. */
    method FindType(compoundTypeName: seq<string>) returns (answer: Option<NameEnvironmentAnswer>)
      ensures answer == FindClassNamed(DottedName(compoundTypeName))
    {
      var name := JoinSegments(compoundTypeName);
      answer := FindClassNamed(name);
    }

    /**
     * findType(char[], char[][]): every package segment followed by '.', then the type
     * name. The lookup is the one findType(char[][]) makes for packageName ++ [typeName];
     * a null package array means the type name alone.
     */
    method FindTypeInPackage(typeName: string, packageName: Option<seq<string>>)
      returns (answer: Option<NameEnvironmentAnswer>)
      ensures packageName.None? ==> answer == FindClassNamed(typeName)
      ensures packageName.Some? ==> answer == FindClassNamed(DottedName(packageName.value + [typeName]))
    {
      var result := "";
      if packageName.Some? {
        var segments := packageName.value;
        var i := 0;
        while i < |segments|
          invariant 0 <= i <= |segments|
          invariant result == Terminated(segments[..i], '.')
        {
          assert segments[..i + 1][..i] == segments[..i];
          result := result + segments[i] + ".";
          i := i + 1;
        }
        assert segments[..i] == segments;
        TerminatedThenLast(segments, typeName, '.');
      }
      assert packageName.None? ==> result + typeName == typeName;
      result := result + typeName;
      answer := FindClassNamed(result);
    }

    /**
     * isPackage: the loader's hasPackage verdict for the qualified package name,
     * unchanged (the trace output has no effect on it).
     */
    method IsPackage(parentPackageName: Option<seq<string>>, packageName: string) returns (packageFound: bool)
      ensures packageFound == classFileLoader.hasPackage(QualifiedPackageName(parentPackageName, packageName))
    {
      var qualifiedPackageName := ToJavaName(parentPackageName);
      if |qualifiedPackageName| > 0 {
        qualifiedPackageName := qualifiedPackageName + "." + packageName;
      } else {
        qualifiedPackageName := packageName;
      }
      packageFound := classFileLoader.hasPackage(qualifiedPackageName);
    }
  }

  /** When the loader has a class file, what loadSource would say makes no difference. */
  lemma LoadSourceNotConsulted(a: NameEnvironmentImpl, b: NameEnvironmentImpl, className: ClassName)
    requires a.classFileLoader.loadClass(className).Some?
    requires b.classFileLoader.loadClass(className) == a.classFileLoader.loadClass(className)
    ensures a.FindClass(className) == b.FindClass(className)
  {
  }
}
