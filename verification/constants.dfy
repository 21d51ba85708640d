/**
 Fully-qualified Java class names as `Class.getName()` spells them for a
 top-level class: the package, a dot, and the simple name.
 */
module ClassNames {
  import opened Wrappers

  /** `Class.getName()` of a top-level class in package `pkg` (the empty string
      being the unnamed package). */
  function QualifiedName(pkg: string, simpleName: string): string
  {
    if pkg == "" then simpleName else pkg + "." + simpleName
  }

  /** Position of the last dot of `name`, if it has one. */
  function LastDot(name: string): (r: Option<nat>)
    ensures r.Some? ==> r.value < |name| && name[r.value] == '.'
    ensures r.Some? ==> forall j | r.value < j < |name| :: name[j] != '.'
    ensures r.None? ==> forall j | 0 <= j < |name| :: name[j] != '.'
  {
    if |name| == 0 then None
    else if name[|name| - 1] == '.' then Some(|name| - 1)
    else LastDot(name[..|name| - 1])
  }

  /** The package part of a qualified name: everything before the last dot. */
  function PackageOf(name: string): string
  {
    match LastDot(name)
    case None => ""
    case Some(i) => name[..i]
  }

  /** The simple-name part of a qualified name: everything after the last dot. */
  function SimpleNameOf(name: string): string
  {
    match LastDot(name)
    case None => name
    case Some(i) => name[i + 1..]
  }

  /** A simple name of a top-level class: non-empty and free of dots. */
  predicate IsSimpleName(s: string)
  {
    s != "" && forall j | 0 <= j < |s| :: s[j] != '.'
  }

  /** Splitting a qualified name recovers the package and simple name it was built from. */
  lemma SplitQualifiedName(pkg: string, simpleName: string)
    requires IsSimpleName(simpleName)
    ensures PackageOf(QualifiedName(pkg, simpleName)) == pkg
    ensures SimpleNameOf(QualifiedName(pkg, simpleName)) == simpleName
  {
    var name := QualifiedName(pkg, simpleName);
    if pkg != "" {
      var d := |pkg|;
      assert name[d] == '.';
      assert forall j | d < j < |name| :: name[j] == simpleName[j - d - 1];
      assert LastDot(name) == Some(d);
      assert name[..d] == pkg;
      assert name[d + 1..] == simpleName;
    }
  }

  /** Conversely, a name is rebuilt from its package and simple name. */
  lemma JoinSplitName(name: string)
    requires LastDot(name).Some? ==> LastDot(name).value > 0
    ensures QualifiedName(PackageOf(name), SimpleNameOf(name)) == name
  {
  }
}

/**
 `Constants`: the collection interfaces the generator supports for varargs
 setters, in the order the generator consults them.
 */
module Constants {
  import opened ClassNames

  /** The package of the supported collection interfaces. */
  const JavaUtil: string := "java.util"

  /** `getSupportedCollections`, which `SUPPORTED_VARARGS_COLLECTIONS` holds: the names
      of `java.util.Set` and `java.util.List`, in that order. */
  function SupportedCollections(): (names: seq<string>)
    ensures |names| == 2
    ensures names == ["java.util.Set", "java.util.List"]
    ensures names[0] != names[1]
    ensures forall i | 0 <= i < |names| :: PackageOf(names[i]) == JavaUtil
    ensures SimpleNameOf(names[0]) == "Set" && SimpleNameOf(names[1]) == "List"
  {
    SplitQualifiedName(JavaUtil, "Set");
    SplitQualifiedName(JavaUtil, "List");
    assert QualifiedName(JavaUtil, "Set") == "java.util.Set";
    assert QualifiedName(JavaUtil, "List") == "java.util.List";
    [QualifiedName(JavaUtil, "Set"), QualifiedName(JavaUtil, "List")]
  }
}
