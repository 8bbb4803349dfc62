/** ProjectType: the three kinds of artifact a project can produce, named by strings. */
module ProjectTypes {
  import opened Wrappers

  const APP: string := "app"
  const LIB: string := "lib"
  const DLL: string := "dll"

  /** ProjectType.valid?: one of the three type strings. */
  predicate Valid(t: string)
  {
    t == APP || t == LIB || t == DLL
  }

  /** ProjectType.desc: the long description, raising for an unknown type. */
  function Desc(t: string): (r: Result<string>)
    ensures r.Ok? <==> Valid(t)
    ensures !Valid(t) ==> r.msg == "Invalid ProjectType '" + t + "'"
  {
    if t == APP then Ok("executable")
    else if t == LIB then Ok("static library")
    else if t == DLL then Ok("shared library")
    else Err("Invalid ProjectType '" + t + "'")
  }

  /** ProjectType.filename_suffix: what follows the project name in the output file name. */
  function FilenameSuffix(t: string): (r: Result<string>)
    ensures r.Ok? <==> Valid(t)
    ensures !Valid(t) ==> r.msg == "Invalid ProjectType: " + t
  {
    if t == APP then Ok("")
    else if t == LIB then Ok(".a")
    else if t == DLL then Ok(".so")
    else Err("Invalid ProjectType: " + t)
  }

  /** The closed set of kinds, as an enumeration independent of the strings. */
  datatype Kind = Application | StaticLibrary | SharedLibrary

  function Name(k: Kind): string
  {
    match k
    case Application => APP
    case StaticLibrary => LIB
    case SharedLibrary => DLL
  }

  function KindOf(t: string): (r: Option<Kind>)
  {
    if t == APP then Some(Application)
    else if t == LIB then Some(StaticLibrary)
    else if t == DLL then Some(SharedLibrary)
    else None
  }

  /** The type strings and the enumeration are in one-to-one correspondence, and the valid
      strings are exactly the names of kinds. */
  lemma KindNames(t: string, k: Kind)
    ensures KindOf(Name(k)) == Some(k)
    ensures KindOf(t) == Some(k) ==> Name(k) == t
    ensures Valid(t) <==> KindOf(t).Some?
  {
  }

  /** The suffix of each kind: nothing for an executable, .a for a static library,
      .so for a shared library; the three suffixes differ, so the suffix tells the kind. */
  lemma SuffixOfKind(k: Kind)
    ensures FilenameSuffix(Name(k)) == Ok(match k
      case Application => ""
      case StaticLibrary => ".a"
      case SharedLibrary => ".so")
    ensures Desc(Name(k)) == Ok(match k
      case Application => "executable"
      case StaticLibrary => "static library"
      case SharedLibrary => "shared library")
  {
  }

  lemma SuffixDeterminesType(t1: string, t2: string)
    requires Valid(t1) && Valid(t2)
    requires FilenameSuffix(t1) == FilenameSuffix(t2)
    ensures t1 == t2
  {
  }
}
