/** Operating-system detection from the `os.name` system property. */
module SystemEnvironment {
  import opened Common
  import opened Strings

  datatype OsType = Linux | MacOs | Windows

  /** `System.getProperty("os.name", "none").toLowerCase(Locale.US)`. */
  function OsName(osNameProperty: Option<string>): string {
    ToLower(osNameProperty.GetOr("none"))
  }

  /** `getOsType()`: "mac" or "darwin" anywhere in the lower-cased name means
    * macOS, checked before "win", so "Darwin" is macOS although it contains
    * "win"; otherwise "win" means Windows and anything else Linux. */
  function GetOsType(osNameProperty: Option<string>): (r: OsType)
    ensures var name := OsName(osNameProperty);
      r == MacOs <==> Contains(name, "mac") || Contains(name, "darwin")
    ensures var name := OsName(osNameProperty);
      r == Windows <==> !Contains(name, "mac") && !Contains(name, "darwin") && Contains(name, "win")
    ensures var name := OsName(osNameProperty);
      r == Linux <==> !Contains(name, "mac") && !Contains(name, "darwin") && !Contains(name, "win")
  {
    var name := OsName(osNameProperty);
    if Contains(name, "mac") || Contains(name, "darwin") then MacOs
    else if Contains(name, "win") then Windows
    else Linux
  }

  /** The detection does not depend on the case in which the JVM reports the name. */
  lemma GetOsTypeIgnoresCase(osName: string)
    ensures GetOsType(Some(osName)) == GetOsType(Some(ToLower(osName)))
  {
    ToLowerIdempotent(osName);
  }

  lemma MacOsXIsMacOs()
    ensures GetOsType(Some("Mac OS X")) == MacOs
  {
    assert OsName(Some("Mac OS X")) == "mac os x";
    assert OccursAt("mac os x", "mac", 0);
  }

  lemma DarwinIsMacOs()
    ensures GetOsType(Some("Darwin")) == MacOs
  {
    assert OsName(Some("Darwin")) == "darwin";
    assert OccursAt("darwin", "darwin", 0);
  }

  lemma Windows10IsWindows()
    ensures GetOsType(Some("Windows 10")) == Windows
  {
    assert OsName(Some("Windows 10")) == "windows 10";
    assert OccursAt("windows 10", "win", 0);
    NotContainsMissingChar("windows 10", "mac", 'm');
    NotContainsMissingChar("windows 10", "darwin", 'a');
  }

  lemma LinuxIsLinux()
    ensures GetOsType(Some("Linux")) == Linux
  {
    assert OsName(Some("Linux")) == "linux";
    NotContainsMissingChar("linux", "mac", 'm');
    NotContainsMissingChar("linux", "darwin", 'd');
    NotContainsMissingChar("linux", "win", 'w');
  }

  /** Without the property the name is "none", which is Linux. */
  lemma MissingPropertyIsLinux()
    ensures GetOsType(None) == Linux
  {
    assert OsName(None) == "none";
    NotContainsMissingChar("none", "mac", 'm');
    NotContainsMissingChar("none", "darwin", 'd');
    NotContainsMissingChar("none", "win", 'w');
  }
}
