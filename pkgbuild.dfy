/** The PKGBUILD record of superflore's Arch generator: six dependency lists
    filled by insertion-time routing, keywords and metadata fields, and the
    renderer that turns them into the text of a `PKGBUILD`. */
module PkgBuildModel {
  import opened Text

  datatype Option<T> = None | Some(value: T)

  /** The exceptions the modelled code raises. */
  datatype Error =
    | UnknownBuildType(buildType: string)  // `superflore.exceptions.UnknownBuildType`
    | IndexError                           // indexing past the end of a Python list
    | AttributeError                       // calling a `str` method on `None`

  datatype Result<T> = Ok(value: T) | Err(error: Error)

  /** Host-system packages that `AddRunDepend` files under the build list when external. */
  const DependOnlyPkgs: seq<string> := ["dev-util/gperf", "app-doc/doxygen", "virtual/pkgconfig"]

  /** The characters sanitisation strips from the description before rendering. */
  const IllegalDescChars: string := "()[]{}|^$\\#\t\n\r\U{000B}\U{000C}'\"`"

  /** An f-string renders `None` as the text `None`. */
  function Show(o: Option<string>): string {
    match o
    case None => "None"
    case Some(s) => s
  }

  // ---------------------------------------------------------------------------
  // Keywords

  /** A target architecture, stable or under testing. */
  datatype Keyword = Keyword(arch: string, stable: bool) {
    /** A stable keyword renders as its arch; an unstable one as its arch behind a
        single `~`. */
    function ToString(): (r: string)
      ensures |r| == if stable then |arch| else |arch| + 1
      ensures r[|r| - |arch|..] == arch
      ensures !stable ==> r[0] == '~'
    {
      if stable then arch else "~" + arch
    }

    /** Keywords compare by their rendering, not by their fields: equal stability and
        arch, or a stable arch that literally carries the `~` of the other, unstable one. */
    predicate Equals(other: Keyword)
      ensures Equals(other) <==>
        (stable == other.stable && arch == other.arch) ||
        (stable && !other.stable && arch == "~" + other.arch) ||
        (!stable && other.stable && other.arch == "~" + arch)
    {
      ToString() == other.ToString()
    }
  }

  /** Rendering is not injective: keyword equality identifies distinct records. */
  lemma KeywordEqualsCoarse()
    ensures Keyword("~x86", true).Equals(Keyword("x86", false))
    ensures Keyword("~x86", true) != Keyword("x86", false)
  {
  }

  /** An arch that does not itself start with `~` renders with a leading `~`
      exactly when the keyword is unstable. */
  lemma KeywordTilde(k: Keyword)
    requires !StartsWith(k.arch, "~")
    ensures StartsWith(k.ToString(), "~") <==> !k.stable
  {
    if !k.stable {
      assert ("~" + k.arch)[..1] == "~";
    }
  }

  // ---------------------------------------------------------------------------
  // Line helpers of the older recipe format (not used by the renderer)

  /** The compatibility line for one or several Python versions; an empty list
      is indexed at position 0 and raises. */
  function PythonCompat(versions: seq<string>): (r: Result<string>)
    ensures r.Err? <==> |versions| == 0
    ensures r.Err? ==> r.error == IndexError
    ensures |versions| == 1 ==> r == Ok("PYTHON_COMPAT=( python" + versions[0] + " )\n\n")
  {
    if |versions| > 1 then Ok("PYTHON_COMPAT=( python{" + Join(versions, ",") + "} )\n\n")
    else if |versions| == 1 then Ok("PYTHON_COMPAT=( python" + versions[0] + " )\n\n")
    else Err(IndexError)
  }

  /** With several versions, the text inside the braces splits back into them. */
  lemma PythonCompatBraces(versions: seq<string>)
    requires |versions| > 1
    requires forall i :: 0 <= i < |versions| ==> ',' !in versions[i]
    ensures var t := PythonCompat(versions).value;
      var head, tail := "PYTHON_COMPAT=( python{", "} )\n\n";
      |head| + |tail| <= |t| && t[..|head|] == head && t[|t| - |tail|..] == tail &&
      Split(t[|head|..|t| - |tail|], ',') == versions
  {
    var head, tail, inner := "PYTHON_COMPAT=( python{", "} )\n\n", Join(versions, ",");
    var t := head + inner + tail;
    assert t[|head|..|t| - |tail|] == inner;
    SplitJoin(versions, ',');
  }

  // ---------------------------------------------------------------------------
  // Rendering, as specification functions over the fields the renderer reads

  /** The fields `get_pkgbuild_text` reads; nothing else of the record reaches the text. */
  datatype RecipeView = RecipeView(
    distro: Option<string>,
    name: Option<string>,
    description: string,
    homepage: string,
    version: Option<string>,
    upstreamLicense: seq<string>,
    depends: seq<string>,
    dependsExternal: seq<string>,
    rdepends: seq<string>,
    rdependsExternal: seq<string>,
    srcUri: Option<string>)

  /** `pkgver` and `pkgrel`: the first `-`-field of the version, and the second one
      without its leading tag character. */
  function VersionParts(version: Option<string>): (r: Result<(string, string)>)
    ensures version.None? <==> r == Err(AttributeError)
    ensures version.Some? ==> (r.Ok? <==> '-' in version.value)
    ensures version.Some? && r.Err? ==> r.error == IndexError
  {
    match version
    case None => Err(AttributeError)
    case Some(v) =>
      SplitHasSecondField(v, '-');
      var fields := Split(v, '-');
      if |fields| < 2 then Err(IndexError) else Ok((fields[0], DropFirst(fields[1])))
  }

  /** A version `upstream-<tag>release` gives `upstream` and `release` when neither
      part contains a dash, whatever follows a further dash; an empty second field,
      at the end or followed by more fields, gives an empty release. */
  lemma VersionPartsOf(upstream: string, tag: char, release: string, extra: string)
    requires '-' !in upstream && '-' !in release && tag != '-'
    ensures VersionParts(Some(upstream + "-" + [tag] + release)) == Ok((upstream, release))
    ensures VersionParts(Some(upstream + "-" + [tag] + release + "-" + extra)) == Ok((upstream, release))
    ensures VersionParts(Some(upstream + "-")) == Ok((upstream, ""))
    ensures VersionParts(Some(upstream + "--" + extra)) == Ok((upstream, ""))
  {
    var field := [tag] + release;
    assert '-' !in field;
    assert upstream + "-" + [tag] + release == upstream + ['-'] + field;
    SplitFirstField(upstream, field, '-');
    SplitWithoutSeparator(field, '-');
    assert upstream + "-" + [tag] + release + "-" + extra == upstream + ['-'] + (field + ['-'] + extra);
    SplitFirstField(upstream, field + ['-'] + extra, '-');
    SplitFirstField(field, extra, '-');
    assert upstream + "-" == upstream + ['-'] + "";
    SplitFirstField(upstream, "", '-');
    assert upstream + "--" + extra == upstream + ['-'] + ("" + ['-'] + extra);
    SplitFirstField(upstream, "" + ['-'] + extra, '-');
    SplitFirstField("", extra, '-');
  }

  /** Two typical versions, and one without a release field. */
  lemma VersionPartsExamples()
    ensures VersionParts(Some("1.2.3-r4")) == Ok(("1.2.3", "4"))
    ensures VersionParts(Some("0.9.0-p10")) == Ok(("0.9.0", "10"))
    ensures VersionParts(Some("1.2.3")) == Err(IndexError)
  {
    assert "1.2.3-r4" == "1.2.3" + "-" + ['r'] + "4";
    VersionPartsOf("1.2.3", 'r', "4", "");
    assert "0.9.0-p10" == "0.9.0" + "-" + ['p'] + "10";
    VersionPartsOf("0.9.0", 'p', "10", "");
  }

  /** The python3 rewrite of one dependency entry. */
  function PythonRewrite(dep: string): string {
    if StartsWith(dep, "python3") then ReplaceFirst(dep, "python3", "python") else dep
  }

  /** Internal names get the `ros-<distro>-` namespace prefix. */
  function Prefixed(distro: string, internal: seq<string>): (r: seq<string>)
    ensures |r| == |internal|
    ensures forall i :: 0 <= i < |r| ==> r[i] == "ros-" + distro + "-" + internal[i]
  {
    seq(|internal|, i requires 0 <= i < |internal| => "ros-" + distro + "-" + internal[i])
  }

  /** The entries of a `makedepends` or `depends` line: prefixed internal names,
      then external names, each with the python3 rewrite applied. */
  function DependencyEntries(distro: string, internal: seq<string>, external: seq<string>): seq<string> {
    var all := Prefixed(distro, internal) + external;
    seq(|all|, i requires 0 <= i < |all| => PythonRewrite(all[i]))
  }

  /** What each dependency entry is: internal names keep their order and are never
      rewritten; external names follow them and are rewritten exactly when they start
      with `python3`, into `python` followed by the rest of the name. */
  lemma DependencyEntriesShape(distro: string, internal: seq<string>, external: seq<string>)
    ensures |DependencyEntries(distro, internal, external)| == |internal| + |external|
    ensures forall i :: 0 <= i < |internal| ==>
      DependencyEntries(distro, internal, external)[i] == "ros-" + distro + "-" + internal[i]
    ensures forall j :: 0 <= j < |external| ==>
      DependencyEntries(distro, internal, external)[|internal| + j] ==
        if StartsWith(external[j], "python3") then "python" + external[j][7..] else external[j]
  {
    var e := DependencyEntries(distro, internal, external);
    forall i | 0 <= i < |internal|
      ensures e[i] == "ros-" + distro + "-" + internal[i]
    {
      var p := "ros-" + distro + "-" + internal[i];
      assert p[0] == 'r';
      assert !StartsWith(p, "python3");
    }
    forall j | 0 <= j < |external| && StartsWith(external[j], "python3")
      ensures e[|internal| + j] == "python" + external[j][7..]
    {
      ReplaceFirstAtStart(external[j], "python3", "python");
    }
  }

  /** Each license identifier in single quotes. */
  function Quoted(licenses: seq<string>): (r: seq<string>)
    ensures |r| == |licenses|
    ensures forall i :: 0 <= i < |r| ==> r[i] == "'" + licenses[i] + "'"
  {
    seq(|licenses|, i requires 0 <= i < |licenses| => "'" + licenses[i] + "'")
  }

  /** The fixed `build()` shell block, parameterised by the distribution name. */
  function BuildBlock(distro: string): string {
    "\nbuild() {\n    cd \"${srcdir}\"\n    [ -f /opt/ros/" + distro + "/setup.bash ] && source /opt/ros/"
    + distro + "/setup.bash\n    colcon build\n}\n"
  }

  /** The fixed `package()` shell block, parameterised by the distribution name. */
  function PackageBlock(distro: string): string {
    var root := "\"${pkgdir}\"/opt/ros/" + distro;
    "\npackage() {\n    cd \"${srcdir}\"\n    colcon build --install-base " + root
    + "\n    rm " + root + "/*setup*\n    rm " + root + "/COLCON_IGNORE\n    rm " + root
    + "/.colcon_install_layout\n    chown -R ros:ros " + root + "\n    chmod -R 777 " + root + "\n}\n"
  }

  // The one-line entries, in the order they are emitted.
  const ScriptLine: string := "# Script generated with superflore"
  // One literal in the generator; written as two here so that the absence of a
  // newline is proved piecewise.
  const MaintainerLine: string := "# Maintainer: Sebastian Mai " + "<sebastian.mai@ovgu.de>"
  function PkgnameLine(distro: string, name: string): string { "pkgname='ros-" + distro + "-" + name + "'" }
  function PkgdescLine(description: string): string { "pkgdesc=\"" + description + "\"" }
  function UrlLine(homepage: string): string { "url=" + homepage }
  function PkgverLine(pkgver: string): string { "pkgver=" + pkgver }
  const ArchLine: string := "arch=('any')"
  function PkgrelLine(pkgrel: string): string { "pkgrel=" + pkgrel }
  function LicenseLine(licenses: seq<string>): string { "license=(" + Join(Quoted(licenses), " ") + ")" }
  const EpochLine: string := "epoch=0"
  function GroupsLine(distro: string): string { "groups=('ros' 'ros-" + distro + "')" }
  function MakedependsLine(entries: seq<string>): string { "makedepends=(" + Join(entries, " ") + ")" }
  function DependsLine(entries: seq<string>): string { "depends=(" + Join(entries, " ") + ")" }
  function SourceLine(distro: string, name: string, version: string, srcUri: string): string {
    "source=(\"ros-" + distro + "-" + name + "-" + version + ".tar.gz::" + srcUri + "\")"
  }
  const Md5sumsLine: string := "md5sums=('SKIP')"

  /** The fifteen one-line entries of the recipe, in their fixed order. */
  function HeaderEntries(v: RecipeView, pkgver: string, pkgrel: string): (r: seq<string>)
    ensures |r| == 15
  {
    var d := Show(v.distro);
    [ ScriptLine,
      MaintainerLine,
      PkgnameLine(d, Show(v.name)),
      PkgdescLine(v.description),
      UrlLine(v.homepage),
      PkgverLine(pkgver),
      ArchLine,
      PkgrelLine(pkgrel),
      LicenseLine(v.upstreamLicense),
      EpochLine,
      GroupsLine(d),
      MakedependsLine(DependencyEntries(d, v.depends, v.dependsExternal)),
      DependsLine(DependencyEntries(d, v.rdepends, v.rdependsExternal)),
      SourceLine(d, Show(v.name), Show(v.version), Show(v.srcUri)),
      Md5sumsLine ]
  }

  /** The text of the recipe: the fifteen entries and the two shell blocks joined by
      newlines, or the error the version split raises. */
  function RecipeText(v: RecipeView): (r: Result<string>)
    ensures r.Ok? <==> v.version.Some? && '-' in v.version.value
  {
    match VersionParts(v.version)
    case Err(e) => Err(e)
    case Ok((pkgver, pkgrel)) =>
      var d := Show(v.distro);
      Ok(Join(HeaderEntries(v, pkgver, pkgrel) + [BuildBlock(d), PackageBlock(d)], "\n"))
  }

  /** No character `c` occurs anywhere in the rendered fields. */
  predicate FieldsAvoid(v: RecipeView, c: char) {
    c !in Show(v.distro) && c !in Show(v.name) && c !in v.description && c !in v.homepage &&
    c !in Show(v.version) && c !in Show(v.srcUri) &&
    (forall i :: 0 <= i < |v.upstreamLicense| ==> c !in v.upstreamLicense[i]) &&
    (forall i :: 0 <= i < |v.depends| ==> c !in v.depends[i]) &&
    (forall i :: 0 <= i < |v.dependsExternal| ==> c !in v.dependsExternal[i]) &&
    (forall i :: 0 <= i < |v.rdepends| ==> c !in v.rdepends[i]) &&
    (forall i :: 0 <= i < |v.rdependsExternal| ==> c !in v.rdependsExternal[i])
  }

  /** The dependency line of names without `c` has no `c`, for a `c` outside the
      prefix and the rewrite's replacement text. */
  lemma DependencyLineAvoids(distro: string, internal: seq<string>, external: seq<string>, c: char)
    requires c !in distro && c !in "ros-python "
    requires forall i :: 0 <= i < |internal| ==> c !in internal[i]
    requires forall i :: 0 <= i < |external| ==> c !in external[i]
    ensures c !in Join(DependencyEntries(distro, internal, external), " ")
  {
    var all := Prefixed(distro, internal) + external;
    var e := DependencyEntries(distro, internal, external);
    forall i | 0 <= i < |e| ensures c !in e[i] {
      assert c !in all[i];
      if StartsWith(all[i], "python3") {
        ReplaceFirstAvoids(all[i], "python3", "python", c);
      }
    }
    JoinAvoids(e, " ", c);
  }

  /** The constant entries hold no newline. */
  lemma ConstantLinesSingle()
    ensures '\n' !in ScriptLine && '\n' !in MaintainerLine && '\n' !in ArchLine
    ensures '\n' !in EpochLine && '\n' !in Md5sumsLine
  {
  }

  /** None of the fifteen one-line entries contains a newline when the fields do not. */
  lemma HeaderEntriesSingleLine(v: RecipeView, pkgver: string, pkgrel: string)
    requires FieldsAvoid(v, '\n') && '\n' !in pkgver && '\n' !in pkgrel
    ensures forall i :: 0 <= i < 15 ==> '\n' !in HeaderEntries(v, pkgver, pkgrel)[i]
  {
    var d := Show(v.distro);
    ConstantLinesSingle();
    FieldLinesSingle(v, pkgver, pkgrel);
    ListLinesSingle(v);
    DependencyLineAvoids(d, v.depends, v.dependsExternal, '\n');
    DependencyLineAvoids(d, v.rdepends, v.rdependsExternal, '\n');
  }

  /** The entries that quote one field hold no newline when the field holds none. */
  lemma FieldLinesSingle(v: RecipeView, pkgver: string, pkgrel: string)
    requires FieldsAvoid(v, '\n') && '\n' !in pkgver && '\n' !in pkgrel
    ensures '\n' !in PkgnameLine(Show(v.distro), Show(v.name)) && '\n' !in PkgdescLine(v.description)
    ensures '\n' !in UrlLine(v.homepage) && '\n' !in PkgverLine(pkgver) && '\n' !in PkgrelLine(pkgrel)
  {
  }

  /** The license, groups and source entries hold no newline when their fields hold none. */
  lemma ListLinesSingle(v: RecipeView)
    requires FieldsAvoid(v, '\n')
    ensures var d := Show(v.distro);
      '\n' !in LicenseLine(v.upstreamLicense) && '\n' !in GroupsLine(d) &&
      '\n' !in SourceLine(d, Show(v.name), Show(v.version), Show(v.srcUri))
  {
    JoinAvoids(Quoted(v.upstreamLicense), " ", '\n');
  }

  /** Read line by line, a rendered recipe whose fields hold no newline starts with
      exactly the fifteen entries, in order (the shell blocks follow). */
  lemma RecipeLines(v: RecipeView)
    requires RecipeText(v).Ok?
    requires FieldsAvoid(v, '\n')
    ensures var parts := VersionParts(v.version).value;
      var lines := Split(RecipeText(v).value, '\n');
      |lines| >= 15 && lines[..15] == HeaderEntries(v, parts.0, parts.1)
  {
    var parts := VersionParts(v.version).value;
    var d := Show(v.distro);
    SplitFieldsAvoid(v.version.value, '-', '\n');
    var fields := Split(v.version.value, '-');
    assert parts == (fields[0], DropFirst(fields[1]));
    HeaderEntriesSingleLine(v, parts.0, parts.1);
    SplitJoinPrefix(HeaderEntries(v, parts.0, parts.1), [BuildBlock(d), PackageBlock(d)], '\n');
  }

  // ---------------------------------------------------------------------------
  // The record

  /** One dependency line's entries, built as the renderer does: the prefixed internal
      names followed by the external names, then rewritten in place entry by entry. */
  method DependencyList(distro: string, internal: seq<string>, external: seq<string>)
    returns (deps: seq<string>)
    ensures deps == DependencyEntries(distro, internal, external)
  {
    deps := Prefixed(distro, internal) + external;
    ghost var all := deps;
    var i := 0;
    while i < |deps|
      invariant |deps| == |all| && 0 <= i <= |deps|
      invariant forall k :: 0 <= k < |deps| ==> deps[k] == if k < i then PythonRewrite(all[k]) else all[k]
    {
      if StartsWith(deps[i], "python3") {
        deps := deps[i := ReplaceFirst(deps[i], "python3", "python")];
      }
      i := i + 1;
    }
  }

  class PkgBuild {
    var eapi: string
    var description: string
    var homepage: string
    var srcUri: Option<string>
    var upstreamLicense: seq<string>
    var keys: seq<Keyword>
    var rdepends: seq<string>
    var rdependsExternal: seq<string>
    var depends: seq<string>
    var dependsExternal: seq<string>
    var tdepends: seq<string>
    var tdependsExternal: seq<string>
    var distro: Option<string>
    var cmakePackage: bool
    var baseYml: Option<string>
    var version: Option<string>
    var unresolvedDeps: seq<string>
    var name: Option<string>
    var hasPatches: bool
    var buildType: string
    var isRos2: bool
    var python3: bool
    var patches: seq<string>

    /** The descriptive fields package metadata would overwrite, at their defaults. */
    ghost predicate MetadataDefaults()
      reads this`upstreamLicense, this`description, this`homepage, this`buildType
    {
      upstreamLicense == ["LGPL-2"] && description == "" &&
      homepage == "https://wiki.ros.org" && buildType == "catkin"
    }

    /** No unresolved dependency is recorded. Only `unresolvedDeps` matters, so
        assigning any other field (name, version, patches, ...) keeps it. */
    ghost predicate NoneUnresolved()
      reads this`unresolvedDeps
    {
      unresolvedDeps == []
    }

    /** The fields neither the population nor the rendering assigns, at their defaults. */
    ghost predicate FixedDefaults()
      reads this`eapi, this`cmakePackage, this`baseYml, this`version
      reads this`unresolvedDeps, this`name, this`isRos2, this`patches
    {
      eapi == "6" && cmakePackage && baseYml.None? && version.None? &&
      NoneUnresolved() && name.None? && isRos2 == false && patches == []
    }

    /** A fresh record: every list empty and every field at its default. */
    ghost predicate Defaults()
      reads this
    {
      MetadataDefaults() && FixedDefaults() && srcUri.None? && distro.None? &&
      keys == [] && rdepends == [] && rdependsExternal == [] && depends == [] &&
      dependsExternal == [] && tdepends == [] && tdependsExternal == [] &&
      !hasPatches && python3
    }

    /** No build-list entry is also a run-list entry. */
    ghost predicate BuildRunDisjoint()
      reads this`depends, this`dependsExternal, this`rdepends, this`rdependsExternal
    {
      forall d :: d in depends || d in dependsExternal ==> d !in rdepends && d !in rdependsExternal
    }

    /** The fields the renderer reads. */
    function View(): RecipeView
      reads this
    {
      RecipeView(distro, name, description, homepage, version, upstreamLicense,
                 depends, dependsExternal, rdepends, rdependsExternal, srcUri)
    }

    constructor ()
      ensures Defaults()
    {
      eapi := "6";
      description := "";
      homepage := "https://wiki.ros.org";
      srcUri := None;
      upstreamLicense := ["LGPL-2"];
      keys := [];
      rdepends := [];
      rdependsExternal := [];
      depends := [];
      dependsExternal := [];
      tdepends := [];
      tdependsExternal := [];
      distro := None;
      cmakePackage := true;
      baseYml := None;
      version := None;
      unresolvedDeps := [];
      name := None;
      hasPatches := false;
      buildType := "catkin";
      isRos2 := false;
      python3 := true;
      patches := [];
    }

    /** A build dependency is dropped when the name is already a run dependency;
        otherwise it is appended once to the internal or the external build list. */
    method AddBuildDepend(depend: string, internal: bool := true)
      modifies this`depends, this`dependsExternal
      ensures depend in rdepends || depend in rdependsExternal ==>
        depends == old(depends) && dependsExternal == old(dependsExternal)
      ensures depend !in rdepends && depend !in rdependsExternal && internal ==>
        depends == old(depends) + [depend] && dependsExternal == old(dependsExternal)
      ensures depend !in rdepends && depend !in rdependsExternal && !internal ==>
        depends == old(depends) && dependsExternal == old(dependsExternal) + [depend]
      ensures old(BuildRunDisjoint()) ==> BuildRunDisjoint()
    {
      if depend in rdepends {
        return;
      } else if depend in rdependsExternal {
        return;
      } else if internal {
        depends := depends + [depend];
      } else {
        dependsExternal := dependsExternal + [depend];
      }
    }

    /** A run dependency goes to the internal or the external run list, except that
        an external name of `DependOnlyPkgs` goes to the external build list. */
    method AddRunDepend(rdepend: string, internal: bool := true)
      modifies this`rdepends, this`rdependsExternal, this`dependsExternal
      ensures rdepend in DependOnlyPkgs && !internal ==>
        dependsExternal == old(dependsExternal) + [rdepend] &&
        rdepends == old(rdepends) && rdependsExternal == old(rdependsExternal)
      ensures internal ==>
        rdepends == old(rdepends) + [rdepend] &&
        rdependsExternal == old(rdependsExternal) && dependsExternal == old(dependsExternal)
      ensures rdepend !in DependOnlyPkgs && !internal ==>
        rdependsExternal == old(rdependsExternal) + [rdepend] &&
        rdepends == old(rdepends) && dependsExternal == old(dependsExternal)
    {
      if rdepend in DependOnlyPkgs && !internal {
        dependsExternal := dependsExternal + [rdepend];
      } else if internal {
        rdepends := rdepends + [rdepend];
      } else {
        rdependsExternal := rdependsExternal + [rdepend];
      }
    }

    /** A test dependency goes to the internal or the external test list. */
    method AddTestDepend(tdepend: string, internal: bool := true)
      modifies this`tdepends, this`tdependsExternal
      ensures internal ==> tdepends == old(tdepends) + [tdepend] && tdependsExternal == old(tdependsExternal)
      ensures !internal ==> tdependsExternal == old(tdependsExternal) + [tdepend] && tdepends == old(tdepends)
    {
      if !internal {
        tdependsExternal := tdependsExternal + [tdepend];
      } else {
        tdepends := tdepends + [tdepend];
      }
    }

    /** Appends a keyword, unstable unless told otherwise. */
    method AddKeyword(keyword: string, stable: bool := false)
      modifies this`keys
      ensures keys == old(keys) + [Keyword(keyword, stable)]
    {
      keys := keys + [Keyword(keyword, stable)];
    }

    /** The `EAPI=` line of the older recipe format. */
    function EapiLine(): (r: string)
      reads this`eapi
      ensures |r| == |eapi| + 6 && r[..5] == "EAPI=" && r[5..|r| - 1] == eapi && r[|r| - 1] == '\n'
      ensures eapi == "6" ==> r == "EAPI=6\n"
    {
      "EAPI=" + eapi + "\n"
    }

    /** The inheritance line for the build type; any other build type raises. */
    function InheritLine(): (r: Result<string>)
      reads this
      ensures r.Ok? <==> buildType in ["catkin", "cmake", "ament_python", "ament_cmake"]
      ensures buildType == "catkin" || buildType == "cmake" ==> r == Ok("inherit ros-cmake\n\n")
      ensures buildType == "ament_python" ==> r == Ok("inherit ament-python\n\n")
      ensures buildType == "ament_cmake" ==> r == Ok("inherit ament-cmake\n\n")
      ensures r.Err? ==> r.error == UnknownBuildType(buildType)
    {
      if buildType in ["catkin", "cmake"] then Ok("inherit ros-cmake\n\n")
      else if buildType == "ament_python" then Ok("inherit ament-python\n\n")
      else if buildType == "ament_cmake" then Ok("inherit ament-cmake\n\n")
      else Err(UnknownBuildType(buildType))
    }

    /** The unresolved dependencies; nothing in the generator ever records one. */
    function GetUnresolved(): (r: seq<string>)
      reads this`unresolvedDeps
      ensures NoneUnresolved() ==> r == []
    {
      unresolvedDeps
    }

    /** The fifteen entries ahead of the shell blocks, appended in the order the
        recipe lists them, for the version fields `pkgver` and `pkgrel`. */
    method HeaderLines(pkgver: string, pkgrel: string) returns (entries: seq<string>)
      ensures entries == HeaderEntries(View(), pkgver, pkgrel)
    {
      entries := [];
      entries := entries + [ScriptLine];
      entries := entries + [MaintainerLine];
      var d := Show(distro);
      entries := entries + [PkgnameLine(d, Show(name))];
      entries := entries + [PkgdescLine(description)];
      entries := entries + [UrlLine(homepage)];
      entries := entries + [PkgverLine(pkgver)];
      entries := entries + [ArchLine];
      entries := entries + [PkgrelLine(pkgrel)];
      entries := entries + [LicenseLine(upstreamLicense)];
      entries := entries + [EpochLine];
      entries := entries + [GroupsLine(d)];
      var dependencies := DependencyList(d, depends, dependsExternal);
      entries := entries + [MakedependsLine(dependencies)];
      var rdependencies := DependencyList(d, rdepends, rdependsExternal);
      entries := entries + [DependsLine(rdependencies)];
      entries := entries + [SourceLine(d, Show(name), Show(version), Show(srcUri))];
      entries := entries + [Md5sumsLine];
    }

    /** Renders the recipe. First the description is replaced by its sanitised,
        trimmed form (this happens even when the version split then raises);
        `distributor` and `licenseText` are accepted and not used. */
    method GetPkgbuildText(distributor: string, licenseText: string,
                           sanitize: (string, string) -> string, trim: string -> string)
      returns (r: Result<string>)
      modifies this`description
      ensures description == trim(sanitize(old(description), IllegalDescChars))
      ensures r == RecipeText(View())
    {
      description := sanitize(description, IllegalDescChars);
      description := trim(description);
      if version.None? {
        return Err(AttributeError);
      }
      var fields := Split(version.value, '-');
      if |fields| < 2 {
        return Err(IndexError);
      }
      var versionStr, rc := fields[0], DropFirst(fields[1]);
      assert VersionParts(version) == Ok((versionStr, rc));
      var entries := HeaderLines(versionStr, rc);
      ghost var header := entries;
      var d := Show(distro);
      entries := entries + [BuildBlock(d)];
      entries := entries + [PackageBlock(d)];
      assert entries == header + [BuildBlock(d), PackageBlock(d)];
      r := Ok(Join(entries, "\n"));
    }
  }
}
