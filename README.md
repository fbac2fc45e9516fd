# superflore's Arch PKGBUILD generator, in Dafny

superflore turns the packages of a ROS distribution into build recipes for other
package managers. This project models its Arch Linux back end: the `PkgBuild`
record and its renderer (`superflore/generators/pkgbuild/pkgbuild.py`), and the
population step that fills one record per package
(`superflore/generators/pkgbuild/gen_packages.py`).

Three modules:

- `Text` has the Python `str` operations the renderer relies on: `split` on one
  character, `join`, `startswith`, `s[1:]` and `replace(pat, rep, 1)`. Each one
  behaves as CPython does. Lemmas relate them, e.g. `split` undoes `join`.
- `PkgBuildModel` has the keyword type and the class `PkgBuild`, whose fields are
  the record's fields.
  - `add_build_depend`, `add_run_depend`, `add_test_depend` and `add_keyword`
    are methods. Each has a field-level `modifies` frame and a postcondition for
    every branch.
  - The rendered text is a specification function, `RecipeText`. It is defined
    over `RecipeView`, the fields the renderer reads.
  - `GetPkgbuildText` renders the text imperatively, as the source does: it grows
    an entry list and rewrites the dependency entries in place in a loop. It is
    proved equal to `RecipeText`.
  - Lemmas about `RecipeText` cover the version split into `pkgver` and
    `pkgrel`, the `ros-<distro>-` prefix and the `python3` rewrite, and the fixed
    order of the entries.
- `GenPackages` models `_gen_pkgbuild_for_package` and the class `arch_pkgbuild`.
  - The collaborators become a `Fetched` value: the archive URI, the
    distribution's package-name set, the four dependency lists and the metadata.
    The metadata is `None` when its fetch fails.
  - The four dependency loops, the keyword loop and the metadata copy are methods
    over a `PkgBuild`.
  - A reference definition (`Route` and `Select`) says where each dependency must
    end up. The predicate `Populated` states the whole resulting record.
  - Lemmas derive the routing properties from `Populated`: internal exactly when
    the name is a distribution package, the run side winning over the build side,
    and no de-duplication.

Python's `None` is `Option.None`; an f-string renders it as the text `None`. The
`IndexError`, `AttributeError` and `UnknownBuildType` exceptions become `Err`
values of `Result`.

### Behaviour worth knowing

- An external run dependency from the depend-only list (`dev-util/gperf`,
  `app-doc/doxygen`, `virtual/pkgconfig`) goes to `depends_external`, the
  external *build* list, not to `rdepends_external` (pkgbuild.py:89-90).
- The walker is queried in the order buildtool, build, run, test
  (gen_packages.py:129-132). The dependencies are inserted in a different order:
  run, build, buildtool, test (gen_packages.py:136-150). The insertion order is
  why a name that is both a run and a build dependency ends up on the run side
  only.
- `pkgrel` is the second `-`-separated field of the version without its first
  character (pkgbuild.py:151). It is not everything after the first dash. An
  empty second field gives an empty `pkgrel`.
- The build type does not influence the rendered text. The renderer never calls
  `get_inherit_line`, the `build()` and `package()` blocks are fixed, and
  rendering cannot raise `UnknownBuildType` (pkgbuild.py:134-192).
- A name is not confined to one of the six lists.
  - A depend-only package that is both a run and a build dependency is on the
    external build list twice (`DependOnlyListedTwice`).
  - A package can be on a build list and a test list at once
    (`BuildAndTestShare`).
  - Only the build and run sides are disjoint (`PopulatedDisjoint`).
- The renderer emits 17 entries: two comment lines, thirteen `key=value` lines and
  the two shell blocks (pkgbuild.py:140-191).

## Model

| member | source | states |
|---|---|---|
| Text.DropFirst | superflore/generators/pkgbuild/pkgbuild.py:151 | `s[1:]` is the string minus its first character, and empty for the empty string |
| Text.SplitHasSecondField | superflore/generators/pkgbuild/pkgbuild.py:150-151 | `version.split("-")[1]` exists exactly when the version contains a dash |
| Text.SplitJoin | superflore/generators/pkgbuild/pkgbuild.py:118 | splitting a `join` on the same one-character separator gives back the list when no element contains the separator |
| Text.SplitJoinPrefix | superflore/generators/pkgbuild/pkgbuild.py:192 | the first fields of a newline-joined list are its leading one-line entries, whatever follows them |
| Text.ReplaceFirstAtStart | superflore/generators/pkgbuild/pkgbuild.py:161-162 | for a string that starts with the pattern, `replace(pat, rep, 1)` swaps exactly that prefix |
| PkgBuildModel.Keyword.ToString | superflore/generators/pkgbuild/pkgbuild.py:37-41 | a stable keyword renders as its arch; an unstable one as its arch behind a single leading `~` |
| PkgBuildModel.Keyword.Equals | superflore/generators/pkgbuild/pkgbuild.py:43-44 | two keywords are equal exactly when their renderings are: the same stability and arch, or a stable arch that literally carries the other's `~` |
| PkgBuildModel.KeywordEqualsCoarse | superflore/generators/pkgbuild/pkgbuild.py:43-44 | keyword equality is coarser than field equality: stable `~x86` equals unstable `x86` |
| PkgBuildModel.KeywordTilde | superflore/generators/pkgbuild/pkgbuild.py:37-41 | for an arch without a leading `~`, the rendering starts with `~` exactly when the keyword is unstable |
| PkgBuildModel.PythonCompat | superflore/generators/pkgbuild/pkgbuild.py:115-121 | an empty version list raises (index error); one version is emitted bare; several are emitted in braces |
| PkgBuildModel.PythonCompatBraces | superflore/generators/pkgbuild/pkgbuild.py:117-118 | with several versions, the text between the braces splits on `,` back into the versions |
| PkgBuildModel.VersionParts | superflore/generators/pkgbuild/pkgbuild.py:150-151 | no version raises `AttributeError`; a version without a dash raises `IndexError`; otherwise the split succeeds |
| PkgBuildModel.VersionPartsOf | superflore/generators/pkgbuild/pkgbuild.py:150-151 | `upstream-<tag>release` gives `pkgver` `upstream` and `pkgrel` `release`, whatever follows a further dash; an empty second field (`upstream-` or `upstream--…`) gives an empty `pkgrel` |
| PkgBuildModel.VersionPartsExamples | superflore/generators/pkgbuild/pkgbuild.py:150-153 | `1.2.3-r4` gives `1.2.3`/`4`, `0.9.0-p10` gives `0.9.0`/`10`, and `1.2.3` raises `IndexError` |
| PkgBuildModel.DependencyEntriesShape | superflore/generators/pkgbuild/pkgbuild.py:159-170 | a dependency line's entries: the internal names in order with the `ros-<distro>-` prefix and never rewritten, then the external names, each rewritten to `python` + rest exactly when it starts with `python3` |
| PkgBuildModel.DependencyLineAvoids | superflore/generators/pkgbuild/pkgbuild.py:159-170 | the rendered dependency line introduces no character that is absent from the names, the distribution, the prefix and the rewrite |
| PkgBuildModel.HeaderEntriesSingleLine | superflore/generators/pkgbuild/pkgbuild.py:140-172 | none of the fifteen one-line entries contains a newline when the fields contain none |
| PkgBuildModel.RecipeText | superflore/generators/pkgbuild/pkgbuild.py:134-192 | rendering succeeds exactly when the version is set and contains a dash |
| PkgBuildModel.RecipeLines | superflore/generators/pkgbuild/pkgbuild.py:140-192 | read line by line, a rendered text whose fields have no newline starts with exactly the fifteen entries in their fixed order |
| PkgBuildModel.DependencyList | superflore/generators/pkgbuild/pkgbuild.py:159-170 | the prefix-concatenate-then-rewrite-in-place loop yields exactly the specified dependency entries |
| PkgBuildModel.PkgBuild.constructor | superflore/generators/pkgbuild/pkgbuild.py:52-76 | every field at its default: EAPI 6, empty description, the ROS wiki homepage, license `LGPL-2`, `catkin`, Python 3 on, no patches, empty lists |
| PkgBuildModel.PkgBuild.AddBuildDepend | superflore/generators/pkgbuild/pkgbuild.py:78-86 | a no-op when the name is already a run dependency; otherwise the name is appended exactly once to the internal or the external build list, with no de-duplication; every other list is untouched; the build and run lists stay disjoint |
| PkgBuildModel.PkgBuild.AddRunDepend | superflore/generators/pkgbuild/pkgbuild.py:88-94 | an external depend-only name goes to the external build list; otherwise the name goes to the internal or the external run list; no other list changes |
| PkgBuildModel.PkgBuild.AddTestDepend | superflore/generators/pkgbuild/pkgbuild.py:96-100 | appends to the internal or the external test list only |
| PkgBuildModel.PkgBuild.AddKeyword | superflore/generators/pkgbuild/pkgbuild.py:102-103 | appends one keyword, unstable by default, and changes nothing else |
| PkgBuildModel.PkgBuild.EapiLine | superflore/generators/pkgbuild/pkgbuild.py:112-113 | the line is `EAPI=`, the record's EAPI and a newline; with EAPI 6, the only value ever stored, it is `EAPI=6` |
| PkgBuildModel.PkgBuild.InheritLine | superflore/generators/pkgbuild/pkgbuild.py:123-132 | `catkin` and `cmake` map to `ros-cmake`; `ament_python` and `ament_cmake` map to their own eclasses; exactly every other build type raises `UnknownBuildType` |
| PkgBuildModel.PkgBuild.GetUnresolved | superflore/generators/pkgbuild/pkgbuild.py:194-195 | empty while no unresolved dependency is recorded, which holds for every record here, since nothing assigns `unresolved_deps` |
| PkgBuildModel.PkgBuild.HeaderLines | superflore/generators/pkgbuild/pkgbuild.py:140-172 | the appended entries are the fifteen specified one-line entries, in order |
| PkgBuildModel.PkgBuild.GetPkgbuildText | superflore/generators/pkgbuild/pkgbuild.py:134-192 | the description is replaced by its sanitised, trimmed form even when rendering then fails; the result is `RecipeText` of the record's rendered fields; it ignores the distributor, the license text, the test lists, the keywords, the build type, EAPI and Python 3 |
| GenPackages.SelectMembers | superflore/generators/pkgbuild/gen_packages.py:136-150 | a name is in a bucket's selection exactly when it is in the input and routes to that bucket |
| GenPackages.AddRunDepends | superflore/generators/pkgbuild/gen_packages.py:136-138 | the run loop appends to the internal run, external run and external build lists exactly their routed selections, in input order |
| GenPackages.AddBuildDepends | superflore/generators/pkgbuild/gen_packages.py:140-146 | once the run lists are in place, a build or buildtool loop appends to the two build lists exactly the names that route there |
| GenPackages.AddTestDepends | superflore/generators/pkgbuild/gen_packages.py:148-150 | the test loop appends exactly the internal and the external test dependencies |
| GenPackages.AddDependencies | superflore/generators/pkgbuild/gen_packages.py:136-150 | the four loops run in the order run, build, buildtool, test; starting from empty lists they leave the six lists equal to the routed selections |
| GenPackages.AddKeywords | superflore/generators/pkgbuild/gen_packages.py:152-154 | the keyword loop appends every architecture as an unstable keyword, in order |
| GenPackages.CopyMetadata | superflore/generators/pkgbuild/gen_packages.py:156-166 | a failed fetch leaves the four descriptive fields as they were; a successful one replaces exactly license, description, homepage and build type |
| GenPackages.NewSourcedRecord | superflore/generators/pkgbuild/gen_packages.py:122-125 | a fresh record with the distribution and the archive URI set and everything else at its default |
| GenPackages.NewRecord | superflore/generators/pkgbuild/gen_packages.py:122-150 | the record after the dependency loops, with no keywords yet |
| GenPackages.NewKeywordedRecord | superflore/generators/pkgbuild/gen_packages.py:122-154 | the record after the keyword loop |
| GenPackages.GenPkgbuildForPackage | superflore/generators/pkgbuild/gen_packages.py:119-167 | the populated record: distribution, archive, the six routed lists, the four unstable keywords, and either the metadata or, when the fetch failed, the defaults; the patch flag is off and Python 3 on |
| GenPackages.SetFlags | superflore/generators/pkgbuild/gen_packages.py:183-186 | sets the patch flag and turns Python 3 off when asked; the record stays populated |
| GenPackages.SetIdentity | superflore/generators/pkgbuild/gen_packages.py:78-81 | assigning name, version, patches and the ROS 2 flag to a populated record leaves `get_unresolved()` empty and the EAPI line `EAPI=6`; rendering then succeeds exactly when the version contains a dash |
| GenPackages.ArchPkgbuild.constructor | superflore/generators/pkgbuild/gen_packages.py:171-186 | the record is populated; the patch flag equals the argument; Python 3 is on exactly when the package is not `tf` |
| GenPackages.ArchPkgbuild.PkgbuildText | superflore/generators/pkgbuild/gen_packages.py:188-189 | renders the record's text and sanitises its description |
| GenPackages.RunDepsPartitioned | superflore/generators/pkgbuild/gen_packages.py:137-138 | every run dependency occurrence lands in exactly one of the three lists a run dependency can reach |
| GenPackages.SelectKeepsRepeats | superflore/generators/pkgbuild/gen_packages.py:136-150 | a name listed n times among dependencies routed to a list appears there n times |
| GenPackages.ListMembers | superflore/generators/pkgbuild/gen_packages.py:126-150 | after population, a name is on each list exactly when it is a dependency of a kind that routes there |
| GenPackages.PopulatedClassification | superflore/generators/pkgbuild/gen_packages.py:126-150 | names on the internal lists are distribution packages; names on the external lists are not |
| GenPackages.PopulatedDisjoint | superflore/generators/pkgbuild/gen_packages.py:136-146 | after population no name is on both a build list and a run list |
| GenPackages.RunWinsOverBuild | superflore/generators/pkgbuild/gen_packages.py:136-146 | a name that is both a run and a build or buildtool dependency is only on the run side, unless it is an external depend-only package |
| GenPackages.DependOnlyListedTwice | superflore/generators/pkgbuild/gen_packages.py:137-142 | an external depend-only package that is both a run and a build dependency is on the external build list at least twice |
| GenPackages.PopulatedKeywords | superflore/generators/pkgbuild/gen_packages.py:134-154 | the keywords are exactly `~x86`, `~amd64`, `~arm`, `~arm64`, in that order |
| GenPackages.BuildAndTestShare | superflore/generators/pkgbuild/gen_packages.py:141-150 | a distribution package that is a build and a test dependency, but not a run dependency, is on both the internal build and the internal test list |
| GenPackages.TestDepsIndependent | superflore/generators/pkgbuild/gen_packages.py:148-150 | the test dependencies have no effect on the build and run lists |

## Left out

- `regenerate_pkg` (gen_packages.py:45-115): filesystem, glob, repository and logging plumbing.
  - The model does not cover its unknown-package check.
  - Only its field assignments after construction (gen_packages.py:78-81) are modelled, as `SetIdentity`. The model passes the patch list as a list; the source assigns `None` when the package has no patch directory.
- The network collaborators:
  - The dependency walker, `get_package_names`, `_generate_rosinstall`, `get_release_tag`, `RosPackage.get_package_xml` and `retry_on_exception` are replaced by the `Fetched` input.
  - A metadata fetch that raises is `metadata == None`.
  - Only the first component of `get_package_names(distro)` is modelled, as `pkgNames`.
- The lookups `distro.release_packages[pkg_name]` and `distro.repositories[...]` (gen_packages.py:172-173) and the errors they can raise are not modelled.
- `get_license_line` (pkgbuild.py:105-110) reads the wall clock, and the renderer never calls it.
- Helpers whose bodies are not part of this model:
  - `sanitize_string` and `trim_string` are function-typed parameters of the renderer. Their character-level effect is not stated.
  - Parsing `package.xml` into `PackageMetadata` is an input value.
- The `illegal_desc_chars` attribute is a module constant, since nothing assigns it.
- The `build()` and `package()` shell blocks are constant templates parameterised by the distribution. Shell semantics are not modelled.
- Logging (`warn`, `ok`, `err`) is not modelled.
- PkgBuildModel.PkgBuild.GetPkgbuildText: builds all fifteen entries after the version split, through `HeaderLines`. The source appends the first five before it. The difference is not observable, because a failing split discards the list.
