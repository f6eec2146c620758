# NetBeans Gradle plugin: model-cache sizing and settings file layout

This project models two pieces of the NetBeans Gradle plugin in Dafny and proves properties of them.

**Model-cache size updater** (`ModelCacheSizeAutoUpdater`, module `CacheSize`).
A model change triggers one size check. The check reads the open projects. It keeps every Gradle project whose model was set at least once. It builds a map from each build's settings directory to `numberOfProjectsInThisBuild + 1`; when several modules of one build are open, the last one in the array sets the entry. It sums the map's values and gives the total to the cache-size consumer, exactly once per check, including when the total is 0.

- The open projects are an input sequence. Each `Project` holds an optional Gradle facet with `modelEverSet`, `settingsDir` and `numberOfProjectsInThisBuild`.
- The consumer is a class that records every value it accepts.
- Java `int` arithmetic is modelled exactly, wrap-around included (`JavaLang.Wrap`). Both `numberOfProjectsInThisBuild + 1` and `result += value` wrap.
- `GetProjectSizes` and `Sum` are loops proved against the specification functions `ProjectSizes` and `ValuesSum`. Lemmas about those functions state the properties:
  - one entry per settings directory;
  - last write wins;
  - excluded projects change nothing;
  - an empty map exactly when no project is retained;
  - the sum does not depend on the order the entries are visited in;
  - when nothing overflows, the total is at least one per build.

**Settings files** (`SettingsFiles`, module `SettingsFiles`).
The main settings file is `<root>/.nb-gradle-properties`. A profile `p` is stored in `<root>/.nb-gradle/profiles/<p>.profile`. The file list for a profile is `[profile file, main file]`, or `[main file]` when there is no profile. The available profiles come from a listing of the profile directory:
- a name is kept when its lower-cased form ends with `.profile`;
- a kept name loses its last `suffixLength` = 8 characters, the length of `.profile`.

The root directory is the settings file's parent if that exists, else the project directory. A missing root directory is an error.

- Paths are `Files.Path` values: an "absolute" flag plus the list of name segments. `Child`, `Parent` and `Name` play the roles of `new File(parent, child)`, `getParentFile()` and `getName()`.
- The file system is a parameter, `Path -> DirectoryState`. It supplies `isDirectory()` and the directory's entry names, or None when listing fails.
- A null argument is `Option.None`, and a thrown exception is `Result.Failure` carrying the exception and its message.
- The main proved property is a round trip: the file name `getProfileFile(root, p)` builds for profile `p` passes the listing filter and strips back to exactly `p`, for a profile name without a path separator. A whole directory of profile files lists back exactly its profiles, in order.

## Model

| member | source | states |
|---|---|---|
| `CacheSize.ProjectSizes` | netbeans-gradle-plugin/src/main/java/org/netbeans/gradle/project/ModelCacheSizeAutoUpdater.java:74-92 | The per-build map has no more entries than there are open projects: each retained project adds at most one entry. |
| `CacheSize.ModelCacheSizeAutoUpdater.GetProjectSizes` | netbeans-gradle-plugin/src/main/java/org/netbeans/gradle/project/ModelCacheSizeAutoUpdater.java:74-92 | The loop fills a map that it creates on the first retained project. The result equals `ProjectSizes`, the in-order fold in which a later project overwrites an earlier one; the lemmas below characterise that fold. |
| `CacheSize.ModelCacheSizeAutoUpdater.Sum` | netbeans-gradle-plugin/src/main/java/org/netbeans/gradle/project/ModelCacheSizeAutoUpdater.java:66-72 | The result is the mathematical sum of all the map's values, wrapped to a Java `int`. It is 0 for an empty map. |
| `CacheSize.ModelCacheSizeAutoUpdater.CheckCacheSize` | netbeans-gradle-plugin/src/main/java/org/netbeans/gradle/project/ModelCacheSizeAutoUpdater.java:58-64 | The consumer's log grows by exactly one value: the summed per-build sizes of the given snapshot of open projects. |
| `CacheSize.ModelCacheSizeAutoUpdater.OnModelChanged` | netbeans-gradle-plugin/src/main/java/org/netbeans/gradle/project/ModelCacheSizeAutoUpdater.java:48-56 | A model change results in one size check over the open projects, so the consumer receives exactly one value. |
| `CacheSize.ModelCacheSizeAutoUpdater.Create` | netbeans-gradle-plugin/src/main/java/org/netbeans/gradle/project/ModelCacheSizeAutoUpdater.java:36-42 | A null executor fails with a NullPointerException naming `cacheSizeCheckExecutor`, and this check comes first. Otherwise a null consumer fails naming `cacheSizeUpdater`. Otherwise the result is a new updater holding both collaborators. |
| `CacheSize.ModelCacheSizeAutoUpdater.constructor` | netbeans-gradle-plugin/src/main/java/org/netbeans/gradle/project/ModelCacheSizeAutoUpdater.java:40-41 | The two final fields hold the executor and the consumer that were passed in. |
| `CacheSize.CacheSizeConsumer.Accept` | netbeans-gradle-plugin/src/main/java/org/netbeans/gradle/project/ModelCacheSizeAutoUpdater.java:63 | The consumer records the value it is given, after all earlier ones. |
| `CacheSize.ValuesSumRemove` | netbeans-gradle-plugin/src/main/java/org/netbeans/gradle/project/ModelCacheSizeAutoUpdater.java:66-72 | The sum of a map is any one entry's value plus the sum of the rest, so the unspecified `HashMap` iteration order does not affect the total. |
| `JavaLang.WrapAdd` | netbeans-gradle-plugin/src/main/java/org/netbeans/gradle/project/ModelCacheSizeAutoUpdater.java:69 | Wrapping after every `+=` gives the same `int` as wrapping the exact total once. |
| `JavaLang.Wrap` | netbeans-gradle-plugin/src/main/java/org/netbeans/gradle/project/ModelCacheSizeAutoUpdater.java:69 | Java `int` arithmetic: the result lies in the `int` range, is congruent to the exact value modulo 2^32, and is the exact value whenever that already fits. |
| `CacheSize.ValuesSumAtLeastSize` | netbeans-gradle-plugin/src/main/java/org/netbeans/gradle/project/ModelCacheSizeAutoUpdater.java:66-72 | When every value is at least 1, the sum is at least the number of entries. |
| `CacheSize.ProjectSizesKeys` | netbeans-gradle-plugin/src/main/java/org/netbeans/gradle/project/ModelCacheSizeAutoUpdater.java:76-88 | A settings directory is a key exactly when some open project has a Gradle facet, has a set model and belongs to that build. This holds in both directions. |
| `CacheSize.ProjectSizesLastWins` | netbeans-gradle-plugin/src/main/java/org/netbeans/gradle/project/ModelCacheSizeAutoUpdater.java:76-87 | The entry of a build holds `numberOfProjectsInThisBuild + 1` as an `int`, taken from the last retained project of that build in array order. |
| `CacheSize.Slots` | netbeans-gradle-plugin/src/main/java/org/netbeans/gradle/project/ModelCacheSizeAutoUpdater.java:86-87 | A build needs `numberOfProjectsInThisBuild + 1` slots, the extra one for a possible buildSrc. When the count is `Integer.MAX_VALUE` the Java addition wraps to `Integer.MIN_VALUE`. |
| `CacheSize.ExcludedProjectIgnored` | netbeans-gradle-plugin/src/main/java/org/netbeans/gradle/project/ModelCacheSizeAutoUpdater.java:77-78 | A project that has no Gradle facet, or whose model was never set, can be removed from any position without changing the map. |
| `CacheSize.ProjectSizesEmpty` | netbeans-gradle-plugin/src/main/java/org/netbeans/gradle/project/ModelCacheSizeAutoUpdater.java:75-91 | The map is empty exactly when no open project is retained. This covers an empty project array. |
| `CacheSize.RequiredCacheSizeZero` | netbeans-gradle-plugin/src/main/java/org/netbeans/gradle/project/ModelCacheSizeAutoUpdater.java:58-64 | When no project is retained, the value given to the consumer is 0. The consumer is still called. |
| `CacheSize.RequiredCacheSizeAtLeastBuilds` | netbeans-gradle-plugin/src/main/java/org/netbeans/gradle/project/ModelCacheSizeAutoUpdater.java:58-92 | Assume non-negative build sizes below the `int` maximum and a total that fits in an `int`. Then every entry is at least 1, the consumer gets the exact total over the distinct builds, and that total is at least the number of builds. |
| `CacheSize.TwoBuildsExample` | netbeans-gradle-plugin/src/main/java/org/netbeans/gradle/project/ModelCacheSizeAutoUpdater.java:58-92 | Two modules of a 3-project build, one module of a 2-project build, a non-Gradle project and a project with no model give (3+1)+(2+1) = 7. |
| `Files.Child` | src/org/netbeans/gradle/project/properties/SettingsFiles.java:53-75 | `new File(parent, child)` keeps the parent's absoluteness and all its names, and adds exactly one name below them. |
| `Files.Name` | src/org/netbeans/gradle/project/properties/SettingsFiles.java:39 | `getName()` is the last name: a path with names is its prefix with `Child` of that name, and a path without names has the name "". |
| `Files.Parent` | src/org/netbeans/gradle/project/properties/SettingsFiles.java:102 | `getParentFile()` drops exactly one name, and `Child` of the parent with the path's `Name` gives the path back. It is null only for a path with at most one name: the root, or a relative single name. |
| `SettingsFiles.SettingsDir` | src/org/netbeans/gradle/project/properties/SettingsFiles.java:51-54 | A null root directory fails with a NullPointerException naming `rootDir`; this is the only failure. Otherwise the result is the root with the `.nb-gradle` segment appended. |
| `SettingsFiles.ProfileDirectory` | src/org/netbeans/gradle/project/properties/SettingsFiles.java:56-58 | The profile directory is `<root>/.nb-gradle/profiles`. The null-root failure is passed on. |
| `SettingsFiles.ProfileFile` | src/org/netbeans/gradle/project/properties/SettingsFiles.java:60-70 | A null root fails. With no profile the result is `<root>/.nb-gradle-properties`. With profile `p` it is `<root>/.nb-gradle/profiles/<p>.profile`. |
| `SettingsFiles.MainFile` | src/org/netbeans/gradle/project/properties/SettingsFiles.java:75 | The main settings file is `<root>/.nb-gradle-properties`. |
| `SettingsFiles.FilesForProfile` | src/org/netbeans/gradle/project/properties/SettingsFiles.java:72-84 | A null root fails; any other root succeeds. The list has 1 element without a profile and 2 with one. The main file is always last; with a profile, the first element is that profile's file. |
| `SettingsFiles.AvailableProfiles` | src/org/netbeans/gradle/project/properties/SettingsFiles.java:19-45 | A null root fails. A profile directory that is not a directory, or cannot be listed, gives no profiles. Otherwise the loop yields `ProfileNames` of the listing. |
| `SettingsFiles.ToLowerAscii` | src/org/netbeans/gradle/project/properties/SettingsFiles.java:28 | Lower-casing keeps the length of the name. |
| `SettingsFiles.AcceptsProfileFile` | src/org/netbeans/gradle/project/properties/SettingsFiles.java:26-29 | A name the filter accepts is at least as long as the `.profile` suffix, so the length check in the loop (line 40) never drops a listed name. |
| `SettingsFiles.ListProfileFiles` | src/org/netbeans/gradle/project/properties/SettingsFiles.java:25-30 | The filtered listing has no more names than the directory, and every name in it passes the filter. |
| `SettingsFiles.ListProfileFilesMembership` | src/org/netbeans/gradle/project/properties/SettingsFiles.java:25-30 | A name is listed exactly when it is an entry of the directory and the filter accepts it. |
| `SettingsFiles.StripProfileSuffixes` | src/org/netbeans/gradle/project/properties/SettingsFiles.java:37-43 | The loop over the listed files adds at most one name per file, so it never returns more names than files. |
| `SettingsFiles.StripProfileSuffixesAllLong` | src/org/netbeans/gradle/project/properties/SettingsFiles.java:37-43 | When every file name is at least as long as the suffix, the loop keeps exactly one name per file. |
| `SettingsFiles.ProfileNamesCount` | src/org/netbeans/gradle/project/properties/SettingsFiles.java:25-43 | The length check at line 40 never drops a name the filter accepted, so there is exactly one profile per listed file. |
| `SettingsFiles.ProfileNamesSingle` | src/org/netbeans/gradle/project/properties/SettingsFiles.java:25-43 | One listed name yields that name minus its last 8 characters if its lower-cased form ends with `.profile`, and nothing otherwise. |
| `SettingsFiles.ProfileNamesSingleMembership` | src/org/netbeans/gradle/project/properties/SettingsFiles.java:25-43 | A profile comes from a one-name listing exactly when the name passes the filter and strips to that profile. |
| `SettingsFiles.ProfileNamesAppend` | src/org/netbeans/gradle/project/properties/SettingsFiles.java:36-44 | Listing order is preserved: the profiles of two concatenated listings are the two results concatenated. |
| `SettingsFiles.ProfileNamesLength` | src/org/netbeans/gradle/project/properties/SettingsFiles.java:36-44 | There are never more profiles than listed names. |
| `SettingsFiles.ProfileNamesMembership` | src/org/netbeans/gradle/project/properties/SettingsFiles.java:25-43 | A profile is returned exactly when some listed name passes the filter and strips to it. This holds in both directions. |
| `SettingsFiles.ProfileNamesSound` | src/org/netbeans/gradle/project/properties/SettingsFiles.java:25-43 | Every profile returned comes from some listed name that passes the filter and strips to it. |
| `SettingsFiles.ProfileNamesComplete` | src/org/netbeans/gradle/project/properties/SettingsFiles.java:25-43 | Every listed name that passes the filter contributes its stripped name to the result. |
| `SettingsFiles.ProfileFileNameRoundTrip` | src/org/netbeans/gradle/project/properties/SettingsFiles.java:28-41 | `<p>.profile` passes the filter, and a listing of just that name yields exactly `[p]`. |
| `SettingsFiles.ProfileFileInProfileDirectory` | src/org/netbeans/gradle/project/properties/SettingsFiles.java:63-66 | A profile's file is named `<p>.profile`, and its parent is the profile directory. |
| `SettingsFiles.ProfileFileRoundTrip` | src/org/netbeans/gradle/project/properties/SettingsFiles.java:60-66 | The name of the file `getProfileFile(root, p)` builds is listed back as exactly the profile `p`. |
| `SettingsFiles.ProfileNamesOfProfileFiles` | src/org/netbeans/gradle/project/properties/SettingsFiles.java:25-44 | A listing of the files of profiles `ps`, in order, yields exactly `ps`. |
| `SettingsFiles.ProfileFilesDistinct` | src/org/netbeans/gradle/project/properties/SettingsFiles.java:63-69 | Different profiles of one root use different files, and no profile file is the main settings file. |
| `SettingsFiles.RootDirectory` | src/org/netbeans/gradle/project/properties/SettingsFiles.java:98-112 | The result is the settings file's parent when a settings file exists and has a parent. Otherwise it is the project directory. When that is missing too, the result is an IllegalArgumentException with the source's message. |
| `SettingsFiles.AvailableProfilesOf` | src/org/netbeans/gradle/project/properties/SettingsFiles.java:47-49 | Resolving the project's root fails only as `getRootDirectory` fails. Once the root is found, listing always succeeds and yields the stripped names of the accepted entries of `<root>/.nb-gradle/profiles`, or nothing when that is not a listable directory. |
| `SettingsFiles.ProfileFileOf` | src/org/netbeans/gradle/project/properties/SettingsFiles.java:86-88 | The result succeeds exactly when the root resolves; the only failure is the IllegalArgumentException for a missing root, never a NullPointerException. On success it is the main file for no profile, else `<root>/.nb-gradle/profiles/<p>.profile`. |
| `SettingsFiles.FilesForProfileOf` | src/org/netbeans/gradle/project/properties/SettingsFiles.java:90-92 | The result succeeds exactly when the root resolves, and the only failure is the IllegalArgumentException for a missing root. On success the list is `[main file]` for no profile, else `[<root>/.nb-gradle/profiles/<p>.profile, main file]`. |
| `SettingsFiles.FilesForProject` | src/org/netbeans/gradle/project/properties/SettingsFiles.java:94-96 | Succeeds exactly when the root resolves. The list has 2 files when the project has a current profile name and 1 otherwise, with the root's main file last. |
| `SettingsFiles.ProjectFilesResolve` | src/org/netbeans/gradle/project/properties/SettingsFiles.java:90-112 | The project-taking file lookup succeeds exactly when the root resolves. Otherwise it fails with the missing-root IllegalArgumentException. |

## Left out

- The coalescing update executor (`GenericUpdateTaskExecutor`, `UpdateTaskExecutor.execute`, and the `TaskExecutor` constructor that wraps one) is a foreign concurrency library. `OnModelChanged` runs one size check directly. Single-flight execution, coalescing of bursts and running on another thread are not modelled.
- The shared default instance (`DEFAULT`, `getDefault`) and its consumer, which calls `DefaultGradleModelLoader.ensureCacheSize`, are global wiring around a foreign call. The consumer is modelled as a recording class instead.
- Enumerating the open projects (`OpenProjects.getDefault().getOpenProjects()`) and looking up their Gradle facet (`getLookup().lookup(...)`) are host calls. They become the input `seq<Project>`, where a project without a Gradle facet has `gradle == None`.
- `Sum` takes the map itself rather than its `values()` view. It visits the entries by picking one key at a time, which stands for the unspecified `HashMap` iteration order; `ValuesSumRemove` shows that the order does not matter.
- CacheSize.RequiredCacheSizeAtLeastBuilds: holds only when no `int` addition wraps. Java `int` arithmetic can make the total negative with very large build sizes; the model keeps that wrap-around and does not hide it.
- The size is a Java `int` that can wrap around and go negative. A build size is any `int`, with nothing forcing it to be non-negative. The model follows the code and does not assume the size is a non-negative number.
- File-system access (`isDirectory()`, `listFiles(...)`) becomes the parameter `fileSystem`. `java.io.File` path normalisation, platform separators and the odd behaviour of a child under an empty relative path are not modelled.
- SettingsFiles.ProfileFileNameRoundTrip: treats the profile name as one path segment. In Java, `new File(dir, "a/b.profile")` nests directories, so the round trip holds for Java only when the profile name contains no separator character ('/' or the platform separator).
- SettingsFiles.ProfileFileInProfileDirectory: holds for Java only when the profile name contains no separator character, for the same reason.
- SettingsFiles.ProfileFileRoundTrip: holds for Java only when the profile name contains no separator character; a profile `a/b` lists back as `b`.
- SettingsFiles.ProfileNamesOfProfileFiles: holds for Java only when no profile name contains a separator character, for the same reason.
- SettingsFiles.ProfileFilesDistinct: the injectivity holds for Java only for profile names without a separator character, since `new File(dir, "a//b.profile")` normalises to the same file as `"a/b.profile"`. "Different files" also assumes a case-sensitive file system: on Windows `File.equals` ignores case, so profiles `Dev` and `dev` share one file.
- Equality of the cache map's `Path` keys is modelled as equality of their name segments. On Windows `Path.equals` ignores case, so two spellings of one settings directory form one map entry in Java but two in the model.
- SettingsFiles.ToLowerAscii: `toLowerCase(Locale.ROOT)` follows full Unicode case mapping, which can change a string's length. The model folds only ASCII 'A'..'Z', so the round-trip and length-check lemmas are proved for that folding.
- `getAvailableProfiles(File)` returns `Collections.emptySet()` in its empty cases and an `ArrayList` otherwise. Both are modelled as a sequence.
- `getRootDirectory` reads the settings file from `project.getAvailableModel()`, which the code assumes is never null. The model takes the settings file, the project directory and the current profile name as fields of `ProjectInfo`.
- CacheSize.ModelCacheSizeAutoUpdater.Create: the NullPointerException message is taken to be the bare argument name. The jtrim `ExceptionHelper.checkNotNullArgument` helper that builds the message is not part of this model.
- `SingleProfileSettings` is an interface with no behaviour. It is not part of this model.
