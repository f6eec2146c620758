/**
 * Where a Gradle project keeps its NetBeans settings: the main properties file
 * `<root>/.nb-gradle-properties`, one file per profile under
 * `<root>/.nb-gradle/profiles/<profile>.profile`, the profiles found there, and
 * the root directory a project's settings belong to.
 */
module SettingsFiles {
  import opened Wrappers
  import opened JavaLang
  import opened Files

  const SETTINGS_FILENAME: string := ".nb-gradle-properties"
  const PROFILE_FILE_NAME_SUFFIX: string := ".profile"
  const SETTINGS_DIR_NAME: string := ".nb-gradle"
  const PROFILE_DIRECTORY: string := "profiles"

  const ROOT_DIR_ARGUMENT: string := "rootDir"
  const MISSING_ROOT_MESSAGE: string := "Cannot get the root directory because the directory is missing: null"

  /** What the file system reports about one directory: `isDirectory()`, and the names of its entries (None when listing fails). */
  datatype DirectoryState = DirectoryState(isDirectory: bool, entries: Option<seq<string>>)

  /** What the settings code reads of a project: its model's settings file, its project directory and its current profile name. */
  datatype ProjectInfo = ProjectInfo(
    settingsFile: Option<Path>,
    projectDirectory: Option<Path>,
    currentProfile: Option<string>)

  // ---------------------------------------------------------------------------
  // File names

  /** `toLowerCase(Locale.ROOT)` restricted to ASCII: 'A'..'Z' become 'a'..'z', every other character stays. */
  function ToLowerAscii(s: string): (r: string)
    ensures |r| == |s|
  {
    seq(|s|, i requires 0 <= i < |s| => LowerChar(s[i]))
  }

  function LowerChar(c: char): char {
    if 'A' <= c <= 'Z' then (c as int - 'A' as int + 'a' as int) as char else c
  }

  predicate EndsWith(s: string, suffix: string) {
    |suffix| <= |s| && s[|s| - |suffix|..] == suffix
  }

  /**
   * The listing filter: the lower-cased name ends with `.profile`. Lower-casing
   * keeps the length, so an accepted name is at least as long as the suffix.
   */
  predicate AcceptsProfileFile(name: string)
    ensures AcceptsProfileFile(name) ==> |name| >= |PROFILE_FILE_NAME_SUFFIX|
  {
    EndsWith(ToLowerAscii(name), PROFILE_FILE_NAME_SUFFIX)
  }

  /** `listFiles(filter)`: the entries the filter accepts, in listing order. */
  function ListProfileFiles(entries: seq<string>): (r: seq<string>)
    ensures |r| <= |entries|
    ensures forall i :: 0 <= i < |r| ==> AcceptsProfileFile(r[i])
  {
    if entries == [] then []
    else
      var name := entries[|entries| - 1];
      ListProfileFiles(entries[..|entries| - 1]) + if AcceptsProfileFile(name) then [name] else []
  }

  /** The loop over the listed files: a name at least as long as the suffix loses its last `|suffix|` characters. */
  function StripProfileSuffixes(fileNames: seq<string>): (r: seq<string>)
    ensures |r| <= |fileNames|
  {
    if fileNames == [] then []
    else
      var fileName := fileNames[|fileNames| - 1];
      var suffixLength := |PROFILE_FILE_NAME_SUFFIX|;
      StripProfileSuffixes(fileNames[..|fileNames| - 1])
        + if |fileName| >= suffixLength then [fileName[..|fileName| - suffixLength]] else []
  }

  /** The profile names a directory listing yields. */
  function ProfileNames(entries: seq<string>): seq<string> {
    StripProfileSuffixes(ListProfileFiles(entries))
  }

  /** The listed name `name` passes the filter and strips to `profile`. */
  predicate YieldsProfile(name: string, profile: string) {
    AcceptsProfileFile(name) && name[..|name| - |PROFILE_FILE_NAME_SUFFIX|] == profile
  }

  /** The file name a profile is stored under. */
  function ProfileFileName(profile: string): string {
    profile + PROFILE_FILE_NAME_SUFFIX
  }

  /** The file names of a sequence of profiles, in order. */
  function ProfileFileNames(profiles: seq<string>): (r: seq<string>)
    ensures |r| == |profiles|
  {
    if profiles == [] then []
    else ProfileFileNames(profiles[..|profiles| - 1]) + [ProfileFileName(profiles[|profiles| - 1])]
  }

  // ---------------------------------------------------------------------------
  // Paths derived from a root directory

  /** `getSettingsDir`: `<root>/.nb-gradle`; a null root throws. */
  function SettingsDir(rootDir: Option<Path>): (r: Result<Path, Exception>)
    ensures rootDir.None? <==> r == Failure(NullPointerException(ROOT_DIR_ARGUMENT))
    ensures rootDir.Some? ==> r == Success(Path(rootDir.value.absolute, rootDir.value.names + [SETTINGS_DIR_NAME]))
  {
    if rootDir.None? then Failure(NullPointerException(ROOT_DIR_ARGUMENT))
    else Success(Child(rootDir.value, SETTINGS_DIR_NAME))
  }

  /** `getProfileDirectory`: `<root>/.nb-gradle/profiles`. */
  function ProfileDirectory(rootDir: Option<Path>): (r: Result<Path, Exception>)
    ensures rootDir.None? ==> r == Failure(NullPointerException(ROOT_DIR_ARGUMENT))
    ensures rootDir.Some? ==>
      r == Success(Path(rootDir.value.absolute, rootDir.value.names + [SETTINGS_DIR_NAME, PROFILE_DIRECTORY]))
  {
    var settingsDir :- SettingsDir(rootDir);
    assert settingsDir.names + [PROFILE_DIRECTORY] == rootDir.value.names + [SETTINGS_DIR_NAME, PROFILE_DIRECTORY];
    Success(Child(settingsDir, PROFILE_DIRECTORY))
  }

  /** `getProfileFile(File, String)`: the main properties file for no profile, the profile's file otherwise. */
  function ProfileFile(rootDir: Option<Path>, profile: Option<string>): (r: Result<Path, Exception>)
    ensures rootDir.None? ==> r == Failure(NullPointerException(ROOT_DIR_ARGUMENT))
    ensures rootDir.Some? && profile.None? ==> r == Success(MainFile(rootDir.value))
    ensures rootDir.Some? && profile.Some? ==>
      r == Success(Path(rootDir.value.absolute,
                        rootDir.value.names + [SETTINGS_DIR_NAME, PROFILE_DIRECTORY, profile.value + PROFILE_FILE_NAME_SUFFIX]))
  {
    if rootDir.None? then Failure(NullPointerException(ROOT_DIR_ARGUMENT))
    else if profile.Some? then
      var profileFileDir := ProfileDirectory(rootDir).value;
      assert profileFileDir.names + [ProfileFileName(profile.value)]
          == rootDir.value.names + [SETTINGS_DIR_NAME, PROFILE_DIRECTORY, profile.value + PROFILE_FILE_NAME_SUFFIX];
      Success(Child(profileFileDir, ProfileFileName(profile.value)))
    else
      Success(Child(rootDir.value, SETTINGS_FILENAME))
  }

  /** `<root>/.nb-gradle-properties`. */
  function MainFile(rootDir: Path): (r: Path)
    ensures r.absolute == rootDir.absolute && r.names == rootDir.names + [SETTINGS_FILENAME]
  {
    Child(rootDir, SETTINGS_FILENAME)
  }

  /** `getFilesForProfile(File, String)`: the files a profile's settings are read from, the main file last. */
  function FilesForProfile(rootDir: Option<Path>, profile: Option<string>): (r: Result<seq<Path>, Exception>)
    ensures rootDir.None? ==> r == Failure(NullPointerException(ROOT_DIR_ARGUMENT))
    ensures rootDir.Some? ==> r.Success?
    ensures r.Success? ==>
      && |r.value| == (if profile.Some? then 2 else 1)
      && r.value[|r.value| - 1] == MainFile(rootDir.value)
      && (profile.Some? ==> r.value[0] == ProfileFile(rootDir, profile).value)
  {
    if rootDir.None? then Failure(NullPointerException(ROOT_DIR_ARGUMENT))
    else
      var mainFile := Child(rootDir.value, SETTINGS_FILENAME);
      if profile.None? then Success([mainFile])
      else
        var profileFile := ProfileFile(rootDir, profile).value;
        Success([profileFile, mainFile])
  }

  /**
   * `getAvailableProfiles(File)`: the profiles stored in `<root>/.nb-gradle/profiles`,
   * read through `fileSystem`; none when that is not a directory or cannot be listed.
   */
  method AvailableProfiles(rootDir: Option<Path>, fileSystem: Path -> DirectoryState)
    returns (r: Result<seq<string>, Exception>)
    ensures rootDir.None? ==> r == Failure(NullPointerException(ROOT_DIR_ARGUMENT))
    ensures rootDir.Some? ==> r.Success?
    ensures r.Success? ==>
      var dir := fileSystem(ProfileDirectory(rootDir).value);
      r.value == if dir.isDirectory && dir.entries.Some? then ProfileNames(dir.entries.value) else []
  {
    var profileDir :- ProfileDirectory(rootDir);
    var dir := fileSystem(profileDir);
    if !dir.isDirectory {
      return Success([]);
    }
    if dir.entries.None? {
      return Success([]);
    }
    var profileFiles := ListProfileFiles(dir.entries.value);
    var result := [];
    var suffixLength := |PROFILE_FILE_NAME_SUFFIX|;
    for i := 0 to |profileFiles|
      invariant result == StripProfileSuffixes(profileFiles[..i])
    {
      var fileName := profileFiles[i];
      StripProfileSuffixesStep(profileFiles, i);
      if |fileName| >= suffixLength {
        result := result + [fileName[..|fileName| - suffixLength]];
      }
    }
    assert profileFiles[..|profileFiles|] == profileFiles;
    return Success(result);
  }

  // ---------------------------------------------------------------------------
  // The root directory of a project

  /**
   * `getRootDirectory`: the parent of the settings file when there is one and it
   * has a parent, the project directory otherwise, and an error when that is missing too.
   */
  function RootDirectory(project: ProjectInfo): (r: Result<Path, Exception>)
    ensures project.settingsFile.Some? && Parent(project.settingsFile.value).Some? ==>
      r == Success(Parent(project.settingsFile.value).value)
    ensures project.settingsFile.None? || Parent(project.settingsFile.value).None? ==>
      r == if project.projectDirectory.Some? then Success(project.projectDirectory.value)
           else Failure(IllegalArgumentException(MISSING_ROOT_MESSAGE))
  {
    var dir :=
      if project.settingsFile.Some? then Parent(project.settingsFile.value)
      else project.projectDirectory;
    var dir := if dir.None? then project.projectDirectory else dir;
    if dir.None? then Failure(IllegalArgumentException(MISSING_ROOT_MESSAGE))
    else Success(dir.value)
  }

  /** `getAvailableProfiles(NbGradleProject)`. */
  method AvailableProfilesOf(project: ProjectInfo, fileSystem: Path -> DirectoryState)
    returns (r: Result<seq<string>, Exception>)
    ensures RootDirectory(project).Failure? ==> r == Failure(RootDirectory(project).error)
    ensures RootDirectory(project).Success? ==> r.Success?
    ensures RootDirectory(project).Success? ==>
      var dir := fileSystem(ProfileDirectory(Some(RootDirectory(project).value)).value);
      r.value == if dir.isDirectory && dir.entries.Some? then ProfileNames(dir.entries.value) else []
  {
    var rootDir :- RootDirectory(project);
    r := AvailableProfiles(Some(rootDir), fileSystem);
  }

  /** `getProfileFile(NbGradleProject, String)`. */
  function ProfileFileOf(project: ProjectInfo, profile: Option<string>): (r: Result<Path, Exception>)
    ensures r.Success? <==> RootDirectory(project).Success?
    ensures r.Failure? ==> r == Failure(IllegalArgumentException(MISSING_ROOT_MESSAGE))
    ensures r.Success? && profile.None? ==> r.value == MainFile(RootDirectory(project).value)
    ensures r.Success? && profile.Some? ==>
      r.value == Child(ProfileDirectory(Some(RootDirectory(project).value)).value, ProfileFileName(profile.value))
  {
    var rootDir :- RootDirectory(project);
    ProfileFile(Some(rootDir), profile)
  }

  /** `getFilesForProfile(NbGradleProject, String)`. */
  function FilesForProfileOf(project: ProjectInfo, profile: Option<string>): (r: Result<seq<Path>, Exception>)
    ensures r.Success? <==> RootDirectory(project).Success?
    ensures r.Failure? ==> r == Failure(IllegalArgumentException(MISSING_ROOT_MESSAGE))
    ensures r.Success? ==>
      var main := MainFile(RootDirectory(project).value);
      r.value == if profile.None? then [main]
        else [Child(ProfileDirectory(Some(RootDirectory(project).value)).value, ProfileFileName(profile.value)), main]
  {
    var rootDir :- RootDirectory(project);
    FilesForProfile(Some(rootDir), profile)
  }

  /** `getFilesForProject`: the files for the project's current profile. */
  function FilesForProject(project: ProjectInfo): (r: Result<seq<Path>, Exception>)
    ensures r.Success? <==> RootDirectory(project).Success?
    ensures r.Success? ==>
      && |r.value| == (if project.currentProfile.Some? then 2 else 1)
      && r.value[|r.value| - 1] == MainFile(RootDirectory(project).value)
  {
    FilesForProfileOf(project, project.currentProfile)
  }

  // ---------------------------------------------------------------------------
  // Properties

  lemma LowerCaseSuffix(s: string)
    ensures ToLowerAscii(s + PROFILE_FILE_NAME_SUFFIX) == ToLowerAscii(s) + PROFILE_FILE_NAME_SUFFIX
  {
    var t := s + PROFILE_FILE_NAME_SUFFIX;
    forall i | |s| <= i < |t| ensures LowerChar(t[i]) == PROFILE_FILE_NAME_SUFFIX[i - |s|] {
      assert t[i] == PROFILE_FILE_NAME_SUFFIX[i - |s|];
    }
  }

  /** The file name of a profile passes the listing filter and is stripped back to the profile. */
  lemma ProfileFileNameRoundTrip(profile: string)
    ensures YieldsProfile(ProfileFileName(profile), profile)
    ensures ProfileNames([ProfileFileName(profile)]) == [profile]
  {
    var name := ProfileFileName(profile);
    LowerCaseSuffix(profile);
    assert ToLowerAscii(name)[|name| - |PROFILE_FILE_NAME_SUFFIX|..] == PROFILE_FILE_NAME_SUFFIX;
    assert name[..|name| - |PROFILE_FILE_NAME_SUFFIX|] == profile;
    ProfileNamesSingle(name);
  }

  /** The file `getProfileFile` gives for a profile has that profile's file name, inside the profile directory. */
  lemma ProfileFileInProfileDirectory(rootDir: Path, profile: string)
    ensures Name(ProfileFile(Some(rootDir), Some(profile)).value) == ProfileFileName(profile)
    ensures Parent(ProfileFile(Some(rootDir), Some(profile)).value) == Some(ProfileDirectory(Some(rootDir)).value)
  {
    ChildInverse(ProfileDirectory(Some(rootDir)).value, ProfileFileName(profile));
  }

  /** Round trip: the file name of `getProfileFile(root, p)` is listed back as exactly the profile `p`. */
  lemma ProfileFileRoundTrip(rootDir: Path, profile: string)
    ensures ProfileNames([Name(ProfileFile(Some(rootDir), Some(profile)).value)]) == [profile]
  {
    ProfileFileInProfileDirectory(rootDir, profile);
    ProfileFileNameRoundTrip(profile);
  }

  /** Distinct profiles are stored in distinct files, and none of them is the main file. */
  lemma ProfileFilesDistinct(rootDir: Path, p: string, q: string)
    ensures ProfileFile(Some(rootDir), Some(p)) == ProfileFile(Some(rootDir), Some(q)) ==> p == q
    ensures ProfileFile(Some(rootDir), Some(p)) != ProfileFile(Some(rootDir), None)
  {
    var fp := ProfileFile(Some(rootDir), Some(p)).value;
    var fq := ProfileFile(Some(rootDir), Some(q)).value;
    if fp == fq {
      assert fp.names[|fp.names| - 1] == ProfileFileName(p);
      assert fq.names[|fq.names| - 1] == ProfileFileName(q);
      assert ProfileFileName(p)[..|p|] == p;
      assert ProfileFileName(q)[..|q|] == q;
    }
    assert |fp.names| != |MainFile(rootDir).names|;
  }

  /** A name is listed exactly when it is one of the entries and the filter accepts it. */
  lemma {:induction false} ListProfileFilesMembership(entries: seq<string>, name: string)
    ensures name in ListProfileFiles(entries) <==> name in entries && AcceptsProfileFile(name)
  {
    if entries != [] {
      var init := entries[..|entries| - 1];
      ListProfileFilesMembership(init, name);
      assert entries == init + [entries[|entries| - 1]];
    }
  }

  lemma {:induction false} ListProfileFilesAppend(a: seq<string>, b: seq<string>)
    ensures ListProfileFiles(a + b) == ListProfileFiles(a) + ListProfileFiles(b)
    decreases |b|
  {
    if b == [] {
      assert a + b == a;
    } else {
      var init := b[..|b| - 1];
      ListProfileFilesAppend(a, init);
      assert (a + b)[..|a + b| - 1] == a + init;
      assert (a + b)[|a + b| - 1] == b[|b| - 1];
    }
  }

  lemma {:induction false} StripProfileSuffixesAppend(a: seq<string>, b: seq<string>)
    ensures StripProfileSuffixes(a + b) == StripProfileSuffixes(a) + StripProfileSuffixes(b)
    decreases |b|
  {
    if b == [] {
      assert a + b == a;
    } else {
      var init := b[..|b| - 1];
      StripProfileSuffixesAppend(a, init);
      assert (a + b)[..|a + b| - 1] == a + init;
      assert (a + b)[|a + b| - 1] == b[|b| - 1];
    }
  }

  /** One more iteration of the loop: the next file's name, stripped if it is long enough. */
  lemma StripProfileSuffixesStep(fileNames: seq<string>, i: int)
    requires 0 <= i < |fileNames|
    ensures StripProfileSuffixes(fileNames[..i + 1]) ==
      StripProfileSuffixes(fileNames[..i])
        + if |fileNames[i]| >= |PROFILE_FILE_NAME_SUFFIX|
          then [fileNames[i][..|fileNames[i]| - |PROFILE_FILE_NAME_SUFFIX|]] else []
  {
    var done := fileNames[..i + 1];
    assert done[..i] == fileNames[..i] && done[i] == fileNames[i];
  }

  /** When every name is at least as long as the suffix, the loop keeps one name per file. */
  lemma {:induction false} StripProfileSuffixesAllLong(fileNames: seq<string>)
    requires forall i :: 0 <= i < |fileNames| ==> |fileNames[i]| >= |PROFILE_FILE_NAME_SUFFIX|
    ensures |StripProfileSuffixes(fileNames)| == |fileNames|
    decreases |fileNames|
  {
    if fileNames != [] {
      var init := fileNames[..|fileNames| - 1];
      assert forall i :: 0 <= i < |init| ==> init[i] == fileNames[i];
      StripProfileSuffixesAllLong(init);
      assert |fileNames[|fileNames| - 1]| >= |PROFILE_FILE_NAME_SUFFIX|;
    }
  }

  /** The length check in the loop never drops a name the filter accepted: one profile per listed file. */
  lemma ProfileNamesCount(entries: seq<string>)
    ensures |ProfileNames(entries)| == |ListProfileFiles(entries)|
  {
    var files := ListProfileFiles(entries);
    forall i | 0 <= i < |files|
      ensures |files[i]| >= |PROFILE_FILE_NAME_SUFFIX|
    {
      assert AcceptsProfileFile(files[i]);
    }
    StripProfileSuffixesAllLong(files);
  }

  /** Listing order is kept: the profiles of a concatenated listing are the concatenated profiles. */
  lemma ProfileNamesAppend(a: seq<string>, b: seq<string>)
    ensures ProfileNames(a + b) == ProfileNames(a) + ProfileNames(b)
  {
    ListProfileFilesAppend(a, b);
    StripProfileSuffixesAppend(ListProfileFiles(a), ListProfileFiles(b));
  }

  /** One listed name yields its name without the suffix when the filter accepts it, and nothing otherwise. */
  lemma ProfileNamesSingle(name: string)
    ensures ProfileNames([name]) ==
      if AcceptsProfileFile(name) then [name[..|name| - |PROFILE_FILE_NAME_SUFFIX|]] else []
  {
    var none: seq<string> := [];
    assert [name][..0] == none;
    assert ListProfileFiles(none) == none;
    assert StripProfileSuffixes(none) == none;
    if AcceptsProfileFile(name) {
      assert ListProfileFiles([name]) == [name];
      assert StripProfileSuffixes([name]) == [name[..|name| - |PROFILE_FILE_NAME_SUFFIX|]];
    } else {
      assert ListProfileFiles([name]) == none;
    }
  }

  /** No more profiles than listed entries. */
  lemma {:induction false} ProfileNamesLength(entries: seq<string>)
    ensures |ProfileNames(entries)| <= |entries|
    decreases |entries|
  {
    if entries != [] {
      var init := entries[..|entries| - 1];
      assert entries == init + [entries[|entries| - 1]];
      ProfileNamesAppend(init, [entries[|entries| - 1]]);
      ProfileNamesSingle(entries[|entries| - 1]);
      ProfileNamesLength(init);
    }
  }

  lemma ProfileNamesSingleMembership(name: string, profile: string)
    ensures profile in ProfileNames([name]) <==> YieldsProfile(name, profile)
  {
    ProfileNamesSingle(name);
  }

  /** Every profile found comes from some listed name that passes the filter and strips to it. */
  lemma {:induction false} ProfileNamesSound(entries: seq<string>, profile: string)
    ensures profile in ProfileNames(entries) ==> exists i :: 0 <= i < |entries| && YieldsProfile(entries[i], profile)
    decreases |entries|
  {
    if entries != [] && profile in ProfileNames(entries) {
      var init := entries[..|entries| - 1];
      var last := entries[|entries| - 1];
      assert entries == init + [last];
      ProfileNamesAppend(init, [last]);
      assert ProfileNames(entries) == ProfileNames(init) + ProfileNames([last]);
      if profile in ProfileNames(init) {
        ProfileNamesSound(init, profile);
        var i :| 0 <= i < |init| && YieldsProfile(init[i], profile);
        assert entries[i] == init[i];
      } else {
        ProfileNamesSingleMembership(last, profile);
        assert YieldsProfile(entries[|entries| - 1], profile);
      }
    }
  }

  /** A listed name that passes the filter and strips to `profile` makes `profile` found. */
  lemma {:induction false} ProfileNamesComplete(entries: seq<string>, profile: string, i: int)
    requires 0 <= i < |entries| && YieldsProfile(entries[i], profile)
    ensures profile in ProfileNames(entries)
    decreases |entries|
  {
    var init := entries[..|entries| - 1];
    var last := entries[|entries| - 1];
    assert entries == init + [last];
    ProfileNamesAppend(init, [last]);
    assert ProfileNames(entries) == ProfileNames(init) + ProfileNames([last]);
    if i < |init| {
      assert init[i] == entries[i];
      ProfileNamesComplete(init, profile, i);
    } else {
      ProfileNamesSingleMembership(last, profile);
    }
  }

  /** A profile is found exactly when some listed name passes the filter and strips to it. */
  lemma ProfileNamesMembership(entries: seq<string>, profile: string)
    ensures profile in ProfileNames(entries) <==> exists i :: 0 <= i < |entries| && YieldsProfile(entries[i], profile)
  {
    ProfileNamesSound(entries, profile);
    if i :| 0 <= i < |entries| && YieldsProfile(entries[i], profile) {
      ProfileNamesComplete(entries, profile, i);
    }
  }

  /** A directory holding exactly the files of some profiles, in that order, lists exactly those profiles. */
  lemma {:induction false} ProfileNamesOfProfileFiles(profiles: seq<string>)
    ensures ProfileNames(ProfileFileNames(profiles)) == profiles
    decreases |profiles|
  {
    if profiles != [] {
      var init := profiles[..|profiles| - 1];
      var last := profiles[|profiles| - 1];
      var initFiles := ProfileFileNames(init);
      var lastFile := ProfileFileName(last);
      assert ProfileFileNames(profiles) == initFiles + [lastFile];
      ProfileNamesOfProfileFiles(init);
      ProfileNamesAppend(initFiles, [lastFile]);
      ProfileFileNameRoundTrip(last);
      assert init + [last] == profiles;
    }
  }

  /** A project whose root directory is found always gets its settings files; the only failure left is a missing root. */
  lemma ProjectFilesResolve(project: ProjectInfo, profile: Option<string>)
    ensures FilesForProfileOf(project, profile).Success? <==> RootDirectory(project).Success?
    ensures RootDirectory(project).Failure? ==>
      FilesForProfileOf(project, profile) == Failure(IllegalArgumentException(MISSING_ROOT_MESSAGE))
  {
  }
}
