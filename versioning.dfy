/**
 * The build script's version counter: `version.properties` holds a patch
 * number and a version code; a release build increments both and writes them
 * back, and every build derives the version code and the name
 * `1.0.<patch>-alpha` from them.
 */
module Versioning {
  import opened Wrappers
  import opened Numbers
  import opened Strings

  const BaseVersion: string := "1.0"
  const PatchKey: string := "patch"
  const CodeKey: string := "code"
  /** The value both counters take when the file does not store them. */
  const DefaultCounter: string := "4"
  /** The exception `toInt` throws on a counter that is not a decimal `Int`, failing the build. */
  const NumberFormat: string := "NumberFormatException"

  /** `versionCode` and `versionName`. */
  datatype VersionInfo = VersionInfo(code: int, name: string)

  /** A task name that names a release build, in any case (`assembleRelease`, `bundlerelease`). */
  predicate IsReleaseTask(task: string) {
    ContainsIgnoreCase(task, "Release")
  }

  /** `taskNames.any { it.contains("Release", ignoreCase = true) }`. */
  predicate IsReleaseBuild(taskNames: seq<string>)
    ensures IsReleaseBuild(taskNames) <==> exists t :: t in taskNames && IsReleaseTask(t)
  {
    exists i | 0 <= i < |taskNames| :: IsReleaseTask(taskNames[i])
  }

  /** The properties loaded: the file's entries, or none when it does not exist. */
  function Loaded(contents: Option<map<string, string>>): map<string, string> {
    if contents.Some? then contents.value else map[]
  }

  /** `props.getProperty(key, default)`. */
  function GetProperty(props: map<string, string>, key: string, default: string): string {
    if key in props then props[key] else default
  }

  /** The stored patch number, parsed by `toInt`. */
  function StoredPatch(contents: Option<map<string, string>>): Option<int> {
    ToInt(GetProperty(Loaded(contents), PatchKey, DefaultCounter))
  }

  /** The stored version code, parsed by `toInt`. */
  function StoredCode(contents: Option<map<string, string>>): Option<int> {
    ToInt(GetProperty(Loaded(contents), CodeKey, DefaultCounter))
  }

  /** `"${baseVersion}.${patch}-alpha"`. */
  function VersionName(patch: int): string {
    BaseVersion + "." + IntToString(patch) + "-alpha"
  }

  /**
   * What `getAutoVersionInfo` returns: a parse failure of either counter fails
   * the build; otherwise the counters, each incremented with 32-bit wrap-around
   * on a release build.
   */
  function AutoVersion(contents: Option<map<string, string>>, taskNames: seq<string>): (r: Result<VersionInfo>)
    ensures r.Ok? <==> StoredPatch(contents).Some? && StoredCode(contents).Some?
    ensures r.Err? ==> r.error == NumberFormat
    ensures r.Ok? && !IsReleaseBuild(taskNames) ==>
              r.value == VersionInfo(StoredCode(contents).value, VersionName(StoredPatch(contents).value))
    ensures r.Ok? && IsReleaseBuild(taskNames) ==>
              r.value == VersionInfo(WrapInt(StoredCode(contents).value + 1), VersionName(WrapInt(StoredPatch(contents).value + 1)))
    ensures r.Ok? ==> IsInt(r.value.code)
  {
    var patch := StoredPatch(contents);
    var code := StoredCode(contents);
    if patch.None? || code.None? then Err(NumberFormat)
    else if IsReleaseBuild(taskNames) then Ok(VersionInfo(WrapInt(code.value + 1), VersionName(WrapInt(patch.value + 1))))
    else Ok(VersionInfo(code.value, VersionName(patch.value)))
  }

  /**
   * The file after the build: a successful release build stores the loaded
   * entries with both counters replaced; any other build leaves it as it was.
   */
  function FileAfter(contents: Option<map<string, string>>, taskNames: seq<string>): (r: Option<map<string, string>>)
    ensures contents.Some? ==> r.Some?
    ensures r != contents ==> IsReleaseBuild(taskNames)
  {
    var patch := StoredPatch(contents);
    var code := StoredCode(contents);
    if IsReleaseBuild(taskNames) && patch.Some? && code.Some? then
      Some(Loaded(contents)[PatchKey := IntToString(WrapInt(patch.value + 1))][CodeKey := IntToString(WrapInt(code.value + 1))])
    else contents
  }

  /**
   * Only a successful release build writes the file, and it stores the two
   * incremented counters as decimal strings.
   */
  lemma ReleaseWritesCounters(contents: Option<map<string, string>>, taskNames: seq<string>)
    ensures !(IsReleaseBuild(taskNames) && AutoVersion(contents, taskNames).Ok?) ==> FileAfter(contents, taskNames) == contents
    ensures IsReleaseBuild(taskNames) && AutoVersion(contents, taskNames).Ok? ==>
              var after := FileAfter(contents, taskNames);
              after.Some? && PatchKey in after.value && CodeKey in after.value &&
              after.value[PatchKey] == IntToString(WrapInt(StoredPatch(contents).value + 1)) &&
              after.value[CodeKey] == IntToString(WrapInt(StoredCode(contents).value + 1))
  {
    if IsReleaseBuild(taskNames) && AutoVersion(contents, taskNames).Ok? {
      ReleaseOutcome(contents, taskNames);
    }
  }

  /** `version.properties`: `None` while the file does not exist. */
  class VersionFile {
    var contents: Option<map<string, string>>

    constructor (initial: Option<map<string, string>>)
      ensures contents == initial
    {
      contents := initial;
    }
  }

  /** What a release build with both counters readable returns and writes. */
  lemma ReleaseOutcome(contents: Option<map<string, string>>, taskNames: seq<string>)
    requires IsReleaseBuild(taskNames) && StoredPatch(contents).Some? && StoredCode(contents).Some?
    ensures AutoVersion(contents, taskNames) ==
            Ok(VersionInfo(WrapInt(StoredCode(contents).value + 1), VersionName(WrapInt(StoredPatch(contents).value + 1))))
    ensures FileAfter(contents, taskNames) ==
            Some(Loaded(contents)[PatchKey := IntToString(WrapInt(StoredPatch(contents).value + 1))]
                                 [CodeKey := IntToString(WrapInt(StoredCode(contents).value + 1))])
  {
  }

  /**
   * The body of `getAutoVersionInfo` on the loaded entries: the version, and
   * the entries a release build writes back (`None` when nothing is written).
   */
  method ComputeAutoVersion(contents: Option<map<string, string>>, taskNames: seq<string>)
    returns (r: Result<VersionInfo>, written: Option<map<string, string>>)
    ensures r == AutoVersion(contents, taskNames)
    ensures written.Some? ==> written == FileAfter(contents, taskNames)
    ensures written.None? ==> contents == FileAfter(contents, taskNames)
  {
    written := None;
    var props := Loaded(contents);
    var parsedPatch := StoredPatch(contents);
    var parsedCode := StoredCode(contents);
    if parsedPatch.None? || parsedCode.None? {
      r := Err(NumberFormat);
    } else if IsReleaseBuild(taskNames) {
      ReleaseOutcome(contents, taskNames);
      var patch := WrapInt(parsedPatch.value + 1);
      var code := WrapInt(parsedCode.value + 1);
      props := props[PatchKey := IntToString(patch)];
      props := props[CodeKey := IntToString(code)];
      written := Some(props);
      r := Ok(VersionInfo(code, VersionName(patch)));
    } else {
      r := Ok(VersionInfo(parsedCode.value, VersionName(parsedPatch.value)));
    }
  }

  /** `getAutoVersionInfo`, reading and possibly rewriting the properties file. */
  method GetAutoVersionInfo(file: VersionFile, taskNames: seq<string>) returns (r: Result<VersionInfo>)
    modifies file
    ensures r == AutoVersion(old(file.contents), taskNames)
    ensures file.contents == FileAfter(old(file.contents), taskNames)
  {
    var written;
    r, written := ComputeAutoVersion(file.contents, taskNames);
    if written.Some? {
      file.contents := written;
    }
  }

  /** A release build rewrites only the two counters: every other stored entry is kept as it was. */
  lemma ReleaseKeepsOtherEntries(contents: Option<map<string, string>>, taskNames: seq<string>, k: string)
    requires IsReleaseBuild(taskNames) && AutoVersion(contents, taskNames).Ok?
    requires k != PatchKey && k != CodeKey
    ensures k in FileAfter(contents, taskNames).value <==> k in Loaded(contents)
    ensures k in Loaded(contents) ==> FileAfter(contents, taskNames).value[k] == Loaded(contents)[k]
  {
  }

  /** Without a file, a debug build is version 4 and the first release build is version 5. */
  lemma DefaultVersions(taskNames: seq<string>)
    ensures !IsReleaseBuild(taskNames) ==> AutoVersion(None, taskNames) == Ok(VersionInfo(4, "1.0.4-alpha"))
    ensures !IsReleaseBuild(taskNames) ==> FileAfter(None, taskNames) == None
    ensures IsReleaseBuild(taskNames) ==> AutoVersion(None, taskNames) == Ok(VersionInfo(5, "1.0.5-alpha"))
    ensures IsReleaseBuild(taskNames) ==> FileAfter(None, taskNames) == Some(map[PatchKey := "5", CodeKey := "5"])
  {
    assert ToInt(DefaultCounter) == Some(4) by {
      assert ParseDigits(DefaultCounter[..0]) == Some(0);
    }
    assert IntToString(4) == "4" && IntToString(5) == "5";
    assert WrapInt(4 + 1) == 5;
    assert VersionName(4) == "1.0.4-alpha" && VersionName(5) == "1.0.5-alpha";
  }

  /** Counters written as decimal strings are read back as the same numbers. */
  lemma WrittenCountersReadBack(props: map<string, string>, patch: int, code: int)
    requires IsInt(patch) && IsInt(code)
    ensures var written := Some(props[PatchKey := IntToString(patch)][CodeKey := IntToString(code)]);
            StoredPatch(written) == Some(patch) && StoredCode(written) == Some(code)
  {
    var written := props[PatchKey := IntToString(patch)][CodeKey := IntToString(code)];
    assert GetProperty(written, PatchKey, DefaultCounter) == IntToString(patch);
    assert GetProperty(written, CodeKey, DefaultCounter) == IntToString(code);
    IntToStringRoundTrip(patch);
    IntToStringRoundTrip(code);
  }

  /**
   * The next build reads back what a release build wrote: a second release
   * build counts one further, and a debug build after it reports the same
   * version.
   */
  lemma ConsecutiveBuilds(contents: Option<map<string, string>>, first: seq<string>, second: seq<string>)
    requires IsReleaseBuild(first) && AutoVersion(contents, first).Ok?
    ensures var v := AutoVersion(contents, first).value;
            var patch := WrapInt(StoredPatch(contents).value + 1);
            var next := AutoVersion(FileAfter(contents, first), second);
            next.Ok? &&
            (IsReleaseBuild(second) ==> next.value == VersionInfo(WrapInt(v.code + 1), VersionName(WrapInt(patch + 1)))) &&
            (!IsReleaseBuild(second) ==> next.value == v)
  {
    var patch := WrapInt(StoredPatch(contents).value + 1);
    var code := WrapInt(StoredCode(contents).value + 1);
    ReleaseOutcome(contents, first);
    WrittenCountersReadBack(Loaded(contents), patch, code);
    var after := FileAfter(contents, first);
    assert StoredPatch(after) == Some(patch) && StoredCode(after) == Some(code);
    if IsReleaseBuild(second) {
      ReleaseOutcome(after, second);
    }
  }

  /**
   * A stored counter that is not a numeral (an optional sign and one or more
   * digits) fails the build and leaves the file alone.
   */
  lemma MalformedCounterFails(contents: Option<map<string, string>>, taskNames: seq<string>)
    requires contents.Some?
    requires (PatchKey in contents.value && !IsNumeral(contents.value[PatchKey])) ||
             (CodeKey in contents.value && !IsNumeral(contents.value[CodeKey]))
    ensures AutoVersion(contents, taskNames).Err?
    ensures FileAfter(contents, taskNames) == contents
  {
    ToIntAccepts(GetProperty(Loaded(contents), PatchKey, DefaultCounter));
    ToIntAccepts(GetProperty(Loaded(contents), CodeKey, DefaultCounter));
  }

  /** An example: a stored patch of "5a" fails the build. */
  lemma MalformedCounterExample(contents: Option<map<string, string>>, taskNames: seq<string>)
    requires contents.Some? && PatchKey in contents.value && contents.value[PatchKey] == "5a"
    ensures AutoVersion(contents, taskNames).Err?
    ensures FileAfter(contents, taskNames) == contents
  {
    assert !IsDigit("5a"[1]);
  }

  /** Task lists Gradle is given for a release build, in either case. */
  lemma ReleaseTaskExamples()
    ensures IsReleaseBuild(["clean", "assembleRelease"])
    ensures IsReleaseBuild(["bundlerelease"])
  {
    assert RegionMatchesIgnoreCase(["clean", "assembleRelease"][1], 8, "Release");
    assert RegionMatchesIgnoreCase(["bundlerelease"][0], 6, "Release");
  }

  /** A debug build's task list does not count as a release build. */
  lemma DebugTaskExample()
    ensures !IsReleaseBuild(["assembleDebug"])
  {
    var task := "assembleDebug";
    forall i | 0 <= i <= |task| - |"Release"|
      ensures !RegionMatchesIgnoreCase(task, i, "Release")
    {
      assert "Release"[0] == 'R';
      assert !CharEqualsIgnoreCase(task[i], 'R');
    }
    assert ["assembleDebug"][0] == task;
  }
}
