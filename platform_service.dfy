/** PlatformService.GetKillProcess: the process that kills every instance of
    a named program, and the handlers on its output streams. */
module PlatformService {
  import opened Wrappers
  import opened Text
  import opened Models
  import opened ProcessUtility

  /** The start info of the kill process and the EnableRaisingEvents flag. */
  datatype KillProcessInfo = KillProcessInfo(
    fileName: string,
    arguments: string,
    createNoWindow: bool,
    normalWindowStyle: bool,
    redirectStandardInput: bool,
    redirectStandardOutput: bool,
    redirectStandardError: bool,
    enableRaisingEvents: bool)

  /** GetKillProcess(processName, options): taskkill by image name on Windows,
      killall by name elsewhere; all three streams redirected, a window shown. */
  function GetKillProcess(processName: string, isWindows: bool): (r: KillProcessInfo)
    ensures isWindows ==> r.fileName == "taskkill" && r.arguments == "/F /IM " + AddExtension(processName, DefaultExtension)
    ensures !isWindows ==> r.fileName == "killall" && r.arguments == processName
    ensures r.redirectStandardInput && r.redirectStandardOutput && r.redirectStandardError
    ensures !r.createNoWindow && r.normalWindowStyle && r.enableRaisingEvents
  {
    var fileName := if isWindows then "taskkill" else "killall";
    var arguments := if isWindows then "/F /IM " + AddExtension(processName, DefaultExtension) else processName;
    KillProcessInfo(fileName, arguments, false, true, true, true, true, true)
  }

  /** On Windows the image name ends in ".exe", ignoring case, and a name that
      already does is passed unchanged: taskkill never sees a doubled extension. */
  lemma WindowsImageName(processName: string)
    ensures EndsWithIgnoreCase(GetKillProcess(processName, true).arguments, DefaultExtension)
    ensures EndsWithIgnoreCase(processName, DefaultExtension) ==>
              GetKillProcess(processName, true).arguments == "/F /IM " + processName
    ensures !EndsWithIgnoreCase(processName, DefaultExtension) ==>
              GetKillProcess(processName, true).arguments == "/F /IM " + processName + DefaultExtension
  {
    var image := AddExtension(processName, DefaultExtension);
    SuffixAfterPrefix("/F /IM ", image, DefaultExtension);
  }

  /** A text that ends with a suffix, ignoring case, still does once a prefix
      is put before it. */
  lemma SuffixAfterPrefix(prefix: string, s: string, suffix: string)
    requires EndsWithIgnoreCase(s, suffix)
    ensures EndsWithIgnoreCase(prefix + s, suffix)
  {
    var t := prefix + s;
    assert t[|t| - |suffix|..] == s[|s| - |suffix|..];
  }

  /** The dotnet kill command on both platforms. */
  lemma KillDotnet()
    ensures GetKillProcess("dotnet", true).fileName == "taskkill"
    ensures GetKillProcess("dotnet", true).arguments == "/F /IM dotnet.exe"
    ensures GetKillProcess("dotnet", false) == KillProcessInfo("killall", "dotnet", false, true, true, true, true, true)
  {
    DotnetHasNoExtension();
    var image := AddExtension("dotnet", DefaultExtension);
    assert image == "dotnet" + DefaultExtension;
    assert "dotnet" + DefaultExtension == "dotnet.exe";
    assert "/F /IM " + image == "/F /IM dotnet.exe";
  }

  /** "dotnet" does not end with ".exe", ignoring case. */
  lemma DotnetHasNoExtension()
    ensures !EndsWithIgnoreCase("dotnet", DefaultExtension)
  {
    var tail := "dotnet"[2..];
    assert tail[0] == 't';
    assert FoldAll(tail)[0] == 't';
    assert FoldAll(DefaultExtension)[0] == '.';
  }

  /** The OutputDataReceived handler: echo a non-blank line when verbose. */
  function KillOutputLine(verbose: bool, data: Option<string>): (r: Option<ConsoleLine>)
    ensures r.Some? <==> verbose && !IsNullOrWhiteSpace(data)
    ensures r.Some? ==> r.value == DefaultLine(data.value)
  {
    if verbose && !IsNullOrWhiteSpace(data) then Some(DefaultLine(data.value)) else None
  }

  /** The ErrorDataReceived handler: every non-blank line is a warning. */
  function KillErrorLine(data: Option<string>): (r: Option<ConsoleLine>)
    ensures r.Some? <==> !IsNullOrWhiteSpace(data)
    ensures r.Some? ==> r.value == WarningLine(data.value)
  {
    if !IsNullOrWhiteSpace(data) then Some(WarningLine(data.value)) else None
  }

  /** Blank lines are dropped by both handlers, whatever the options. */
  lemma BlankLinesDropped(verbose: bool, data: Option<string>)
    requires IsNullOrWhiteSpace(data)
    ensures KillOutputLine(verbose, data).None? && KillErrorLine(data).None?
  {
  }
}
