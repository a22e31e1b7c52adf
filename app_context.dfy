/** AppContext: the application-wide context holder, the package name derived from it (with any
    ":process" suffix stripped, computed once and cached), and the process-list searches behind
    the current process name, the foreground test and the main-process test.

    The platform is supplied as values: the context's raw package name, what its activity
    manager's `getRunningAppProcesses` yields, and the caller's own pid. */
module App {
  import opened Common

  /** `RunningAppProcessInfo.IMPORTANCE_FOREGROUND`. */
  const IMPORTANCE_FOREGROUND := 100

  datatype ProcessInfo = ProcessInfo(pid: int, processName: string, importance: int)

  /** What `getRunningAppProcesses` does: return a list, return null, or throw. */
  datatype ProcessQuery = Processes(list: seq<ProcessInfo>) | NullList | Throws

  /** A Context: its raw package name, and its activity manager (`None` when
      `getSystemService` returns null), reduced to what its process query yields. */
  datatype Context = Context(packageName: string, activityManager: Option<ProcessQuery>)

  /** The result of `getPackageName`: a name, or the NullPointerException thrown when no context
      has been set. */
  datatype PackageName = Name(value: string) | NullPointerException

  /** The index of the first entry with the given pid. */
  function FirstWithPid(ps: seq<ProcessInfo>, pid: int): (r: Option<nat>)
    ensures r.Some? ==> r.value < |ps| && ps[r.value].pid == pid
    ensures r.Some? ==> forall j :: 0 <= j < r.value ==> ps[j].pid != pid
    ensures r.None? <==> forall j :: 0 <= j < |ps| ==> ps[j].pid != pid
  {
    if ps == [] then None
    else if ps[0].pid == pid then Some(0)
    else
      match FirstWithPid(ps[1..], pid)
      case None => None
      case Some(i) => Some(i + 1)
  }

  /** `getCurrentProcessName`: the name of the first process entry with the own pid; null when
      there is no context, no activity manager, no list (including a query that throws and is
      caught), or no matching entry. */
  function CurrentProcessName(ctx: Option<Context>, myPid: int): (r: Option<string>)
    ensures r.Some? <==>
      && ctx.Some? && ctx.value.activityManager.Some? && ctx.value.activityManager.value.Processes?
      && FirstWithPid(ctx.value.activityManager.value.list, myPid).Some?
    ensures r.Some? ==>
      var ps := ctx.value.activityManager.value.list;
      exists i :: 0 <= i < |ps| && ps[i].pid == myPid && r.value == ps[i].processName
        && forall j :: 0 <= j < i ==> ps[j].pid != myPid
  {
    if ctx.None? then None
    else match ctx.value.activityManager
      case None => None
      case Some(query) =>
        if !query.Processes? then None
        else
          match FirstWithPid(query.list, myPid)
          case None => None
          case Some(i) => Some(query.list[i].processName)
  }

  /** Whether some entry of `ps` is the own process in the foreground. */
  function HasForegroundEntry(ps: seq<ProcessInfo>, myPid: int): (r: bool)
    ensures r <==> exists i :: 0 <= i < |ps| && ps[i].importance == IMPORTANCE_FOREGROUND && ps[i].pid == myPid
  {
    if ps == [] then false
    else if ps[0].importance == IMPORTANCE_FOREGROUND && ps[0].pid == myPid then true
    else
      var rest := HasForegroundEntry(ps[1..], myPid);
      assert forall i :: 0 < i < |ps| ==> ps[i] == ps[1..][i - 1];
      rest
  }

  /** `isAppOnForeground`: true only for an entry with FOREGROUND importance and the own pid;
      false without a context, without a list, and when anything throws (a missing activity
      manager is dereferenced inside the try, so it counts as a throw). */
  function IsAppOnForeground(ctx: Option<Context>, myPid: int): (r: bool)
    ensures r <==>
      && ctx.Some? && ctx.value.activityManager.Some? && ctx.value.activityManager.value.Processes?
      && exists i :: 0 <= i < |ctx.value.activityManager.value.list|
           && ctx.value.activityManager.value.list[i].importance == IMPORTANCE_FOREGROUND
           && ctx.value.activityManager.value.list[i].pid == myPid
  {
    ctx.Some? && ctx.value.activityManager.Some? && ctx.value.activityManager.value.Processes?
      && HasForegroundEntry(ctx.value.activityManager.value.list, myPid)
  }

  /** `isRunningInMainProcess`: the own process entry (the first with the own pid in a list the
      query returns) is named exactly as the context's raw package name, and that name is not
      empty. Without a context or a name the `isEmpty` test fails first, so nothing throws. */
  function IsRunningInMainProcess(ctx: Option<Context>, myPid: int): (r: bool)
    ensures r <==>
      && ctx.Some? && ctx.value.activityManager.Some? && ctx.value.activityManager.value.Processes?
      && ctx.value.packageName != []
      && var ps := ctx.value.activityManager.value.list;
         exists i :: 0 <= i < |ps| && ps[i].pid == myPid && (forall j :: 0 <= j < i ==> ps[j].pid != myPid)
           && ps[i].processName == ctx.value.packageName
  {
    var name := CurrentProcessName(ctx, myPid);
    name.Some? && name.value != [] && ctx.Some? && name.value == ctx.value.packageName
  }

  /** The test compares with the raw package name, not the stripped one: a secondary process
      "pkg:proc" of a context whose package is "pkg" is not the main process, even though
      stripping its name gives "pkg". */
  lemma SecondaryProcessIsNotMain(pkg: string, proc: string, ps: seq<ProcessInfo>, myPid: int, i: nat)
    requires ':' !in proc
    requires i < |ps| && ps[i].pid == myPid && ps[i].processName == pkg + ":" + proc
    requires forall j :: 0 <= j < i ==> ps[j].pid != myPid
    ensures StripProcessSuffix(ps[i].processName) == pkg
    ensures !IsRunningInMainProcess(Some(Context(pkg, Some(Processes(ps)))), myPid)
  {
    StripUndoesProcessSuffix(pkg, proc);
    assert FirstWithPid(ps, myPid) == Some(i);
    assert |pkg + ":" + proc| > |pkg|;
  }

  /** A process in the foreground has a name: the foreground test succeeding means the name
      lookup finds an entry with the own pid. */
  lemma ForegroundHasProcessName(ctx: Option<Context>, myPid: int)
    requires IsAppOnForeground(ctx, myPid)
    ensures CurrentProcessName(ctx, myPid).Some?
  {
    var ps := ctx.value.activityManager.value.list;
    var i :| 0 <= i < |ps| && ps[i].importance == IMPORTANCE_FOREGROUND && ps[i].pid == myPid;
    assert FirstWithPid(ps, myPid).Some?;
  }

  /** `String.lastIndexOf(c)`: the last index holding `c`, or -1. */
  function LastIndexOf(s: string, c: char): (r: int)
    ensures -1 <= r < |s|
    ensures r >= 0 ==> s[r] == c && forall j :: r < j < |s| ==> s[j] != c
    ensures r == -1 <==> c !in s
  {
    if s == [] then -1
    else if s[|s| - 1] == c then |s| - 1
    else
      assert forall j :: 0 <= j < |s| - 1 ==> s[..|s| - 1][j] == s[j];
      LastIndexOf(s[..|s| - 1], c)
  }

  /** The strip of `getPackageName`: a name with a ':' loses everything from its last ':'. */
  function StripProcessSuffix(raw: string): (name: string)
    ensures ':' !in raw ==> name == raw
    ensures ':' in raw ==> |name| < |raw| && name == raw[..|name|] && raw[|name|] == ':'
    ensures ':' in raw ==> ':' !in raw[|name| + 1..]
  {
    if ':' in raw then raw[..LastIndexOf(raw, ':')] else raw
  }

  /** Stripping undoes Android's "package:process" naming of secondary processes. */
  lemma StripUndoesProcessSuffix(pkg: string, process: string)
    requires ':' !in process
    ensures StripProcessSuffix(pkg + ":" + process) == pkg
  {
    var raw := pkg + ":" + process;
    assert raw[|pkg|] == ':';
    assert raw[|pkg| + 1..] == process;
    assert raw[..|pkg|] == pkg;
  }

  /** Only the last ':' is stripped: earlier ones stay in the name. */
  lemma StripKeepsEarlierColons()
    ensures StripProcessSuffix("a:b:c") == "a:b"
  {
    assert LastIndexOf("a:b:c", ':') == 3;
  }

  /** The static state of AppContext. */
  class AppContext {
    var sContext: Option<Context>
    var debuggable: bool
    /** The cached package name; `None` until the first successful `getPackageName`. */
    var sPackageName: Option<string>

    constructor ()
      ensures sContext == None && !debuggable && sPackageName == None
    {
      sContext := None;
      debuggable := false;
      sPackageName := None;
    }

    /** `init`: sets the context and nothing else; in particular it does not clear the cached
        package name. */
    method Init(context: Option<Context>)
      modifies this
      ensures sContext == context
      ensures debuggable == old(debuggable) && sPackageName == old(sPackageName)
    {
      sContext := context;
    }

    method OpenDebug()
      modifies this
      ensures debuggable
      ensures sContext == old(sContext) && sPackageName == old(sPackageName)
    {
      debuggable := true;
    }

    /** `getPackageName`: the cached name if there is one; otherwise the context's raw package
        name stripped of its process suffix, which is then cached. Without a context the
        dereference throws. */
    method GetPackageName() returns (r: PackageName)
      modifies this
      ensures old(sPackageName).Some? ==> r == Name(old(sPackageName).value) && sPackageName == old(sPackageName)
      ensures old(sPackageName).None? && sContext.None? ==> r == NullPointerException && sPackageName == None
      ensures old(sPackageName).None? && sContext.Some? ==>
        var name := StripProcessSuffix(sContext.value.packageName);
        r == Name(name) && sPackageName == Some(name)
      ensures sContext == old(sContext) && debuggable == old(debuggable)
    {
      if sPackageName.None? {
        if sContext.None? {
          return NullPointerException;
        }
        sPackageName := Some(StripProcessSuffix(sContext.value.packageName));
      }
      r := Name(sPackageName.value);
    }
  }

  /** The cache outlives a change of context: after a first lookup, `init` with another context
      does not change what `getPackageName` returns. */
  method CachedNameSurvivesInit() returns (first: PackageName, second: PackageName)
    ensures first == Name("com.example") && second == first
  {
    var app := new AppContext();
    app.Init(Some(Context("com.example:push", None)));
    assert "com.example" + ":" + "push" == "com.example:push";
    StripUndoesProcessSuffix("com.example", "push");
    first := app.GetPackageName();
    assert app.sPackageName == Some("com.example");
    app.Init(Some(Context("org.other", None)));
    assert app.sPackageName == Some("com.example");
    second := app.GetPackageName();
  }
}
