// The JUnit code-lens provider: merging cached test results into freshly
// discovered tests, rendering the Run / Debug / Show Report lenses, and the
// container that registers or disposes the provider as the
// `java.debug.settings` configuration changes.

module JUnitCodeLens {
  import opened Protocols

  type Uri = string

  // ---------------------------------------------------------------------
  // Merging cached results
  // ---------------------------------------------------------------------

  /** A `[name, result]` pair of the dictionary built from the cache. */
  type Entry = (string, Option<TestResult>)

  /** The pairs `[t.test, t.result]` of the cached suites, in cache order. */
  function Entries(cache: seq<TestSuite>): seq<Entry>
    reads cache
  {
    seq(|cache|, i requires 0 <= i < |cache| reads cache => (cache[i].test, cache[i].result))
  }

  /** The dictionary a `Map` built from `entries` holds: the pairs are inserted
      in order, so a later pair for a name replaces an earlier one. Its keys are
      exactly the names that occur in `entries`. */
  function MapOf(entries: seq<Entry>): (dict: map<string, Option<TestResult>>)
    ensures dict.Keys == set e | e in entries :: e.0
  {
    if entries == [] then map[]
    else
      var prefix, last := entries[..|entries| - 1], entries[|entries| - 1];
      assert entries == prefix + [last];
      MapOf(prefix)[last.0 := last.1]
  }

  /** `i` is the position of the last pair for `name`. */
  ghost predicate IsLastFor(entries: seq<Entry>, name: string, i: int)
  {
    0 <= i < |entries| && entries[i].0 == name &&
    forall j :: i < j < |entries| ==> entries[j].0 != name
  }

  /** A name that occurs more than once takes the value of its last pair. */
  lemma {:induction false} MapOfLastWins(entries: seq<Entry>, name: string, i: int)
    requires IsLastFor(entries, name, i)
    ensures name in MapOf(entries) && MapOf(entries)[name] == entries[i].1
  {
    if i < |entries| - 1 {
      var prefix := entries[..|entries| - 1];
      assert prefix[i] == entries[i];
      MapOfLastWins(prefix, name, i);
    }
  }

  /** The result a fetched suite named `name`, currently holding `current`,
      has after the merge with a cache whose pairs are `entries`. */
  function MergedResult(current: Option<TestResult>, name: string, entries: seq<Entry>): Option<TestResult>
  {
    var dict := MapOf(entries);
    if current.None? && name in dict then dict[name] else current
  }

  /** What the merge promises for one fetched suite: an existing result is
      never overwritten; a name the cache does not know keeps its result; a
      missing result is taken from the last cached suite with the same name. */
  lemma MergedResultFromCache(current: Option<TestResult>, name: string, entries: seq<Entry>)
    ensures current.Some? ==> MergedResult(current, name, entries) == current
    ensures (forall e :: e in entries ==> e.0 != name) ==> MergedResult(current, name, entries) == current
    ensures current.None? ==>
              forall i :: IsLastFor(entries, name, i) ==> MergedResult(current, name, entries) == entries[i].1
  {
    forall i | IsLastFor(entries, name, i)
      ensures current.None? ==> MergedResult(current, name, entries) == entries[i].1
    {
      MapOfLastWins(entries, name, i);
    }
  }

  // ---------------------------------------------------------------------
  // Status icons
  // ---------------------------------------------------------------------

  const PassIconMac: string := "\U{2705}"
  const PassIcon: string := "\U{2714}\U{FE0F}"
  const FailIcon: string := "\U{274C}"
  const SkippedIcon: string := "\U{2754}"
  const UnknownIcon: string := "\U{2753}"

  /** The status an icon stands for, if any. */
  function IconStatus(icon: string): Option<TestStatus>
  {
    if icon == PassIconMac || icon == PassIcon then Some(Pass)
    else if icon == FailIcon then Some(Fail)
    else if icon == SkippedIcon then Some(Skipped)
    else None
  }

  /** The title of a Show Report lens. Every status has one; the icon tells
      the three known statuses apart and shows the same question mark for
      every other status, including a missing one. Only Pass depends on the
      platform. */
  function StatusIcon(status: Option<TestStatus>, isMac: bool): (icon: string)
    ensures icon in {PassIconMac, PassIcon, FailIcon, SkippedIcon, UnknownIcon}
    ensures IconStatus(icon) == if status in {Some(Pass), Some(Fail), Some(Skipped)} then status else None
    ensures icon == PassIconMac <==> status == Some(Pass) && isMac
    ensures icon == PassIcon <==> status == Some(Pass) && !isMac
  {
    match status
    case Some(Pass) => if isMac then PassIconMac else PassIcon
    case Some(Fail) => FailIcon
    case Some(Skipped) => SkippedIcon
    case _ => UnknownIcon
  }

  // ---------------------------------------------------------------------
  // Code lenses
  // ---------------------------------------------------------------------

  /** The editor commands a lens can invoke. */
  datatype CommandId = RunTest | DebugTest | ShowReport

  /** A lens over `range` that invokes `command` with `arguments`. */
  datatype CodeLens = CodeLens(range: Range, title: string, command: CommandId, tooltip: string, arguments: seq<TestSuite>)

  /** The lenses of one test: Run Test, Debug Test and, when the test has a
      result, Show Report titled with the result's status icon. All of them sit
      on the test's range and pass the test as their only argument. */
  function LensesFor(t: TestSuite, isMac: bool): (ls: seq<CodeLens>)
    reads t
    ensures |ls| == if t.result.Some? then 3 else 2
    ensures forall l :: l in ls ==> l.range == t.range && l.arguments == [t]
    ensures ls[0].command == RunTest && ls[0].title == "Run Test" && ls[0].tooltip == "Run Test"
    ensures ls[1].command == DebugTest && ls[1].title == "Debug Test" && ls[1].tooltip == "Debug Test"
    ensures t.result.Some? ==>
              ls[2].command == ShowReport && ls[2].tooltip == "Show Report" &&
              ls[2].title == StatusIcon(t.result.value.status, isMac)
  {
    var lenses := [CodeLens(t.range, "Run Test", RunTest, "Run Test", [t]),
                   CodeLens(t.range, "Debug Test", DebugTest, "Debug Test", [t])];
    if t.result.Some? then
      lenses + [CodeLens(t.range, StatusIcon(t.result.value.status, isMac), ShowReport, "Show Report", [t])]
    else lenses
  }

  /** The number of tests that carry a result. */
  function WithResult(tests: seq<TestSuite>): (k: nat)
    reads tests
    ensures k <= |tests|
  {
    if tests == [] then 0
    else WithResult(tests[..|tests| - 1]) + if tests[|tests| - 1].result.Some? then 1 else 0
  }

  /** The lenses of all tests, each test's lenses concatenated onto those of
      the tests before it. There are two per test plus one per result, and every
      lens belongs to one of the tests. */
  function GetCodeLens(tests: seq<TestSuite>, isMac: bool): (ls: seq<CodeLens>)
    reads tests
    ensures |ls| == 2 * |tests| + WithResult(tests)
  {
    if tests == [] then []
    else GetCodeLens(tests[..|tests| - 1], isMac) + LensesFor(tests[|tests| - 1], isMac)
  }

  /** Every lens belongs to one of the tests: it sits on that test's range and
      passes that test as its only argument. */
  lemma {:induction false} LensBelongsToTest(tests: seq<TestSuite>, k: int, isMac: bool)
    requires 0 <= k < |GetCodeLens(tests, isMac)|
    ensures exists i :: 0 <= i < |tests| &&
              GetCodeLens(tests, isMac)[k].range == tests[i].range &&
              GetCodeLens(tests, isMac)[k].arguments == [tests[i]]
  {
    var prefix, last := tests[..|tests| - 1], tests[|tests| - 1];
    var done := GetCodeLens(prefix, isMac);
    if k < |done| {
      LensBelongsToTest(prefix, k, isMac);
      var i :| 0 <= i < |prefix| && done[k].range == prefix[i].range && done[k].arguments == [prefix[i]];
      assert prefix[i] == tests[i];
    } else {
      var own := LensesFor(last, isMac);
      assert GetCodeLens(tests, isMac)[k] == own[k - |done|];
      assert own[k - |done|] in own;
      assert tests[|tests| - 1] == last;
    }
  }

  /** Concatenation is associative. A fact Dafny knows unaided; stating it for
      the three blocks in `GetCodeLensAppend`'s step keeps that proof cheap. */
  lemma ConcatAssociative(x: seq<CodeLens>, y: seq<CodeLens>, z: seq<CodeLens>)
    ensures (x + y) + z == x + (y + z)
  {
  }

  /** Rendering distributes over concatenation of test lists. */
  lemma {:induction false} GetCodeLensAppend(a: seq<TestSuite>, b: seq<TestSuite>, isMac: bool)
    ensures GetCodeLens(a + b, isMac) == GetCodeLens(a, isMac) + GetCodeLens(b, isMac)
    decreases |b|
  {
    if b == [] {
      assert a + b == a;
    } else {
      var b', last := b[..|b| - 1], b[|b| - 1];
      assert (a + b)[..|a + b| - 1] == a + b' && (a + b)[|a + b| - 1] == last;
      GetCodeLensAppend(a, b', isMac);
      ConcatAssociative(GetCodeLens(a, isMac), GetCodeLens(b', isMac), LensesFor(last, isMac));
    }
  }

  /** The lenses of test `i` form one contiguous block, placed after the
      lenses of every earlier test. */
  lemma LensesOfTestAt(tests: seq<TestSuite>, i: int, isMac: bool)
    requires 0 <= i < |tests|
    ensures var start, own := |GetCodeLens(tests[..i], isMac)|, LensesFor(tests[i], isMac);
            start == 2 * i + WithResult(tests[..i]) &&
            start + |own| <= |GetCodeLens(tests, isMac)| &&
            GetCodeLens(tests, isMac)[start..start + |own|] == own
  {
    assert tests == tests[..i + 1] + tests[i + 1..];
    GetCodeLensAppend(tests[..i + 1], tests[i + 1..], isMac);
    assert tests[..i + 1][..i] == tests[..i];
  }

  // ---------------------------------------------------------------------
  // The provider
  // ---------------------------------------------------------------------

  /** The test resource manager, seen as the test list last stored for each
      document URI. One instance is shared by the container and every
      provider it registers. */
  class TestResourceManager {
    var tests: map<Uri, seq<TestSuite>>

    constructor (tests: map<Uri, seq<TestSuite>>)
      ensures this.tests == tests
    {
      this.tests := tests;
    }
  }

  /** Provides the lenses of a document, keeping the tests it renders in the
      shared `storage`. */
  class JUnitCodeLensProvider {
    const storage: TestResourceManager

    constructor (storage: TestResourceManager)
      ensures this.storage == storage
    {
      this.storage := storage;
    }

    /** Fills in, on each fetched suite without a result, the result the cache
        holds for its name (the last one, when the name repeats). */
    method MergeTestResult(cache: seq<TestSuite>, cur: seq<TestSuite>)
      modifies cur
      ensures forall t :: t in cur ==> t.result == MergedResult(old(t.result), t.test, old(Entries(cache)))
      ensures forall t :: t in cache && t !in cur ==> t.result == old(t.result)
    {
      var dict := MapOf(Entries(cache));
      for i := 0 to |cur|
        invariant forall t :: t in cur ==>
                    t.result == if t in cur[..i] then MergedResult(old(t.result), t.test, old(Entries(cache)))
                                else old(t.result)
      {
        var suite := cur[i];
        if suite.result.None? && suite.test in dict {
          suite.result := dict[suite.test];
        }
        assert cur[..i + 1] == cur[..i] + [suite];
      }
      assert cur[..|cur|] == cur;
    }

    /** The success path of a lens request: the fetched tests take their
        missing results from the tests stored for the document, replace them in
        the storage, and are rendered. */
    method ProvideCodeLenses(uri: Uri, fetched: seq<TestSuite>, isMac: bool) returns (lenses: seq<CodeLens>)
      modifies storage, fetched
      ensures storage.tests == old(storage.tests)[uri := fetched]
      ensures forall t :: t in fetched ==>
                t.result == if uri in old(storage.tests) then MergedResult(old(t.result), t.test, old(Entries(storage.tests[uri])))
                            else old(t.result)
      ensures lenses == GetCodeLens(fetched, isMac)
    {
      if uri in storage.tests {
        MergeTestResult(storage.tests[uri], fetched);
      }
      storage.tests := storage.tests[uri := fetched];
      lenses := GetCodeLens(fetched, isMac);
    }
  }

  // ---------------------------------------------------------------------
  // Enabling and disabling the provider
  // ---------------------------------------------------------------------

  /** The handle the editor returns when `provider` is registered. */
  class Registration {
    const provider: JUnitCodeLensProvider

    constructor (provider: JUnitCodeLensProvider)
      ensures this.provider == provider
    {
      this.provider := provider;
    }
  }

  /** The editor calls the container makes. */
  datatype HostAction =
    | RegisterProvider(registration: Registration)
    | DisposeProvider(registration: Registration)
    | RegisterConfigListener
    | DisposeConfigListener
    | DisposeStorage
    | DisposeEmitter

  /** The registrations made and not yet disposed. */
  ghost function Live(log: seq<HostAction>): set<Registration>
  {
    if log == [] then {}
    else
      var before := Live(log[..|log| - 1]);
      match log[|log| - 1]
      case RegisterProvider(r) => before + {r}
      case DisposeProvider(r) => before - {r}
      case _ => before
  }

  /** Every registration is made while none is live, and every disposal
      disposes a live registration. */
  ghost predicate Disciplined(log: seq<HostAction>)
  {
    log == [] ||
    (Disciplined(log[..|log| - 1]) &&
     match log[|log| - 1]
     case RegisterProvider(r) => Live(log[..|log| - 1]) == {}
     case DisposeProvider(r) => r in Live(log[..|log| - 1])
     case _ => true)
  }

  /** Appending one action keeps the earlier log as a prefix. A sequence fact
      Dafny knows unaided; calling it at each append of a multi-step log
      update hands the solver the unfolding of `Live` it needs there. */
  lemma AppendOne(log: seq<HostAction>, a: HostAction)
    ensures (log + [a])[..|log|] == log && (log + [a])[|log|] == a
  {
  }

  ghost function Held(provider: Option<Registration>): set<Registration>
  {
    if provider.Some? then {provider.value} else {}
  }

  /** Whether a provider is registered after one configuration change, given
      whether one was before: the handler registers only when enabled and
      absent and disposes only when disabled and present, so after an event
      that affects the settings the provider is present exactly when enabled. */
  function PresentAfter(present: bool, affects: bool, enabled: bool): (r: bool)
    ensures affects ==> r == enabled
    ensures !affects ==> r == present
  {
    if !affects then present
    else if enabled && !present then true
    else if !enabled && present then false
    else present
  }

  /** A configuration-change event: whether it affects the test settings, and
      the lens flag read afterwards. */
  datatype ConfigEvent = ConfigEvent(affects: bool, enabled: bool)

  /** Presence after handling `events` in order. */
  function PresentAfterAll(present: bool, events: seq<ConfigEvent>): bool
    decreases |events|
  {
    if events == [] then present
    else PresentAfterAll(PresentAfter(present, events[0].affects, events[0].enabled), events[1..])
  }

  /** The flag of the last event that affects the settings, or `initial` when
      no event does. */
  function LastSetting(initial: bool, events: seq<ConfigEvent>): bool
  {
    if events == [] then initial
    else if events[|events| - 1].affects then events[|events| - 1].enabled
    else LastSetting(initial, events[..|events| - 1])
  }

  /** However many events arrive, a provider is registered exactly when the
      latest setting (the initial one when no event changed it) enables lenses. */
  lemma {:induction false} PresentFollowsLastSetting(initial: bool, events: seq<ConfigEvent>)
    ensures PresentAfterAll(initial, events) == LastSetting(initial, events)
  {
    if events != [] {
      var last := events[|events| - 1];
      var prefix := events[..|events| - 1];
      PresentAfterAllSnoc(initial, prefix, last);
      assert prefix + [last] == events;
      PresentFollowsLastSetting(initial, prefix);
    }
  }

  lemma {:induction false} PresentAfterAllSnoc(present: bool, events: seq<ConfigEvent>, e: ConfigEvent)
    ensures PresentAfterAll(present, events + [e]) ==
            PresentAfter(PresentAfterAll(present, events), e.affects, e.enabled)
    decreases |events|
  {
    if events != [] {
      assert (events + [e])[1..] == events[1..] + [e];
      PresentAfterAllSnoc(PresentAfter(present, events[0].affects, events[0].enabled), events[1..], e);
    }
  }

  /** Registers the lens provider while the test settings enable it. */
  class JUnitCodeLensContainer {
    const storage: TestResourceManager
    var lensProvider: Option<Registration>
    var listening: bool
    ghost var log: seq<HostAction>

    /** The held registration is of a provider over the container's own
        storage. While the configuration listener is alive the log is
        disciplined and the only live registration is the held one; once
        disposed, none is live. */
    ghost predicate Valid()
      reads this
    {
      && (lensProvider.Some? ==> lensProvider.value.provider.storage == storage)
      && if listening then Disciplined(log) && Live(log) == Held(lensProvider)
         else Live(log) == {}
    }

    /** Registers a provider over `storage` when the initial setting enables
        lenses, then starts listening for configuration changes. */
    constructor (enabled: bool, storage: TestResourceManager)
      ensures Valid() && listening && this.storage == storage
      ensures lensProvider.Some? == enabled
      ensures enabled ==>
                fresh(lensProvider.value) && fresh(lensProvider.value.provider) &&
                log == [RegisterProvider(lensProvider.value), RegisterConfigListener]
      ensures !enabled ==> log == [RegisterConfigListener]
    {
      this.storage := storage;
      if enabled {
        var provider := new JUnitCodeLensProvider(storage);
        var r := new Registration(provider);
        lensProvider := Some(r);
        log := [RegisterProvider(r), RegisterConfigListener];
      } else {
        lensProvider := None;
        log := [RegisterConfigListener];
      }
      listening := true;
      new;
      if enabled {
        var first := log[..1];
        assert first == [RegisterProvider(lensProvider.value)] && first[..0] == [];
        assert Live(first) == {lensProvider.value} && Disciplined(first);
      } else {
        assert log[..0] == [];
      }
    }

    /** Handles a configuration change; `affects` says whether it touches the
        test settings and `enabled` is the lens flag read afterwards. */
    method OnConfigChange(affects: bool, enabled: bool)
      requires Valid() && listening
      modifies this
      ensures Valid() && listening
      ensures storage.tests == old(storage.tests)
      ensures lensProvider.Some? == PresentAfter(old(lensProvider).Some?, affects, enabled)
      ensures if affects && enabled && old(lensProvider).None? then
                lensProvider.Some? && fresh(lensProvider.value) && fresh(lensProvider.value.provider) &&
                log == old(log) + [RegisterProvider(lensProvider.value)]
              else if affects && !enabled && old(lensProvider).Some? then
                lensProvider == None && log == old(log) + [DisposeProvider(old(lensProvider).value)]
              else
                lensProvider == old(lensProvider) && log == old(log)
    {
      if affects {
        if enabled && lensProvider.None? {
          var provider := new JUnitCodeLensProvider(storage);
          var r := new Registration(provider);
          lensProvider := Some(r);
          log := log + [RegisterProvider(r)];
        } else if !enabled && lensProvider.Some? {
          log := log + [DisposeProvider(lensProvider.value)];
          lensProvider := None;
        }
      }
    }

    /** Disposes the provider if one is held, then the configuration listener,
        the storage and the change emitter. */
    method Dispose()
      requires Valid()
      modifies this, storage
      ensures Valid() && !listening && lensProvider == old(lensProvider)
      ensures log == old(log) + (if lensProvider.Some? then [DisposeProvider(lensProvider.value)] else [])
                              + [DisposeConfigListener, DisposeStorage, DisposeEmitter]
    {
      assert Live(log) <= Held(lensProvider);
      if lensProvider.Some? {
        AppendOne(log, DisposeProvider(lensProvider.value));
        log := log + [DisposeProvider(lensProvider.value)];
      }
      assert Live(log) == {};
      ghost var before := log;
      AppendOne(log, DisposeConfigListener);
      log := log + [DisposeConfigListener];
      assert Live(log) == {};
      AppendOne(log, DisposeStorage);
      log := log + [DisposeStorage];
      assert Live(log) == {};
      AppendOne(log, DisposeEmitter);
      log := log + [DisposeEmitter];
      assert Live(log) == {};
      assert log == before + [DisposeConfigListener, DisposeStorage, DisposeEmitter];
      listening := false;
    }
  }

  /** Turning lenses off and on again registers a new provider, but over the
      same storage, so the tests and results stored before are still there
      for it to merge. */
  method ReRegister(container: JUnitCodeLensContainer) returns (provider: JUnitCodeLensProvider)
    requires container.Valid() && container.listening
    modifies container
    ensures container.Valid() && container.listening
    ensures container.lensProvider.Some? && container.lensProvider.value.provider == provider
    ensures fresh(provider) && provider.storage == container.storage
    ensures container.storage.tests == old(container.storage.tests)
  {
    container.OnConfigChange(true, false);
    container.OnConfigChange(true, true);
    provider := container.lensProvider.value.provider;
  }
}
