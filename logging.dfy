/**
 * The logger singleton of logger.cpp and the two logging macros of logger.h.
 *
 * The Boost.Log global core is modelled by the class `Core`, whose fields
 * record the effects the wrapper has on it: the attribute names for which
 * formatter and filter factories are registered, how many times a settings
 * stream was applied, whether common attributes were added, whether sinks
 * are installed, how many flushes were requested, and the records submitted.
 * Whether the configuration file opens is the input `fs` (the set of paths
 * that can be opened), and whether a backend call throws is the input
 * `Backend`.
 */
module Logging {
  import opened Options
  import opened Severity

  // ---------------------------------------------------------------------
  // The backend core and the calls the wrapper makes on it.
  // ---------------------------------------------------------------------

  /** A record submitted by a logging macro: its severity and channel attributes. */
  datatype Record = Record(severity: SeverityLevel, channel: string)

  datatype CoreState = CoreState(
    formatters: set<string>,
    filters: set<string>,
    settingsApplied: nat,
    commonAttributes: bool,
    sinksInstalled: bool,
    flushes: nat,
    records: seq<Record>)

  /** The core before the program touches it. */
  const EmptyCore := CoreState({}, {}, 0, false, false, 0, [])

  /** One of the Boost.Log calls `Logger::Init` makes. */
  datatype BackendCall =
    | RegisterFormatter(attribute: string)
    | RegisterFilter(attribute: string)
    | InitFromStream
    | AddCommonAttributes

  /** The calls `Logger::Init` makes once the file is open, in order. */
  const SetupCalls: seq<BackendCall> := [
    RegisterFormatter("Severity"), RegisterFilter("Severity"),
    RegisterFormatter("Channel"), RegisterFilter("Channel"),
    RegisterFormatter("Target"), RegisterFilter("Target"),
    InitFromStream, AddCommonAttributes]

  /** The custom attributes whose factories the setup registers. */
  const CustomAttributes: set<string> := {"Severity", "Channel", "Target"}

  /** The effect of one backend call that returns normally. */
  function Apply(c: CoreState, call: BackendCall): CoreState
  {
    match call
    case RegisterFormatter(a) => c.(formatters := c.formatters + {a})
    case RegisterFilter(a) => c.(filters := c.filters + {a})
    case InitFromStream => c.(settingsApplied := c.settingsApplied + 1, sinksInstalled := true)
    case AddCommonAttributes => c.(commonAttributes := true)
  }

  /** The effect of the first `k` setup calls when all of them return normally. */
  function SetupPrefix(c: CoreState, k: nat): CoreState
    requires k <= |SetupCalls|
  {
    if k == 0 then c else Apply(SetupPrefix(c, k - 1), SetupCalls[k - 1])
  }

  /**
   * How the backend behaves during the setup: every call returns, or the
   * call at index `call` of SetupCalls throws (an index past the end means
   * that no call throws).
   */
  datatype Backend = Completes | ThrowsAt(call: nat)

  predicate Throws(b: Backend, k: nat) {
    b.ThrowsAt? && b.call == k
  }

  /** The number of setup calls that return normally before one throws. */
  function Performed(b: Backend): (n: nat)
    ensures n <= |SetupCalls|
    ensures forall k :: 0 <= k < n ==> !Throws(b, k)
    ensures n < |SetupCalls| <==> (b.ThrowsAt? && b.call < |SetupCalls|)
  {
    if b.ThrowsAt? && b.call < |SetupCalls| then b.call else |SetupCalls|
  }

  /** The setup completes: all eight calls return. */
  predicate SetupCompletes(b: Backend) {
    Performed(b) == |SetupCalls|
  }

  /** What the setup leaves in the core: exactly the calls before the throwing one took effect. */
  function SetupEffect(c: CoreState, b: Backend): CoreState
  {
    SetupPrefix(c, Performed(b))
  }

  /** The core is fully configured by a completed setup. */
  ghost predicate Configured(c: CoreState) {
    CustomAttributes <= c.formatters && CustomAttributes <= c.filters &&
    c.settingsApplied > 0 && c.commonAttributes
  }

  /** Attributes whose formatter factory is registered by the first `k` setup calls. */
  function FormattersAfter(k: nat): set<string> {
    (if k > 0 then {"Severity"} else {}) + (if k > 2 then {"Channel"} else {}) +
    (if k > 4 then {"Target"} else {})
  }

  /** Attributes whose filter factory is registered by the first `k` setup calls. */
  function FiltersAfter(k: nat): set<string> {
    (if k > 1 then {"Severity"} else {}) + (if k > 3 then {"Channel"} else {}) +
    (if k > 5 then {"Target"} else {})
  }

  /**
   * What the first `k` setup calls leave in the core, field by field: the
   * factories registered so far, the settings stream applied and sinks
   * installed once call 6 has returned, common attributes once call 7 has;
   * flushes and records are never touched.
   */
  lemma {:induction false} SetupPrefixState(c: CoreState, k: nat)
    requires k <= |SetupCalls|
    ensures SetupPrefix(c, k) == c.(
      formatters := c.formatters + FormattersAfter(k),
      filters := c.filters + FiltersAfter(k),
      settingsApplied := c.settingsApplied + (if k > 6 then 1 else 0),
      sinksInstalled := c.sinksInstalled || k > 6,
      commonAttributes := c.commonAttributes || k > 7)
  {
    if k > 0 {
      SetupPrefixState(c, k - 1);
    }
  }

  /** A completed setup configures the core, installs sinks and touches nothing else. */
  lemma SetupCompletesConfigures(c: CoreState)
    ensures Configured(SetupPrefix(c, |SetupCalls|))
    ensures SetupPrefix(c, |SetupCalls|).sinksInstalled
    ensures SetupPrefix(c, |SetupCalls|).settingsApplied == c.settingsApplied + 1
    ensures SetupPrefix(c, |SetupCalls|).records == c.records
    ensures SetupPrefix(c, |SetupCalls|).flushes == c.flushes
  {
    SetupPrefixState(c, |SetupCalls|);
  }

  // ---------------------------------------------------------------------
  // The process state as a value, and the operations on it.
  // ---------------------------------------------------------------------

  /** What `Logger::Init` does: returns a bool, or an exception escapes it. */
  datatype Outcome = Returned(value: bool) | Threw

  /**
   * The process-wide state: `Logger::instance_` (absent, or present with
   * its `init_` flag) and the backend core.
   */
  datatype World = World(instance: Option<bool>, core: CoreState)

  const InitialWorld := World(None, EmptyCore)

  predicate Initialised(w: World) {
    w.instance == Some(true)
  }

  /** `Logger::GetInstance`: creates the uninitialised instance when there is none. */
  function GetInstanceSpec(w: World): (r: World)
    ensures r.instance.Some? && r.core == w.core
    ensures w.instance.Some? ==> r == w
    ensures w.instance.None? ==> r.instance == Some(false)
  {
    if w.instance.None? then w.(instance := Some(false)) else w
  }

  /** `Logger::Init` on an instance whose flag is `init`: new flag, new core, outcome. */
  function InitMember(init: bool, c: CoreState, opens: bool, b: Backend): (bool, CoreState, Outcome)
  {
    if init then (true, c, Returned(true))
    else if !opens then (false, c, Returned(false))
    else if !SetupCompletes(b) then (false, SetupEffect(c, b), Threw)
    else (true, SetupEffect(c, b), Returned(true))
  }

  /** The free function `init`: obtains the instance, calls Init, turns an exception into false. */
  function InitSpec(w: World, fs: set<string>, fileName: string, b: Backend): (World, bool)
  {
    var w1 := GetInstanceSpec(w);
    var (flag, c, out) := InitMember(w1.instance.value, w1.core, fileName in fs, b);
    (World(Some(flag), c), out == Returned(true))
  }

  /** The free function `shutdown`: flush and remove all sinks, only when initialised. */
  function ShutdownSpec(w: World): World
  {
    var w1 := GetInstanceSpec(w);
    if w1.instance == Some(true) then
      w1.(core := w1.core.(flushes := w1.core.flushes + 1, sinksInstalled := false))
    else w1
  }

  /** The channel `LOG` gives its records. */
  const GeneralChannel := "general"

  /** `LOG_CHANNEL(lvl, channel)`: obtains the instance and submits one record. */
  function LogChannelSpec(w: World, lvl: SeverityLevel, channel: string): World
  {
    var w1 := GetInstanceSpec(w);
    w1.(core := w1.core.(records := w1.core.records + [Record(lvl, channel)]))
  }

  /** `LOG(lvl)`: a record on the channel "general". */
  function LogSpec(w: World, lvl: SeverityLevel): World
  {
    var w1 := GetInstanceSpec(w);
    w1.(core := w1.core.(records := w1.core.records + [Record(lvl, GeneralChannel)]))
  }

  // ---------------------------------------------------------------------
  // Properties of the operations.
  // ---------------------------------------------------------------------

  /** Init's three outcomes, and the exception path of `init`, as an if-and-only-if on the result. */
  lemma InitOutcomes(w: World, fs: set<string>, fileName: string, b: Backend)
    ensures var (w', ok) := InitSpec(w, fs, fileName, b);
      && (ok <==> Initialised(w) || (fileName in fs && SetupCompletes(b)))
      && (Initialised(w') <==> ok)
      && (Initialised(w) ==> w'.core == w.core)
      && (!Initialised(w) && fileName !in fs ==> w'.core == w.core)
      && (!Initialised(w) && fileName in fs ==> w'.core == SetupEffect(w.core, b))
  {
  }

  /**
   * When setup call `k` throws, nothing is rolled back: the factories
   * registered by the earlier calls stay, and so do the sinks when the
   * settings stream was already applied; common attributes are never added.
   */
  lemma FailedSetupIsPartial(c: CoreState, k: nat)
    requires k < |SetupCalls|
    ensures SetupEffect(c, ThrowsAt(k)).formatters == c.formatters + FormattersAfter(k)
    ensures SetupEffect(c, ThrowsAt(k)).filters == c.filters + FiltersAfter(k)
    ensures SetupEffect(c, ThrowsAt(k)).settingsApplied == c.settingsApplied + (if k > 6 then 1 else 0)
    ensures SetupEffect(c, ThrowsAt(k)).sinksInstalled == (c.sinksInstalled || k > 6)
    ensures SetupEffect(c, ThrowsAt(k)).commonAttributes == c.commonAttributes
  {
    SetupPrefixState(c, k);
  }

  /** `LOG(lvl)` is `LOG_CHANNEL(lvl, "general")`. */
  lemma LogIsGeneralChannel(w: World, lvl: SeverityLevel)
    ensures LogSpec(w, lvl) == LogChannelSpec(w, lvl, GeneralChannel)
    ensures LogSpec(w, lvl).core.records[|w.core.records|] == Record(lvl, "general")
  {
  }

  /** After shutdown of an initialised logger the flag stays set, so a later init succeeds without reinstalling sinks. */
  lemma ShutdownThenInit(w: World, fs: set<string>, fileName: string, b: Backend)
    requires Initialised(w)
    ensures var (w', ok) := InitSpec(ShutdownSpec(w), fs, fileName, b);
      ok && Initialised(w') && !w'.core.sinksInstalled && w'.core.settingsApplied == w.core.settingsApplied
  {
  }

  /** The calls a program can make on the facade. */
  datatype Call =
    | InitCall(fileName: string, backend: Backend)
    | ShutdownCall
    | LogCall(level: SeverityLevel)
    | LogChannelCall(level: SeverityLevel, channel: string)

  function Step(w: World, fs: set<string>, call: Call): World
  {
    match call
    case InitCall(f, b) => InitSpec(w, fs, f, b).0
    case ShutdownCall => ShutdownSpec(w)
    case LogCall(lvl) => LogSpec(w, lvl)
    case LogChannelCall(lvl, ch) => LogChannelSpec(w, lvl, ch)
  }

  /** The state after a program runs `calls` in order. */
  function Run(w: World, fs: set<string>, calls: seq<Call>): World
    decreases |calls|
  {
    if calls == [] then w else Run(Step(w, fs, calls[0]), fs, calls[1..])
  }

  /** The records a call submits, in order. */
  function Emitted(calls: seq<Call>): seq<Record>
    decreases |calls|
  {
    if calls == [] then []
    else
      (match calls[0]
       case LogCall(lvl) => [Record(lvl, GeneralChannel)]
       case LogChannelCall(lvl, ch) => [Record(lvl, ch)]
       case _ => []) + Emitted(calls[1..])
  }

  /**
   * Once initialised, the logger stays initialised whatever the program
   * does, and the setup never runs again: factories, settings and common
   * attributes stay as they were.
   */
  lemma {:induction false} InitialisedIsFinal(w: World, fs: set<string>, calls: seq<Call>)
    requires Initialised(w)
    ensures Initialised(Run(w, fs, calls))
    ensures Run(w, fs, calls).core.formatters == w.core.formatters
    ensures Run(w, fs, calls).core.filters == w.core.filters
    ensures Run(w, fs, calls).core.settingsApplied == w.core.settingsApplied
    ensures Run(w, fs, calls).core.commonAttributes == w.core.commonAttributes
    decreases |calls|
  {
    if calls != [] {
      InitialisedIsFinal(Step(w, fs, calls[0]), fs, calls[1..]);
    }
  }

  /** The flag is set only when the core holds a complete setup. */
  ghost predicate FlagInvariant(w: World) {
    Initialised(w) ==> Configured(w.core)
  }

  /** Every program keeps the flag honest: an initialised logger has a fully configured core. */
  lemma {:induction false} FlagInvariantPreserved(w: World, fs: set<string>, calls: seq<Call>)
    requires FlagInvariant(w)
    ensures FlagInvariant(Run(w, fs, calls))
    decreases |calls|
  {
    if calls != [] {
      var w1 := Step(w, fs, calls[0]);
      if calls[0].InitCall? && !Initialised(w) {
        SetupCompletesConfigures(GetInstanceSpec(w).core);
      }
      assert FlagInvariant(w1);
      FlagInvariantPreserved(w1, fs, calls[1..]);
    }
  }

  /** Records reach the core exactly as the macros emitted them, in order, whatever else the program does. */
  lemma {:induction false} RecordsInOrder(w: World, fs: set<string>, calls: seq<Call>)
    ensures Run(w, fs, calls).core.records == w.core.records + Emitted(calls)
    decreases |calls|
  {
    if calls != [] {
      var w1 := Step(w, fs, calls[0]);
      if calls[0].InitCall? && !Initialised(GetInstanceSpec(w)) && calls[0].fileName in fs {
        var b := calls[0].backend;
        if SetupCompletes(b) {
          SetupCompletesConfigures(GetInstanceSpec(w).core);
        } else {
          SetupRecords(GetInstanceSpec(w).core, Performed(b));
        }
      }
      assert w1.core.records == w.core.records + Emitted(calls[..1]);
      RecordsInOrder(w1, fs, calls[1..]);
      assert Emitted(calls) == Emitted(calls[..1]) + Emitted(calls[1..]);
    }
  }

  /** The setup calls never touch submitted records. */
  lemma {:induction false} SetupRecords(c: CoreState, k: nat)
    requires k <= |SetupCalls|
    ensures SetupPrefix(c, k).records == c.records
  {
    if k > 0 {
      SetupRecords(c, k - 1);
    }
  }

  // ---------------------------------------------------------------------
  // The objects: the backend core, the Logger, the process globals.
  // ---------------------------------------------------------------------

  /** The Boost.Log global core, `boost::log::core::get()`. */
  class Core {
    var formatters: set<string>
    var filters: set<string>
    var settingsApplied: nat
    var commonAttributes: bool
    var sinksInstalled: bool
    var flushes: nat
    var records: seq<Record>

    function State(): CoreState
      reads this
    {
      CoreState(formatters, filters, settingsApplied, commonAttributes, sinksInstalled, flushes, records)
    }

    constructor ()
      ensures State() == EmptyCore
    {
      formatters, filters, settingsApplied := {}, {}, 0;
      commonAttributes, sinksInstalled, flushes, records := false, false, 0, [];
    }

    /** Performs `call`; when `throws`, the call raises an exception and changes nothing. */
    method Perform(call: BackendCall, throws: bool) returns (threw: bool)
      modifies this
      ensures threw == throws
      ensures State() == if throws then old(State()) else Apply(old(State()), call)
    {
      threw := throws;
      if !throws {
        match call
        case RegisterFormatter(a) => formatters := formatters + {a};
        case RegisterFilter(a) => filters := filters + {a};
        case InitFromStream => settingsApplied, sinksInstalled := settingsApplied + 1, true;
        case AddCommonAttributes => commonAttributes := true;
      }
    }

    /** `core::get()->flush()`. */
    method Flush()
      modifies this
      ensures State() == old(State()).(flushes := old(flushes) + 1)
    {
      flushes := flushes + 1;
    }

    /** `core::get()->remove_all_sinks()`. */
    method RemoveAllSinks()
      modifies this
      ensures State() == old(State()).(sinksInstalled := false)
    {
      sinksInstalled := false;
    }

    /** A record pushed through the logger source into the core. */
    method Push(r: Record)
      modifies this
      ensures State() == old(State()).(records := old(records) + [r])
    {
      records := records + [r];
    }
  }

  /** `utility::logging::Logger`. */
  class Logger {
    var init: bool

    /** A new logger is not initialised. */
    constructor ()
      ensures !init
    {
      init := false;
    }

    /** Reads the flag and changes nothing. */
    function IsInit(): (b: bool)
      reads this
      ensures b == init
    {
      init
    }

    /** `Logger::Init(logfile)`: already initialised, file not openable, setup throws, or set up. */
    method Init(logfile: string, fs: set<string>, core: Core, b: Backend) returns (out: Outcome)
      modifies this, core
      ensures (init, core.State(), out) == InitMember(old(init), old(core.State()), logfile in fs, b)
    {
      if IsInit() {
        return Returned(true);
      }
      var isOpen := logfile in fs;
      if isOpen {
        ghost var c0 := core.State();
        var threw := false;
        threw := core.Perform(RegisterFormatter("Severity"), Throws(b, 0));
        if threw { return Threw; }
        assert core.State() == SetupPrefix(c0, 1);
        threw := core.Perform(RegisterFilter("Severity"), Throws(b, 1));
        if threw { return Threw; }
        assert core.State() == SetupPrefix(c0, 2);
        threw := core.Perform(RegisterFormatter("Channel"), Throws(b, 2));
        if threw { return Threw; }
        assert core.State() == SetupPrefix(c0, 3);
        threw := core.Perform(RegisterFilter("Channel"), Throws(b, 3));
        if threw { return Threw; }
        assert core.State() == SetupPrefix(c0, 4);
        threw := core.Perform(RegisterFormatter("Target"), Throws(b, 4));
        if threw { return Threw; }
        assert core.State() == SetupPrefix(c0, 5);
        threw := core.Perform(RegisterFilter("Target"), Throws(b, 5));
        if threw { return Threw; }
        assert core.State() == SetupPrefix(c0, 6);

        threw := core.Perform(InitFromStream, Throws(b, 6));
        if threw { return Threw; }
        assert core.State() == SetupPrefix(c0, 7);
        threw := core.Perform(AddCommonAttributes, Throws(b, 7));
        if threw { return Threw; }
        assert core.State() == SetupPrefix(c0, 8);
        assert SetupCompletes(b);
      } else {
        return Returned(false);
      }
      init := true;
      return Returned(true);
    }
  }

  /** The process globals: `Logger::instance_` and the backend core. */
  class Runtime {
    var instance: Logger?
    const core: Core

    function State(): World
      reads this, instance, core
    {
      World(if instance == null then None else Some(instance.init), core.State())
    }

    constructor ()
      ensures State() == InitialWorld && fresh(core)
    {
      instance := null;
      core := new Core();
    }

    /** `Logger::GetInstance`: allocates on the first call, then always returns the same instance. */
    method GetInstance() returns (l: Logger)
      modifies this
      ensures l == instance
      ensures old(instance) != null ==> l == old(instance)
      ensures old(instance) == null ==> fresh(l)
      ensures State() == GetInstanceSpec(old(State()))
    {
      if instance == null {
        instance := new Logger();
      }
      l := instance;
    }

    /** The free function `init(file_name)`. */
    method InitLogging(fileName: string, fs: set<string>, b: Backend) returns (ok: bool)
      modifies this, instance, core
      ensures instance != null && (old(instance) != null ==> instance == old(instance))
      ensures old(instance) == null ==> fresh(instance)
      ensures (State(), ok) == InitSpec(old(State()), fs, fileName, b)
    {
      var logger := GetInstance();
      ok := false;
      var out := logger.Init(fileName, fs, core, b);
      if out.Returned? {
        ok := out.value;
      }
    }

    /** The free function `shutdown()`. */
    method Shutdown()
      modifies this, instance, core
      ensures instance != null && (old(instance) != null ==> instance == old(instance))
      ensures old(instance) == null ==> fresh(instance)
      ensures State() == ShutdownSpec(old(State()))
    {
      var logger := GetInstance();
      if logger.IsInit() {
        core.Flush();
        core.RemoveAllSinks();
      }
    }

    /** `LOG_CHANNEL(lvl, channel) << ...`: one record with the given severity and channel. */
    method LogChannel(lvl: SeverityLevel, channel: string)
      modifies this, core
      ensures instance != null && (old(instance) != null ==> instance == old(instance))
      ensures old(instance) == null ==> fresh(instance)
      ensures State() == LogChannelSpec(old(State()), lvl, channel)
    {
      var logger := GetInstance();
      core.Push(Record(lvl, channel));
    }

    /** `LOG(lvl) << ...`: one record on the channel "general". */
    method Log(lvl: SeverityLevel)
      modifies this, core
      ensures instance != null && (old(instance) != null ==> instance == old(instance))
      ensures old(instance) == null ==> fresh(instance)
      ensures State() == LogSpec(old(State()), lvl)
    {
      var logger := GetInstance();
      core.Push(Record(lvl, GeneralChannel));
    }
  }

  /**
   * A caller's view: a missing file fails, a good file initialises, a second
   * init changes nothing, records carry their channel, and after shutdown the
   * flag is still set, so init succeeds without reinstalling sinks.
   */
  method Scenario(fs: set<string>, good: string, missing: string)
    requires good in fs && missing !in fs
  {
    var rt := new Runtime();
    var ok := rt.InitLogging(missing, fs, Completes);
    assert !ok && rt.instance != null && !rt.instance.init;
    ok := rt.InitLogging(good, fs, Completes);
    assert ok && rt.instance.init;
    SetupCompletesConfigures(EmptyCore);
    assert rt.core.settingsApplied == 1 && rt.core.sinksInstalled;
    ok := rt.InitLogging(good, fs, ThrowsAt(0));
    assert ok && rt.core.settingsApplied == 1;
    rt.Log(Debug);
    rt.LogChannel(Error, "net");
    assert rt.core.records == [Record(Debug, "general"), Record(Error, "net")];
    rt.Shutdown();
    assert rt.instance.init && !rt.core.sinksInstalled && rt.core.flushes == 1;
    ok := rt.InitLogging(good, fs, Completes);
    assert ok && !rt.core.sinksInstalled && rt.core.settingsApplied == 1;
  }
}
