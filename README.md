# Severity codec and logger singleton of `utility::logging`, in Dafny

`utility::logging` is a thin wrapper over Boost.Log. This project models the
two parts of it that have behaviour of their own.

* **The severity-level codec** (`logger.h`, module `Severity` in
  `severity.dfy`). It covers the six-valued `severity_level` enumeration, the
  name table `severity_level_str`, the stream inserter `operator<<` (`Format`)
  and the stream extractor `operator>>` (`Read`). A level is the
  value `static_cast<int>(lvl)` gives, a 32-bit `int`, because the inserter also
  handles values outside the six enumerators. For such a value it writes the
  decimal integer. The bounds test casts to `std::size_t`, and the model
  writes that wrap-around out (`SizeT`). Decimal output has an independent
  reader, `ParseDecimal`. With it the model proves that the inserter is
  injective over all 2^32 values. The extractor is a method with the
  source's table scan and early `break`. It is proved against the
  first-match function `Lookup`.
* **The logger initialisation state machine** (`logger.cpp`) and the `LOG` /
  `LOG_CHANNEL` macros (`logger.h`). These are in module `Logging`, file
  `logging.dfy`.
  * Class `Logger` has the `init` flag.
  * Class `Runtime` holds the process globals: `Logger::instance_` and the
    Boost.Log core.
  * Class `Core` records what the wrapper does to the core: the factories
    it registers, how often a settings stream is applied, common
    attributes, installed sinks, flushes, and the records it submits.

  Each method is proved equal to a function on the value `World`, for
  example `InitSpec`, `ShutdownSpec` and `LogSpec`. Lemmas about those
  functions state the rules of the state machine, including ones over
  whole call sequences (`Run`).

  Two things are inputs to the model: whether the configuration file opens
  (`fs`, the set of openable paths) and which Boost.Log setup call throws,
  if any (`Backend`). `Logging.Scenario` walks through a short client
  session on the classes:
  1. A missing file fails.
  2. A good file initialises.
  3. A second init changes nothing.
  4. Records carry their channel.
  5. After shutdown the flag is still set, so init succeeds without
     reinstalling sinks.

Where the code and its documentation differ, the model follows the code:

* The header comment of `IsInit` (logger.h:104-108) gives `true` for both
  outcomes. The code returns the flag.
* Shutdown does not reset the flag (logger.cpp:31-38). That is modelled as
  written. `ShutdownThenInit` proves the consequence: a later `init` reports
  success and leaves the core without sinks.

## Model

| member | source | states |
|---|---|---|
| `Severity.LevelOrder` | logger.h:25-33 | The enumerators have ordinals 0..5 in the order trace < debug < info < warn < error < fatal, and each of them is in the table's range. |
| `Severity.NamesDistinct` | logger.h:39-47 | The six names of `severity_level_str` are pairwise distinct. |
| `Severity.NatDigitsRoundTrip` | logger.h:55 | The decimal digits written for a non-negative value are non-empty, all digits, and read back to that value. |
| `Severity.DecimalRoundTrip` | logger.h:54-55 | The text written for `static_cast<int>(lvl)` starts with a digit or '-' and `ParseDecimal` reads back exactly that integer. |
| `Severity.SizeT` | logger.h:52 | `static_cast<std::size_t>` of a level is a 64-bit unsigned value. |
| `Severity.SizeTGuard` | logger.h:52 | The inserter's test `static_cast<size_t>(lvl) < 6` holds exactly for 0 <= lvl < 6. Negative values wrap around and fail it. |
| `Severity.Format` | logger.h:50-58 | A level in range is written as its table name. Any other value is written as its canonical decimal numeral: it reads back to that value, and it has no leading zero, before or after a minus sign. |
| `Severity.FormatIsNameIff` | logger.h:52-56 | The inserter writes one of the six names if and only if the level is in range. |
| `Severity.FormatInjective` | logger.h:39-56 | Two levels that format to the same text are equal. This holds over all 32-bit values, not only the six names. |
| `Severity.LookupFrom` | logger.h:66-71 | The scan from index `from` returns the first index whose name equals the token. It returns nothing exactly when no later name matches. |
| `Severity.Lookup` | logger.h:66-71 | The table search returns the first ordinal whose name is the token, and none exactly when the token is not a name. |
| `Severity.Read` | logger.h:61-74 | The extractor's loop with `break` gives the value of `ReadSpec`. The target changes only on a good stream whose token names the new level. |
| `Severity.RoundTrip` | logger.h:52-71 | For every named level, reading its formatted name on a good stream yields that level, whatever the target held before. |
| `Severity.ReadUnknownUnchanged` | logger.h:66-71 | A token that matches none of the six names leaves the target unchanged. |
| `Severity.ReadNotGoodUnchanged` | logger.h:63 | A stream that is not good on entry leaves the target unchanged. |
| `Severity.OutOfRangeNotReadBack` | logger.h:52-71 | The decimal text written for an out-of-range level is not a name, so reading it leaves the target unchanged. |
| `Logging.SetupPrefixState` | logger.cpp:87-97 | After the first k setup calls, the registered formatter and filter factories are exactly those of the calls made so far. The settings stream counts as applied and sinks as installed once `init_from_stream` returns. Common attributes are set once `add_common_attributes` returns. Flushes and records are untouched. |
| `Logging.SetupCompletesConfigures` | logger.cpp:87-97 | A setup that completes registers both factories for Severity, Channel and Target. It applies the settings stream once, installs sinks and adds common attributes, and leaves flushes and records alone. |
| `Logging.FailedSetupIsPartial` | logger.cpp:85-106 | When setup call k throws, nothing is rolled back. The factories registered before call k stay, and sinks stay if the stream was applied. Common attributes are never added. |
| `Logging.GetInstanceSpec` | logger.cpp:54-60 | Getting the instance always leaves an instance present. An existing instance is returned unchanged. A missing one is created uninitialised. The core is not touched. |
| `Logging.InitOutcomes` | logger.cpp:16-28 | `init` returns true if and only if the logger was already initialised, or the file opens and every setup call returns. The flag afterwards equals that result. Already initialised means the core is unchanged. An unopenable file also leaves the core unchanged. Otherwise the core holds exactly the setup calls that returned. |
| `Logging.ShutdownThenInit` | logger.cpp:31-38 | After shutdown of an initialised logger the flag is still set. A later `init` returns true without re-running the setup, so the core has no sinks. |
| `Logging.LogIsGeneralChannel` | logger.h:15-19 | `LOG(lvl)` is `LOG_CHANNEL(lvl, "general")`. It appends one record with severity `lvl` and channel "general". |
| `Logging.InitialisedIsFinal` | logger.cpp:78-81 | Once initialised, the logger stays initialised under any sequence of init, shutdown and log calls. Factories, applied settings and common attributes never change again. |
| `Logging.FlagInvariantPreserved` | logger.cpp:85-106 | Every sequence of calls keeps this invariant: the flag is set only when the core holds a complete setup. The flag is assigned only after the backend calls return. |
| `Logging.RecordsInOrder` | logger.h:15-19 | The records in the core are the earlier ones followed by exactly those the macros emitted, in call order, whatever init and shutdown calls are interleaved. |
| `Logging.Core.Perform` | logger.cpp:87-97 | A backend call that throws changes nothing. One that returns has its effect `Apply`. |
| `Logging.Core.Flush` | logger.cpp:35 | `flush()` adds one flush and changes nothing else. |
| `Logging.Core.RemoveAllSinks` | logger.cpp:36 | `remove_all_sinks()` clears the sinks and changes nothing else. |
| `Logging.Core.Push` | logger.h:15-19 | A record pushed by a macro is appended to the core's records. |
| `Logging.Logger.constructor` | logger.cpp:44-47 | A new logger is not initialised. |
| `Logging.Logger.IsInit` | logger.cpp:69-72 | Returns the flag. It is a reading function, so it changes nothing. |
| `Logging.Logger.Init` | logger.cpp:75-107 | The new flag, core and outcome are those of `InitMember`, which has four cases. Already initialised: true and nothing changes. File does not open: false and nothing changes. A setup call throws: the exception escapes, the flag is unset and the earlier calls stay. Setup completes: the flag is set and true is returned. |
| `Logging.Runtime.constructor` | logger.cpp:41 | The process starts with no instance (`instance_ = NULL`) and an empty core. |
| `Logging.Runtime.GetInstance` | logger.cpp:54-60 | Allocates a fresh logger only when `instance_` is null. Otherwise it returns the same instance. The result agrees with `GetInstanceSpec`. |
| `Logging.Runtime.InitLogging` | logger.cpp:16-28 | The free function `init` gets the instance and calls `Init`. A thrown exception becomes false. The new state and result are those of `InitSpec`. |
| `Logging.Runtime.Shutdown` | logger.cpp:31-38 | Gets the instance. Only when it is initialised does it flush and remove all sinks. The flag is kept. The result agrees with `ShutdownSpec`. |
| `Logging.Runtime.LogChannel` | logger.h:15-16 | Gets the instance and submits one record with the given severity and channel. The result agrees with `LogChannelSpec`. |
| `Logging.Runtime.Log` | logger.h:18-19 | Gets the instance and submits one record with the given severity on channel "general". The result agrees with `LogSpec`. |

## Left out

- Boost.Log itself is left out: the settings-file grammar, the filter and formatter expression syntax, sink routing, and record filtering and formatting. The core is reduced to the effects listed above. `records` holds what the macros submit, not what reaches a sink.
- Opening the configuration file with `std::fstream` (logger.cpp:83-85) is the input `fs`, the set of openable paths. File contents are not modelled. A malformed file shows up only as a throwing `init_from_stream` (input `Backend`).
- The diagnostics written to `std::cerr` (logger.cpp:24, 79, 101) are output only.
- In `operator>>`, `strm >> level_str` (logger.h:65) splits on whitespace and may set the stream's failbit or eofbit. Neither is modelled. `Read` takes the stream's `good()` flag on entry and the extracted token, which is empty when extraction fails. The stream reference both operators return is not modelled.
- `Severity.Format` assumes the output stream is in its default format state with the classic locale. That means decimal base, no `showpos`, width 0 and no digit grouping. Flags such as `std::hex`, `std::showpos` or `setw`/`fill`, or a grouping `numpunct`, change the numeral written for an out-of-range level. Neither the decimal read-back nor injectivity is claimed for such streams.
- `Severity.SizeTGuard` assumes a 64-bit `std::size_t`. The enumeration's underlying type is implementation-defined; GCC and Clang pick `unsigned int` for this one. The model stores the 32-bit signed value `static_cast<int>(lvl)`. The outcome is the same under the unsigned reading: the same bit pattern fails the `size_t` guard exactly when the model's value does, and prints the same text. Since C++17, casting a value outside the enumeration's range 0..7 into it is undefined (before that it was unspecified). The model still accepts every 32-bit value.
- `Logging.Runtime.LogChannel` and `Logging.Runtime.Log` accept any `SeverityLevel`. The macros prefix their argument with `::utility::logging::` (logger.h:16, 19), so a call site can only pass one of the six enumerator names. The extra values add behaviour no caller can reach, and nothing is lost.
- Thread safety is left out: the unguarded lazy construction in `GetInstance` (logger.cpp:56-57) and the `_mt` logger source. All calls are sequential.
- `GetLogger` (logger.cpp:63-66), the `severity_channel_logger_mt` object and the attribute keywords (logger.h:36-37) are left out. The macros push their record straight into the core. The message text of a record is not modelled.
- `Logging.Runtime.InitLogging` treats every exception from the setup calls as a `std::exception`, which is what `init` catches (logger.cpp:23). Other exception types are not modelled.
- The destructor (logger.cpp:50-51) is empty. `std::shared_ptr` reference counting is modelled as a plain reference.
