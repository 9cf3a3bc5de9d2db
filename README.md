# LibreLogin log redaction, modelled in Dafny

LibreLogin is an authentication plugin for Minecraft servers. Players type
commands such as `/login <password>` or `/register <password> <password>`.
The server echoes every command into its log, and the secrets would leak
there. LibreLogin installs a log filter that recognises the three
command-echo message templates. It suppresses an event when the echoed
command starts with one of sixteen protected prefixes. Every other event
is logged as usual.

The project has three modules, one per source file:

- `LogFilter` (`log_filter.dfy`) models the decision (`LogFilter.checkMessage`)
  and the protected prefix set. `Allows` is the reference definition: an
  event is suppressed exactly when its second argument is a string, its
  template is recognised, and the reconstructed command text starts with a
  protected prefix. The method `CheckMessage` follows the source step by
  step: the argument guard, the template `switch` with its `""` default, the
  empty-text shortcut, and the scan over the set that stops at the first
  match. The method picks each prefix from the set in an arbitrary order, so
  its proof also shows that the verdict does not depend on the set's
  iteration order. The lemmas cover the fail-open cases, whole-token and
  case-sensitive matching, independence from all arguments but the second,
  and concrete commands such as `/login secret123` and `/help`.
- `JulAdapter` (`simple_log_filter.dfy`) models the java.util.logging
  adapter `SimpleLogFilter`. A `Logger` class holds the mutable filter slot.
  `null` in that slot is `None`. A filter in the slot is either a foreign
  filter, seen only as its decision on each record, or a redacting filter.
  The constructor captures the slot in a `const` field. `IsLoggable` ANDs
  the captured filter with the decision. `Inject` installs the filter on the
  logger. A redacting filter can capture another redacting filter, for
  example when a second instance is built after the first was injected, so
  the model allows chains of them, ordered by a ghost depth.
- `Log4JAdapter` (`log4j_filter.dfy`) models the Log4J adapter
  `Log4JFilter`. Each `filter` overload packs its parameters into an array
  and calls `checkMessageResult`, which maps the decision to NEUTRAL or DENY.
  The getters for the match and mismatch results and for the life-cycle
  state are modelled too.

Arguments are values of `Arg = Str(s) | Other`. `Other` stands for any
object that is not a `String`, including `null`. Java's `startsWith` is the
sequence-prefix test `p <= text`.

Two points about the adapters:

- The constructor captures the logger's filter, and `inject` only installs
  the new filter. The model keeps the two steps apart.
- The adapters catch no exceptions. The model's types rule out the nulls
  that would raise them; see "## Left out" for what that leaves uncovered.

## Model

| member | source | states |
|---|---|---|
| `LogFilter.CheckMessage` | Plugin/src/main/java/xyz/kyngs/librelogin/common/log/LogFilter.java:49-65 | the procedure (guard, template switch, empty-text shortcut, early-exit scan of the set in any order) returns exactly the reference verdict `Allows` |
| `LogFilter.ProtectedShape` | Plugin/src/main/java/xyz/kyngs/librelogin/common/log/LogFilter.java:23-40 | every protected prefix has at least three characters, starts with `/` and ends with a space |
| `LogFilter.PrefixFree` | Plugin/src/main/java/xyz/kyngs/librelogin/common/log/LogFilter.java:23-40 | no protected prefix is a proper prefix of another |
| `LogFilter.AtMostOneMatch` | Plugin/src/main/java/xyz/kyngs/librelogin/common/log/LogFilter.java:23-40 | a text starts with at most one protected prefix, so at most one iteration of the scan can find a match |
| `LogFilter.EmptyTextNotProtected` | Plugin/src/main/java/xyz/kyngs/librelogin/common/log/LogFilter.java:58-62 | the empty text starts with no protected prefix, so the `isEmpty` shortcut agrees with the scan |
| `LogFilter.BareCommandNotProtected` | Plugin/src/main/java/xyz/kyngs/librelogin/common/log/LogFilter.java:23-40 | a protected command without its trailing space (for example `/login`) is not protected |
| `LogFilter.SpacelessNotProtected` | Plugin/src/main/java/xyz/kyngs/librelogin/common/log/LogFilter.java:60-62 | a command typed without arguments, that is a text without a space (for example `/loginstats`), is never protected |
| `LogFilter.WholeToken` | Plugin/src/main/java/xyz/kyngs/librelogin/common/log/LogFilter.java:23-40 | matching is on whole tokens: a command line whose first word with its space is not a protected prefix (and is not `/librelogin `) is never protected, whatever arguments follow; so `/loginstats foo` is kept |
| `LogFilter.InitialNotProtected` | Plugin/src/main/java/xyz/kyngs/librelogin/common/log/LogFilter.java:23-40 | a command whose name starts with a character other than `l r p a c s 2` is never protected |
| `LogFilter.UpperCaseCommandNotProtected` | Plugin/src/main/java/xyz/kyngs/librelogin/common/log/LogFilter.java:60-62 | matching is case-sensitive: a command name starting with an upper-case letter is never protected |
| `LogFilter.NothingToInspectKept` | Plugin/src/main/java/xyz/kyngs/librelogin/common/log/LogFilter.java:50 | with at most one argument, or a non-string second argument, the event is kept whatever the template |
| `LogFilter.UnrecognisedTemplateKept` | Plugin/src/main/java/xyz/kyngs/librelogin/common/log/LogFilter.java:52-58 | any template other than the three recognised ones is kept whatever the arguments |
| `LogFilter.OnlySecondArgumentMatters` | Plugin/src/main/java/xyz/kyngs/librelogin/common/log/LogFilter.java:50-54 | two argument arrays that agree on whether there is a second argument, and on that argument, get the same verdict |
| `LogFilter.RecognisedVerdict` | Plugin/src/main/java/xyz/kyngs/librelogin/common/log/LogFilter.java:53-64 | for a recognised template and a string second argument, the event is kept iff the reconstructed command (verbatim, or behind `/`) starts with no protected prefix |
| `LogFilter.ProtectedCommandDenied` | Plugin/src/main/java/xyz/kyngs/librelogin/common/log/LogFilter.java:60-62 | for every recognised template and every protected prefix, a reconstructed command starting with it is suppressed |
| `LogFilter.EmptyCommandKept` | Plugin/src/main/java/xyz/kyngs/librelogin/common/log/LogFilter.java:58 | the verbatim template with an empty command is kept |
| `LogFilter.IssuedLoginDenied` | Plugin/src/main/java/xyz/kyngs/librelogin/common/log/LogFilter.java:53 | `["Alice", "/login secret123"]` under the verbatim template is suppressed |
| `LogFilter.IssuedHelpKept` | Plugin/src/main/java/xyz/kyngs/librelogin/common/log/LogFilter.java:53 | `["Alice", "/help"]` under the verbatim template is kept |
| `LogFilter.ExecutedRegisterDenied` | Plugin/src/main/java/xyz/kyngs/librelogin/common/log/LogFilter.java:54 | `["Bob", "reg mypassword"]` under the indexed template is inspected as `/reg mypassword` and suppressed |
| `LogFilter.NearMissesKept` | Plugin/src/main/java/xyz/kyngs/librelogin/common/log/LogFilter.java:24-39 | `/loginstats`, `/loginstats foo`, `/LOGIN pw` and `/login` are kept |
| `JulAdapter.SimpleLogFilter.constructor` | Plugin/src/main/java/xyz/kyngs/librelogin/common/log/SimpleLogFilter.java:35-38 | the filter remembers the logger and the filter the logger held at construction, in fields that never change |
| `JulAdapter.SimpleLogFilter.IsLoggable` | Plugin/src/main/java/xyz/kyngs/librelogin/common/log/SimpleLogFilter.java:41-44 | a record rejected by the captured filter is rejected; otherwise the verdict is the redaction decision; a loggable record is always one the decision keeps |
| `JulAdapter.SimpleLogFilter.Inject` | Plugin/src/main/java/xyz/kyngs/librelogin/common/log/SimpleLogFilter.java:46-49 | only the logger's filter slot changes; afterwards it holds this filter and passes a record iff the captured filter passes it and the decision keeps it |
| `JulAdapter.ChainDecision` | Plugin/src/main/java/xyz/kyngs/librelogin/common/log/SimpleLogFilter.java:35-43 | a stack of redacting filters, each capturing the one below, passes a record iff the foreign filter (or empty slot) at the bottom does and the decision keeps it |
| `JulAdapter.InstallTwice` | Plugin/src/main/java/xyz/kyngs/librelogin/common/log/SimpleLogFilter.java:35-49 | constructing then injecting twice leaves the logger holding the filter, which still remembers the logger's original filter |
| `Log4JAdapter.CheckMessageResult` | Plugin/src/main/java/xyz/kyngs/librelogin/common/log/Log4JFilter.java:41-43 | NEUTRAL iff the decision keeps the event, DENY iff its second argument makes it sensitive, never ACCEPT |
| `Log4JAdapter.NeutralOnMatchAndMismatch` | Plugin/src/main/java/xyz/kyngs/librelogin/common/log/Log4JFilter.java:45-53 | the results on match and on mismatch are both NEUTRAL |
| `Log4JAdapter.LifeCycleConstant` | Plugin/src/main/java/xyz/kyngs/librelogin/common/log/Log4JFilter.java:126-140 | the state is STARTED, `isStarted` is true and `isStopped` is false |
| `Log4JAdapter.FilterParams` | Plugin/src/main/java/xyz/kyngs/librelogin/common/log/Log4JFilter.java:55-58 | the variable-arity overload denies iff there is a second parameter and it makes the event sensitive; never ACCEPT |
| `Log4JAdapter.Filter1` | Plugin/src/main/java/xyz/kyngs/librelogin/common/log/Log4JFilter.java:60-63 | a single parameter always gives NEUTRAL |
| `Log4JAdapter.Filter2` | Plugin/src/main/java/xyz/kyngs/librelogin/common/log/Log4JFilter.java:65-68 | DENY iff `p1` makes the event sensitive; never ACCEPT |
| `Log4JAdapter.Filter3` | Plugin/src/main/java/xyz/kyngs/librelogin/common/log/Log4JFilter.java:70-73 | DENY iff `p1` makes the event sensitive, whatever `p0` and `p2`; never ACCEPT |
| `Log4JAdapter.Filter4` | Plugin/src/main/java/xyz/kyngs/librelogin/common/log/Log4JFilter.java:75-78 | DENY iff `p1` makes the event sensitive; never ACCEPT |
| `Log4JAdapter.Filter5` | Plugin/src/main/java/xyz/kyngs/librelogin/common/log/Log4JFilter.java:80-83 | DENY iff `p1` makes the event sensitive; never ACCEPT |
| `Log4JAdapter.Filter6` | Plugin/src/main/java/xyz/kyngs/librelogin/common/log/Log4JFilter.java:85-88 | DENY iff `p1` makes the event sensitive; never ACCEPT |
| `Log4JAdapter.Filter7` | Plugin/src/main/java/xyz/kyngs/librelogin/common/log/Log4JFilter.java:90-93 | DENY iff `p1` makes the event sensitive; never ACCEPT |
| `Log4JAdapter.Filter8` | Plugin/src/main/java/xyz/kyngs/librelogin/common/log/Log4JFilter.java:95-98 | DENY iff `p1` makes the event sensitive; never ACCEPT |
| `Log4JAdapter.Filter9` | Plugin/src/main/java/xyz/kyngs/librelogin/common/log/Log4JFilter.java:100-103 | DENY iff `p1` makes the event sensitive; never ACCEPT |
| `Log4JAdapter.Filter10` | Plugin/src/main/java/xyz/kyngs/librelogin/common/log/Log4JFilter.java:105-108 | DENY iff `p1` makes the event sensitive; never ACCEPT |
| `Log4JAdapter.FilterObject` | Plugin/src/main/java/xyz/kyngs/librelogin/common/log/Log4JFilter.java:110-113 | a raw object with a throwable always gives NEUTRAL, since its parameter array is empty |
| `Log4JAdapter.FilterMessage` | Plugin/src/main/java/xyz/kyngs/librelogin/common/log/Log4JFilter.java:115-118 | DENY iff the message has a second parameter that makes its format sensitive; never ACCEPT |
| `Log4JAdapter.FilterEvent` | Plugin/src/main/java/xyz/kyngs/librelogin/common/log/Log4JFilter.java:120-124 | an event gets the verdict of the message it carries |

## Left out

- `Log4JFilter.inject` is not modelled. It adds a fresh filter to Log4J's process-wide root logger, which is backend state outside this model.
- `Log4JFilter.initialize`, `start` and `stop` are not modelled. Their bodies are empty, and the model keeps no Log4J filter state that they could change.
- The Log4J `Logger`, `Level`, `Marker` and `Throwable` parameters of the overloads are dropped, because none of them affects the verdict.
- `Log4JAdapter.FilterObject` takes the object's `toString()` text directly. Calling `toString()` on an arbitrary object is not modelled.
- JulAdapter.SimpleLogFilter.IsLoggable: a record with a `null` parameter array is not modelled, and this is a common input, not a rare one. java.util.logging leaves the array `null` for every record logged without parameters, such as `logger.info("text")`. `isLoggable` passes that array on unchanged (SimpleLogFilter.java:43). Reading the source, `checkMessage` would then throw a `NullPointerException` at LogFilter.java:50 for every such record the captured filter passes. This is an observation from reading the code; nothing was executed. The model has no `null` array: its nearest input, `Record(m, [])`, is kept.
- Log4JAdapter.FilterMessage and Log4JAdapter.FilterEvent: a message whose `getParameters()` is `null` is not modelled. Some Log4J message types return `null` there (Log4JFilter.java:117,123), and the same `NullPointerException` would follow. The model's nearest input, an empty parameter sequence, gives NEUTRAL.
- Other nulls and Java exceptions are not modelled: a `null` template reaching the `switch` and a `null` object in the raw-object overload. The source does not catch them, and the model's types exclude them.
- Message formatting, placeholder substitution, levels and output sinks are not modelled, because they do not affect the verdict.
- The java.util.logging `Logger` is reduced to its filter slot. Its `log` path, handlers and levels are not part of this model.
- A foreign java.util.logging filter is modelled only as a total decision on records. Any side effects of its `isLoggable` are not captured.
- Concurrent evaluation and concurrent installation are not modelled. The decision reads only its inputs and an immutable set.
