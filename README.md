# Message builder, printer adapter and keyword interpreter

A Dafny model of a small Java program (`Main.java`) that shows three design
patterns on short messenger messages:

- **Interpreter**: a `KeywordExpression` holds a keyword and decides whether
  a text contains it (Java's `String.contains`).
- **Builder**: two builder variants, alert and info, turn raw text into a
  `Message` whose content carries the prefix `[ALERT]: ` or `[INFO]: ` and
  whose type is `alert` or `info`. A `Director` holds the selected builder
  and delegates construction to it.
- **Adapter**: a `PrinterAdapter` prints a list of messages through a
  `ConsolePrinter` that writes one message's content per line.
- **Driver** (`Main.main`): for positions 1 to 10 it takes
  `"!Disk space low!"` at odd positions and `"System running smoothly."` at
  even ones. It classifies each text with the keyword `"!"`, selects the alert
  builder when the keyword occurs and the info builder otherwise, constructs
  the message through the Director and appends it to a list. Then it prints
  the list.

Modules, one per part of the program:

| file | module | contents |
|---|---|---|
| `wrappers.dfy` | `Wrappers` | `Option`, standing for a reference that may be null |
| `interpreter.dfy` | `Interpreter` | `Contains` (substring test), `KeywordExpression.Interpret` and the lemmas about them |
| `messages.dfy` | `Messages` | the `Message` value and a `StartsWith` predicate |
| `builders.dfy` | `Builders` | the `Variant` of a builder, `Build`, its inverse `Parse`, the classes `MessageBuilder` and `Director` |
| `printing.dfy` | `Printing` | `Lines`, the classes `ConsolePrinter` and `PrinterAdapter` |
| `driver.dfy` | `Driver` | the loop of `Main.main` (`BuildMessages`), the whole program (`Run`) and the facts about the ten messages |

Modelling choices:

- `Message` is a datatype `Message(content, kind)`. The Java field `type` is
  called `kind`, because `type` is a reserved word in Dafny.
- The abstract `MessageBuilder` and its two subclasses are one class,
  `MessageBuilder`. A constant field `variant` (`Alert` or `Info`) records which
  subclass an object is. Its mutable field `message: Option<Message>` is the
  Java field that may be null.
- `Director.builder` is a nullable reference (`MessageBuilder?`).
  `Construct` requires it to be set, since the Java code dereferences it.
- Standard output is modelled by the field `ConsolePrinter.written`, which
  holds the lines written so far. `PrintMessage` appends one line.
- The keyword test `Contains(text, keyword)` says that the keyword stands at
  some position of the text. `KeywordExpression.Interpret` delegates to it,
  as the Java method delegates to `String.contains`.
- The messages built at positions 1 to n are specified by
  `Collect(MessageAt, n)`. `MessageAt(i)` is the message the program builds
  from the text of position i, using the builder that the keyword test
  selects. The loop in `BuildMessages` keeps the invariant that after i - 1
  iterations the list equals `Collect(MessageAt, i - 1)`.

The driver never calls `createNewMessage`. It allocates a fresh builder on
every iteration (Main.java:109,111), and `buildContent` overwrites the
message outright, so nothing carries over between messages. The model does
the same.

## Model

| member | source | states |
|---|---|---|
| `Interpreter.KeywordExpression.Interpret` | Main.java:19-21 | interpret is the substring test on the stored keyword; the empty keyword matches every text, and a match implies the keyword is no longer than the text |
| `Interpreter.Contains` | Main.java:20 | `Contains(text, keyword)` holds when the keyword stands at some position of the text; the empty keyword is contained in every text, and a contained keyword is no longer than the text |
| `Interpreter.ContainsIffSplit` | Main.java:20 | the text contains the keyword at some position iff the text is `p + keyword + q` for some `p`, `q` (both directions) |
| `Interpreter.ContainsChar` | Main.java:20 | a one-character keyword (such as `"!"`) is contained iff that character is an element of the text |
| `Builders.Prefix` | Main.java:48-57 | the content prefix of a variant: `[ALERT]: ` exactly for the alert builder and `[INFO]: ` exactly for the info builder |
| `Builders.TypeLabel` | Main.java:48-57 | the type of a variant's messages: `alert` exactly for the alert builder and `info` exactly for the info builder |
| `Builders.Build` | Main.java:45-61 | `Build(v, c)` is `Message(Prefix(v) + c, TypeLabel(v))`, the message a builder of variant v makes from c; its contract states that the type is the variant's label and the content starts with the variant's prefix |
| `Builders.Parse` | Main.java:48-57 | reading a text back: a result `(v, c)` means the text is `Prefix(v) + c`; None iff the text starts with neither `[ALERT]: ` nor `[INFO]: ` |
| `Builders.PrefixesExclusive` | Main.java:48-57 | a built message's content starts with `[ALERT]: ` iff it came from the alert builder, and with `[INFO]: ` iff from the info builder |
| `Builders.ParseBuild` | Main.java:48-57 | round trip: the variant and the raw content are recovered exactly from a built message's content |
| `Builders.BuildInjective` | Main.java:48-57 | two built messages are equal iff they come from the same variant and the same raw content |
| `Builders.LabelMatchesPrefix` | Main.java:48-57 | type/prefix consistency: type `alert` iff content starts with `[ALERT]: `, type `info` iff it starts with `[INFO]: ` |
| `Builders.MessageBuilder.constructor` | Main.java:37-38 | a new builder of the given variant holds no message |
| `Builders.MessageBuilder.CreateNewMessage` | Main.java:39 | createNewMessage leaves the builder without a message |
| `Builders.MessageBuilder.GetMessage` | Main.java:40 | getMessage returns the current message field, unchanged |
| `Builders.MessageBuilder.BuildContent` | Main.java:45-61 | buildContent replaces the message by the one the builder's variant makes from the content, independent of any earlier message; nothing else changes |
| `Builders.Director.constructor` | Main.java:63-64 | a new director has no builder selected |
| `Builders.Director.SetBuilder` | Main.java:65-67 | setBuilder overwrites the selection with the given builder |
| `Builders.Director.Construct` | Main.java:68-71 | with a builder selected, construct returns exactly the message the selected builder makes for the content, and leaves it in that builder |
| `Printing.Lines` | Main.java:89-93 | printing a list gives exactly one line per message, line j being message j's content, in list order |
| `Printing.ConsolePrinter.constructor` | Main.java:79-86 | a console printer starts with nothing written |
| `Printing.ConsolePrinter.PrintMessage` | Main.java:80-82 | printMessage writes the message's content as one more line |
| `Printing.PrinterAdapter.constructor` | Main.java:85-86 | the adapter owns a fresh console printer that has written nothing |
| `Printing.PrinterAdapter.Print` | Main.java:88-93 | print appends `Lines(messages)` to what the console printer had written |
| `Driver.RawContent` | Main.java:105 | the text of position i: `"!Disk space low!"` exactly at odd positions and `"System running smoothly."` exactly at even ones |
| `Driver.RawContentAlert` | Main.java:100-106 | the keyword expression for `"!"` accepts the text of position i iff i is odd |
| `Driver.Selected` | Main.java:106-112 | the builder chosen for a text: the alert builder iff the text contains `"!"`, else the info builder |
| `Driver.MessageAt` | Main.java:105-114 | the message the loop builds at position i (`Build(Selected(RawContent(i)), RawContent(i))`): its type is `alert` iff the position's text contains `"!"`, and `info` otherwise |
| `Driver.MessageAtParity` | Main.java:104-114 | position i yields the alert message for `"!Disk space low!"` when odd and the info message for `"System running smoothly."` when even |
| `Driver.AlertText` | Main.java:48 | the alert message for `"!Disk space low!"` has content `"[ALERT]: !Disk space low!"` |
| `Driver.AlertConcat` | Main.java:48 | the alert prefix followed by `"!Disk space low!"` is the line `"[ALERT]: !Disk space low!"` |
| `Driver.InfoConcat` | Main.java:57 | the info prefix followed by `"System running smoothly."` is the line `"[INFO]: System running smoothly."` |
| `Driver.InfoText` | Main.java:57 | the info message for `"System running smoothly."` has content `"[INFO]: System running smoothly."` |
| `Driver.CollectAt` | Main.java:104-116 | a loop over positions 1..n that appends one value per position yields n values, the j-th from position j + 1 (generation order) |
| `Driver.PrintedLine` | Main.java:104-114 | the message at list index j has content `[ALERT]: !Disk space low!` when j is even and `[INFO]: System running smoothly.` when j is odd |
| `Driver.PrintedLines` | Main.java:89-119 | printing the loop's list gives ten lines that alternate between the alert line and the info line, starting with the alert line |
| `Driver.BuildMessages` | Main.java:99-116 | the loop's list is exactly `Collect(MessageAt, 10)`: ten messages in generation order, message j being the one built for position j + 1 with the builder the keyword test selects |
| `Driver.Run` | Main.java:98-120 | the program writes exactly 10 lines: `[ALERT]: !Disk space low!` at lines 1, 3, ..., 9 and `[INFO]: System running smoothly.` at lines 2, 4, ..., 10 |

Because `Run` has no inputs and its postcondition fixes every line of its
output, running the program twice gives the same output.

## Left out

- `buildType` (Main.java:42, 51, 60): an empty hook in both builders, with no observable effect.
- Console output: `System.out.println` (Main.java:81) is modelled as appending to `ConsolePrinter.written`; no real I/O.
- The interfaces `Expression` and `MessagePrinter` (Main.java:7-9, 75-77): they only provide dispatch. Dafny traits are not used, so the builder subclasses are one class with a `variant` field.
- Java object identity beyond what the classes express: `Message` is a value, compared structurally, and its getters are the datatype's fields.
- `ArrayList` internals: the collected list is a `seq<Message>`.
- `Director.SetBuilder` accepts a null builder, as the Java code does.
- `Builders.Director.Construct`: calling `construct` with no builder selected, before any `setBuilder` or after `setBuilder(null)`, throws a NullPointerException in the source (Main.java:69). The model requires `builder != null` instead.
- `Interpreter.KeywordExpression.Interpret`: a Java `String` is a sequence of UTF-16 code units, and `contains` (Main.java:20) compares code units. A Dafny `string` is a sequence of Unicode scalar values and cannot hold a lone surrogate, so the model covers `contains` only on well-formed text. This does not matter for the ASCII literals the driver uses.
- The loop bound 10 and the two texts are fixed constants, as in the source. The driver is not generalised to other inputs.
