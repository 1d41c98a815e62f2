# Retro: a verified model of the retrospective journal CLI

Retro is a personal command-line journal for retrospective notes. The default verb
adds one positive, negative or kudos record to `retro.json`. The `dump` verb prints
every record under three headed sections. The `clear` verb deletes the file.
This project models `Retro/Program.cs` in Dafny and proves what its commands do to
the persisted document.

The project has four modules:

- `Wrappers` (`wrappers.dfy`): `Option`, used for C# null strings and for an
  absent file, and `Result`, used for the exception `CreateRecord` throws.
- `Dto` (`dto.dfy`): the record variants `PositiveRecord`, `NegativeRecord` and
  `Kudos(target, description, date)`. Kudos takes its target first, as at
  `Program.cs:124`. The module also has `RetroData`, the content of a `Retro`
  object (three insertion-ordered lists). `Retro` is a class whose three list
  fields are updated in place.
- `RetroProgram` (`program.dfy`): the program itself.
  - `RetroFile` is a class whose `document` field is absent or holds a saved
    `RetroData`.
  - Each command is a method on that file (`RunAddAndReturnExitCode`,
    `RunDumpAndReturnExitCode`, `RunClearAndReturnExitCode`, `Dispatch` for the
    verb dispatch of `Main`).
  - Each method is proved equal to a pure specification function (`AddEffect`,
    `DumpEffect`, `ClearEffect`, `Step`). These return the new document, the
    exit status and the printed lines.
  - Lemmas about those functions state the program's guarantees.
- `History` (`history.dfy`): runs a sequence of invocations against one document.
  It proves the invariants that hold across invocations:
  - the store stays well formed;
  - between clears, the store is append-only;
  - a clear always leaves no document.

A store is *well formed* (`Dto.WellFormed`) when each list holds only its own
variant and every kudos names a target that is neither null nor empty.

An add invocation is *accepted* (`RetroProgram.Accepted`) when two things hold:

- the kudos check passes: the kudos flag is unset, or the target is not null and
  not empty;
- at least one variant flag is set.

## Model

| member | source | states |
|---|---|---|
| `RetroProgram.CreateRecord` | Retro/Program.cs:107-128 | the variant is that of the first set flag in the order positive, negative, kudos (each as an if-and-only-if); the record carries the description and the clock value; a kudos carries the target; with no flag set it fails with ArgumentOutOfRange("Unknow type of record") |
| `RetroProgram.AddedTo` | Retro/Program.cs:88-101 | appending a record changes exactly one list, the one for its variant, which becomes the old list plus the record at its end; the other two lists are unchanged |
| `RetroProgram.AddedToGrowsOneList` | Retro/Program.cs:91-101 | an append grows the store by exactly one record; every existing record keeps its position and value (each old list is a prefix of the new one) |
| `RetroProgram.KudosWithoutTargetIsRefused` | Retro/Program.cs:27-32 | with the kudos flag set and a null or empty target, add prints "Kudos needs to be addressed", exits with -1 and leaves the document as it was, whatever the positive and negative flags are |
| `RetroProgram.NoVariantFlagLeavesDocument` | Retro/Program.cs:34-36 | with no variant flag set, add ends with the unhandled ArgumentOutOfRange before the save, so the document is unchanged |
| `RetroProgram.AcceptedAddAppendsOneRecord` | Retro/Program.cs:34-38 | an accepted add saves the loaded store (empty when no document existed) with the created record appended to one list; the store grows by one, only by appending; add prints nothing and exits with 0 |
| `RetroProgram.AddSucceedsIffAccepted` | Retro/Program.cs:25-38 | add exits with 0 if and only if it is accepted, and it changes the document if and only if it is accepted |
| `RetroProgram.AddKeepsWellFormed` | Retro/Program.cs:28-36 | add never stores a record in a list of another variant, and never stores a kudos without a target |
| `RetroProgram.Rendered` | Retro/Program.cs:60-66 | the dump of one list has one line per record, the rendering of that record, in list order |
| `RetroProgram.DumpOutput` | Retro/Program.cs:41-58 | dump makes 6 + (number of records) `WriteLine` calls: the banner, "Positive points:", the positive records, a blank line, "Negative points:", the negative records, a blank line, "Kudos:", the kudos, each record at its list position |
| `RetroProgram.DumpOfAbsentDocument` | Retro/Program.cs:78-86 | with no document, dump loads an empty store, prints only the banner and the three headings, exits with 0 and leaves the document absent |
| `RetroProgram.ClearIsIdempotent` | Retro/Program.cs:68-76 | clear exits with 0 and leaves no document, whether or not one existed; clearing twice has the same effect as clearing once |
| `RetroProgram.StepKeepsWellFormed` | Retro/Program.cs:17-22 | each of the three verbs keeps a well-formed document well formed |
| `RetroProgram.LoadRetroObject` | Retro/Program.cs:78-86 | yields a fresh Retro object holding the saved store, or three empty lists when no document exists |
| `RetroProgram.SaveRetroObject` | Retro/Program.cs:130-134 | the document afterwards holds exactly the object's three lists |
| `RetroProgram.AddNewRecord` | Retro/Program.cs:88-105 | the object's lists become AddedTo of their old content and the created record; when creation fails, they are unchanged and the failure propagates |
| `RetroProgram.RunAddAndReturnExitCode` | Retro/Program.cs:25-39 | new document, exit status and output equal AddEffect of the old document |
| `RetroProgram.DumpRecords` | Retro/Program.cs:60-66 | the loop prints exactly one line per record, the record's rendering, in list order |
| `RetroProgram.RunDumpAndReturnExitCode` | Retro/Program.cs:41-58 | exits with 0 and prints DumpOutput of the loaded store, without changing the document |
| `RetroProgram.RunClearAndReturnExitCode` | Retro/Program.cs:68-76 | exits with 0 and leaves no document |
| `RetroProgram.Dispatch` | Retro/Program.cs:15-23 | running a parsed verb has exactly the effect Step gives for the old document |
| `History.RunKeepsWellFormed` | Retro/Program.cs:15-23 | after any sequence of invocations starting from a well-formed document, the document is still well formed |
| `History.RunWithoutClearOnlyAppends` | Retro/Program.cs:34-38 | over any sequence of invocations without a clear, each list of the loaded store is a prefix of the same list at the end, and the store grows by exactly the number of accepted adds |
| `History.RunEndingInClear` | Retro/Program.cs:68-76 | any sequence of invocations that ends in a clear leaves no document |
| `Dto.Retro.constructor` | Retro/Program.cs:85 | a new Retro object has three empty lists |
| `Dto.Retro.FromData` | Retro/Program.cs:82 | the object built from a saved document holds exactly that document's lists |

Two details of the code the model keeps:

- `CreateRecord` does not check the kudos target itself. The only check is the one
  in `RunAddAndReturnExitCode` (lines 28-32), before anything is loaded.
  `CreateRecord` on its own therefore builds a kudos with whatever target it is
  given.
- A description that was not given stays null in the record; it is not turned
  into an empty string.

## Left out

- JSON serialization (Newtonsoft `SerializeObject`/`DeserializeObject`): saving
  stores the `RetroData` value itself and loading returns it. Corrupt or
  hand-edited files are not modelled.
- Command-line parsing (`Parser.Default.ParseArguments`, lines 17-22) is a
  foreign library. `Dispatch` takes an already parsed `Invocation`, so exit code
  1 for parse errors is not modelled.
- File-system calls and the file path (line 13): the file is the `document`
  field of `RetroFile`. I/O failures (disk full, permission denied) are not
  modelled.
- `DateTime.Now` (line 110) is the `now` parameter of an add invocation. Only
  equality of instants is used.
- `record.ToString()` belongs to the Dto types, which are not part of this model.
  It is the `render` parameter, left unconstrained. `Console.WriteLine` output is
  returned as one string per call, so a rendering that contains a line break
  counts as one output line.
- The static `_options` field (lines 12 and 27) is passed as an explicit `Options`
  value. The program has no concurrency.
- The `ArgumentOutOfRangeException` in `AddNewRecord` (line 104) is unreachable.
  The record variants form a closed datatype and the match over them is
  exhaustive.
- RunAddAndReturnExitCode: an exception thrown out of `CreateRecord` ends the
  process with the runtime's own exit code. The model reports it as
  `Unhandled(ArgumentOutOfRange("Unknow type of record"))`, not as a number.
- Dto.Retro.FromData models deserialization, so the initial document is assumed
  well formed: `RunKeepsWellFormed` requires it of the starting document. A file
  edited by hand could hold a kudos without a target.
