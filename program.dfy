/**
  Retro/Program.cs: the add, dump and clear commands of the retrospective
  journal. The retro.json file is a RetroFile whose document is absent or
  holds the content of a saved Retro object; serialization is the identity.
  The clock (DateTime.Now) is the parameter `now`, record.ToString() is the
  parameter `render`, and console output is returned as a sequence of lines.
 */
module RetroProgram {
  import opened Wrappers
  import opened Dto

  /** The parsed options of the default (add) verb. */
  datatype Options = Options(
    positive: bool,
    negative: bool,
    kudos: bool,
    kudosTarget: NullableString,
    description: NullableString)

  /** ArgumentOutOfRangeException, which nothing in the program catches. Its one
      string argument is, for this exception type, the parameter name. */
  datatype Error = ArgumentOutOfRange(paramName: string)

  /** How an invocation ends: with an exit code, or by an unhandled exception. */
  datatype ExitStatus = Exit(code: int) | Unhandled(error: Error)

  /** What an invocation does: the document afterwards, how it ends, what it prints. */
  datatype Effect = Effect(document: Option<RetroData>, status: ExitStatus, output: seq<string>)

  const KudosNotAddressed := "Kudos needs to be addressed"
  const UnknownTypeOfRecord := "Unknow type of record"
  const Banner := "================== Retro points =================="

  function Heading(s: Section): string {
    match s
    case PositiveSection => "Positive points:"
    case NegativeSection => "Negative points:"
    case KudosSection => "Kudos:"
  }

  /** The add command passes validation and has a variant flag to build a record from. */
  predicate Accepted(opts: Options) {
    !(opts.kudos && IsNullOrEmpty(opts.kudosTarget)) && (opts.positive || opts.negative || opts.kudos)
  }

  // ---------------------------------------------------------------- add

  /** CreateRecord: the first set flag, in the order positive, negative, kudos,
      picks the variant; the record carries the description and the clock. */
  function CreateRecord(opts: Options, now: Timestamp): (r: Result<Record, Error>)
    ensures r.Failure? <==> !opts.positive && !opts.negative && !opts.kudos
    ensures r.Failure? ==> r.error == ArgumentOutOfRange(UnknownTypeOfRecord)
    ensures r.Success? ==> r.value.description == opts.description && r.value.date == now
    ensures r.Success? && r.value.PositiveRecord? <==> opts.positive
    ensures r.Success? && r.value.NegativeRecord? <==> !opts.positive && opts.negative
    ensures r.Success? && r.value.Kudos? <==> !opts.positive && !opts.negative && opts.kudos
    ensures r.Success? && r.value.Kudos? ==> r.value.target == opts.kudosTarget
  {
    if opts.positive then Success(PositiveRecord(opts.description, now))
    else if opts.negative then Success(NegativeRecord(opts.description, now))
    else if opts.kudos then Success(Kudos(opts.kudosTarget, opts.description, now))
    else Failure(ArgumentOutOfRange(UnknownTypeOfRecord))
  }

  /** The switch of AddNewRecord on values: r goes at the end of its own list. */
  function AddedTo(d: RetroData, r: Record): (e: RetroData)
    ensures forall s: Section :: List(e, s) == if s == SectionOf(r) then List(d, s) + [r] else List(d, s)
  {
    match r
    case Kudos(_, _, _) => d.(kudos := d.kudos + [r])
    case NegativeRecord(_, _) => d.(negativeExperiences := d.negativeExperiences + [r])
    case PositiveRecord(_, _) => d.(positiveExperiences := d.positiveExperiences + [r])
  }

  /** What LoadRetroObject yields for the document. */
  function Loaded(doc: Option<RetroData>): RetroData {
    match doc
    case None => Empty
    case Some(d) => d
  }

  /** RunAddAndReturnExitCode on values. */
  function AddEffect(doc: Option<RetroData>, opts: Options, now: Timestamp): Effect {
    if opts.kudos && IsNullOrEmpty(opts.kudosTarget) then
      Effect(doc, Exit(-1), [KudosNotAddressed])
    else
      match CreateRecord(opts, now)
      case Failure(e) => Effect(doc, Unhandled(e), [])
      case Success(r) => Effect(Some(AddedTo(Loaded(doc), r)), Exit(0), [])
  }

  // ---------------------------------------------------------------- dump

  /** DumpRecords on values: one rendered line per record, in list order. */
  function Rendered(records: seq<Record>, render: Record -> string): (lines: seq<string>)
    ensures |lines| == |records|
    ensures forall i :: 0 <= i < |records| ==> lines[i] == render(records[i])
  {
    if records == [] then [] else [render(records[0])] + Rendered(records[1..], render)
  }

  /** What RunDumpAndReturnExitCode prints for a Retro object with content d. */
  function DumpOutput(d: RetroData, render: Record -> string): (lines: seq<string>)
    ensures |lines| == 6 + Size(d)
    ensures lines[0] == Banner && lines[1] == Heading(PositiveSection)
    ensures forall i :: 0 <= i < |d.positiveExperiences| ==>
              lines[2 + i] == render(d.positiveExperiences[i])
    ensures lines[2 + |d.positiveExperiences|] == ""
    ensures lines[3 + |d.positiveExperiences|] == Heading(NegativeSection)
    ensures forall i :: 0 <= i < |d.negativeExperiences| ==>
              lines[4 + |d.positiveExperiences| + i] == render(d.negativeExperiences[i])
    ensures lines[4 + |d.positiveExperiences| + |d.negativeExperiences|] == ""
    ensures lines[5 + |d.positiveExperiences| + |d.negativeExperiences|] == Heading(KudosSection)
    ensures forall i :: 0 <= i < |d.kudos| ==>
              lines[6 + |d.positiveExperiences| + |d.negativeExperiences| + i] == render(d.kudos[i])
  {
    [Banner, Heading(PositiveSection)] + Rendered(d.positiveExperiences, render)
    + ["", Heading(NegativeSection)] + Rendered(d.negativeExperiences, render)
    + ["", Heading(KudosSection)] + Rendered(d.kudos, render)
  }

  function DumpEffect(doc: Option<RetroData>, render: Record -> string): Effect {
    Effect(doc, Exit(0), DumpOutput(Loaded(doc), render))
  }

  // ---------------------------------------------------------------- clear

  function ClearEffect(doc: Option<RetroData>): Effect {
    Effect(None, Exit(0), [])
  }

  // ---------------------------------------------------------------- dispatch

  /** One invocation of the program, already parsed: the default verb with its
      options and the clock value it reads, or the dump or clear verb. */
  datatype Invocation = Add(options: Options, now: Timestamp) | Dump | Clear

  function Step(doc: Option<RetroData>, inv: Invocation, render: Record -> string): Effect {
    match inv
    case Add(opts, now) => AddEffect(doc, opts, now)
    case Dump => DumpEffect(doc, render)
    case Clear => ClearEffect(doc)
  }

  // ---------------------------------------------------------------- properties of one invocation

  /** A kudos without a target is refused before the file is touched, whatever
      other flags are set. */
  lemma KudosWithoutTargetIsRefused(doc: Option<RetroData>, opts: Options, now: Timestamp)
    requires opts.kudos && IsNullOrEmpty(opts.kudosTarget)
    ensures AddEffect(doc, opts, now) == Effect(doc, Exit(-1), [KudosNotAddressed])
  {
  }

  /** With no variant flag, CreateRecord throws before anything is saved. */
  lemma NoVariantFlagLeavesDocument(doc: Option<RetroData>, opts: Options, now: Timestamp)
    requires !opts.positive && !opts.negative && !opts.kudos
    ensures AddEffect(doc, opts, now) == Effect(doc, Unhandled(ArgumentOutOfRange(UnknownTypeOfRecord)), [])
  {
  }

  /** Adding grows the list of the record's variant by one record at its end and
      leaves the other two lists as they were. */
  lemma AddedToGrowsOneList(d: RetroData, r: Record)
    ensures Size(AddedTo(d, r)) == Size(d) + 1
    ensures Extends(d, AddedTo(d, r))
    ensures List(AddedTo(d, r), SectionOf(r)) == List(d, SectionOf(r)) + [r]
  {
  }

  /** An accepted add saves the loaded store with the new record appended to
      exactly one list, prints nothing and exits with 0. */
  lemma AcceptedAddAppendsOneRecord(doc: Option<RetroData>, opts: Options, now: Timestamp)
    requires Accepted(opts)
    ensures CreateRecord(opts, now).Success?
    ensures var r := CreateRecord(opts, now).value;
            AddEffect(doc, opts, now) == Effect(Some(AddedTo(Loaded(doc), r)), Exit(0), [])
    ensures var e := AddEffect(doc, opts, now).document.value;
            Size(e) == Size(Loaded(doc)) + 1 && Extends(Loaded(doc), e)
  {
  }

  /** Add exits with 0 exactly when it is accepted, and exactly then it changes
      the document. */
  lemma AddSucceedsIffAccepted(doc: Option<RetroData>, opts: Options, now: Timestamp)
    ensures AddEffect(doc, opts, now).status == Exit(0) <==> Accepted(opts)
    ensures AddEffect(doc, opts, now).document != doc <==> Accepted(opts)
  {
    if Accepted(opts) {
      AcceptedAddAppendsOneRecord(doc, opts, now);
    }
  }

  /** A record built by an accepted add fits the list it is appended to. */
  lemma AddKeepsWellFormed(doc: Option<RetroData>, opts: Options, now: Timestamp)
    requires WellFormed(Loaded(doc))
    ensures WellFormed(Loaded(AddEffect(doc, opts, now).document))
  {
  }

  /** Dump with no document prints the banner and the three headings only. */
  lemma DumpOfAbsentDocument(render: Record -> string)
    ensures DumpEffect(None, render) ==
      Effect(None, Exit(0), [Banner, "Positive points:", "", "Negative points:", "", "Kudos:"])
  {
  }

  /** Clear always ends with no document and exit code 0; clearing twice is
      clearing once. */
  lemma ClearIsIdempotent(doc: Option<RetroData>, render: Record -> string)
    ensures Step(doc, Clear, render) == Effect(None, Exit(0), [])
    ensures Step(Step(doc, Clear, render).document, Clear, render) == Step(doc, Clear, render)
  {
  }

  /** Every invocation keeps the document well formed. */
  lemma StepKeepsWellFormed(doc: Option<RetroData>, inv: Invocation, render: Record -> string)
    requires WellFormed(Loaded(doc))
    ensures WellFormed(Loaded(Step(doc, inv, render).document))
  {
    if inv.Add? {
      AddKeepsWellFormed(doc, inv.options, inv.now);
    }
  }

  // ---------------------------------------------------------------- the file and the commands

  /** The retro.json file next to the executable. */
  class RetroFile {
    var document: Option<RetroData>

    constructor (doc: Option<RetroData>)
      ensures document == doc
    {
      document := doc;
    }
  }

  method LoadRetroObject(file: RetroFile) returns (retro: Retro)
    ensures fresh(retro) && retro.Data() == Loaded(file.document)
  {
    if file.document.Some? {
      retro := new Retro.FromData(file.document.value);
    } else {
      retro := new Retro();
    }
  }

  method SaveRetroObject(file: RetroFile, retro: Retro)
    modifies file
    ensures file.document == Some(retro.Data())
  {
    file.document := Some(retro.Data());
  }

  /** Creates the record and appends it to the list of its variant; the
      failure of CreateRecord propagates. */
  method AddNewRecord(retro: Retro, opts: Options, now: Timestamp) returns (created: Result<Record, Error>)
    modifies retro
    ensures created == CreateRecord(opts, now)
    ensures retro.Data() == if created.Success? then AddedTo(old(retro.Data()), created.value) else old(retro.Data())
  {
    created := CreateRecord(opts, now);
    if created.Failure? {
      return;
    }
    match created.value
    case Kudos(_, _, _) =>
      retro.kudos := retro.kudos + [created.value];
    case NegativeRecord(_, _) =>
      retro.negativeExperiences := retro.negativeExperiences + [created.value];
    case PositiveRecord(_, _) =>
      retro.positiveExperiences := retro.positiveExperiences + [created.value];
  }

  method RunAddAndReturnExitCode(file: RetroFile, opts: Options, now: Timestamp)
    returns (status: ExitStatus, output: seq<string>)
    modifies file
    ensures Effect(file.document, status, output) == AddEffect(old(file.document), opts, now)
  {
    if opts.kudos && IsNullOrEmpty(opts.kudosTarget) {
      return Exit(-1), [KudosNotAddressed];
    }
    var retro := LoadRetroObject(file);
    var created := AddNewRecord(retro, opts, now);
    if created.Failure? {
      return Unhandled(created.error), [];
    }
    SaveRetroObject(file, retro);
    return Exit(0), [];
  }

  /** Prints one line per record, in list order. */
  method DumpRecords(records: seq<Record>, render: Record -> string) returns (lines: seq<string>)
    ensures |lines| == |records|
    ensures forall i :: 0 <= i < |records| ==> lines[i] == render(records[i])
  {
    lines := [];
    var k := 0;
    while k < |records|
      invariant k <= |records|
      invariant |lines| == k
      invariant forall i :: 0 <= i < k ==> lines[i] == render(records[i])
    {
      lines := lines + [render(records[k])];
      k := k + 1;
    }
  }

  method RunDumpAndReturnExitCode(file: RetroFile, render: Record -> string)
    returns (code: int, lines: seq<string>)
    ensures code == 0
    ensures lines == DumpOutput(Loaded(file.document), render)
  {
    var retro := LoadRetroObject(file);
    var positive := DumpRecords(retro.positiveExperiences, render);
    var negative := DumpRecords(retro.negativeExperiences, render);
    var kudos := DumpRecords(retro.kudos, render);
    assert positive == Rendered(retro.positiveExperiences, render);
    assert negative == Rendered(retro.negativeExperiences, render);
    assert kudos == Rendered(retro.kudos, render);
    lines := [Banner, Heading(PositiveSection)] + positive
      + ["", Heading(NegativeSection)] + negative
      + ["", Heading(KudosSection)] + kudos;
    code := 0;
  }

  method RunClearAndReturnExitCode(file: RetroFile) returns (code: int)
    modifies file
    ensures code == 0 && file.document == None
  {
    if file.document.Some? {
      file.document := None;
    }
    code := 0;
  }

  /** Main after argument parsing: run the verb's command. */
  method Dispatch(file: RetroFile, inv: Invocation, render: Record -> string)
    returns (status: ExitStatus, output: seq<string>)
    modifies file
    ensures Effect(file.document, status, output) == Step(old(file.document), inv, render)
  {
    match inv
    case Add(opts, now) =>
      status, output := RunAddAndReturnExitCode(file, opts, now);
    case Dump =>
      var code;
      code, output := RunDumpAndReturnExitCode(file, render);
      status := Exit(code);
    case Clear =>
      var code := RunClearAndReturnExitCode(file);
      status, output := Exit(code), [];
  }
}
