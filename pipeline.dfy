/** `buildAll()` of src/index.js and the top-level handlers around it: gate on
    the compiler's exit code, read the two templates and the generated `avc.js`,
    and write `Decoder.js` as prefix, body and suffix. */
module Pipeline {
  import opened Wrappers
  import opened Text
  import opened Paths
  import opened Build

  /** What each filesystem call and the compiler run yield on one run of the
      script; the model decides nothing about them. */
  datatype World = World(
    mkdir: Status,           // mkdirSync of the output directory
    exec: ExecEvent,         // the compiler's completion signal
    pre: Result<string>,     // readFileSync of templates/DecoderPre.js
    post: Result<string>,    // readFileSync of templates/DecoderPost.js
    avc: Result<string>,     // readFile of the generated avc.js, decoded
    write: Status)           // writeFileSync of Decoder.js

  /** Why the promise of `buildAll()` rejected. */
  datatype Failure =
    | BuildRejected(message: string)        // build() rejected: mkdir or launch error
    | CompilationFailed                     // the exit code was not 0
    | TemplateUnreadable(message: string)   // a synchronous template read threw
    | OutputUnreadable(message: string)     // reading avc.js reported an error

  /** How a run ends: resolved, rejected, or an exception thrown inside the
      read callback, which no promise catches. */
  datatype Outcome = Finished(code: nat) | Aborted(failure: Failure) | Crashed(message: string)

  const CompilationFailedMessage := "non-zero exit code - compilation failed"

  /** The `message` of the error `buildAll()` rejects with. */
  function Message(f: Failure): string {
    match f
    case CompilationFailed => CompilationFailedMessage
    case BuildRejected(m) => m
    case TemplateUnreadable(m) => m
    case OutputUnreadable(m) => m
  }

  function PrePath(layout: Layout): string {
    Join(Join(layout.broadway, "templates"), "DecoderPre.js")
  }

  function PostPath(layout: Layout): string {
    Join(Join(layout.broadway, "templates"), "DecoderPost.js")
  }

  function AvcPath(layout: Layout): string {
    Join(layout.out, "avc.js")
  }

  function DecoderPath(layout: Layout): string {
    Join(layout.out, "Decoder.js")
  }

  /** `Decoder.js`: the prefix template, then the generated body, then the suffix template. */
  function ComposeDecoder(pre: string, body: string, post: string): (js: string)
    ensures |js| == |pre| + |body| + |post|
    ensures js[..|pre|] == pre
    ensures js[|pre|..|pre| + |body|] == body
    ensures js[|pre| + |body|..] == post
  {
    pre + body + post
  }

  /** The templates fixed, the composed module determines the body it wraps. */
  lemma ComposeDecoderInjective(pre: string, b1: string, b2: string, post: string)
    requires ComposeDecoder(pre, b1, post) == ComposeDecoder(pre, b2, post)
    ensures b1 == b2
  {
    var js := ComposeDecoder(pre, b1, post);
    assert b1 == js[|pre|..|js| - |post|] == b2;
  }

  lemma ComposeDecoderExample()
    ensures ComposeDecoder("PRE;", "BODY", ";POST") == "PRE;BODY;POST"
  {
  }

  /** The paths a trace reads. */
  function Reads(effects: seq<Effect>): (paths: seq<string>)
    ensures |paths| <= |effects|
  {
    if effects == [] then []
    else (if effects[0].ReadFile? then [effects[0].path] else []) + Reads(effects[1..])
  }

  /** The writes a trace attempts, with their contents (a write may still throw). */
  function Writes(effects: seq<Effect>): (files: seq<(string, string)>)
    ensures |files| <= |effects|
  {
    if effects == [] then []
    else (if effects[0].WriteFile? then [(effects[0].path, effects[0].content)] else [])
         + Writes(effects[1..])
  }

  lemma {:induction false} ReadsAppend(a: seq<Effect>, b: seq<Effect>)
    ensures Reads(a + b) == Reads(a) + Reads(b)
  {
    if a != [] {
      assert (a + b)[1..] == a[1..] + b;
      ReadsAppend(a[1..], b);
    } else {
      assert a + b == b;
    }
  }

  lemma {:induction false} WritesAppend(a: seq<Effect>, b: seq<Effect>)
    ensures Writes(a + b) == Writes(a) + Writes(b)
  {
    if a != [] {
      assert (a + b)[1..] == a[1..] + b;
      WritesAppend(a[1..], b);
    } else {
      assert a + b == b;
    }
  }

  lemma {:induction false} ExecutionsAppend(a: seq<Effect>, b: seq<Effect>)
    ensures Executions(a + b) == Executions(a) + Executions(b)
  {
    if a != [] {
      assert (a + b)[1..] == a[1..] + b;
      ExecutionsAppend(a[1..], b);
    } else {
      assert a + b == b;
    }
  }

  /** The compiler ran and closed with a code other than 0 (or with none). */
  predicate CompileFailed(w: World) {
    w.mkdir.Done? && w.exec.Closed? && w.exec.code != Code(0)
  }

  /** The compiler ran and closed with code 0, so the gate lets the run on. */
  predicate Passed(w: World) {
    w.mkdir.Done? && w.exec == Closed(Code(0))
  }

  /** The first two steps of every run that creates its output directory. */
  function Started(cfg: BuildConfig, dirname: string, production: Option<string>): seq<Effect> {
    var layout := StaticLayout(dirname);
    [MakeDirectory(layout.out), Execute(BuildCommand(cfg, layout, production))]
  }

  function TemplateReads(layout: Layout): seq<Effect> {
    [ReadFile(PrePath(layout)), ReadFile(PostPath(layout))]
  }

  /** The reads after the gate, in order: both templates, then `avc.js`. */
  function AllReads(layout: Layout): seq<Effect> {
    TemplateReads(layout) + [ReadFile(AvcPath(layout))]
  }

  /** The run gets as far as writing `Decoder.js`. */
  predicate ReachesWrite(w: World) {
    w.mkdir.Done? && w.exec == Closed(Code(0)) && w.pre.Ok? && w.post.Ok? && w.avc.Ok?
  }

  /** What each way a run can end leaves in its trace: the files read, the files
      whose write was attempted, and the commands run. */
  lemma StartFilters(layout: Layout, cmd: string)
    ensures var started := [MakeDirectory(layout.out), Execute(cmd)];
      Reads([MakeDirectory(layout.out)]) == [] && Writes([MakeDirectory(layout.out)]) == [] &&
      Executions([MakeDirectory(layout.out)]) == [] &&
      Reads(started) == [] && Writes(started) == [] && Executions(started) == [cmd]
  {
    var started := [MakeDirectory(layout.out), Execute(cmd)];
    assert started[1..][1..] == [];
    assert [MakeDirectory(layout.out)][1..] == [];
  }

  lemma ReadFilters(layout: Layout, cmd: string)
    ensures var started := [MakeDirectory(layout.out), Execute(cmd)];
      var pre, post, avc := PrePath(layout), PostPath(layout), AvcPath(layout);
      Writes(started + [ReadFile(pre)]) == [] && |Executions(started + [ReadFile(pre)])| == 1 &&
      Writes(started + TemplateReads(layout)) == [] && |Executions(started + TemplateReads(layout))| == 1 &&
      Reads(started + AllReads(layout)) == [pre, post, avc] &&
      Writes(started + AllReads(layout)) == [] && |Executions(started + AllReads(layout))| == 1
  {
    var started := [MakeDirectory(layout.out), Execute(cmd)];
    var pre, post, avc := PrePath(layout), PostPath(layout), AvcPath(layout);
    StartFilters(layout, cmd);
    FiltersAppend(started, [ReadFile(pre)]);
    FiltersAppend(started, TemplateReads(layout));
    FiltersAppend(started, AllReads(layout));
    var rs := AllReads(layout);
    assert rs[1..] == [ReadFile(post), ReadFile(avc)];
    assert rs[1..][1..] == [ReadFile(avc)];
    assert TemplateReads(layout)[1..] == [ReadFile(post)];
    OnlyReads([ReadFile(pre)]);
    OnlyReads(TemplateReads(layout));
    OnlyReads(rs);
    assert rs[1..][1..][1..] == [];
    assert Reads(rs[1..][1..]) == [avc];
    assert Reads(rs[1..]) == [post, avc];
  }

  lemma {:induction false} OnlyReads(effects: seq<Effect>)
    requires forall k :: 0 <= k < |effects| ==> effects[k].ReadFile?
    ensures Writes(effects) == [] && Executions(effects) == []
  {
    if effects != [] {
      OnlyReads(effects[1..]);
    }
  }

  lemma WriteFilters(layout: Layout, cmd: string, js: string)
    ensures var done := [MakeDirectory(layout.out), Execute(cmd)] + AllReads(layout);
      var write := WriteFile(DecoderPath(layout), js);
      Reads(done + [write]) == [PrePath(layout), PostPath(layout), AvcPath(layout)] &&
      Writes(done + [write]) == [(DecoderPath(layout), js)] &&
      |Executions(done + [write])| == 1
  {
    var done := [MakeDirectory(layout.out), Execute(cmd)] + AllReads(layout);
    var write := WriteFile(DecoderPath(layout), js);
    ReadFilters(layout, cmd);
    FiltersAppend(done, [write]);
  }

  lemma FiltersAppend(a: seq<Effect>, b: seq<Effect>)
    ensures Reads(a + b) == Reads(a) + Reads(b)
    ensures Writes(a + b) == Writes(a) + Writes(b)
    ensures Executions(a + b) == Executions(a) + Executions(b)
  {
    ReadsAppend(a, b);
    WritesAppend(a, b);
    ExecutionsAppend(a, b);
  }

  /** `buildAll()` followed to the point where its promise settles (or the read
      callback throws). The trace lists the visible steps in order. */
  method BuildAll(cfg: BuildConfig, dirname: string, production: Option<string>, w: World)
    returns (outcome: Outcome, effects: seq<Effect>)
    // how the run ends
    ensures outcome.Finished? <==> ReachesWrite(w) && w.write.Done?
    ensures outcome.Finished? ==> outcome.code == 0
    ensures outcome.Crashed? <==> ReachesWrite(w) && w.write.Failed?
    ensures outcome.Crashed? ==> outcome == Crashed(w.write.message)
    ensures w.mkdir.Failed? ==> outcome == Aborted(BuildRejected(w.mkdir.message))
    ensures w.mkdir.Done? && w.exec.ExecError? ==> outcome == Aborted(BuildRejected(w.exec.message))
    ensures outcome == Aborted(CompilationFailed) <==> CompileFailed(w)
    ensures Passed(w) && w.pre.Err? ==> outcome == Aborted(TemplateUnreadable(w.pre.message))
    ensures Passed(w) && w.pre.Ok? && w.post.Err? ==> outcome == Aborted(TemplateUnreadable(w.post.message))
    ensures Passed(w) && w.pre.Ok? && w.post.Ok? && w.avc.Err? ==>
      outcome == Aborted(OutputUnreadable(w.avc.message))
    // what the handlers print and the exit status the script leaves
    ensures CompileFailed(w) ==> Report(outcome) == [Stderr(CompilationFailedMessage)]
    ensures ScriptExitStatus(outcome) == if ReachesWrite(w) && w.write.Failed? then None else Some(0)
    // the steps taken, in order
    ensures w.mkdir.Failed? ==> effects == [MakeDirectory(StaticLayout(dirname).out)]
    ensures w.mkdir.Done? && !Passed(w) ==> effects == Started(cfg, dirname, production)
    ensures Passed(w) && w.pre.Err? ==>
      effects == Started(cfg, dirname, production) + [ReadFile(PrePath(StaticLayout(dirname)))]
    ensures Passed(w) && w.pre.Ok? && w.post.Err? ==>
      effects == Started(cfg, dirname, production) + TemplateReads(StaticLayout(dirname))
    ensures Passed(w) && w.pre.Ok? && w.post.Ok? && w.avc.Err? ==>
      effects == Started(cfg, dirname, production) + AllReads(StaticLayout(dirname))
    ensures ReachesWrite(w) ==>
      effects == Started(cfg, dirname, production) + AllReads(StaticLayout(dirname)) +
        [WriteFile(DecoderPath(StaticLayout(dirname)), ComposeDecoder(w.pre.value, w.avc.value, w.post.value))]
    // the same, through the reads, attempted writes and commands of the trace
    ensures !Passed(w) ==> Reads(effects) == [] && Writes(effects) == []
    ensures Passed(w) && w.pre.Ok? && w.post.Ok? ==>
      Reads(effects) == [PrePath(StaticLayout(dirname)), PostPath(StaticLayout(dirname)),
                         AvcPath(StaticLayout(dirname))]
    ensures Writes(effects) ==
      if ReachesWrite(w)
      then [(DecoderPath(StaticLayout(dirname)), ComposeDecoder(w.pre.value, w.avc.value, w.post.value))]
      else []
    ensures |Executions(effects)| == if w.mkdir.Done? then 1 else 0
  {
    var layout := StaticLayout(dirname);
    ghost var started := Started(cfg, dirname, production);
    StartFilters(layout, BuildCommand(cfg, layout, production));
    var built;
    effects, built := RunBuild(cfg, layout, production, w.mkdir, w.exec);
    if built.Rejected? {
      outcome := Aborted(BuildRejected(built.message));
      return;
    }
    assert effects == started;
    if built.code != Code(0) {
      outcome := Aborted(CompilationFailed);
      return;
    }
    ReadFilters(layout, BuildCommand(cfg, layout, production));
    effects := effects + [ReadFile(PrePath(layout))];
    if w.pre.Err? {
      outcome := Aborted(TemplateUnreadable(w.pre.message));
      return;
    }
    effects := effects + [ReadFile(PostPath(layout))];
    assert effects == started + TemplateReads(layout);
    if w.post.Err? {
      outcome := Aborted(TemplateUnreadable(w.post.message));
      return;
    }
    effects := effects + [ReadFile(AvcPath(layout))];
    assert effects == started + AllReads(layout);
    if w.avc.Err? {
      outcome := Aborted(OutputUnreadable(w.avc.message));
      return;
    }
    var js := ComposeDecoder(w.pre.value, w.avc.value, w.post.value);
    effects := effects + [WriteFile(DecoderPath(layout), js)];
    WriteFilters(layout, BuildCommand(cfg, layout, production), js);
    if w.write.Failed? {
      outcome := Crashed(w.write.message);
      return;
    }
    outcome := Finished(0);
  }

  const ExitedPrefix := "exited with code "

  /** A line the top-level handlers print. */
  datatype ConsoleLine = Stdout(text: string) | Stderr(text: string)

  /** `.then` prints the resolved code, `.catch` prints only the error's message;
      an exception from the read callback bypasses both. */
  function Report(outcome: Outcome): (lines: seq<ConsoleLine>)
    ensures outcome.Aborted? ==> lines == [Stderr(Message(outcome.failure))]
    ensures outcome.Finished? ==>
      |lines| == 1 && lines[0].Stdout? && ExitedPrefix <= lines[0].text &&
      (forall i :: |ExitedPrefix| <= i < |lines[0].text| ==> IsDigit(lines[0].text[i])) &&
      DecimalValue(lines[0].text[|ExitedPrefix|..]) == outcome.code
    ensures outcome.Crashed? ==> lines == []
  {
    match outcome
    case Finished(code) =>
      var text := ExitedPrefix + DecimalString(code);
      assert text[|ExitedPrefix|..] == DecimalString(code);
      DecimalRoundTrip(code);
      [Stdout(text)]
    case Aborted(f) => [Stderr(Message(f))]
    case Crashed(_) => []
  }

  /** The process exit status the script itself sets: it never calls `process.exit`
      and the `.catch` handler swallows the rejection, so a settled run exits 0,
      failures included. An uncaught exception's status is Node's, not the script's. */
  function ScriptExitStatus(outcome: Outcome): Option<int> {
    if outcome.Crashed? then None else Some(0)
  }
}
