/**
 * The slide editor's live preview (services/ui/src/components/SlideEditor.tsx).
 *
 * Every run of the compile effect first runs the cleanup of the previous run
 * (as React does), then either goes idle on blank code or schedules a compile
 * task under a fresh id and arms the 200 ms quiet-period timer. When the timer
 * fires the task starts its pipeline (host init, transform, evaluation); when
 * that pipeline settles the task commits its outcome only if it was not
 * cancelled and its id is still the counter's value.
 *
 * The asynchronous interleaving becomes explicit events: `Edit` (one run of
 * the effect), `Cleanup` (unmount), `Fire` (the timer fires) and `Complete`
 * (the pipeline settles with an outcome supplied by an oracle that stands for
 * esbuild and `new Function`).
 */
module SlideEditor {
  import opened Wrappers

  // ---------------------------------------------------------------------
  // String.prototype.trim
  // ---------------------------------------------------------------------

  /** The WhiteSpace and LineTerminator code points of ECMA-262 (sections 12.2
      and 12.3), which `String.prototype.trim` strips at both ends. */
  predicate IsJsSpace(c: char) {
    || c == '\t' || c == '\n' || c == '\U{000B}' || c == '\U{000C}' || c == '\r'
    || c == ' ' || c == '\U{00A0}' || c == '\U{1680}'
    || ('\U{2000}' <= c <= '\U{200A}')
    || c == '\U{2028}' || c == '\U{2029}' || c == '\U{202F}' || c == '\U{205F}'
    || c == '\U{3000}' || c == '\U{FEFF}'
  }

  /** Code that holds nothing but white space and line terminators. */
  predicate IsBlank(s: string) {
    forall i | 0 <= i < |s| :: IsJsSpace(s[i])
  }

  function TrimStart(s: string): (r: string)
    ensures r == [] || !IsJsSpace(r[0])
    ensures r == [] <==> IsBlank(s)
    ensures |r| <= |s|
  {
    if |s| > 0 && IsJsSpace(s[0]) then
      var r := TrimStart(s[1..]);
      assert IsBlank(s[1..]) ==> IsBlank(s) by {
        if IsBlank(s[1..]) {
          forall i | 0 <= i < |s| ensures IsJsSpace(s[i]) {
            if i > 0 { assert s[i] == s[1..][i - 1]; }
          }
        }
      }
      assert IsBlank(s) ==> IsBlank(s[1..]) by {
        if IsBlank(s) {
          forall i | 0 <= i < |s| - 1 ensures IsJsSpace(s[1..][i]) {
            assert s[1..][i] == s[i + 1];
          }
        }
      }
      r
    else
      s
  }

  function TrimEnd(s: string): (r: string)
    ensures r == [] || !IsJsSpace(r[|r| - 1])
    ensures r == [] <==> IsBlank(s)
    ensures |r| <= |s| && (r == [] || r[0] == s[0])
  {
    if |s| > 0 && IsJsSpace(s[|s| - 1]) then
      var r := TrimEnd(s[..|s| - 1]);
      assert IsBlank(s[..|s| - 1]) ==> IsBlank(s) by {
        if IsBlank(s[..|s| - 1]) {
          forall i | 0 <= i < |s| ensures IsJsSpace(s[i]) {
            if i < |s| - 1 { assert s[i] == s[..|s| - 1][i]; }
          }
        }
      }
      r
    else
      s
  }

  /** `code.trim()`. */
  function Trim(s: string): (r: string)
    ensures r == [] || (!IsJsSpace(r[0]) && !IsJsSpace(r[|r| - 1]))
    ensures |r| <= |s|
  {
    TrimEnd(TrimStart(s))
  }

  /** `TrimStart` removes a blank prefix and keeps the rest of the code. */
  lemma {:induction false} TrimStartIsSuffix(s: string)
    ensures var r := TrimStart(s); |r| <= |s| && r == s[|s| - |r|..] && IsBlank(s[..|s| - |r|])
  {
    if |s| > 0 && IsJsSpace(s[0]) {
      TrimStartIsSuffix(s[1..]);
      var r := TrimStart(s);
      var k := |s| - |r|;
      assert s[1..][|s| - 1 - |r|..] == s[k..];
      forall i | 0 <= i < k ensures IsJsSpace(s[..k][i]) {
        if i > 0 { assert s[..k][i] == s[1..][..|s| - 1 - |r|][i - 1]; }
      }
    }
  }

  /** `TrimEnd` removes a blank suffix and keeps the rest of the code. */
  lemma {:induction false} TrimEndIsPrefix(s: string)
    ensures var r := TrimEnd(s); |r| <= |s| && r == s[..|r|] && IsBlank(s[|r|..])
  {
    if |s| > 0 && IsJsSpace(s[|s| - 1]) {
      var t := s[..|s| - 1];
      TrimEndIsPrefix(t);
      var r := TrimEnd(s);
      assert t[..|r|] == s[..|r|];
      forall i | 0 <= i < |s| - |r| ensures IsJsSpace(s[|r|..][i]) {
        if i < |s| - 1 - |r| { assert s[|r|..][i] == t[|r|..][i]; }
      }
    }
  }

  /** `code.trim()` is the code between a blank prefix and a blank suffix. */
  lemma TrimIsInfix(s: string)
    ensures exists i, j | 0 <= i <= j <= |s| ::
      Trim(s) == s[i..j] && IsBlank(s[..i]) && IsBlank(s[j..])
  {
    TrimStartIsSuffix(s);
    var t := TrimStart(s);
    TrimEndIsPrefix(t);
    var i := |s| - |t|;
    var j := i + |TrimEnd(t)|;
    assert t[..j - i] == s[i..j];
    assert t[j - i..] == s[j..];
  }

  /** The effect's `!trimmed` test is exactly "the code is blank". */
  lemma TrimEmptyIffBlank(s: string)
    ensures Trim(s) == "" <==> IsBlank(s)
  {
    var t := TrimStart(s);
    if t != [] {
      assert !IsJsSpace(t[0]);
      assert !IsBlank(t);
    }
  }

  // ---------------------------------------------------------------------
  // State of one editor instance
  // ---------------------------------------------------------------------

  datatype CompileState = Idle | Compiling | Ready | Error

  /** The component function a snippet default-exports (its identity only). */
  datatype Component = Component(handle: nat)

  /** What a started pipeline settles with: the transform throws, the
      evaluated module default-exports a function, it exports something else,
      or host initialisation or evaluation throws (its message or string form). */
  datatype Outcome =
    | TransformErr(msg: string)
    | ExportIsFunction(c: Component)
    | ExportNotFunction
    | Threw(msg: string)

  /** Where a task is: timer pending, pipeline running, settled, or its timer
      was cleared before it fired. */
  datatype Phase = Armed | Running | Settled | Cleared

  /** One compile task: the code it captured and its run's `cancelled` flag. */
  datatype Task = Task(source: string, cancelled: bool, phase: Phase)

  /** `counter` is `compileCounter.current`; `mounted` is the task id of the
      effect run whose cleanup is still pending (a blank run returns no
      cleanup); `started` lists, in order, the code of every task whose timer
      fired, i.e. every call into the compile pipeline. */
  datatype Editor = Editor(
    counter: nat,
    state: CompileState,
    errorMessage: Option<string>,
    component: Option<Component>,
    tasks: map<nat, Task>,
    mounted: Option<nat>,
    started: seq<string>)

  /** What the user sees: state tag, error text and compiled component. */
  datatype View = View(state: CompileState, errorMessage: Option<string>, component: Option<Component>)

  datatype Event =
    | Edit(code: string)
    | Cleanup
    | Fire(taskId: nat)
    | Complete(taskId: nat, outcome: Outcome)

  const NotAComponentMessage: string := "Expected the snippet to default-export a React component."

  function ViewOf(ed: Editor): View {
    View(ed.state, ed.errorMessage, ed.component)
  }

  function Initial(): Editor {
    Editor(0, Idle, None, None, map[], None, [])
  }

  /** Every state an editor reaches keeps these. */
  ghost predicate Valid(ed: Editor) {
    && (forall id | id in ed.tasks :: 1 <= id <= ed.counter)
    && (ed.mounted.Some? ==> ed.mounted.value == ed.counter && ed.counter in ed.tasks)
    && (forall id | id in ed.tasks :: !ed.tasks[id].cancelled <==> ed.mounted == Some(id))
    && (forall id | id in ed.tasks :: ed.tasks[id].phase == Armed ==> !ed.tasks[id].cancelled)
    && (forall id | id in ed.tasks :: !ed.tasks[id].cancelled && ed.tasks[id].phase != Settled ==> ed.state == Compiling)
    && ConsistentView(ed)
  }

  /** What each state tag says about the message and the component. */
  predicate ConsistentView(ed: Editor) {
    match ed.state
    case Idle => ed.errorMessage.None? && ed.component.None?
    case Compiling => ed.errorMessage.None?
    case Ready => ed.errorMessage.None? && ed.component.Some?
    case Error => ed.errorMessage.Some? && ed.component.None?
  }

  /** A task that can no longer commit: its run was cleaned up. */
  predicate Superseded(ed: Editor, id: nat) {
    id in ed.tasks && ed.tasks[id].cancelled
  }

  // ---------------------------------------------------------------------
  // Events
  // ---------------------------------------------------------------------

  /** The mounted run's cleanup: `cancelled = true; clearTimeout(debounce)`. */
  function RunCleanup(ed: Editor): (r: Editor)
    ensures r.mounted == None
    ensures ViewOf(r) == ViewOf(ed) && r.counter == ed.counter && r.started == ed.started
    ensures r.tasks.Keys == ed.tasks.Keys
    ensures forall id | id in ed.tasks && Some(id) != ed.mounted :: r.tasks[id] == ed.tasks[id]
    ensures ed.mounted.Some? && ed.mounted.value in ed.tasks ==>
      var t := r.tasks[ed.mounted.value];
      t.cancelled && t.phase != Armed && t.source == ed.tasks[ed.mounted.value].source
  {
    match ed.mounted
    case None => ed
    case Some(id) =>
      if id in ed.tasks then
        var t := ed.tasks[id];
        var phase := if t.phase == Armed then Cleared else t.phase;
        ed.(tasks := ed.tasks[id := t.(cancelled := true, phase := phase)], mounted := None)
      else
        ed.(mounted := None)
  }

  /** The effect body proper, run on the cleaned-up state. */
  function RunEffect(ed: Editor, code: string): Editor {
    if Trim(code) == "" then
      ed.(state := Idle, errorMessage := None, component := None)
    else
      var taskId := ed.counter + 1;
      ed.(counter := taskId, state := Compiling, errorMessage := None,
          tasks := ed.tasks[taskId := Task(code, false, Armed)], mounted := Some(taskId))
  }

  /** One run of the compile effect after `code` changed. */
  function OnEdit(ed: Editor, code: string): (r: Editor)
    ensures r.started == ed.started && r.mounted.Some? == !IsBlank(code)
    ensures IsBlank(code) ==>
      && ViewOf(r) == View(Idle, None, None)
      && r.counter == ed.counter && r.tasks.Keys == ed.tasks.Keys
    ensures !IsBlank(code) ==>
      && ViewOf(r) == View(Compiling, None, ed.component)
      && r.counter == ed.counter + 1 && r.mounted == Some(r.counter)
      && r.tasks.Keys == ed.tasks.Keys + {r.counter}
      && r.tasks[r.counter] == Task(code, false, Armed)
  {
    TrimEmptyIffBlank(code);
    RunEffect(RunCleanup(ed), code)
  }

  /** The quiet-period timer of `taskId` fires and its pipeline starts. */
  function OnFire(ed: Editor, taskId: nat): (r: Editor)
    ensures taskId in ed.tasks && ed.tasks[taskId].phase == Armed ==>
      && r.started == ed.started + [ed.tasks[taskId].source]
      && r.tasks == ed.tasks[taskId := ed.tasks[taskId].(phase := Running)]
      && ViewOf(r) == ViewOf(ed) && r.counter == ed.counter && r.mounted == ed.mounted
    ensures !(taskId in ed.tasks && ed.tasks[taskId].phase == Armed) ==> r == ed
  {
    if taskId in ed.tasks && ed.tasks[taskId].phase == Armed then
      var t := ed.tasks[taskId];
      ed.(tasks := ed.tasks[taskId := t.(phase := Running)], started := ed.started + [t.source])
    else
      ed
  }

  /** The guarded commit of a task that passed the staleness check. */
  function Commit(ed: Editor, outcome: Outcome): (r: Editor)
    ensures r.counter == ed.counter && r.tasks == ed.tasks && r.mounted == ed.mounted && r.started == ed.started
    ensures r.state == Ready <==> outcome.ExportIsFunction?
    ensures outcome.ExportIsFunction? ==> r.component == Some(outcome.c) && r.errorMessage == ed.errorMessage
    ensures !outcome.ExportIsFunction? ==> r.state == Error && r.component == None && r.errorMessage.Some?
    ensures outcome.ExportNotFunction? ==> r.errorMessage == Some(NotAComponentMessage)
    ensures outcome.TransformErr? || outcome.Threw? ==> r.errorMessage == Some(outcome.msg)
  {
    match outcome
    case ExportIsFunction(c) => ed.(component := Some(c), state := Ready)
    case ExportNotFunction => ed.(errorMessage := Some(NotAComponentMessage), component := None, state := Error)
    case TransformErr(msg) => ed.(errorMessage := Some(msg), component := None, state := Error)
    case Threw(msg) => ed.(errorMessage := Some(msg), component := None, state := Error)
  }

  /** The pipeline of `taskId` settles with `outcome`. */
  function OnComplete(ed: Editor, taskId: nat, outcome: Outcome): (r: Editor)
    ensures r.counter == ed.counter && r.mounted == ed.mounted && r.started == ed.started
    ensures taskId in ed.tasks && ed.tasks[taskId].phase == Running ==>
      r.tasks == ed.tasks[taskId := ed.tasks[taskId].(phase := Settled)]
    ensures !(taskId in ed.tasks && ed.tasks[taskId].phase == Running) ==> r == ed
    ensures ViewOf(r) != ViewOf(ed) ==> !ed.tasks[taskId].cancelled && taskId == ed.counter
    ensures (taskId in ed.tasks && ed.tasks[taskId].phase == Running
             && !ed.tasks[taskId].cancelled && taskId == ed.counter) ==> ViewOf(r) == ViewOf(Commit(ed, outcome))
  {
    if taskId in ed.tasks && ed.tasks[taskId].phase == Running then
      var t := ed.tasks[taskId];
      var settled := ed.(tasks := ed.tasks[taskId := t.(phase := Settled)]);
      if t.cancelled || taskId != ed.counter then settled else Commit(settled, outcome)
    else
      ed
  }

  function Step(ed: Editor, ev: Event): Editor {
    match ev
    case Edit(code) => OnEdit(ed, code)
    case Cleanup => RunCleanup(ed)
    case Fire(taskId) => OnFire(ed, taskId)
    case Complete(taskId, outcome) => OnComplete(ed, taskId, outcome)
  }

  /** The state after a trace of events, one after the other. */
  function Run(ed: Editor, evs: seq<Event>): Editor
    decreases |evs|
  {
    if evs == [] then ed else Step(Run(ed, evs[..|evs| - 1]), evs[|evs| - 1])
  }

  // ---------------------------------------------------------------------
  // The reachable states
  // ---------------------------------------------------------------------

  lemma InitialValid()
    ensures Valid(Initial())
  {
  }

  lemma StepValid(ed: Editor, ev: Event)
    requires Valid(ed)
    ensures Valid(Step(ed, ev))
  {
    match ev
    case Edit(code) =>
      var c := RunCleanup(ed);
      assert Valid(c);
    case Cleanup =>
    case Fire(taskId) =>
    case Complete(taskId, outcome) =>
  }

  lemma {:induction false} RunValid(ed: Editor, evs: seq<Event>)
    requires Valid(ed)
    ensures Valid(Run(ed, evs))
    decreases |evs|
  {
    if evs != [] {
      RunValid(ed, evs[..|evs| - 1]);
      StepValid(Run(ed, evs[..|evs| - 1]), evs[|evs| - 1]);
    }
  }

  lemma {:induction false} RunConcat(ed: Editor, a: seq<Event>, b: seq<Event>)
    ensures Run(ed, a + b) == Run(Run(ed, a), b)
    decreases |b|
  {
    if b == [] {
      assert a + b == a;
    } else {
      assert (a + b)[..|a + b| - 1] == a + b[..|b| - 1];
      RunConcat(ed, a, b[..|b| - 1]);
    }
  }

  // ---------------------------------------------------------------------
  // Last request wins
  // ---------------------------------------------------------------------

  /** Only an edit, or the completion of the task whose run is still mounted,
      can change what the user sees. */
  lemma OnlyMountedTaskCommits(ed: Editor, ev: Event)
    requires Valid(ed)
    requires ViewOf(Step(ed, ev)) != ViewOf(ed)
    ensures ev.Edit? || (ev.Complete? && ed.mounted == Some(ev.taskId) && ev.taskId == ed.counter)
  {
  }

  /** A cancelled task's completion leaves state, message and component
      alone, whatever its outcome. */
  lemma SupersededCompletionIsSilent(ed: Editor, id: nat, outcome: Outcome)
    requires Superseded(ed, id)
    ensures ViewOf(Step(ed, Complete(id, outcome))) == ViewOf(ed)
  {
  }

  /** Once superseded, a task stays superseded whatever happens next. */
  lemma {:induction false} StaysSuperseded(ed: Editor, evs: seq<Event>, id: nat)
    requires Valid(ed) && Superseded(ed, id)
    ensures Valid(Run(ed, evs)) && Superseded(Run(ed, evs), id)
    decreases |evs|
  {
    if evs != [] {
      var before := Run(ed, evs[..|evs| - 1]);
      StaysSuperseded(ed, evs[..|evs| - 1], id);
      StepValid(before, evs[|evs| - 1]);
    }
  }

  /** Every edit (blank or not) and every cleanup supersedes each task that
      already exists, even when the counter is left unchanged. */
  lemma EditOrCleanupSupersedes(ed: Editor, ev: Event, id: nat)
    requires Valid(ed) && (ev.Edit? || ev.Cleanup?) && id in ed.tasks
    ensures Superseded(Step(ed, ev), id)
  {
    var c := RunCleanup(ed);
    assert c.tasks[id].cancelled;
    if ev.Edit? {
      TrimEmptyIffBlank(ev.code);
    }
  }

  /** A superseded task's completion at position `k` of a trace changes
      nothing the user sees. */
  lemma {:induction false} SupersededSilentAt(ed: Editor, evs: seq<Event>, k: nat, id: nat)
    requires Valid(ed) && Superseded(ed, id) && k < |evs|
    requires evs[k].Complete? && evs[k].taskId == id
    ensures ViewOf(Run(ed, evs[..k + 1])) == ViewOf(Run(ed, evs[..k]))
  {
    StaysSuperseded(ed, evs[..k], id);
    assert evs[..k + 1][..k] == evs[..k];
    SupersededCompletionIsSilent(Run(ed, evs[..k]), id, evs[k].outcome);
  }

  /** Last request wins: once an edit or a cleanup has happened at position
      `j` of a trace, no task that existed before it ever changes what the user
      sees again, however late its pipeline settles. */
  lemma {:induction false} LastRequestWins(ed: Editor, evs: seq<Event>, j: nat, id: nat)
    requires Valid(ed) && j < |evs| && (evs[j].Edit? || evs[j].Cleanup?)
    requires id in Run(ed, evs[..j]).tasks
    ensures forall k | j < k < |evs| && evs[k].Complete? && evs[k].taskId == id ::
      ViewOf(Run(ed, evs[..k + 1])) == ViewOf(Run(ed, evs[..k]))
  {
    RunValid(ed, evs[..j]);
    assert evs[..j + 1][..j] == evs[..j];
    EditOrCleanupSupersedes(Run(ed, evs[..j]), evs[j], id);
    var after := Run(ed, evs[..j + 1]);
    StepValid(Run(ed, evs[..j]), evs[j]);
    var rest := evs[j + 1..];
    forall k | j < k < |evs| && evs[k].Complete? && evs[k].taskId == id
      ensures ViewOf(Run(ed, evs[..k + 1])) == ViewOf(Run(ed, evs[..k]))
    {
      var i := k - (j + 1);
      assert rest[i] == evs[k];
      SupersededSilentAt(after, rest, i, id);
      assert evs[..k] == evs[..j + 1] + rest[..i];
      assert evs[..k + 1] == evs[..j + 1] + rest[..i + 1];
      RunConcat(ed, evs[..j + 1], rest[..i]);
      RunConcat(ed, evs[..j + 1], rest[..i + 1]);
    }
  }

  /** Out-of-order completion: task A scheduled, then B; B commits first; A's
      late result does not overwrite B's. */
  lemma OutOfOrderCompletion(a: string, b: string, ca: Component, cb: Component)
    requires !IsBlank(a) && !IsBlank(b)
    ensures ViewOf(Run(Initial(), [Edit(a), Fire(1), Edit(b), Fire(2),
                                   Complete(2, ExportIsFunction(cb)), Complete(1, ExportIsFunction(ca))]))
         == View(Ready, None, Some(cb))
  {
    var s4 := TwoScheduled(a, b);
    var s5 := OnComplete(s4, 2, ExportIsFunction(cb));
    assert ViewOf(s5) == View(Ready, None, Some(cb)) && s5.counter == 2;
    var s6 := OnComplete(s5, 1, ExportIsFunction(ca));
    assert ViewOf(s6) == ViewOf(s5);
    OutOfOrderTrace(a, b, ca, cb);
  }

  /** After edits A and B and both timers, B is the running current task and
      compiling shows no message and no component. */
  lemma TwoScheduled(a: string, b: string) returns (s4: Editor)
    requires !IsBlank(a) && !IsBlank(b)
    ensures s4 == Step(Step(Step(Step(Initial(), Edit(a)), Fire(1)), Edit(b)), Fire(2))
    ensures s4.counter == 2 && s4.tasks[2] == Task(b, false, Running)
    ensures ViewOf(s4) == View(Compiling, None, None)
  {
    var s1 := OnEdit(Initial(), a);
    assert s1.counter == 1 && s1.tasks[1].phase == Armed;
    var s2 := OnFire(s1, 1);
    assert s2.counter == 1 && ViewOf(s2) == View(Compiling, None, None);
    var s3 := OnEdit(s2, b);
    assert s3.counter == 2 && s3.tasks[2] == Task(b, false, Armed);
    s4 := OnFire(s3, 2);
  }

  /** The trace of `OutOfOrderCompletion`, one step at a time. */
  lemma OutOfOrderTrace(a: string, b: string, ca: Component, cb: Component)
    ensures Run(Initial(), [Edit(a), Fire(1), Edit(b), Fire(2),
                            Complete(2, ExportIsFunction(cb)), Complete(1, ExportIsFunction(ca))])
         == OnComplete(OnComplete(Step(Step(Step(Step(Initial(), Edit(a)), Fire(1)), Edit(b)), Fire(2)),
                                  2, ExportIsFunction(cb)), 1, ExportIsFunction(ca))
  {
    var e1, e2, e3 := Edit(a), Fire(1), Edit(b);
    var e4, e5, e6 := Fire(2), Complete(2, ExportIsFunction(cb)), Complete(1, ExportIsFunction(ca));
    var ed := Initial();
    assert Run(ed, [e1]) == Step(ed, e1) by {
      assert [e1][..0] == [];
    }
    assert Run(ed, [e1, e2]) == Step(Run(ed, [e1]), e2) by {
      assert [e1, e2][..1] == [e1];
    }
    assert Run(ed, [e1, e2, e3]) == Step(Run(ed, [e1, e2]), e3) by {
      assert [e1, e2, e3][..2] == [e1, e2];
    }
    assert Run(ed, [e1, e2, e3, e4]) == Step(Run(ed, [e1, e2, e3]), e4) by {
      assert [e1, e2, e3, e4][..3] == [e1, e2, e3];
    }
    assert Run(ed, [e1, e2, e3, e4, e5]) == Step(Run(ed, [e1, e2, e3, e4]), e5) by {
      assert [e1, e2, e3, e4, e5][..4] == [e1, e2, e3, e4];
    }
    assert Run(ed, [e1, e2, e3, e4, e5, e6]) == Step(Run(ed, [e1, e2, e3, e4, e5]), e6) by {
      assert [e1, e2, e3, e4, e5, e6][..5] == [e1, e2, e3, e4, e5];
    }
  }

  // ---------------------------------------------------------------------
  // Commits of the current task
  // ---------------------------------------------------------------------

  /** The mounted task, once its pipeline has started, commits exactly what
      its outcome says. */
  lemma CurrentTaskCommits(ed: Editor, id: nat, outcome: Outcome)
    requires Valid(ed) && ed.mounted == Some(id) && ed.tasks[id].phase == Running
    ensures var v := ViewOf(Step(ed, Complete(id, outcome)));
      match outcome
      case ExportIsFunction(c) => v == View(Ready, ed.errorMessage, Some(c)) && v.errorMessage == None
      case ExportNotFunction => v == View(Error, Some(NotAComponentMessage), None)
      case TransformErr(msg) => v == View(Error, Some(msg), None)
      case Threw(msg) => v == View(Error, Some(msg), None)
  {
  }

  // ---------------------------------------------------------------------
  // Debounce coalescing
  // ---------------------------------------------------------------------

  /** A burst of edits inside the quiet period starts no pipeline, and leaves
      at most one armed timer: the last edit's, holding the last edit's code,
      and none when that code is blank. */
  lemma {:induction false} EditsCoalesce(ed: Editor, evs: seq<Event>)
    requires Valid(ed) && |evs| > 0
    requires forall k | 0 <= k < |evs| :: evs[k].Edit?
    ensures var r := Run(ed, evs);
      && Valid(r)
      && r.started == ed.started
      && (forall id | id in r.tasks && r.tasks[id].phase == Armed ::
            id == r.counter && r.tasks[id].source == evs[|evs| - 1].code)
      && (r.counter in r.tasks && r.tasks[r.counter].phase == Armed <==> !IsBlank(evs[|evs| - 1].code))
    decreases |evs|
  {
    var init := evs[..|evs| - 1];
    var before := Run(ed, init);
    if init == [] {
      assert before == ed;
    } else {
      EditsCoalesce(ed, init);
    }
    RunValid(ed, init);
    StepValid(before, evs[|evs| - 1]);
    var r := Run(ed, evs);
    assert r == OnEdit(before, evs[|evs| - 1].code);
    if IsBlank(evs[|evs| - 1].code) {
      forall id | id in r.tasks ensures r.tasks[id].phase != Armed {
        if before.tasks[id].phase == Armed {
          assert !before.tasks[id].cancelled;
        }
      }
    }
  }

  /** In every reachable state only the mounted run's timer can still fire:
      a fire that starts a pipeline belongs to the task whose id is the
      counter, and starts it on that task's code. */
  lemma FireStartsMountedTaskOnly(ed: Editor, id: nat)
    requires Valid(ed)
    ensures var r := Step(ed, Fire(id));
      r.started != ed.started ==>
        && ed.mounted == Some(id) && id == ed.counter
        && r.started == ed.started + [ed.tasks[id].source]
  {
  }

  // ---------------------------------------------------------------------
  // What the status chip and the stage show
  // ---------------------------------------------------------------------

  /** `statusLabel`: each label names exactly one state. */
  function StatusLabel(state: CompileState): (text: string)
    ensures text == "Compiling\U{2026}" <==> state == Compiling
    ensures text == "Live" <==> state == Ready
    ensures text == "Error" <==> state == Error
    ensures text == "Idle" <==> state == Idle
  {
    match state
    case Compiling => "Compiling\U{2026}"
    case Ready => "Live"
    case Error => "Error"
    case _ => "Idle"
  }

  /** Whether a tone's classes end in the pulse animation. */
  predicate Pulses(tone: string) {
    |tone| >= 13 && tone[|tone| - 13..] == "animate-pulse"
  }

  /** `statusTone`: the chip pulses exactly while compiling. */
  function StatusTone(state: CompileState): (tone: string)
    ensures Pulses(tone) <==> state == Compiling
  {
    match state
    case Ready => "bg-emerald-500/20 text-emerald-200"
    case Compiling => "bg-cyan-500/20 text-cyan-200 animate-pulse"
    case Error => "bg-rose-500/20 text-rose-200"
    case _ => "bg-slate-700/40 text-slate-300"
  }

  /** The chip tells every state apart, by label and by tone. */
  lemma StatusChipDistinguishesStates(s: CompileState, t: CompileState)
    requires s != t
    ensures StatusLabel(s) != StatusLabel(t) && StatusTone(s) != StatusTone(t)
  {
  }

  /** What the stage renders. */
  datatype Stage =
    | CompilingNotice
    | FailurePanel(message: Option<string>)
    | Rendered(c: Component)
    | StartTypingHint
    | Nothing

  function StageOf(view: View): (s: Stage)
    ensures s.Rendered? <==> view.state == Ready && view.component.Some?
    ensures s.Rendered? ==> view.component == Some(s.c)
    ensures s.FailurePanel? <==> view.state == Error
  {
    match view.state
    case Compiling => CompilingNotice
    case Error => FailurePanel(view.errorMessage)
    case Ready => if view.component.Some? then Rendered(view.component.value) else Nothing
    case Idle => StartTypingHint
  }

  /** In every reachable state the compiled component is on stage exactly
      when the state is ready, and an error always shows its message. */
  lemma StageShowsComponentOnlyWhenReady(ed: Editor)
    requires Valid(ed)
    ensures StageOf(ViewOf(ed)).Rendered? <==> ed.state == Ready
    ensures ed.state == Error ==> StageOf(ViewOf(ed)) == FailurePanel(ed.errorMessage) && ed.errorMessage.Some?
  {
  }

  // ---------------------------------------------------------------------
  // Resizable panes
  // ---------------------------------------------------------------------

  const SidebarMin: real := 25.0
  const SidebarMax: real := 75.0
  const EditorShareMin: real := 30.0
  const EditorShareMax: real := 85.0
  const InitialSidebarWidth: real := 45.0
  const InitialEditorShare: real := 65.0

  function Max(a: real, b: real): real { if a < b then b else a }
  function Min(a: real, b: real): real { if a < b then a else b }

  /** `Math.max(lo, Math.min(hi, x))`. */
  function Clamp(lo: real, hi: real, x: real): (r: real)
    requires lo <= hi
    ensures lo <= r <= hi
    ensures lo <= x <= hi ==> r == x
    ensures x < lo ==> r == lo
    ensures hi < x ==> r == hi
  {
    Max(lo, Min(hi, x))
  }

  /** The split panes: widths in percent, kept inside their bounds. */
  class SplitLayout {
    var sidebarWidth: real
    var editorShare: real

    ghost predicate Valid()
      reads this
    {
      SidebarMin <= sidebarWidth <= SidebarMax && EditorShareMin <= editorShare <= EditorShareMax
    }

    constructor()
      ensures Valid()
      ensures sidebarWidth == InitialSidebarWidth && editorShare == InitialEditorShare
    {
      sidebarWidth := InitialSidebarWidth;
      editorShare := InitialEditorShare;
    }

    /** A pointer move during a horizontal drag proposing `percent`. */
    method MoveHorizontal(percent: real)
      requires Valid()
      modifies this
      ensures Valid()
      ensures sidebarWidth == Clamp(SidebarMin, SidebarMax, percent)
      ensures editorShare == old(editorShare)
    {
      sidebarWidth := Clamp(SidebarMin, SidebarMax, percent);
    }

    /** A pointer move during a vertical drag proposing `share`. */
    method MoveVertical(share: real)
      requires Valid()
      modifies this
      ensures Valid()
      ensures editorShare == Clamp(EditorShareMin, EditorShareMax, share)
      ensures sidebarWidth == old(sidebarWidth)
    {
      editorShare := Clamp(EditorShareMin, EditorShareMax, share);
    }
  }

  // ---------------------------------------------------------------------
  // The editor instance
  // ---------------------------------------------------------------------

  /** One mounted editor: its React state, the `compileCounter` ref and the
      per-run closures (tasks), updated in place by the events. */
  class LivePreview {
    var counter: nat
    var state: CompileState
    var errorMessage: Option<string>
    var component: Option<Component>
    var tasks: map<nat, Task>
    var mounted: Option<nat>
    var started: seq<string>

    function Snapshot(): Editor
      reads this
    {
      Editor(counter, state, errorMessage, component, tasks, mounted, started)
    }

    constructor()
      ensures Snapshot() == Initial()
    {
      counter, state, errorMessage, component := 0, Idle, None, None;
      tasks, mounted, started := map[], None, [];
    }

    /** The cleanup of the mounted run (unmount, or before the next run). */
    method Cleanup()
      modifies this
      ensures Snapshot() == Step(old(Snapshot()), Event.Cleanup)
    {
      if mounted.Some? {
        var id := mounted.value;
        if id in tasks {
          var t := tasks[id];
          tasks := tasks[id := t.(cancelled := true, phase := if t.phase == Armed then Cleared else t.phase)];
        }
        mounted := None;
      }
    }

    /** `code` changed: clean up the previous run, then run the effect. */
    method Edit(code: string)
      modifies this
      ensures Snapshot() == Step(old(Snapshot()), Event.Edit(code))
      ensures IsBlank(code) ==>
        state == Idle && errorMessage == None && component == None && counter == old(counter)
      ensures !IsBlank(code) ==>
        && counter == old(counter) + 1 && state == Compiling && errorMessage == None
        && component == old(component) && mounted == Some(counter)
        && counter in tasks && tasks[counter] == Task(code, false, Armed)
    {
      ghost var before := Snapshot();
      Cleanup();
      assert Snapshot() == RunCleanup(before);
      var trimmed := Trim(code);
      if trimmed == "" {
        state := Idle;
        errorMessage := None;
        component := None;
        return;
      }
      counter := counter + 1;
      var taskId := counter;
      state := Compiling;
      errorMessage := None;
      tasks := tasks[taskId := Task(code, false, Armed)];
      mounted := Some(taskId);
    }

    /** The quiet-period timer of `taskId` fires. */
    method FireTimer(taskId: nat)
      requires taskId in tasks && tasks[taskId].phase == Armed
      modifies this
      ensures Snapshot() == Step(old(Snapshot()), Fire(taskId))
      ensures started == old(started) + [old(tasks[taskId].source)]
    {
      var t := tasks[taskId];
      tasks := tasks[taskId := t.(phase := Running)];
      started := started + [t.source];
    }

    /** The pipeline of `taskId` settles with `outcome`. */
    method Complete(taskId: nat, outcome: Outcome)
      requires taskId in tasks && tasks[taskId].phase == Running
      modifies this
      ensures Snapshot() == Step(old(Snapshot()), Event.Complete(taskId, outcome))
      ensures old(tasks[taskId].cancelled) || taskId != old(counter) ==>
        state == old(state) && errorMessage == old(errorMessage) && component == old(component)
    {
      var t := tasks[taskId];
      tasks := tasks[taskId := t.(phase := Settled)];
      if t.cancelled || taskId != counter {
        return;
      }
      match outcome
      case ExportIsFunction(c) =>
        component := Some(c);
        state := Ready;
      case ExportNotFunction =>
        errorMessage := Some(NotAComponentMessage);
        component := None;
        state := Error;
      case TransformErr(msg) =>
        errorMessage := Some(msg);
        component := None;
        state := Error;
      case Threw(msg) =>
        errorMessage := Some(msg);
        component := None;
        state := Error;
    }
  }
}
