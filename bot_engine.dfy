/**
 * `BotEngine`, the orchestration layer: it runs scans through the vision engine,
 * asks the input layer to focus windows, and reports every step as a levelled
 * message on the log channel.
 *
 * The log channel and the focus requests are observed together as one ordered
 * trace of effects, so that the interleaving of messages and focus requests is
 * part of what the contracts state.
 */
module Bot {
  import opened Wrappers
  import opened Ints
  import opened Text
  import opened Vision

  datatype LogLevel = Info | Success | Warning | Error

  /** A message on the log channel (its wall-clock timestamp is not modelled). */
  datatype LogMessage = LogMessage(level: LogLevel, message: string)

  /** One observable action: a message sent on the log channel, or a request to focus a process. */
  datatype Effect = Logged(entry: LogMessage) | FocusRequested(pid: i32)

  /** The messages of a trace, in order. */
  function LogsOf(effects: seq<Effect>): seq<LogMessage> {
    if effects == [] then []
    else (if effects[0].Logged? then [effects[0].entry] else []) + LogsOf(effects[1..])
  }

  /** The focus requests of a trace, in order. */
  function FocusesOf(effects: seq<Effect>): seq<i32> {
    if effects == [] then []
    else (if effects[0].FocusRequested? then [effects[0].pid] else []) + FocusesOf(effects[1..])
  }

  lemma {:induction false} LogsOfAppend(a: seq<Effect>, b: seq<Effect>)
    ensures LogsOf(a + b) == LogsOf(a) + LogsOf(b)
    decreases |a|
  {
    if a != [] {
      assert (a + b)[1..] == a[1..] + b;
      LogsOfAppend(a[1..], b);
    } else {
      assert a + b == b;
    }
  }

  lemma {:induction false} FocusesOfAppend(a: seq<Effect>, b: seq<Effect>)
    ensures FocusesOf(a + b) == FocusesOf(a) + FocusesOf(b)
    decreases |a|
  {
    if a != [] {
      assert (a + b)[1..] == a[1..] + b;
      FocusesOfAppend(a[1..], b);
    } else {
      assert a + b == b;
    }
  }

  /** No message of the trace has level `Error`. */
  predicate NoErrorLogged(effects: seq<Effect>) {
    forall i :: 0 <= i < |effects| && effects[i].Logged? ==> effects[i].entry.level != Error
  }

  const ScanningMessage: string := "Scanning for Dofus window..."
  const CannotFocusMessage: string := "Cannot focus Dofus: Window not found."
  const FocusBotMessage: string := "Focusing Bot window natively..."
  const TestFocusingDofus: string := "Test: Focusing Dofus in 5s..."
  const TestDofusFocused: string := "Test: Dofus focused. Focusing Bot in 5s..."
  const TestComplete: string := "Test: Bot focused. Sequence complete."
  const TestNoPid: string := "Test: Dofus PID not found. Scan first."
  const FocusingPrefix: string := "Focusing Dofus window (PID: "
  const FocusingSuffix: string := ") natively..."

  function FocusingDofusMessage(pid: i32): string {
    FocusingPrefix + IntToDecimal(pid as int) + FocusingSuffix
  }

  /** What `scan_for_window` emits once the vision engine has answered `result`. */
  function ScanEffects(result: Result<string, string>): seq<Effect> {
    [ Logged(LogMessage(Info, ScanningMessage)),
      match result
      case Ok(msg) => Logged(LogMessage(Success, msg))
      case Err(err) => Logged(LogMessage(Warning, err)) ]
  }

  /** What `focus_dofus` emits when the target pid is `pid`. */
  function FocusDofusEffects(pid: Option<i32>): seq<Effect> {
    match pid
    case Some(p) => [Logged(LogMessage(Info, FocusingDofusMessage(p))), FocusRequested(p)]
    case None => [Logged(LogMessage(Warning, CannotFocusMessage))]
  }

  /** What `focus_bot` emits when the bot's own pid is `botPid`. */
  function FocusBotEffects(botPid: i32): seq<Effect> {
    [Logged(LogMessage(Info, FocusBotMessage)), FocusRequested(botPid)]
  }

  /** What the background part of `run_test_sequence` emits. */
  function TestSequenceEffects(pid: Option<i32>, botPid: i32): seq<Effect> {
    match pid
    case Some(p) =>
      [ Logged(LogMessage(Info, TestFocusingDofus)),
        FocusRequested(p),
        Logged(LogMessage(Info, TestDofusFocused)),
        FocusRequested(botPid),
        Logged(LogMessage(Success, TestComplete)) ]
    case None => [Logged(LogMessage(Warning, TestNoPid))]
  }

  class BotEngine {
    /** The vision engine; the field itself is never reassigned. */
    const vision: VisionEngine
    /** Every message sent on the log channel and every focus request, in order. */
    var effects: seq<Effect>

    constructor ()
      ensures fresh(vision)
      ensures vision.State() == InitialState
      ensures effects == []
    {
      vision := new VisionEngine();
      effects := [];
    }

    /** Sends one message; a send that fails is dropped and never reported to the caller. */
    method Log(message: string, level: LogLevel)
      modifies this
      ensures effects == old(effects) + [Logged(LogMessage(level, message))]
    {
      effects := effects + [Logged(LogMessage(level, message))];
    }

    /** The input layer's `focus_window`: one focus request for `pid`. */
    method RequestFocus(pid: i32)
      modifies this
      ensures effects == old(effects) + [FocusRequested(pid)]
    {
      effects := effects + [FocusRequested(pid)];
    }

    method ScanForWindow(inventory: Option<seq<Window>>)
      modifies this, vision
      ensures vision.State() == FindDofus(old(vision.State()), inventory).state
      ensures effects == old(effects) + ScanEffects(FindDofus(old(vision.State()), inventory).result)
    {
      Log(ScanningMessage, Info);
      var result := vision.FindDofusWindow(inventory);
      match result {
        case Ok(msg) => Log(msg, Success);
        case Err(err) => Log(err, Warning);
      }
    }

    method FocusDofus()
      modifies this
      ensures unchanged(vision)
      ensures effects == old(effects) + FocusDofusEffects(vision.targetWindowPid)
    {
      if vision.targetWindowPid.Some? {
        var pid := vision.targetWindowPid.value;
        Log(FocusingDofusMessage(pid), Info);
        RequestFocus(pid);
      } else {
        Log(CannotFocusMessage, Warning);
      }
    }

    /** `processId` is the operating system's id for this process, cast to `i32` as `std::process::id() as i32` does. */
    method FocusBot(processId: u32)
      modifies this
      ensures unchanged(vision)
      ensures effects == old(effects) + FocusBotEffects(AsI32(processId))
    {
      Log(FocusBotMessage, Info);
      RequestFocus(AsI32(processId));
    }

    /** The test sequence, run to completion in one step: the pid is read once, at the start. */
    method RunTestSequence(processId: u32)
      modifies this
      ensures unchanged(vision)
      ensures effects == old(effects) + TestSequenceEffects(old(vision.targetWindowPid), AsI32(processId))
    {
      var visionPid := vision.targetWindowPid;
      var botPid := AsI32(processId);
      if visionPid.Some? {
        var p := visionPid.value;
        Log(TestFocusingDofus, Info);
        RequestFocus(p);
        Log(TestDofusFocused, Info);
        RequestFocus(botPid);
        Log(TestComplete, Success);
      } else {
        Log(TestNoPid, Warning);
      }
    }
  }

  // ---------------------------------------------------------------------------
  // Properties of the traces
  // ---------------------------------------------------------------------------

  /**
   * A scan sends exactly two messages and focuses nothing: first the "Scanning"
   * notice, then Success when a "Dofus" window was found, otherwise Warning,
   * carrying the text the vision engine returned (an unavailable inventory is a
   * Warning too).
   */
  lemma ScanMessages(s: VisionState, inventory: Option<seq<Window>>)
    ensures var o := FindDofus(s, inventory);
      var found := inventory.Some? && exists j :: 0 <= j < |inventory.value| && Contains(inventory.value[j].title, "Dofus");
      LogsOf(ScanEffects(o.result)) ==
        [ LogMessage(Info, "Scanning for Dofus window..."),
          LogMessage(if found then Success else Warning, if o.result.Ok? then o.result.value else o.result.error) ]
    ensures FocusesOf(ScanEffects(FindDofus(s, inventory).result)) == []
    ensures inventory == None ==>
      LogsOf(ScanEffects(FindDofus(s, inventory).result))[1] == LogMessage(Warning, "Failed to get shareable content.")
  {
    FindDofusOk(s, inventory);
    var e := ScanEffects(FindDofus(s, inventory).result);
    assert e == [e[0]] + [e[1]];
    LogsOfAppend([e[0]], [e[1]]);
    FocusesOfAppend([e[0]], [e[1]]);
  }

  /**
   * Focusing the target logs one message and then, only when a pid is known,
   * requests focus for exactly that pid.
   */
  lemma FocusDofusOutcomes(pid: Option<i32>)
    ensures pid.Some? ==>
      && LogsOf(FocusDofusEffects(pid)) == [LogMessage(Info, FocusingDofusMessage(pid.value))]
      && FocusesOf(FocusDofusEffects(pid)) == [pid.value]
      && FocusDofusEffects(pid)[0].Logged? && FocusDofusEffects(pid)[1].FocusRequested?
    ensures pid.None? ==>
      && LogsOf(FocusDofusEffects(pid)) == [LogMessage(Warning, "Cannot focus Dofus: Window not found.")]
      && FocusesOf(FocusDofusEffects(pid)) == []
  {
    var e := FocusDofusEffects(pid);
    if pid.Some? {
      assert e == [e[0]] + [e[1]];
      LogsOfAppend([e[0]], [e[1]]);
      FocusesOfAppend([e[0]], [e[1]]);
    }
  }

  /** The message about focusing the target carries its pid, which can be read back. */
  lemma FocusingMessageCarriesPid(pid: i32)
    ensures var m := FocusingDofusMessage(pid);
      |m| >= |FocusingPrefix| + |FocusingSuffix|
      && ParseInt(m[|FocusingPrefix|..|m| - |FocusingSuffix|]) == Some(pid as int)
  {
    var m := FocusingDofusMessage(pid);
    assert m[|FocusingPrefix|..|m| - |FocusingSuffix|] == IntToDecimal(pid as int);
    ParseIntToDecimal(pid as int);
  }

  /** Focusing the bot logs one Info message, then requests focus for the bot's own (cast) pid. */
  lemma FocusBotOutcome(processId: u32)
    ensures LogsOf(FocusBotEffects(AsI32(processId))) == [LogMessage(Info, "Focusing Bot window natively...")]
    ensures FocusesOf(FocusBotEffects(AsI32(processId))) == [AsI32(processId)]
    ensures processId as int < TwoTo31 ==> FocusesOf(FocusBotEffects(AsI32(processId)))[0] as int == processId as int
    ensures var e := FocusBotEffects(AsI32(processId));
      |e| == 2 && e[0].Logged? && e[1].FocusRequested?
  {
    var e := FocusBotEffects(AsI32(processId));
    assert e == [e[0]] + [e[1]];
    LogsOfAppend([e[0]], [e[1]]);
    FocusesOfAppend([e[0]], [e[1]]);
  }

  /**
   * With a known pid the test sequence logs Info, Info, Success and focuses the
   * target and then the bot, alternating message, focus, message, focus, message;
   * without one it logs a single Warning and focuses nothing.
   */
  lemma TestSequenceOutcomes(pid: Option<i32>, botPid: i32)
    ensures pid.Some? ==>
      var e := TestSequenceEffects(pid, botPid);
      && |e| == 5
      && (forall i :: 0 <= i < 5 ==> (e[i].Logged? <==> i % 2 == 0))
      && LogsOf(e) == [LogMessage(Info, "Test: Focusing Dofus in 5s..."),
                       LogMessage(Info, "Test: Dofus focused. Focusing Bot in 5s..."),
                       LogMessage(Success, "Test: Bot focused. Sequence complete.")]
      && FocusesOf(e) == [pid.value, botPid]
    ensures pid.None? ==>
      && LogsOf(TestSequenceEffects(pid, botPid)) == [LogMessage(Warning, "Test: Dofus PID not found. Scan first.")]
      && FocusesOf(TestSequenceEffects(pid, botPid)) == []
  {
    if pid.Some? {
      TestSequenceLogs(pid.value, botPid);
      TestSequenceFocuses(pid.value, botPid);
    }
  }

  lemma TestSequenceLogs(p: i32, botPid: i32)
    ensures LogsOf(TestSequenceEffects(Some(p), botPid)) ==
      [ LogMessage(Info, TestFocusingDofus), LogMessage(Info, TestDofusFocused), LogMessage(Success, TestComplete) ]
  {
    var e := TestSequenceEffects(Some(p), botPid);
    assert e == [e[0]] + ([e[1]] + ([e[2]] + ([e[3]] + [e[4]])));
    LogsOfAppend([e[3]], [e[4]]);
    LogsOfAppend([e[2]], [e[3]] + [e[4]]);
    LogsOfAppend([e[1]], [e[2]] + ([e[3]] + [e[4]]));
    LogsOfAppend([e[0]], [e[1]] + ([e[2]] + ([e[3]] + [e[4]])));
  }

  lemma TestSequenceFocuses(p: i32, botPid: i32)
    ensures FocusesOf(TestSequenceEffects(Some(p), botPid)) == [p, botPid]
  {
    var e := TestSequenceEffects(Some(p), botPid);
    assert e == [e[0]] + ([e[1]] + ([e[2]] + ([e[3]] + [e[4]])));
    FocusesOfAppend([e[3]], [e[4]]);
    FocusesOfAppend([e[2]], [e[3]] + [e[4]]);
    FocusesOfAppend([e[1]], [e[2]] + ([e[3]] + [e[4]]));
    FocusesOfAppend([e[0]], [e[1]] + ([e[2]] + ([e[3]] + [e[4]])));
  }

  /** After a successful scan, focusing the target requests focus for the found window's owner. */
  lemma ScanThenFocus(s: VisionState, windows: seq<Window>, k: nat)
    requires k < |windows| && Contains(windows[k].title, "Dofus")
    requires forall j :: 0 <= j < k ==> !Contains(windows[j].title, "Dofus")
    ensures FocusesOf(FocusDofusEffects(FindDofus(s, Some(windows)).state.targetWindowPid)) == [windows[k].pid]
  {
    FindDofusMatch(s, windows, k);
    FocusDofusOutcomes(FindDofus(s, Some(windows)).state.targetWindowPid);
  }

  lemma NoErrorLoggedAppend(a: seq<Effect>, b: seq<Effect>)
    ensures NoErrorLogged(a + b) <==> NoErrorLogged(a) && NoErrorLogged(b)
  {
    if NoErrorLogged(a) && NoErrorLogged(b) {
      forall i | 0 <= i < |a + b| && (a + b)[i].Logged?
        ensures (a + b)[i].entry.level != Error
      {
        if i >= |a| { assert (a + b)[i] == b[i - |a|]; }
      }
    }
    if NoErrorLogged(a + b) {
      forall i | 0 <= i < |a| && a[i].Logged? ensures a[i].entry.level != Error {
        assert (a + b)[i] == a[i];
      }
      forall i | 0 <= i < |b| && b[i].Logged? ensures b[i].entry.level != Error {
        assert (a + b)[|a| + i] == b[i];
      }
    }
  }

  /** No operation of the engine ever logs at level Error, so a clean log stays clean. */
  lemma NeverLogsError(effects: seq<Effect>, s: VisionState, inventory: Option<seq<Window>>, pid: Option<i32>, botPid: i32)
    requires NoErrorLogged(effects)
    ensures NoErrorLogged(effects + ScanEffects(FindDofus(s, inventory).result))
    ensures NoErrorLogged(effects + FocusDofusEffects(pid))
    ensures NoErrorLogged(effects + FocusBotEffects(botPid))
    ensures NoErrorLogged(effects + TestSequenceEffects(pid, botPid))
  {
    NoErrorLoggedAppend(effects, ScanEffects(FindDofus(s, inventory).result));
    NoErrorLoggedAppend(effects, FocusDofusEffects(pid));
    NoErrorLoggedAppend(effects, FocusBotEffects(botPid));
    NoErrorLoggedAppend(effects, TestSequenceEffects(pid, botPid));
  }
}
