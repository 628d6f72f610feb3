/**
 * The window-targeting state machine of `VisionEngine`: it remembers which
 * window it is aimed at (title, owning process id, a resolution label) and
 * re-targets itself from the operating system's window inventory.
 *
 * The inventory query is an input: `None` when the query fails, otherwise the
 * windows in the order the operating system lists them.
 */
module Vision {
  import opened Wrappers
  import opened Ints
  import opened Text

  /** One entry of the window inventory: window id, title, owning process id. */
  datatype Window = Window(id: u32, title: string, pid: i32)

  /** The image type `capture_frame` would return; nothing in the core builds one. */
  datatype RgbaImage = RgbaImage(width: u32, height: u32, pixels: seq<bv8>)

  /** The three fields of a `VisionEngine`, as one value. */
  datatype VisionState = VisionState(
    targetWindowName: string,
    targetWindowPid: Option<i32>,
    windowResolution: string)

  /** What one scan leaves behind: the new fields and the value returned to the caller. */
  datatype ScanOutcome = ScanOutcome(state: VisionState, result: Result<string, string>)

  const TargetTitle: string := "Dofus"
  const InventoryUnavailable: string := "Failed to get shareable content."
  const WindowNotFound: string := "Dofus window not found."
  const NotFoundName: string := "Dofus not found"
  const FoundPrefix: string := "Found window: "
  const PidOpen: string := " (PID: "

  /** A freshly constructed engine. */
  const InitialState: VisionState := VisionState("Not Scanned", None, "0x0")

  /** Position of the first window, in inventory order, whose title contains `pattern`. */
  function FirstMatch(windows: seq<Window>, pattern: string): (r: Option<nat>)
    ensures r.Some? ==> r.value < |windows| && Contains(windows[r.value].title, pattern)
    ensures r.Some? ==> forall j :: 0 <= j < r.value ==> !Contains(windows[j].title, pattern)
    ensures r.None? <==> forall j :: 0 <= j < |windows| ==> !Contains(windows[j].title, pattern)
  {
    if |windows| == 0 then None
    else if Contains(windows[0].title, pattern) then Some(0)
    else match FirstMatch(windows[1..], pattern)
      case None => None
      case Some(k) => Some(k + 1)
  }

  /** The label stored as the window "resolution": `ID: <window id>`. */
  function ResolutionLabel(id: u32): string {
    "ID: " + IntToDecimal(id as int)
  }

  /** The text returned on a match: `Found window: <title> (PID: <pid>)`. */
  function FoundMessage(title: string, pid: i32): string {
    FoundPrefix + title + PidOpen + IntToDecimal(pid as int) + ")"
  }

  /**
   * Specification of `find_dofus_window`: the new fields and the returned value,
   * given the old fields and the inventory.
   */
  function FindDofus(s: VisionState, inventory: Option<seq<Window>>): (o: ScanOutcome)
    ensures inventory.None? ==> o.state == s
    ensures o.result.Ok? ==> o.state.targetWindowPid.Some?
  {
    match inventory
    case None => ScanOutcome(s, Err(InventoryUnavailable))
    case Some(windows) =>
      match FirstMatch(windows, TargetTitle)
      case Some(k) =>
        var w := windows[k];
        ScanOutcome(VisionState(w.title, Some(w.pid), ResolutionLabel(w.id)), Ok(FoundMessage(w.title, w.pid)))
      case None =>
        ScanOutcome(s.(targetWindowName := NotFoundName, targetWindowPid := None), Err(WindowNotFound))
  }

  class VisionEngine {
    var targetWindowName: string
    var targetWindowPid: Option<i32>
    var windowResolution: string

    function State(): VisionState
      reads this
    {
      VisionState(targetWindowName, targetWindowPid, windowResolution)
    }

    constructor ()
      ensures targetWindowName == "Not Scanned"
      ensures targetWindowPid == None
      ensures windowResolution == "0x0"
      ensures State() == InitialState
    {
      targetWindowName := "Not Scanned";
      targetWindowPid := None;
      windowResolution := "0x0";
    }

    /** Re-targets the engine at the first window whose title contains "Dofus". */
    method FindDofusWindow(inventory: Option<seq<Window>>) returns (r: Result<string, string>)
      modifies this
      ensures ScanOutcome(State(), r) == FindDofus(old(State()), inventory)
    {
      match inventory {
        case None =>
          r := Err(InventoryUnavailable);
        case Some(windows) =>
          var found := FirstMatch(windows, TargetTitle);
          if found.Some? {
            var window := windows[found.value];
            targetWindowName := window.title;
            targetWindowPid := Some(window.pid);
            windowResolution := ResolutionLabel(window.id);
            r := Ok(FoundMessage(targetWindowName, targetWindowPid.value));
          } else {
            targetWindowName := NotFoundName;
            targetWindowPid := None;
            r := Err(WindowNotFound);
          }
      }
    }

    /** Frame capture is not implemented: there is never a frame. */
    function CaptureFrame(): (frame: Option<RgbaImage>)
      ensures frame == None
    {
      None
    }
  }

  // ---------------------------------------------------------------------------
  // Properties of a scan
  // ---------------------------------------------------------------------------

  /** A failed inventory query is reported and leaves every field as it was. */
  lemma FindDofusInventoryUnavailable(s: VisionState)
    ensures FindDofus(s, None).state == s
    ensures FindDofus(s, None).result == Err("Failed to get shareable content.")
  {
  }

  /**
   * The window chosen is the first one, in inventory order, whose title contains
   * "Dofus"; the engine takes its title, owner and id, and reports both.
   */
  lemma FindDofusMatch(s: VisionState, windows: seq<Window>, k: nat)
    requires k < |windows| && Contains(windows[k].title, "Dofus")
    requires forall j :: 0 <= j < k ==> !Contains(windows[j].title, "Dofus")
    ensures var o := FindDofus(s, Some(windows));
      && o.state.targetWindowName == windows[k].title
      && o.state.targetWindowPid == Some(windows[k].pid)
      && o.state.windowResolution == "ID: " + IntToDecimal(windows[k].id as int)
      && o.result == Ok("Found window: " + windows[k].title + " (PID: " + IntToDecimal(windows[k].pid as int) + ")")
  {
  }

  /**
   * When no title contains "Dofus", the engine forgets its target but keeps its
   * old resolution label, and reports that the window was not found.
   */
  lemma FindDofusNoMatch(s: VisionState, windows: seq<Window>)
    requires forall j :: 0 <= j < |windows| ==> !Contains(windows[j].title, "Dofus")
    ensures var o := FindDofus(s, Some(windows));
      && o.state == VisionState("Dofus not found", None, s.windowResolution)
      && o.result == Err("Dofus window not found.")
  {
  }

  /**
   * A scan succeeds exactly when the inventory was available and holds a "Dofus"
   * window, and then a target pid is always set, so reading it back never fails.
   */
  lemma FindDofusOk(s: VisionState, inventory: Option<seq<Window>>)
    ensures var o := FindDofus(s, inventory);
      o.result.Ok? <==>
        inventory.Some? && exists j :: 0 <= j < |inventory.value| && Contains(inventory.value[j].title, "Dofus")
    ensures var o := FindDofus(s, inventory);
      o.result.Ok? ==>
        o.state.targetWindowPid.Some? && o.result.value == FoundMessage(o.state.targetWindowName, o.state.targetWindowPid.value)
  {
  }

  /** Scanning twice against the same inventory is the same as scanning once. */
  lemma FindDofusIdempotent(s: VisionState, inventory: Option<seq<Window>>)
    ensures var once := FindDofus(s, inventory);
      FindDofus(once.state, inventory) == once
  {
  }

  /** The text returned on a match, read back into the title and pid it was built from. */
  function ParseFoundMessage(m: string): Option<(string, int)> {
    if |m| < |FoundPrefix| + 1 || m[..|FoundPrefix|] != FoundPrefix || m[|m| - 1] != ')' then None
    else ParseFoundBody(m[|FoundPrefix|..|m| - 1])
  }

  /** Splits `<title> (PID: <pid>` at the decimal number that ends it. */
  function ParseFoundBody(body: string): Option<(string, int)> {
    var k := TrailingDigits(body);
    if k == 0 then None
    else
      match SplitPidLabel(body[..|body| - k])
      case None => None
      case Some((title, negative)) =>
        var magnitude := DecimalValue(body[|body| - k..]) as int;
        Some((title, if negative then -magnitude else magnitude))
  }

  /** Splits `<title> (PID: ` or `<title> (PID: -` into the title and whether the sign was there. */
  function SplitPidLabel(rest: string): Option<(string, bool)> {
    var negative := |rest| > 0 && rest[|rest| - 1] == '-';
    var head := if negative then rest[..|rest| - 1] else rest;
    if |head| < |PidOpen| || head[|head| - |PidOpen|..] != PidOpen then None
    else Some((head[..|head| - |PidOpen|], negative))
  }

  lemma FoundMessageShape(title: string, pid: i32)
    ensures var m := FoundMessage(title, pid);
      && |m| >= |FoundPrefix| + 1
      && m[..|FoundPrefix|] == FoundPrefix
      && m[|m| - 1] == ')'
      && m[|FoundPrefix|..|m| - 1] == title + PidOpen + IntToDecimal(pid as int)
  {
    var inner := title + PidOpen + IntToDecimal(pid as int);
    var m := FoundMessage(title, pid);
    assert m == FoundPrefix + inner + ")";
    assert m[..|FoundPrefix|] == FoundPrefix;
    assert m[|FoundPrefix|..|m| - 1] == inner;
  }

  /** Splitting `x + ds` at its trailing digits gives back `x` and `ds`. */
  lemma SplitAtTrailingDigits(x: string, ds: string)
    requires |x| > 0 && !IsDigit(x[|x| - 1])
    requires AllDigits(ds)
    ensures var b := x + ds; var k := TrailingDigits(b);
      k == |ds| && b[..|b| - k] == x && b[|b| - k..] == ds
  {
    TrailingDigitsAfter(x, ds);
  }

  lemma SplitPidLabelOf(title: string, negative: bool)
    ensures SplitPidLabel(if negative then title + PidOpen + "-" else title + PidOpen) == Some((title, negative))
  {
    var head := title + PidOpen;
    if negative {
      assert (head + "-")[..|head|] == head;
    }
    assert head[|head| - |PidOpen|..] == PidOpen;
    assert head[..|head| - |PidOpen|] == title;
  }

  lemma ParseFoundBodyOf(title: string, negative: bool, n: nat)
    ensures var x := if negative then title + PidOpen + "-" else title + PidOpen;
      ParseFoundBody(x + NatToDecimal(n)) == Some((title, if negative then -(n as int) else n))
  {
    var x := if negative then title + PidOpen + "-" else title + PidOpen;
    var ds := NatToDecimal(n);
    SplitAtTrailingDigits(x, ds);
    SplitPidLabelOf(title, negative);
    DecimalValueOfNatToDecimal(n);
  }

  lemma ParseFoundBodyRoundTrip(title: string, pid: i32)
    ensures ParseFoundBody(title + PidOpen + IntToDecimal(pid as int)) == Some((title, pid as int))
  {
    var negative := pid < 0;
    var n: nat := if negative then -(pid as int) else pid as int;
    var x := if negative then title + PidOpen + "-" else title + PidOpen;
    assert title + PidOpen + IntToDecimal(pid as int) == x + NatToDecimal(n);
    ParseFoundBodyOf(title, negative, n);
  }

  /** The match report names the window's title and owner unambiguously. */
  lemma FoundMessageRoundTrip(title: string, pid: i32)
    ensures ParseFoundMessage(FoundMessage(title, pid)) == Some((title, pid as int))
  {
    FoundMessageShape(title, pid);
    ParseFoundBodyRoundTrip(title, pid);
  }

  /** Concrete inventory: the window titled "My Dofus Game" is chosen among three. */
  lemma FindDofusExample()
    ensures var windows := [Window(1, "Notepad", 10), Window(2, "My Dofus Game", 20), Window(3, "Other", 30)];
      FirstMatch(windows, TargetTitle) == Some(1)
  {
    var windows := [Window(1, "Notepad", 10), Window(2, "My Dofus Game", 20), Window(3, "Other", 30)];
    assert !Contains("Notepad", TargetTitle) by {
      assert "Notepad"[..5][0] != TargetTitle[0];
      assert "Notepad"[1..][..5][0] != TargetTitle[0];
      assert "Notepad"[1..][1..][..5][0] != TargetTitle[0];
      assert |"Notepad"[1..][1..][1..]| < 5;
    }
    assert Contains("My Dofus Game", TargetTitle) by {
      assert "My Dofus Game" == "My " + TargetTitle + " Game";
      assert OccursAt("My Dofus Game", TargetTitle, 3);
      ContainsIffOccurs("My Dofus Game", TargetTitle);
    }
    assert windows[1..] == [Window(2, "My Dofus Game", 20), Window(3, "Other", 30)];
  }

  /** Matching is case-sensitive: a lower-case "dofus" is not a match. */
  lemma MatchIsCaseSensitive()
    ensures !Contains("dofus", TargetTitle)
    ensures Contains("Dofus", TargetTitle)
  {
    assert "dofus"[..5][0] != TargetTitle[0];
    assert |"dofus"[1..]| < 5;
  }
}
