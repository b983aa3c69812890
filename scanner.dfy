/**
 * The keystroke-to-barcode assembler of barcodebuddy/app/scanner.py:
 * a `ScannerHandler` keeps a text buffer for one evdev device, appends the
 * character of every mapped key-down event to it and hands the buffer to
 * the callback on Enter.
 *
 * The callback is modelled by the ghost sequence `delivered` of the strings
 * it was called with, and by the oracle `raises`, which says whether the
 * callback raises an exception for a given barcode.
 */
module Scanner {
  import opened Wrappers
  import opened Text

  /** `evdev.ecodes.EV_KEY` */
  const EV_KEY: int := 1
  /** `KeyEvent.key_up`, `KeyEvent.key_down` and `KeyEvent.key_hold` */
  const KEY_UP: int := 0
  const KEY_DOWN: int := 1
  const KEY_HOLD: int := 2

  /** An event as `read_loop()` yields it; `keycode` is the key name `evdev.categorize` gives its code. */
  datatype InputEvent = InputEvent(evType: int, keycode: string, keystate: int)

  predicate IsEnter(keycode: string) {
    keycode == "KEY_ENTER" || keycode == "KEY_KPENTER"
  }

  /** The characters a barcode can be made of: the values of the key map. */
  predicate InAlphabet(c: char) {
    IsDigit(c) || IsAsciiUpper(c) || c == '-' || c == '='
  }

  predicate AllInAlphabet(s: string) {
    forall i :: 0 <= i < |s| ==> InAlphabet(s[i])
  }

  /** The key map of `_handle_key`: `KEY_0`..`KEY_9`, `KEY_A`..`KEY_Z`, `KEY_MINUS`, `KEY_EQUAL`. */
  function KeyChar(keycode: string): (r: Option<char>)
    ensures r.Some? ==> InAlphabet(r.value) && !IsEnter(keycode)
  {
    if |keycode| == 5 && keycode[..4] == "KEY_" && (IsDigit(keycode[4]) || IsAsciiUpper(keycode[4])) then
      Some(keycode[4])
    else if keycode == "KEY_MINUS" then Some('-')
    else if keycode == "KEY_EQUAL" then Some('=')
    else None
  }

  /** The evdev key name that types `c`. */
  function KeyName(c: char): string
    requires InAlphabet(c)
  {
    if c == '-' then "KEY_MINUS" else if c == '=' then "KEY_EQUAL" else "KEY_" + [c]
  }

  /** A key name maps to `c` exactly when it is the key that types `c`. */
  lemma KeyCharIsKeyName(keycode: string, c: char)
    ensures KeyChar(keycode) == Some(c) <==> InAlphabet(c) && keycode == KeyName(c)
  {
    if KeyChar(keycode) == Some(c) && |keycode| == 5 && keycode[..4] == "KEY_" && (IsDigit(keycode[4]) || IsAsciiUpper(keycode[4])) {
      assert keycode == keycode[..4] + [keycode[4]];
    }
    if InAlphabet(c) && keycode == KeyName(c) && c != '-' && c != '=' {
      assert keycode[..4] == "KEY_" && keycode[4] == c;
    }
  }

  /** What the callback has been called with so far, and the buffer. */
  datatype Assembly = Assembly(delivered: seq<string>, buffer: string)

  /**
   * One key name handled by `_handle_key`. On Enter with a non-empty buffer
   * the callback is called with the buffer, and the buffer is cleared only if
   * the callback returned (line 98 runs before line 99).
   */
  function HandleStep(a: Assembly, keycode: string, raises: string -> bool): Assembly {
    if IsEnter(keycode) then
      if a.buffer != "" then
        Assembly(a.delivered + [a.buffer], if raises(a.buffer) then a.buffer else "")
      else a
    else match KeyChar(keycode)
      case Some(c) => Assembly(a.delivered, a.buffer + [c])
      case None => a
  }

  /** The key names handled in order, from `a`. */
  function Assemble(a: Assembly, keys: seq<string>, raises: string -> bool): Assembly
  {
    if keys == [] then a
    else HandleStep(Assemble(a, keys[..|keys| - 1], raises), keys[|keys| - 1], raises)
  }

  /** The key names that reach `_handle_key`: those of key-down `EV_KEY` events (lines 77-80). */
  function KeyDowns(events: seq<InputEvent>): (keys: seq<string>)
    ensures |keys| <= |events|
  {
    if events == [] then []
    else
      var e := events[|events| - 1];
      KeyDowns(events[..|events| - 1]) + (if e.evType == EV_KEY && e.keystate == KEY_DOWN then [e.keycode] else [])
  }

  function NeverRaises(): string -> bool {
    (b: string) => false
  }

  /** With a callback that returns normally, the buffer only ever holds key-map characters, and every delivered barcode is non-empty and made of them. */
  lemma {:induction false} AssembleAlphabet(a: Assembly, keys: seq<string>, raises: string -> bool)
    requires AllInAlphabet(a.buffer)
    ensures AllInAlphabet(Assemble(a, keys, raises).buffer)
    ensures var r := Assemble(a, keys, raises);
      |r.delivered| >= |a.delivered| && r.delivered[..|a.delivered|] == a.delivered
      && forall k :: |a.delivered| <= k < |r.delivered| ==> r.delivered[k] != "" && AllInAlphabet(r.delivered[k])
  {
    if keys != [] {
      var init := keys[..|keys| - 1];
      AssembleAlphabet(a, init, raises);
      var p := Assemble(a, init, raises);
      var r := HandleStep(p, keys[|keys| - 1], raises);
      assert r.delivered[..|p.delivered|] == p.delivered;
      assert r.delivered[..|a.delivered|] == p.delivered[..|a.delivered|];
    }
  }

  lemma AssembleSnoc(a: Assembly, keys: seq<string>, k: string, raises: string -> bool)
    ensures Assemble(a, keys + [k], raises) == HandleStep(Assemble(a, keys, raises), k, raises)
  {
    assert (keys + [k])[..|keys|] == keys;
  }

  lemma KeyDownsSnoc(events: seq<InputEvent>, e: InputEvent)
    ensures KeyDowns(events + [e]) == KeyDowns(events) + if e.evType == EV_KEY && e.keystate == KEY_DOWN then [e.keycode] else []
  {
    assert (events + [e])[..|events|] == events;
  }

  /** An event as the read loop handles it: only key-down `EV_KEY` events reach `_handle_key`. */
  function EventStep(a: Assembly, e: InputEvent, raises: string -> bool): Assembly {
    if e.evType == EV_KEY && e.keystate == KEY_DOWN then HandleStep(a, e.keycode, raises) else a
  }

  lemma EventsSnoc(a: Assembly, events: seq<InputEvent>, e: InputEvent, raises: string -> bool)
    ensures Assemble(a, KeyDowns(events + [e]), raises) == EventStep(Assemble(a, KeyDowns(events), raises), e, raises)
  {
    KeyDownsSnoc(events, e);
    if e.evType == EV_KEY && e.keystate == KEY_DOWN {
      AssembleSnoc(a, KeyDowns(events), e.keycode, raises);
    } else {
      assert KeyDowns(events) + [] == KeyDowns(events);
    }
  }

  /** Enter splits the key names into groups; the last group is still being typed. */
  function Groups(keys: seq<string>): (gs: seq<seq<string>>)
    ensures |gs| >= 1
  {
    if keys == [] then [[]]
    else
      var gs := Groups(keys[..|keys| - 1]);
      var k := keys[|keys| - 1];
      if IsEnter(k) then gs + [[]] else gs[..|gs| - 1] + [gs[|gs| - 1] + [k]]
  }

  /** The character a key types, if it is mapped. */
  function KeyText(keycode: string): string {
    match KeyChar(keycode)
    case Some(c) => [c]
    case None => ""
  }

  /** The characters the mapped keys of a group type, in order. */
  function Typed(keys: seq<string>): string {
    if keys == [] then "" else Typed(keys[..|keys| - 1]) + KeyText(keys[|keys| - 1])
  }

  function NonEmpty(ss: seq<string>): seq<string> {
    if ss == [] then []
    else NonEmpty(ss[..|ss| - 1]) + if ss[|ss| - 1] == "" then [] else [ss[|ss| - 1]]
  }

  /** The text of every group: the first continues the buffer the keys started from. */
  function GroupTexts(buf: string, keys: seq<string>): (ts: seq<string>)
    ensures |ts| == |Groups(keys)| >= 1
  {
    var gs := Groups(keys);
    [buf + Typed(gs[0])] + seq(|gs| - 1, i requires 0 <= i < |gs| - 1 => Typed(gs[i + 1]))
  }

  lemma {:induction false} NonEmptyAppend(ss: seq<string>, t: string)
    ensures NonEmpty(ss + [t]) == NonEmpty(ss) + if t == "" then [] else [t]
  {
    assert (ss + [t])[..|ss|] == ss;
  }

  lemma GroupTextsEmpty(buf: string)
    ensures GroupTexts(buf, []) == [buf]
  {
    assert Groups([]) == [[]] && Typed([]) == "";
    assert buf + "" == buf;
  }

  /** Enter opens a new, empty group. */
  lemma GroupTextsEnter(buf: string, keys: seq<string>, k: string)
    requires IsEnter(k)
    ensures GroupTexts(buf, keys + [k]) == GroupTexts(buf, keys) + [""]
  {
    var ts0 := GroupTexts(buf, keys);
    var ts := GroupTexts(buf, keys + [k]);
    var gs0 := Groups(keys);
    var gs := Groups(keys + [k]);
    assert (keys + [k])[..|keys|] == keys;
    assert gs == gs0 + [[]];
    assert |ts| == |ts0| + 1;
    assert ts[|ts0|] == Typed(gs[|gs0|]) == Typed([]) == "";
    assert ts[0] == ts0[0];
    forall i | 1 <= i < |ts0| ensures ts[i] == ts0[i] { assert gs[i] == gs0[i]; }
  }

  /** Any other key extends the text of the last group by what it types. */
  lemma GroupTextsKey(buf: string, keys: seq<string>, k: string)
    requires !IsEnter(k)
    ensures var ts0 := GroupTexts(buf, keys); var ts := GroupTexts(buf, keys + [k]);
      |ts| == |ts0| && ts[..|ts| - 1] == ts0[..|ts0| - 1] && ts[|ts| - 1] == ts0[|ts0| - 1] + KeyText(k)
  {
    var ts0 := GroupTexts(buf, keys);
    var ts := GroupTexts(buf, keys + [k]);
    var gs0 := Groups(keys);
    var gs := Groups(keys + [k]);
    var last := |gs0| - 1;
    assert (keys + [k])[..|keys|] == keys;
    assert gs == gs0[..last] + [gs0[last] + [k]];
    assert Typed(gs0[last] + [k]) == Typed(gs0[last]) + KeyText(k) by {
      assert (gs0[last] + [k])[..|gs0[last]|] == gs0[last];
    }
    forall i | 0 <= i < |ts| - 1 ensures ts[i] == ts0[i] {
      if i > 0 { assert gs[i] == gs0[i]; }
    }
    if last == 0 {
      assert ts[0] == buf + Typed(gs0[0]) + KeyText(k);
    }
  }

  /**
   * With a callback that returns normally, the barcodes delivered are exactly
   * the non-empty texts typed between consecutive Enters, in order and never
   * concatenated, and the buffer holds what was typed after the last Enter.
   */
  lemma {:induction false} AssembleIsGroups(buf: string, keys: seq<string>)
    ensures var ts := GroupTexts(buf, keys);
      Assemble(Assembly([], buf), keys, NeverRaises()) == Assembly(NonEmpty(ts[..|ts| - 1]), ts[|ts| - 1])
  {
    if keys == [] {
      GroupTextsEmpty(buf);
    } else {
      var init := keys[..|keys| - 1];
      var k := keys[|keys| - 1];
      assert keys == init + [k];
      AssembleIsGroups(buf, init);
      var ts0 := GroupTexts(buf, init);
      if IsEnter(k) {
        GroupTextsEnter(buf, init, k);
        assert (ts0 + [""])[..|ts0|] == ts0;
        NonEmptyAppend(ts0[..|ts0| - 1], ts0[|ts0| - 1]);
        assert ts0[..|ts0| - 1] + [ts0[|ts0| - 1]] == ts0;
      } else {
        GroupTextsKey(buf, init, k);
      }
    }
  }

  /** Typing "A", "1", Enter, "B", "2", Enter delivers "A1" and then "B2" and leaves the buffer empty. */
  lemma TwoBarcodes()
    ensures Assemble(Assembly([], ""), ["KEY_A", "KEY_1", "KEY_ENTER", "KEY_B", "KEY_2", "KEY_ENTER"], NeverRaises())
      == Assembly(["A1", "B2"], "")
  {
    var keys := ["KEY_A", "KEY_1", "KEY_ENTER", "KEY_B", "KEY_2", "KEY_ENTER"];
    var nr := NeverRaises();
    var a0 := Assembly([], "");
    assert keys[..0] == [];
    assert Assemble(a0, keys[..1], nr) == Assembly([], "A") by { assert keys[..1][..0] == []; }
    assert Assemble(a0, keys[..2], nr) == Assembly([], "A1") by { assert keys[..2][..1] == keys[..1]; }
    assert Assemble(a0, keys[..3], nr) == Assembly(["A1"], "") by { assert keys[..3][..2] == keys[..2]; }
    assert Assemble(a0, keys[..4], nr) == Assembly(["A1"], "B") by { assert keys[..4][..3] == keys[..3]; }
    assert Assemble(a0, keys[..5], nr) == Assembly(["A1"], "B2") by { assert keys[..5][..4] == keys[..4]; }
    assert keys[..6] == keys;
    assert keys[..6][..5] == keys[..5];
  }

  /** An input from the device, or a call of `stop()` from another thread, in the order they happen. */
  datatype Step = Event(event: InputEvent) | StopRequest

  /** The events the read loop sees before the first `stop()`. */
  function BeforeStop(steps: seq<Step>): (events: seq<InputEvent>)
    ensures |events| <= |steps|
  {
    if steps == [] then []
    else if steps[0].StopRequest? then []
    else [steps[0].event] + BeforeStop(steps[1..])
  }

  lemma {:induction false} BeforeStopAppend(p: seq<Step>, q: seq<Step>)
    ensures BeforeStop(p + q) == if StopRequest in p then BeforeStop(p) else BeforeStop(p) + BeforeStop(q)
  {
    if p != [] {
      assert (p + q)[1..] == p[1..] + q;
      BeforeStopAppend(p[1..], q);
      assert StopRequest in p <==> p[0] == StopRequest || StopRequest in p[1..];
    } else {
      assert p + q == q;
    }
  }

  lemma BeforeStopStep(steps: seq<Step>, i: nat)
    requires i < |steps|
    ensures StopRequest in steps[..i + 1] <==> StopRequest in steps[..i] || steps[i].StopRequest?
    ensures BeforeStop(steps[..i + 1]) ==
      if StopRequest in steps[..i] || steps[i].StopRequest? then BeforeStop(steps[..i])
      else BeforeStop(steps[..i]) + [steps[i].event]
  {
    assert steps[..i + 1] == steps[..i] + [steps[i]];
    BeforeStopAppend(steps[..i], [steps[i]]);
    assert [steps[i]][1..] == [];
  }

  lemma BeforeStopDone(steps: seq<Step>, i: nat)
    requires i <= |steps|
    requires i == |steps| || StopRequest in steps[..i]
    ensures BeforeStop(steps) == BeforeStop(steps[..i])
  {
    assert steps == steps[..i] + steps[i..];
    BeforeStopAppend(steps[..i], steps[i..]);
    if i == |steps| {
      assert steps[i..] == [];
      assert BeforeStop(steps[i..]) == [];
    }
  }

  class ScannerHandler {
    const devicePath: string
    /** Whether the callback raises an exception when called with a given barcode. */
    const raises: string -> bool
    var running: bool
    var buffer: string
    /** The arguments of every callback call, in order. */
    ghost var delivered: seq<string>

    ghost function State(): Assembly
      reads this
    {
      Assembly(delivered, buffer)
    }

    /** `__init__`: not running, empty buffer, nothing delivered. */
    constructor (devicePath: string, raises: string -> bool)
      ensures this.devicePath == devicePath && this.raises == raises
      ensures !running && buffer == "" && delivered == []
    {
      this.devicePath := devicePath;
      this.raises := raises;
      running := false;
      buffer := "";
      delivered := [];
    }

    /** `start()` sets the flag the loop checks (starting the thread is left out). */
    method Start()
      modifies this`running
      ensures running
    {
      running := true;
    }

    /** `stop()` clears the flag the loop checks (joining the thread is left out). */
    method Stop()
      modifies this`running
      ensures !running
    {
      running := false;
    }

    /** `_handle_key`; `raised` tells whether the callback raised. */
    method HandleKey(keycode: string) returns (raised: bool)
      modifies this`buffer, this`delivered
      ensures State() == HandleStep(old(State()), keycode, raises)
      ensures raised <==> IsEnter(keycode) && old(buffer) != "" && raises(old(buffer))
      ensures IsEnter(keycode) && old(buffer) != "" ==>
        delivered == old(delivered) + [old(buffer)] && buffer == (if raised then old(buffer) else "")
      ensures IsEnter(keycode) && old(buffer) == "" ==> delivered == old(delivered) && buffer == ""
      ensures !IsEnter(keycode) ==> delivered == old(delivered) && buffer == old(buffer) + KeyText(keycode)
    {
      raised := false;
      if keycode == "KEY_ENTER" || keycode == "KEY_KPENTER" {
        if buffer != "" {
          delivered := delivered + [buffer];
          if raises(buffer) {
            raised := true;
            return;
          }
          buffer := "";
        }
        return;
      }
      var c := KeyChar(keycode);
      if c.Some? {
        buffer := buffer + [c.value];
      }
    }

    /** One event of the read loop (lines 77-80). */
    method HandleEvent(e: InputEvent)
      modifies this`buffer, this`delivered
      ensures State() == EventStep(old(State()), e, raises)
    {
      if e.evType == EV_KEY && e.keystate == KEY_DOWN {
        var _ := HandleKey(e.keycode);
      }
    }

    /**
     * One pass of the read loop: `stop()` clears the flag; an event read
     * after that ends the loop, and one read while running is handled.
     */
    method ListenStep(step: Step) returns (leave: bool)
      modifies this`running, this`buffer, this`delivered
      ensures step.StopRequest? ==> !leave && !running && State() == old(State())
      ensures step.Event? && !old(running) ==> leave && !running && State() == old(State())
      ensures step.Event? && old(running) ==> !leave && running && State() == EventStep(old(State()), step.event, raises)
    {
      leave := false;
      if step.StopRequest? {
        Stop();
      } else if !running {
        leave := true;
      } else {
        HandleEvent(step.event);
      }
    }

    /**
     * The event loop of `_listen` (lines 63 and 73-80): only key-down `EV_KEY`
     * events reach `_handle_key`, and once `running` is false no further event
     * is handled. An exception from the callback that is not an `OSError` or
     * `IOError` is caught by the generic `except Exception` handler, which
     * keeps the device, so reading goes on with the next event.
     */
    method Listen(steps: seq<Step>)
      modifies this`running, this`buffer, this`delivered
      ensures old(running) ==> State() == Assemble(old(State()), KeyDowns(BeforeStop(steps)), raises)
      ensures !old(running) ==> State() == old(State())
      ensures !old(running) || StopRequest in steps ==> !running
    {
      if !running {
        return;
      }
      var i := 0;
      ghost var seen: seq<InputEvent> := [];
      while i < |steps|
        invariant 0 <= i <= |steps|
        invariant running <==> StopRequest !in steps[..i]
        invariant seen == BeforeStop(steps[..i])
        invariant State() == Assemble(old(State()), KeyDowns(seen), raises)
      {
        BeforeStopStep(steps, i);
        var leave := ListenStep(steps[i]);
        if leave {
          break;
        }
        if steps[i].Event? {
          EventsSnoc(old(State()), seen, steps[i].event, raises);
          seen := seen + [steps[i].event];
        }
        i := i + 1;
      }
      BeforeStopDone(steps, i);
    }
  }
}
