/** The global keyboard shortcuts: Escape, R and H, ignored while typing in
    a form field, and throttled at 250 ms. */
module Keyboard {
  import opened Common
  import opened Debounce

  /** Milliseconds between two handled key presses. */
  const KeyInterval := 250

  /** The parts of a `keydown` event the decision reads: the key, the Ctrl
      and Meta modifiers, and the tag name of the element it came from. */
  datatype KeyEvent = KeyEvent(key: string, ctrlKey: bool, metaKey: bool, targetTag: string)

  /** The handler a key press calls, if any. */
  datatype Shortcut = OnEscape | OnReset | OnHint | NoShortcut

  /** An ASCII capital letter becomes its small letter; others are kept. */
  function LowerChar(c: char): char {
    if 'A' <= c <= 'Z' then (c as int + 32) as char else c
  }

  /** `toLowerCase` on the ASCII letters, character by character. */
  function ToLower(s: string): (r: string)
    ensures |r| == |s|
    ensures forall i :: 0 <= i < |s| ==> r[i] == LowerChar(s[i])
  {
    if s == [] then [] else [LowerChar(s[0])] + ToLower(s[1..])
  }

  /** The event comes from a field the user types into. */
  predicate FromFormField(e: KeyEvent) {
    var tag := ToLower(e.targetTag);
    tag == "input" || tag == "textarea" || tag == "select"
  }

  /** The switch in the key handler: at most one handler per event. */
  function Decide(e: KeyEvent): (s: Shortcut)
    ensures FromFormField(e) ==> s == NoShortcut
    ensures s == OnEscape <==> !FromFormField(e) && e.key == "Escape"
    ensures s == OnReset <==>
      !FromFormField(e) && (e.key == "r" || e.key == "R") && !e.ctrlKey && !e.metaKey
    ensures s == OnHint <==>
      !FromFormField(e) && (e.key == "h" || e.key == "H") && !e.ctrlKey && !e.metaKey
  {
    if FromFormField(e) then NoShortcut
    else if e.key == "Escape" then OnEscape
    else if e.key == "r" || e.key == "R" then
      (if !e.ctrlKey && !e.metaKey then OnReset else NoShortcut)
    else if e.key == "h" || e.key == "H" then
      (if !e.ctrlKey && !e.metaKey then OnHint else NoShortcut)
    else NoShortcut
  }

  /** `ToLower` on a text of capitals equal, letter by letter, to `lower`
      shifted to upper case. */
  lemma LowerCapitals(upper: string, lower: string)
    requires |upper| == |lower|
    requires forall i :: 0 <= i < |upper| ==> 'A' <= upper[i] <= 'Z' && lower[i] as int == upper[i] as int + 32
    ensures ToLower(upper) == lower
  {
    var r := ToLower(upper);
    forall i | 0 <= i < |upper| ensures r[i] == lower[i] {
      assert r[i] == LowerChar(upper[i]);
    }
  }

  /** The upper-case tag names that browsers report for HTML form fields
      are recognised, so presses in those fields call no handler. */
  lemma UpperCaseFormFields(e: KeyEvent)
    requires e.targetTag == "INPUT" || e.targetTag == "TEXTAREA" || e.targetTag == "SELECT"
    ensures Decide(e) == NoShortcut
  {
    var t := e.targetTag;
    if t == "INPUT" {
      LowerCapitals(t, "input");
    } else if t == "TEXTAREA" {
      LowerCapitals(t, "textarea");
    } else {
      LowerCapitals(t, "select");
    }
  }

  /** The hook: which of the three handlers it was last given, whether the
      listener is attached, and the throttle around the decision. */
  class KeyboardControls {
    var escape: bool
    var reset: bool
    var hint: bool
    var enabled: bool
    const throttle: Throttle

    ghost predicate Valid()
      reads this, throttle
    {
      throttle.Valid() && throttle.interval == KeyInterval
    }

    constructor(escape: bool, reset: bool, hint: bool, enabled: bool)
      ensures this.escape == escape && this.reset == reset && this.hint == hint && this.enabled == enabled
      ensures fresh(throttle) && throttle.lastCall == 0 && Valid()
    {
      this.escape := escape;
      this.reset := reset;
      this.hint := hint;
      this.enabled := enabled;
      throttle := new Throttle(KeyInterval);
    }

    /** The handlers passed on a later render replace the stored ones. */
    method SetHandlers(escape: bool, reset: bool, hint: bool)
      modifies this
      ensures this.escape == escape && this.reset == reset && this.hint == hint
      ensures enabled == old(enabled)
    {
      this.escape := escape;
      this.reset := reset;
      this.hint := hint;
    }

    /** `enabled` changes: the listener is attached or removed. */
    method SetEnabled(enabled: bool)
      modifies this
      ensures this.enabled == enabled
      ensures escape == old(escape) && reset == old(reset) && hint == old(hint)
    {
      this.enabled := enabled;
    }

    function Present(s: Shortcut): bool
      reads this
    {
      match s
      case OnEscape => escape
      case OnReset => reset
      case OnHint => hint
      case NoShortcut => false
    }

    /** A key press at time `now`. Without a listener nothing happens. With
        one, the throttle decides first, so a press inside a form field still
        uses up the 250 ms window; then the decided handler is called if it
        is present. */
    method KeyDown(e: KeyEvent, now: int) returns (called: Shortcut)
      requires Valid()
      modifies throttle
      ensures !enabled ==> called == NoShortcut && unchanged(throttle)
      ensures enabled && now - old(throttle.lastCall) >= KeyInterval ==>
        throttle.lastCall == now && called == (if Present(Decide(e)) then Decide(e) else NoShortcut)
      ensures now - old(throttle.lastCall) < KeyInterval ==>
        called == NoShortcut && throttle.lastCall == old(throttle.lastCall)
      ensures called != NoShortcut ==> called == Decide(e) && Present(called)
      ensures Valid()
    {
      if !enabled {
        return NoShortcut;
      }
      var ran := throttle.Call(now);
      if !ran {
        return NoShortcut;
      }
      var s := Decide(e);
      called := if Present(s) then s else NoShortcut;
    }
  }
}
