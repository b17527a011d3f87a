/**
  The decision `handleKeyDown` takes for one key event: which shortcut, if
  any, fires. The result is the position of that shortcut in the list; the
  handler calls `preventDefault` and the shortcut's action exactly when there is
  one. Registering the listener is not part of this model.
 */
module KeyboardShortcuts {
  import opened TaskTypes

  /** A shortcut without its action; an absent modifier flag is `None`. */
  datatype Shortcut = Shortcut(
    key: string,
    ctrlKey: Option<bool>,
    metaKey: Option<bool>,
    shiftKey: Option<bool>,
    altKey: Option<bool>,
    description: string)

  /** The parts of a `KeyboardEvent` and of its target that the handler reads. */
  datatype KeyEvent = KeyEvent(
    key: string,
    ctrlKey: bool,
    metaKey: bool,
    shiftKey: bool,
    altKey: bool,
    targetTagName: string,
    targetContentEditable: string)

  /** Lower case for the letters A to Z. */
  function LowerChar(c: char): (d: char)
    ensures 'A' <= c <= 'Z' ==> 'a' <= d <= 'z'
    ensures !('A' <= c <= 'Z') ==> d == c
  {
    if 'A' <= c <= 'Z' then (c as int + 32) as char else c
  }

  function ToLower(s: string): (r: string)
    ensures |r| == |s|
    ensures forall i :: 0 <= i < |s| ==> r[i] == LowerChar(s[i])
  {
    seq(|s|, i requires 0 <= i < |s| => LowerChar(s[i]))
  }

  /** Lower-casing twice is lower-casing once. */
  lemma ToLowerIdempotent(s: string)
    ensures ToLower(ToLower(s)) == ToLower(s)
  {
    assert forall i :: 0 <= i < |s| ==> LowerChar(LowerChar(s[i])) == LowerChar(s[i]);
  }

  /** `Boolean(flag)`: an absent flag is false. */
  function Flag(o: Option<bool>): bool {
    o.Some? && o.value
  }

  /** The predicate handed to `shortcuts.find`. */
  predicate Matches(sc: Shortcut, e: KeyEvent) {
    && ToLower(sc.key) == ToLower(e.key)
    && Flag(sc.ctrlKey) == e.ctrlKey
    && Flag(sc.metaKey) == e.metaKey
    && Flag(sc.shiftKey) == e.shiftKey
    && Flag(sc.altKey) == e.altKey
  }

  /** The target is a text input, a text area or editable content. */
  predicate InEditable(e: KeyEvent) {
    e.targetTagName == "INPUT" || e.targetTagName == "TEXTAREA" || e.targetContentEditable == "true"
  }

  /** `shortcuts.find(...)`, as the position of the first match. */
  function FirstMatch(shortcuts: seq<Shortcut>, e: KeyEvent): (r: Option<nat>)
    ensures r.Some? ==> r.value < |shortcuts| && Matches(shortcuts[r.value], e)
    ensures r.Some? ==> forall k :: 0 <= k < r.value ==> !Matches(shortcuts[k], e)
    ensures r.None? <==> forall k :: 0 <= k < |shortcuts| ==> !Matches(shortcuts[k], e)
    decreases |shortcuts|
  {
    if shortcuts == [] then None
    else if Matches(shortcuts[0], e) then Some(0)
    else
      match FirstMatch(shortcuts[1..], e)
      case None => None
      case Some(k) => Some(k + 1)
  }

  /** The shortcut `handleKeyDown` fires for `e`, if any. */
  function HandleKeyDown(shortcuts: seq<Shortcut>, enabled: bool, e: KeyEvent): (r: Option<nat>)
    ensures !enabled ==> r.None?
    ensures InEditable(e) && e.key != "Escape" ==> r.None?
    ensures enabled && (!InEditable(e) || e.key == "Escape") ==> r == FirstMatch(shortcuts, e)
  {
    if !enabled then None
    else if InEditable(e) && e.key != "Escape" then None
    else FirstMatch(shortcuts, e)
  }

  /** A shortcut fires exactly when the handler is enabled, the target allows it and some shortcut matches. */
  lemma FiresIff(shortcuts: seq<Shortcut>, enabled: bool, e: KeyEvent)
    ensures HandleKeyDown(shortcuts, enabled, e).Some?
        <==> enabled && (!InEditable(e) || e.key == "Escape")
             && exists k :: 0 <= k < |shortcuts| && Matches(shortcuts[k], e)
  {
  }

  /** The key comparison ignores case on both sides. */
  lemma MatchIgnoresCase(sc: Shortcut, e: KeyEvent)
    ensures Matches(sc, e) == Matches(sc.(key := ToLower(sc.key)), e)
    ensures Matches(sc, e) == Matches(sc, e.(key := ToLower(e.key)))
  {
    ToLowerIdempotent(sc.key);
    ToLowerIdempotent(e.key);
  }

  /** An absent modifier flag behaves as `false`. */
  lemma AbsentFlagIsFalse(sc: Shortcut, e: KeyEvent)
    ensures Matches(sc.(ctrlKey := None), e) == Matches(sc.(ctrlKey := Some(false)), e)
    ensures Matches(sc.(metaKey := None), e) == Matches(sc.(metaKey := Some(false)), e)
    ensures Matches(sc.(shiftKey := None), e) == Matches(sc.(shiftKey := Some(false)), e)
    ensures Matches(sc.(altKey := None), e) == Matches(sc.(altKey := Some(false)), e)
  {
  }

  /** `find` on a concatenation: the first part is searched first, then the rest, offset by its length. */
  lemma {:induction false} FirstMatchAppend(pre: seq<Shortcut>, rest: seq<Shortcut>, e: KeyEvent)
    ensures FirstMatch(pre + rest, e)
         == if FirstMatch(pre, e).Some? then FirstMatch(pre, e)
            else match FirstMatch(rest, e) case None => None case Some(k) => Some(|pre| + k)
    decreases |pre|
  {
    if pre == [] {
      assert pre + rest == rest;
    } else {
      assert (pre + rest)[0] == pre[0];
      assert (pre + rest)[1..] == pre[1..] + rest;
      FirstMatchAppend(pre[1..], rest, e);
    }
  }

  /**
    Precedence by position: wherever a matching shortcut sits, no shortcut after
    it fires, and when none before it matches, it is the one that fires.
   */
  lemma FirstMatchPrecedence(pre: seq<Shortcut>, sc: Shortcut, post: seq<Shortcut>, e: KeyEvent)
    requires Matches(sc, e)
    ensures var r := FirstMatch(pre + [sc] + post, e);
      && r.Some? && r.value <= |pre|
      && (r.value < |pre| <==> FirstMatch(pre, e).Some?)
      && (r.value < |pre| ==> r == FirstMatch(pre, e))
  {
    assert pre + [sc] + post == pre + ([sc] + post);
    assert FirstMatch([sc] + post, e) == Some(0);
    FirstMatchAppend(pre, [sc] + post, e);
  }

  /** Events whose keys agree up to case select the same shortcut. */
  lemma {:induction false} FirstMatchIgnoresCase(shortcuts: seq<Shortcut>, e: KeyEvent, key: string)
    requires ToLower(key) == ToLower(e.key)
    ensures FirstMatch(shortcuts, e.(key := key)) == FirstMatch(shortcuts, e)
    decreases |shortcuts|
  {
    if shortcuts != [] {
      FirstMatchIgnoresCase(shortcuts[1..], e, key);
    }
  }

  /**
    The Escape exception compares the key exactly, while matching ignores case:
    an Escape key reported in any other case fires in a text field nothing at
    all, and elsewhere the same shortcut as the exact "Escape".
   */
  lemma EscapeExceptionIsCaseSensitive(shortcuts: seq<Shortcut>, enabled: bool, e: KeyEvent)
    requires ToLower(e.key) == ToLower("Escape")
    ensures HandleKeyDown(shortcuts, enabled, e.(key := "Escape")) == if enabled then FirstMatch(shortcuts, e) else None
    ensures !InEditable(e) ==> HandleKeyDown(shortcuts, enabled, e) == HandleKeyDown(shortcuts, enabled, e.(key := "Escape"))
    ensures InEditable(e) && e.key != "Escape" ==> HandleKeyDown(shortcuts, enabled, e) == None
  {
    FirstMatchIgnoresCase(shortcuts, e, "Escape");
    assert InEditable(e.(key := "Escape")) == InEditable(e);
  }
}
