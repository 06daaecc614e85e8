/**
 * The input-binding bootstrap of AFPCharacter: the engine's global input
 * settings as a store of action and axis mappings, the fixed default
 * binding table, and the decision whether to install it.
 */
module InputBindings {

  /** The keys the default table uses, the keyboard-category placeholder, and any other key. */
  datatype Key =
    | SpaceBar | F | Escape | LeftShift | LeftControl | C
    | MouseX | MouseY | W | S | A | D
    | KeyboardCategory
    | OtherKey(keyName: string)

  /** The action names the character binds, and any other name a project may use. */
  datatype ActionName = JumpAction | InteractAction | EscapeAction | RunAction | CrouchAction | OtherAction(action: string)

  /** The axis names the character binds, and any other name a project may use. */
  datatype AxisName = TurnAxis | LookUpAxis | MoveForwardAxis | MoveRightAxis | OtherAxis(axis: string)

  /** FInputActionKeyMapping (modifier flags are not modelled). */
  datatype ActionMapping = ActionMapping(actionName: ActionName, key: Key)

  /** FInputAxisKeyMapping. */
  datatype AxisMapping = AxisMapping(axisName: AxisName, key: Key, scale: real)

  predicate NoDuplicates<T(==)>(s: seq<T>) {
    forall i, j :: 0 <= i < j < |s| ==> s[i] != s[j]
  }

  // ---------------------------------------------------------------------
  // The store's operations, on sequences

  /** Adding a mapping that is already present leaves the list as it is. */
  function AddUnique<T(==,!new)>(s: seq<T>, x: T): (r: seq<T>)
    ensures forall y :: y in r <==> y in s || y == x
    ensures NoDuplicates(s) ==> NoDuplicates(r)
    ensures x in s ==> r == s
  {
    if x in s then s else s + [x]
  }

  /** Removing a mapping removes every entry equal to it and keeps the rest in order. */
  function RemoveAll<T(==,!new)>(s: seq<T>, x: T): (r: seq<T>)
    ensures forall y :: y in r <==> y in s && y != x
    ensures |r| <= |s|
    decreases |s|
  {
    if s == [] then []
    else (if s[0] == x then [] else [s[0]]) + RemoveAll(s[1..], x)
  }

  /** Removing each mapping of `rs` in turn. */
  function RemoveEach<T(==,!new)>(s: seq<T>, rs: seq<T>): seq<T>
    decreases |rs|
  {
    if rs == [] then s else RemoveAll(RemoveEach(s, rs[..|rs| - 1]), rs[|rs| - 1])
  }

  /** Adding each mapping of `xs` in turn. */
  function AddEach<T(==,!new)>(s: seq<T>, xs: seq<T>): seq<T>
    decreases |xs|
  {
    if xs == [] then s else AddUnique(AddEach(s, xs[..|xs| - 1]), xs[|xs| - 1])
  }

  /** After removing each mapping of `rs`, exactly the entries of `s` not in `rs` remain. */
  lemma {:induction false} RemoveEachMembers<T(!new)>(s: seq<T>, rs: seq<T>)
    ensures forall y :: y in RemoveEach(s, rs) <==> y in s && y !in rs
    decreases |rs|
  {
    if rs != [] {
      var init := rs[..|rs| - 1];
      RemoveEachMembers(s, init);
      assert rs == init + [rs[|rs| - 1]];
    }
  }

  lemma NoMembersMeansEmpty<T(!new)>(r: seq<T>)
    ensures (forall y :: y !in r) ==> r == []
  {
    if r != [] {
      assert r[0] in r;
    }
  }

  /** Removing a snapshot of the whole list from it empties it. */
  lemma RemoveSnapshotEmpties<T(!new)>(s: seq<T>)
    ensures RemoveEach(s, s) == []
  {
    RemoveEachMembers(s, s);
    NoMembersMeansEmpty(RemoveEach(s, s));
  }

  /** After adding each mapping of `xs`, the list holds the old entries and those of `xs`, each once. */
  lemma {:induction false} AddEachMembers<T(!new)>(s: seq<T>, xs: seq<T>)
    ensures forall y :: y in AddEach(s, xs) <==> y in s || y in xs
    ensures NoDuplicates(s) ==> NoDuplicates(AddEach(s, xs))
    decreases |xs|
  {
    if xs != [] {
      var init := xs[..|xs| - 1];
      AddEachMembers(s, init);
      assert xs == init + [xs[|xs| - 1]];
    }
  }

  // ---------------------------------------------------------------------
  // The engine's global input settings

  /** UInputSettings as a store of mappings. */
  class InputSettings {
    var actionMappings: seq<ActionMapping>
    var axisMappings: seq<AxisMapping>

    constructor (actions: seq<ActionMapping>, axes: seq<AxisMapping>)
      ensures actionMappings == actions && axisMappings == axes
    {
      actionMappings := actions;
      axisMappings := axes;
    }

    method AddActionMapping(m: ActionMapping)
      modifies this
      ensures actionMappings == AddUnique(old(actionMappings), m)
      ensures axisMappings == old(axisMappings)
    {
      actionMappings := AddUnique(actionMappings, m);
    }

    method RemoveActionMapping(m: ActionMapping)
      modifies this
      ensures actionMappings == RemoveAll(old(actionMappings), m)
      ensures axisMappings == old(axisMappings)
    {
      actionMappings := RemoveAll(actionMappings, m);
    }

    method AddAxisMapping(m: AxisMapping)
      modifies this
      ensures axisMappings == AddUnique(old(axisMappings), m)
      ensures actionMappings == old(actionMappings)
    {
      axisMappings := AddUnique(axisMappings, m);
    }

    method RemoveAxisMapping(m: AxisMapping)
      modifies this
      ensures axisMappings == RemoveAll(old(axisMappings), m)
      ensures actionMappings == old(actionMappings)
    {
      axisMappings := RemoveAll(axisMappings, m);
    }
  }

  // ---------------------------------------------------------------------
  // The default bindings

  /** The keys and names of the default action map, in insertion order. */
  const DefaultActionKeys: seq<Key> := [SpaceBar, F, Escape, LeftShift, LeftControl, C]
  const DefaultActionNames: seq<ActionName> := [JumpAction, InteractAction, EscapeAction, RunAction, CrouchAction, CrouchAction]

  /** The keys and names of the default axis map, in insertion order. */
  const DefaultAxisKeys: seq<Key> := [MouseX, MouseY, W, S, A, D]
  const DefaultAxisNames: seq<AxisName> := [TurnAxis, LookUpAxis, MoveForwardAxis, MoveForwardAxis, MoveRightAxis, MoveRightAxis]

  /** The reversed axes: backwards, left and mouse pitch. */
  predicate IsNegativeScale(k: Key) {
    k == S || k == A || k == MouseY
  }

  /** With custom key mappings every default binding gets the keyboard-category placeholder. */
  function BoundKey(k: Key, useCustomKeyMappings: bool): Key {
    if useCustomKeyMappings then KeyboardCategory else k
  }

  /** One entry of the default action map, as ResetToDefaultInputBindings adds it. */
  function DefaultAction(name: ActionName, k: Key, useCustomKeyMappings: bool): ActionMapping {
    ActionMapping(name, BoundKey(k, useCustomKeyMappings))
  }

  /** One entry of the default axis map, with scale -1 for the reversed axes and +1 otherwise. */
  function DefaultAxis(name: AxisName, k: Key, useCustomKeyMappings: bool): AxisMapping {
    AxisMapping(name, BoundKey(k, useCustomKeyMappings), if IsNegativeScale(k) then -1.0 else 1.0)
  }

  /** The action mappings ResetToDefaultInputBindings adds, in the key map's insertion order; Crouch has two keys. */
  function DefaultActionMappings(useCustomKeyMappings: bool): (ms: seq<ActionMapping>)
    ensures |ms| == 6
    ensures ms[4].actionName == CrouchAction && ms[5].actionName == CrouchAction
  {
    [ DefaultAction(JumpAction, SpaceBar, useCustomKeyMappings),
      DefaultAction(InteractAction, F, useCustomKeyMappings),
      DefaultAction(EscapeAction, Escape, useCustomKeyMappings),
      DefaultAction(RunAction, LeftShift, useCustomKeyMappings),
      DefaultAction(CrouchAction, LeftControl, useCustomKeyMappings),
      DefaultAction(CrouchAction, C, useCustomKeyMappings) ]
  }

  /** The axis mappings ResetToDefaultInputBindings adds, in the key map's insertion order, each scaled by -1 or +1. */
  function DefaultAxisMappings(useCustomKeyMappings: bool): (ms: seq<AxisMapping>)
    ensures |ms| == 6
    ensures forall i | 0 <= i < |ms| :: ms[i].scale == -1.0 || ms[i].scale == 1.0
  {
    [ DefaultAxis(TurnAxis, MouseX, useCustomKeyMappings),
      DefaultAxis(LookUpAxis, MouseY, useCustomKeyMappings),
      DefaultAxis(MoveForwardAxis, W, useCustomKeyMappings),
      DefaultAxis(MoveForwardAxis, S, useCustomKeyMappings),
      DefaultAxis(MoveRightAxis, A, useCustomKeyMappings),
      DefaultAxis(MoveRightAxis, D, useCustomKeyMappings) ]
  }

  /** The default mappings are the key maps' entries, position by position. */
  lemma DefaultMappingsFromMaps(useCustomKeyMappings: bool)
    ensures |DefaultActionKeys| == |DefaultActionNames| == |DefaultActionMappings(useCustomKeyMappings)|
    ensures |DefaultAxisKeys| == |DefaultAxisNames| == |DefaultAxisMappings(useCustomKeyMappings)|
    ensures forall i :: 0 <= i < |DefaultActionKeys| ==>
              DefaultActionMappings(useCustomKeyMappings)[i] == DefaultAction(DefaultActionNames[i], DefaultActionKeys[i], useCustomKeyMappings)
    ensures forall i :: 0 <= i < |DefaultAxisKeys| ==>
              DefaultAxisMappings(useCustomKeyMappings)[i] == DefaultAxis(DefaultAxisNames[i], DefaultAxisKeys[i], useCustomKeyMappings)
  {
  }

  /**
   * The default maps have six actions and six axes, keyed by twelve
   * distinct keys (a key map holds each key once).
   */
  lemma DefaultTableKeys()
    ensures |DefaultActionMappings(false)| == 6 && |DefaultAxisMappings(false)| == 6
    ensures NoDuplicates(seq(6, i requires 0 <= i < 6 => DefaultActionMappings(false)[i].key)
                         + seq(6, i requires 0 <= i < 6 => DefaultAxisMappings(false)[i].key))
  {
  }

  /**
   * A default axis has scale -1 exactly when its key is S, A or MouseY and
   * +1 otherwise, and the reversed keys are exactly those three.
   */
  lemma DefaultAxisScales()
    ensures forall i :: 0 <= i < |DefaultAxisMappings(false)| ==>
              var m := DefaultAxisMappings(false)[i];
              && (m.scale == -1.0 <==> m.key == S || m.key == A || m.key == MouseY)
              && (m.scale == -1.0 || m.scale == 1.0)
    ensures (set m | m in DefaultAxisMappings(false) && m.scale == -1.0 :: m.key) == {S, A, MouseY}
  {
    var ms := DefaultAxisMappings(false);
    var reversed := set m | m in ms && m.scale == -1.0 :: m.key;
    assert ms[1].key == MouseY && ms[3].key == S && ms[4].key == A;
    assert ms[1] in ms && ms[3] in ms && ms[4] in ms;
    assert MouseY in reversed && S in reversed && A in reversed;
  }

  /**
   * With custom key mappings every default binding is bound to the
   * keyboard-category placeholder, with the same name and scale.
   */
  lemma CustomDefaultsUsePlaceholder()
    ensures |DefaultActionMappings(true)| == |DefaultActionMappings(false)|
    ensures |DefaultAxisMappings(true)| == |DefaultAxisMappings(false)|
    ensures forall i :: 0 <= i < |DefaultActionMappings(true)| ==>
              DefaultActionMappings(true)[i] == DefaultActionMappings(false)[i].(key := KeyboardCategory)
    ensures forall i :: 0 <= i < |DefaultAxisMappings(true)| ==>
              DefaultAxisMappings(true)[i] == DefaultAxisMappings(false)[i].(key := KeyboardCategory)
  {
  }

  /**
   * SetupInputBindings installs the defaults unless the store already holds
   * mappings and custom key mappings are enabled.
   */
  function InstallsDefaults(existingActions: nat, existingAxes: nat, useCustomKeyMappings: bool): (install: bool)
    ensures install <==> !(useCustomKeyMappings && (existingActions > 0 || existingAxes > 0))
    ensures !useCustomKeyMappings ==> install
  {
    if existingActions > 0 || existingAxes > 0 then !useCustomKeyMappings else true
  }

  /** Adding mappings that are all new, and distinct, appends them in order. */
  lemma {:induction false} AddEachFresh<T(!new)>(s: seq<T>, xs: seq<T>)
    requires NoDuplicates(s + xs)
    ensures AddEach(s, xs) == s + xs
    decreases |xs|
  {
    if xs != [] {
      var init := xs[..|xs| - 1];
      var last := xs[|xs| - 1];
      assert s + init == (s + xs)[..|s| + |init|];
      AddEachFresh(s, init);
      assert (s + xs)[|s| + |init|] == last;
      assert s + xs == (s + init) + [last];
    }
  }

  /** Installing the default axes into an emptied store adds all six, in order, with or without the custom flag. */
  lemma InstalledDefaultAxes(useCustomKeyMappings: bool)
    ensures AddEach([], DefaultAxisMappings(useCustomKeyMappings)) == DefaultAxisMappings(useCustomKeyMappings)
  {
    var ms := DefaultAxisMappings(useCustomKeyMappings);
    var k := (key: Key) => BoundKey(key, useCustomKeyMappings);
    assert ms == [AxisMapping(TurnAxis, k(MouseX), 1.0), AxisMapping(LookUpAxis, k(MouseY), -1.0),
                  AxisMapping(MoveForwardAxis, k(W), 1.0), AxisMapping(MoveForwardAxis, k(S), -1.0),
                  AxisMapping(MoveRightAxis, k(A), -1.0), AxisMapping(MoveRightAxis, k(D), 1.0)];
    assert NoDuplicates([] + ms) by {
      assert [] + ms == ms;
      forall i, j | 0 <= i < j < |ms|
        ensures ms[i] != ms[j]
      {
        assert ms[i].axisName != ms[j].axisName || ms[i].scale != ms[j].scale;
      }
    }
    AddEachFresh([], ms);
  }

  /**
   * Installing the default actions into an emptied store: without the
   * custom flag all six land in order; with it the two crouch bindings
   * coincide, both being (Crouch, placeholder), and only five land.
   */
  lemma InstalledDefaultActions(useCustomKeyMappings: bool)
    ensures !useCustomKeyMappings ==> AddEach([], DefaultActionMappings(false)) == DefaultActionMappings(false)
    ensures useCustomKeyMappings ==> AddEach([], DefaultActionMappings(true)) == DefaultActionMappings(true)[..5]
    ensures |AddEach([], DefaultActionMappings(useCustomKeyMappings))| == if useCustomKeyMappings then 5 else 6
  {
    var ms := DefaultActionMappings(useCustomKeyMappings);
    var k := (key: Key) => BoundKey(key, useCustomKeyMappings);
    assert ms == [ActionMapping(JumpAction, k(SpaceBar)), ActionMapping(InteractAction, k(F)),
                  ActionMapping(EscapeAction, k(Escape)), ActionMapping(RunAction, k(LeftShift)),
                  ActionMapping(CrouchAction, k(LeftControl)), ActionMapping(CrouchAction, k(C))];
    var first := ms[..5];
    assert NoDuplicates([] + first) by {
      assert [] + first == first;
      forall i, j | 0 <= i < j < |first|
        ensures first[i] != first[j]
      {
        assert first[i].actionName != first[j].actionName;
      }
    }
    AddEachFresh([], first);
    assert ms[..|ms| - 1] == first;
    if useCustomKeyMappings {
      assert ms[5] == ms[4];
      assert ms[4] in first;
    } else {
      assert ms[5] !in first;
      assert first + [ms[5]] == ms;
    }
  }
}
