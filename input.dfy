/**
 The car's key state: four held/released flags driven by the browser's
 `keydown` and `keyup` events. Arrow keys and W/A/S/D (lower case, as
 `KeyboardEvent.key` reports them without Shift or Caps Lock) are
 mapped; every other key is ignored.
 */
module Input {
  import opened Wrappers

  /** The four driving commands a key can stand for. */
  datatype Command = Forward | Backward | Left | Right

  /** The `keys` state cell of the car component. */
  datatype Keys = Keys(forward: bool, backward: bool, left: bool, right: bool)

  const NO_KEYS := Keys(false, false, false, false)

  /** Whether the flag of `c` is set. */
  function Held(keys: Keys, c: Command): bool {
    match c
    case Forward => keys.forward
    case Backward => keys.backward
    case Left => keys.left
    case Right => keys.right
  }

  /** The command a `KeyboardEvent.key` value selects, if any. */
  function CommandOf(key: string): (c: Option<Command>)
    ensures c == Some(Forward) <==> key in {"ArrowUp", "w"}
    ensures c == Some(Backward) <==> key in {"ArrowDown", "s"}
    ensures c == Some(Left) <==> key in {"ArrowLeft", "a"}
    ensures c == Some(Right) <==> key in {"ArrowRight", "d"}
  {
    if key == "ArrowUp" || key == "w" then Some(Forward)
    else if key == "ArrowDown" || key == "s" then Some(Backward)
    else if key == "ArrowLeft" || key == "a" then Some(Left)
    else if key == "ArrowRight" || key == "d" then Some(Right)
    else None
  }

  /** `setKeys(keys => ({ ...keys, <flag>: value }))` for the flag the key selects. */
  function SetFlag(keys: Keys, key: string, value: bool): Keys {
    match key
    case "ArrowUp" => keys.(forward := value)
    case "w" => keys.(forward := value)
    case "ArrowDown" => keys.(backward := value)
    case "s" => keys.(backward := value)
    case "ArrowLeft" => keys.(left := value)
    case "a" => keys.(left := value)
    case "ArrowRight" => keys.(right := value)
    case "d" => keys.(right := value)
    case _ => keys
  }

  /** `handleKeyDown`: a mapped key sets exactly its flag; any other key changes nothing. */
  function KeyDown(keys: Keys, key: string): (r: Keys)
    ensures CommandOf(key).None? ==> r == keys
    ensures CommandOf(key).Some? ==>
      Held(r, CommandOf(key).value) &&
      forall d :: d != CommandOf(key).value ==> Held(r, d) == Held(keys, d)
  {
    SetFlag(keys, key, true)
  }

  /** `handleKeyUp`: a mapped key clears exactly its flag; any other key changes nothing. */
  function KeyUp(keys: Keys, key: string): (r: Keys)
    ensures CommandOf(key).None? ==> r == keys
    ensures CommandOf(key).Some? ==>
      !Held(r, CommandOf(key).value) &&
      forall d :: d != CommandOf(key).value ==> Held(r, d) == Held(keys, d)
  {
    SetFlag(keys, key, false)
  }

  /** Keys agree when they agree on every command. */
  lemma KeysExtensional(a: Keys, b: Keys)
    requires forall c :: Held(a, c) == Held(b, c)
    ensures a == b
  {
    assert Held(a, Forward) == Held(b, Forward);
    assert Held(a, Backward) == Held(b, Backward);
    assert Held(a, Left) == Held(b, Left);
    assert Held(a, Right) == Held(b, Right);
  }

  /** Pressing a key twice is pressing it once; nothing queues. */
  lemma KeyDownIdempotent(keys: Keys, key: string)
    ensures KeyDown(KeyDown(keys, key), key) == KeyDown(keys, key)
  {
    var once := KeyDown(keys, key);
    var twice := KeyDown(once, key);
    if CommandOf(key).Some? {
      KeysExtensional(twice, once);
    }
  }

  /** Releasing a key that was pressed from a released state restores the key state. */
  lemma KeyUpUndoesKeyDown(keys: Keys, key: string)
    requires CommandOf(key).Some? ==> !Held(keys, CommandOf(key).value)
    ensures KeyUp(KeyDown(keys, key), key) == keys
  {
    if CommandOf(key).Some? {
      KeysExtensional(KeyUp(KeyDown(keys, key), key), keys);
    }
  }

  /**
   Events for keys that select different commands commute. `SetFlag` with
   `true` is `KeyDown` and with `false` is `KeyUp`, so this covers every
   mix of presses and releases.
   */
  lemma DistinctKeysCommute(keys: Keys, k1: string, v1: bool, k2: string, v2: bool)
    requires CommandOf(k1) != CommandOf(k2)
    ensures SetFlag(SetFlag(keys, k1, v1), k2, v2) == SetFlag(SetFlag(keys, k2, v2), k1, v1)
  {
  }
}
