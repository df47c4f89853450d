/**
  The key-state tracker of the cube demo: a map from virtual-key code to a
  "currently held" flag, written by the window's key-down and key-up events
  and read once per frame by the character.
 */
module Controls {

  /** WPARAM, the unsigned 64-bit word that carries a virtual-key code. */
  newtype WParam = k: int | 0 <= k < 0x1_0000_0000_0000_0000

  datatype Option<T> = None | Some(value: T)

  /** One window event delivered to the tracker. */
  datatype KeyEvent = Down(key: WParam) | Up(key: WParam)

  /** The lookup contract: the stored flag, or false for a key never seen. */
  function Pressed(keyStates: map<WParam, bool>, key: WParam): bool
  {
    if key in keyStates then keyStates[key] else false
  }

  /** The key map after one event: the event's key is overwritten, no other. */
  function Apply(keyStates: map<WParam, bool>, e: KeyEvent): map<WParam, bool>
  {
    keyStates[e.key := e.Down?]
  }

  /** The key map after a run of events, delivered first to last. */
  function Replay(keyStates: map<WParam, bool>, events: seq<KeyEvent>): map<WParam, bool>
    decreases |events|
  {
    if events == [] then keyStates else Replay(Apply(keyStates, events[0]), events[1..])
  }

  /** Whether the latest event about `key` in `events` was a key-down, if there is one. */
  function LastEvent(events: seq<KeyEvent>, key: WParam): Option<bool>
    decreases |events|
  {
    if events == [] then None
    else if events[|events| - 1].key == key then Some(events[|events| - 1].Down?)
    else LastEvent(events[..|events| - 1], key)
  }

  class Controls {
    var keyStates: map<WParam, bool>

    /** A new tracker has seen no key. */
    constructor ()
      ensures keyStates == map[]
    {
      keyStates := map[];
    }

    method KeyDown(key: WParam)
      modifies this
      ensures keyStates == Apply(old(keyStates), Down(key))
    {
      keyStates := keyStates[key := true];
    }

    method KeyUp(key: WParam)
      modifies this
      ensures keyStates == Apply(old(keyStates), Up(key))
    {
      keyStates := keyStates[key := false];
    }

    /** A const lookup: it only reads the map, so asking never changes the tracker. */
    function IsKeyDown(key: WParam): (down: bool)
      reads this
      ensures key !in keyStates ==> !down
      ensures key in keyStates ==> down == keyStates[key]
      ensures down == Pressed(keyStates, key)
    {
      if key in keyStates then keyStates[key] else false
    }
  }

  // ---- Properties of single events ----

  /** A key that never received an event reads as released. */
  lemma NeverSeenIsReleased(keyStates: map<WParam, bool>, key: WParam)
    requires key !in keyStates
    ensures !Pressed(keyStates, key)
  {
  }

  /** After a key-down the key reads as held; after a key-up it reads as released,
      whatever it was before. */
  lemma EventSetsFlag(keyStates: map<WParam, bool>, key: WParam)
    ensures Pressed(Apply(keyStates, Down(key)), key)
    ensures !Pressed(Apply(keyStates, Up(key)), key)
  {
  }

  /** An event on one key leaves every other key as it was. */
  lemma EventChangesNoOtherKey(keyStates: map<WParam, bool>, e: KeyEvent, other: WParam)
    requires other != e.key
    ensures Pressed(Apply(keyStates, e), other) == Pressed(keyStates, other)
  {
  }

  /** Two events on the same key: the second one wins outright, so in particular
      down-then-up leaves the key released, up-then-down leaves it held, and
      each event applied twice is the same as applied once. */
  lemma LastWriteWins(keyStates: map<WParam, bool>, first: KeyEvent, second: KeyEvent)
    requires first.key == second.key
    ensures Apply(Apply(keyStates, first), second) == Apply(keyStates, second)
  {
  }

  // ---- Properties of runs of events ----

  /** Prepending an event: it decides the outcome only when no later event is about the key. */
  lemma {:induction false} LastEventOfCons(e: KeyEvent, rest: seq<KeyEvent>, key: WParam)
    ensures LastEvent([e] + rest, key) ==
      if LastEvent(rest, key).Some? then LastEvent(rest, key)
      else if e.key == key then Some(e.Down?)
      else None
    decreases |rest|
  {
    if rest != [] {
      var all := [e] + rest;
      assert all[|all| - 1] == rest[|rest| - 1];
      assert all[..|all| - 1] == [e] + rest[..|rest| - 1];
      LastEventOfCons(e, rest[..|rest| - 1], key);
    }
  }

  /** The flag of a key after any run of events is set by the latest event about
      that key; a key no event mentions keeps the flag it had before the run. */
  lemma {:induction false} ReplayDecidedByLastEvent(keyStates: map<WParam, bool>, events: seq<KeyEvent>, key: WParam)
    ensures Pressed(Replay(keyStates, events), key) ==
      match LastEvent(events, key)
      case None => Pressed(keyStates, key)
      case Some(down) => down
    decreases |events|
  {
    if events != [] {
      ReplayDecidedByLastEvent(Apply(keyStates, events[0]), events[1..], key);
      assert events == [events[0]] + events[1..];
      LastEventOfCons(events[0], events[1..], key);
    }
  }

  /** From the empty map, a key that no event of the run mentions reads as released. */
  lemma {:induction false} UnmentionedKeyIsReleased(events: seq<KeyEvent>, key: WParam)
    requires forall i :: 0 <= i < |events| ==> events[i].key != key
    ensures !Pressed(Replay(map[], events), key)
  {
    ReplayDecidedByLastEvent(map[], events, key);
    LastEventOfUnmentioned(events, key);
  }

  lemma {:induction false} LastEventOfUnmentioned(events: seq<KeyEvent>, key: WParam)
    requires forall i :: 0 <= i < |events| ==> events[i].key != key
    ensures LastEvent(events, key) == None
    decreases |events|
  {
    if events != [] {
      LastEventOfUnmentioned(events[..|events| - 1], key);
    }
  }
}
