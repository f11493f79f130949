/** Polling input dispatcher: key, mouse-button and cursor callbacks (`Input.h`, `Input.cpp`). */
module Input {

  datatype Option<T> = None | Some(value: T)

  /** State handed to a key or mouse-button callback. */
  datatype ButtonState = Released | Pressed

  /** Key and mouse-button codes as the windowing library numbers them. */
  type KeyCode = int
  type MouseCode = int

  /** A registered callback, kept as an opaque token; invoking it is recorded in a trace. */
  type CallbackId = nat

  /** A code-to-callback table (`std::unordered_map`). */
  type Table = map<int, CallbackId>

  /** Raw button states the windowing library reports. */
  const GLFW_RELEASE: int := 0
  const GLFW_PRESS: int := 1

  /** The enumerator values of `ButtonState`. */
  function ButtonStateValue(s: ButtonState): (v: int)
    ensures v == 0 <==> s == Released
    ensures v == 1 <==> s == Pressed
  {
    match s
    case Released => 0
    case Pressed => 1
  }

  /** Raw state to `ButtonState`: only PRESS is pressed; RELEASE and any other raw value read as
      released. */
  function StateFromRaw(raw: int): (s: ButtonState)
    ensures s == Pressed <==> raw == GLFW_PRESS
    ensures raw == GLFW_RELEASE ==> s == Released
  {
    if raw == GLFW_PRESS then Pressed
    else if raw == GLFW_RELEASE then Released
    else Released
  }

  /** Registering: an unmapped code gains exactly the new entry; a mapped code keeps the callback
      registered first. */
  function Registered(table: Table, code: int, callback: CallbackId): (r: Table)
    ensures r.Keys == table.Keys + {code}
    ensures code in table ==> r == table
    ensures code !in table ==> r[code] == callback
    ensures forall c :: c in table ==> r[c] == table[c]
  {
    if code in table then table else table[code := callback]
  }

  /** Unregistering: the code's entry goes and every other entry stays; an unmapped code is a no-op. */
  function Unregistered(table: Table, code: int): (r: Table)
    ensures r.Keys == table.Keys - {code}
    ensures forall c :: c in r ==> r[c] == table[c]
    ensures code !in table ==> r == table
  {
    if code !in table then table else table - {code}
  }

  /** Unregistering twice is unregistering once. */
  lemma UnregisterIdempotent(table: Table, code: int)
    ensures Unregistered(Unregistered(table, code), code) == Unregistered(table, code)
  {
  }

  /** Registering on a fresh code and unregistering it again restores the table. */
  lemma RegisterThenUnregisterRestores(table: Table, code: int, callback: CallbackId)
    requires code !in table
    ensures Unregistered(Registered(table, code, callback), code) == table
  {
  }

  /** A second registration on the same code changes nothing. */
  lemma FirstRegistrationWins(table: Table, code: int, first: CallbackId, second: CallbackId)
    ensures Registered(Registered(table, code, first), code, second) == Registered(table, code, first)
    ensures Registered(Registered(table, code, first), code, second)[code] ==
            (if code in table then table[code] else first)
  {
  }

  /** Which table a button callback came from. */
  datatype Device = Keyboard | Mouse

  /** One callback invocation during a poll. */
  datatype Invocation =
    | CursorInvoked(callback: CallbackId, x: real, y: real)
    | ButtonInvoked(device: Device, code: int, callback: CallbackId, state: ButtonState)

  /** `part` invokes every entry of `table` exactly once, in some order, each with the state its
      own code reports. */
  ghost predicate DispatchesTable(part: seq<Invocation>, device: Device, table: Table, raw: int -> int)
  {
    && |part| == |table.Keys|
    && (forall i :: 0 <= i < |part| ==>
          && part[i].ButtonInvoked?
          && part[i].device == device
          && part[i].code in table
          && part[i].callback == table[part[i].code]
          && part[i].state == StateFromRaw(raw(part[i].code)))
    && (forall i, j :: 0 <= i < j < |part| ==> part[i].code != part[j].code)
    && (forall c :: c in table ==> exists i :: 0 <= i < |part| && part[i].code == c)
  }

  /** One of the two dispatch loops: walks the table in the map's own (unspecified) order and
      invokes each callback with its button's state. */
  method InvokeButtonCallbacks(device: Device, table: Table, raw: int -> int) returns (part: seq<Invocation>)
    ensures DispatchesTable(part, device, table, raw)
  {
    part := [];
    var pending := table.Keys;
    while pending != {}
      invariant pending <= table.Keys
      invariant |part| + |pending| == |table.Keys|
      invariant forall i :: 0 <= i < |part| ==>
          && part[i].ButtonInvoked?
          && part[i].device == device
          && part[i].code in table && part[i].code !in pending
          && part[i].callback == table[part[i].code]
          && part[i].state == StateFromRaw(raw(part[i].code))
      invariant forall i, j :: 0 <= i < j < |part| ==> part[i].code != part[j].code
      invariant forall c :: c in table && c !in pending ==> exists i :: 0 <= i < |part| && part[i].code == c
      decreases pending
    {
      assert exists c :: c in pending by {
        if forall c :: c !in pending {
          assert false;
        }
      }
      var code :| code in pending;
      ghost var before := part;
      part := part + [ButtonInvoked(device, code, table[code], StateFromRaw(raw(code)))];
      pending := pending - {code};
      forall c | c in table && c !in pending
        ensures exists i :: 0 <= i < |part| && part[i].code == c
      {
        if c == code {
          assert part[|part| - 1].code == c;
        } else {
          var i :| 0 <= i < |before| && before[i].code == c;
          assert part[i].code == c;
        }
      }
    }
  }

  /** The polling input dispatcher (`PollModeInput`). */
  class PollModeInput {
    var keyMappings: Table
    var mouseButtonMappings: Table
    var cursorCallback: Option<CallbackId>

    constructor ()
      ensures keyMappings == map[] && mouseButtonMappings == map[] && cursorCallback == None
    {
      keyMappings := map[];
      mouseButtonMappings := map[];
      cursorCallback := None;
    }

    /** 1 when a cursor callback is registered, else 0. */
    function CursorCalls(): nat
      reads this
    {
      if cursorCallback.Some? then 1 else 0
    }

    method RegisterKeyCallback(key: KeyCode, callback: CallbackId)
      modifies this
      ensures keyMappings == Registered(old(keyMappings), key, callback)
      ensures mouseButtonMappings == old(mouseButtonMappings) && cursorCallback == old(cursorCallback)
    {
      if key in keyMappings {
        return;
      }
      keyMappings := keyMappings[key := callback];
    }

    method RegisterMouseCallback(button: MouseCode, callback: CallbackId)
      modifies this
      ensures mouseButtonMappings == Registered(old(mouseButtonMappings), button, callback)
      ensures keyMappings == old(keyMappings) && cursorCallback == old(cursorCallback)
    {
      if button in mouseButtonMappings {
        return;
      }
      mouseButtonMappings := mouseButtonMappings[button := callback];
    }

    method UnregisterKeyCallback(key: KeyCode)
      modifies this
      ensures keyMappings == Unregistered(old(keyMappings), key)
      ensures mouseButtonMappings == old(mouseButtonMappings) && cursorCallback == old(cursorCallback)
    {
      if key !in keyMappings {
        return;
      }
      keyMappings := keyMappings - {key};
    }

    method UnregisterMouseCallback(button: MouseCode)
      modifies this
      ensures mouseButtonMappings == Unregistered(old(mouseButtonMappings), button)
      ensures keyMappings == old(keyMappings) && cursorCallback == old(cursorCallback)
    {
      if button !in mouseButtonMappings {
        return;
      }
      mouseButtonMappings := mouseButtonMappings - {button};
    }

    /** Installs the cursor callback only when none is registered. */
    method RegisterCursorCallback(callback: CallbackId)
      modifies this
      ensures old(cursorCallback).Some? ==> cursorCallback == old(cursorCallback)
      ensures old(cursorCallback).None? ==> cursorCallback == Some(callback)
      ensures keyMappings == old(keyMappings) && mouseButtonMappings == old(mouseButtonMappings)
    {
      if cursorCallback.Some? {
        return;
      }
      cursorCallback := Some(callback);
    }

    /** Clears the cursor callback; a no-op when none is registered. */
    method UnregisterCursorCallback()
      modifies this
      ensures cursorCallback == None
      ensures keyMappings == old(keyMappings) && mouseButtonMappings == old(mouseButtonMappings)
    {
      if cursorCallback.None? {
        return;
      }
      cursorCallback := None;
    }

    /** One poll: the cursor callback (if any) with the cursor position, then every key callback,
        then every mouse-button callback, each once and with its own button's state. The tables
        are only read. */
    method PollAndInvokeCallbacks(cursorX: real, cursorY: real, keyRaw: KeyCode -> int, mouseRaw: MouseCode -> int)
      returns (trace: seq<Invocation>)
      ensures |trace| == CursorCalls() + |keyMappings.Keys| + |mouseButtonMappings.Keys|
      ensures cursorCallback.Some? ==> trace[0] == CursorInvoked(cursorCallback.value, cursorX, cursorY)
      ensures forall i :: 0 <= i < |trace| && trace[i].CursorInvoked? ==> i == 0 && cursorCallback.Some?
      ensures DispatchesTable(trace[CursorCalls()..CursorCalls() + |keyMappings.Keys|], Keyboard, keyMappings, keyRaw)
      ensures DispatchesTable(trace[CursorCalls() + |keyMappings.Keys|..], Mouse, mouseButtonMappings, mouseRaw)
    {
      trace := [];
      if cursorCallback.Some? {
        trace := [CursorInvoked(cursorCallback.value, cursorX, cursorY)];
      }
      var keys := InvokeButtonCallbacks(Keyboard, keyMappings, keyRaw);
      var buttons := InvokeButtonCallbacks(Mouse, mouseButtonMappings, mouseRaw);
      trace := trace + keys + buttons;
      assert trace[CursorCalls()..CursorCalls() + |keyMappings.Keys|] == keys;
      assert trace[CursorCalls() + |keyMappings.Keys|..] == buttons;
    }
  }
}
