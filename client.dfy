/** The client's event registry and dispatch (bhaicord/client.py): event names
    are normalised with an "on_" prefix, each name has one primary handler and
    an ordered list of listeners, and `message_create` also resolves the one
    future `wait_for` left behind. Scheduling a coroutine is recorded as a
    `Task`; running it is not modelled. */
module BotClient {
  import opened Wrappers
  import opened PyStrings
  import opened PyValues

  /** `__add_on`: prefixes "on_" unless the name already has it. */
  function AddOn(name: string): (r: string)
    ensures StartsWith(r, "on_")
    ensures StartsWith(name, "on_") ==> r == name
    ensures !StartsWith(name, "on_") ==> r == "on_" + name
  {
    EnsurePrefix(name, "on_")
  }

  /** Normalising twice is normalising once. */
  lemma AddOnIdempotent(name: string)
    ensures AddOn(AddOn(name)) == AddOn(name)
  {
  }

  /** Two names normalise to the same key exactly when they agree once the
      optional prefix is taken off. */
  lemma AddOnSameKey(a: string, b: string)
    ensures AddOn(a) == AddOn(b) <==>
      (if StartsWith(a, "on_") then a[3..] else a) == (if StartsWith(b, "on_") then b[3..] else b)
  {
    var a' := if StartsWith(a, "on_") then a[3..] else a;
    var b' := if StartsWith(b, "on_") then b[3..] else b;
    assert AddOn(a) == "on_" + a' by {
      if StartsWith(a, "on_") { assert a == a[..3] + a[3..]; }
    }
    assert AddOn(b) == "on_" + b' by {
      if StartsWith(b, "on_") { assert b == b[..3] + b[3..]; }
    }
    if AddOn(a) == AddOn(b) {
      assert a' == AddOn(a)[3..];
    }
  }

  /** A user function handed to `event` or `listen`: its `__name__`, whether it is
      a coroutine function, and an identity. */
  datatype Callback = Callback(name: string, isCoroutine: bool, id: nat)

  /** `{"event": func, "listeners": [...]}` */
  datatype Registration = Registration(handler: Callback, listeners: seq<Callback>)

  /** A coroutine scheduled with `asyncio.create_task(fun(obj))`. */
  datatype Task = Task(callback: Callback, arg: Value)

  /** `call_event`: the primary handler first, then every listener in
      registration order, all with the same event object. */
  function Scheduled(reg: Registration, obj: Value): (r: seq<Task>)
    ensures |r| == 1 + |reg.listeners|
    ensures r[0] == Task(reg.handler, obj)
    ensures forall i :: 0 <= i < |reg.listeners| ==> r[i + 1] == Task(reg.listeners[i], obj)
  {
    [Task(reg.handler, obj)] + seq(|reg.listeners|, i requires 0 <= i < |reg.listeners| => Task(reg.listeners[i], obj))
  }

  /** The tasks `event_handler` schedules for an event whose name is `eventName`;
      `built` is what constructing the event object (`ReadyEvent` or `Message`)
      from the data gives. */
  function Dispatched(events: map<string, Registration>, eventName: string, built: Result<Value>): (r: Result<seq<Task>>)
    ensures r.Err? <==> AddOn(Lower(eventName)) in events && Lower(eventName) in ["ready", "message_create"] && built.Err?
    ensures r.Err? ==> r.error == built.error
    ensures r.Ok? && r.value != [] ==> built.Ok? && forall i :: 0 <= i < |r.value| ==> r.value[i].arg == built.value
  {
    var key := AddOn(Lower(eventName));
    if key !in events then Ok([])
    else if Lower(eventName) == "ready" || Lower(eventName) == "message_create" then
      match built
      case Err(e) => Err(e)
      case Ok(obj) => Ok(Scheduled(events[key], obj))
    else Ok([])
  }

  /** An event nobody registered schedules nothing. */
  lemma UnregisteredIgnored(events: map<string, Registration>, eventName: string, built: Result<Value>)
    requires AddOn(Lower(eventName)) !in events
    ensures Dispatched(events, eventName, built) == Ok([])
  {
  }

  /** For "ready" and "message_create" (in any letter case) the registered handler
      and then each of its listeners run exactly once, with the same object; any
      other registered event schedules nothing. */
  lemma RoutedEventsScheduleAll(events: map<string, Registration>, eventName: string, obj: Value)
    requires AddOn(Lower(eventName)) in events
    ensures var reg := events[AddOn(Lower(eventName))];
      var tasks := Dispatched(events, eventName, Ok(obj));
      && (Lower(eventName) in ["ready", "message_create"] ==>
            tasks.Ok? && |tasks.value| == 1 + |reg.listeners|
            && tasks.value[0] == Task(reg.handler, obj)
            && forall i :: 0 <= i < |reg.listeners| ==> tasks.value[i + 1] == Task(reg.listeners[i], obj))
      && (Lower(eventName) !in ["ready", "message_create"] ==> tasks == Ok([]))
  {
  }

  /** `ws.latency or 0`: zero until the first acknowledgement (and when it is 0.0). */
  function Latency(wsLatency: Option<real>): (r: real)
    ensures wsLatency.None? ==> r == 0.0
    ensures wsLatency.Some? && wsLatency.value != 0.0 ==> r == wsLatency.value
  {
    if wsLatency.Some? && wsLatency.value != 0.0 then wsLatency.value else 0.0
  }

  /** The state of an asyncio future. */
  datatype FutureState = Pending | Done(result: Value) | Cancelled

  /** An asyncio future. */
  class Future {
    var state: FutureState

    constructor ()
      ensures state == Pending
    {
      state := Pending;
    }

    /** `set_result`: only a pending future takes a result; otherwise
        InvalidStateError, which the caller here swallows, and nothing changes. */
    method SetResult(v: Value) returns (accepted: bool)
      modifies this
      ensures accepted <==> old(state) == Pending
      ensures state == if old(state) == Pending then Done(v) else old(state)
    {
      if state == Pending {
        state := Done(v);
        accepted := true;
      } else {
        accepted := false;
      }
    }

    /** What `asyncio.wait_for` does to the future on a timeout. */
    method Cancel()
      modifies this
      ensures state == if old(state) == Pending then Cancelled else old(state)
    {
      if state == Pending {
        state := Cancelled;
      }
    }
  }

  class Client {
    const intents: int
    const cacheSize: int
    var events: map<string, Registration>
    var messageCreateListener: Option<Future>   // `_message_create_listener`
    var botToken: string
    var hasLoop: bool                           // whether `self.loop` holds an event loop

    constructor (intents: int, cacheSize: int)
      ensures this.intents == intents && this.cacheSize == cacheSize
      ensures events == map[] && messageCreateListener.None?
      ensures botToken == "placeholder" && !hasLoop
    {
      this.intents := intents;
      this.cacheSize := cacheSize;
      events := map[];
      messageCreateListener := None;
      botToken := "placeholder";
      hasLoop := false;
    }

    /** The part of `run(token)` that changes the client before it blocks: it
        keeps the token and takes the event loop. Logging in and driving the
        gateway on that loop are left to the caller. */
    method Run(token: string)
      modifies this
      ensures botToken == token && hasLoop
      ensures events == old(events) && messageCreateListener == old(messageCreateListener)
    {
      botToken := token;
      hasLoop := true;
    }

    /** The `@client.event` decorator: registers `func` as the primary handler
        under its normalised name, with no listeners yet. */
    method Event(func: Callback) returns (r: Result<Callback>)
      modifies this
      ensures messageCreateListener == old(messageCreateListener)
      ensures botToken == old(botToken) && hasLoop == old(hasLoop)
      ensures !func.isCoroutine ==> r == Raise("it has to be an async function") && events == old(events)
      ensures func.isCoroutine && AddOn(func.name) in old(events) ==>
        r == Raise("There is already this event") && events == old(events)
      ensures func.isCoroutine && AddOn(func.name) !in old(events) ==>
        r == Ok(func) && events == old(events)[AddOn(func.name) := Registration(func, [])]
    {
      var name := AddOn(func.name);
      if !func.isCoroutine {
        return Raise("it has to be an async function");
      }
      if name in events {
        return Raise("There is already this event");
      }
      events := events[name := Registration(func, [])];
      r := Ok(func);
    }

    /** `@client.listen(event_name)` applied to `func`: the event must already have
        a primary handler; the listener goes at the end of that event's list. */
    method Listen(eventName: string, func: Callback) returns (r: Result<Callback>)
      modifies this
      ensures messageCreateListener == old(messageCreateListener)
      ensures botToken == old(botToken) && hasLoop == old(hasLoop)
      ensures AddOn(eventName) !in old(events) ==> r == Raise("event not found") && events == old(events)
      ensures AddOn(eventName) in old(events) && !func.isCoroutine ==>
        r == Raise("it has to be an async function") && events == old(events)
      ensures AddOn(eventName) in old(events) && func.isCoroutine ==>
        var reg := old(events)[AddOn(eventName)];
        r == Ok(func) && events == old(events)[AddOn(eventName) := reg.(listeners := reg.listeners + [func])]
    {
      var name := AddOn(eventName);
      if name !in events {
        return Raise("event not found");
      }
      if !func.isCoroutine {
        return Raise("it has to be an async function");
      }
      var reg := events[name];
      events := events[name := reg.(listeners := reg.listeners + [func])];
      r := Ok(func);
    }

    /** The futures `event_handler` may resolve. */
    function Waiter(): set<object>
      reads this
    {
      if messageCreateListener.Some? then {messageCreateListener.value} else {}
    }

    /** `event_handler(event_name, event_data)`: `built` is the event object built
        from the data, or the exception building it raised. */
    method EventHandler(eventName: string, built: Result<Value>) returns (r: Result<seq<Task>>)
      modifies Waiter()
      ensures r == Dispatched(events, eventName, built)
      // only a message_create with a built message resolves the waiting future, and only once
      ensures messageCreateListener.Some? ==>
        var f := messageCreateListener.value;
        f.state == if AddOn(Lower(eventName)) in events && Lower(eventName) == "message_create"
                      && built.Ok? && old(f.state) == Pending
                   then Done(built.value) else old(f.state)
    {
      var name := AddOn(Lower(eventName));
      if name !in events {
        return Ok([]);
      }
      r := Ok([]);
      if Lower(eventName) == "ready" {
        if built.Err? {
          return Err(built.error);
        }
        r := Ok(Scheduled(events[name], built.value));
      }
      if Lower(eventName) == "message_create" {
        if built.Err? {
          return Err(built.error);
        }
        if messageCreateListener.Some? {
          var _ := messageCreateListener.value.SetResult(built.value);
        }
        r := Ok(Scheduled(events[name], built.value));
      }
    }

    /** `wait_for`: a new pending future, created on the client's event loop,
        replaces whatever the slot held. Before `run` there is no loop, and
        `self.loop.create_future()` raises AttributeError with nothing changed.
        Awaiting the future, and the timeout, are left to the caller. */
    method WaitFor() returns (r: Result<Future>)
      modifies this
      ensures events == old(events) && botToken == old(botToken) && hasLoop == old(hasLoop)
      ensures !hasLoop ==> r == Fail(AttributeError) && messageCreateListener == old(messageCreateListener)
      ensures hasLoop ==> r.Ok? && fresh(r.value) && r.value.state == Pending
                          && messageCreateListener == Some(r.value)
    {
      if !hasLoop {
        return Fail(AttributeError);
      }
      var f := new Future();
      messageCreateListener := Some(f);
      r := Ok(f);
    }
  }
}
