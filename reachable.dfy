/** The reachability checker: a `Checker` holds the target endpoint, the poll
    interval and the notifier; starting it launches a poll loop, here a
    `PollLoop` object that holds the state of the `run` goroutine and is
    driven one `select` outcome at a time; the package-level facade owns one
    singleton `Checker` and the `NetworkIsReachable` flag its notifier writes.

    A notifier is a callback; its calls are recorded in the loop's `calls`
    log, and the one the facade installs is applied by the facade. */
module Reachable {
  import opened Wrappers
  import opened Interfaces
  import opened Notifications

  /** `time.Minute`, in nanoseconds: the initial `DefaultInterval`. */
  const Minute: int := 60 * Second

  /** What a checker's `Notifier` field holds: nothing (Go's nil), a
      callback supplied by the caller, or the facade's callback that writes
      `NetworkIsReachable`. */
  datatype Notifier = Unset | Callback | SetNetworkIsReachable

  class Checker {
    var hostname: string
    /** Includes the ":" prefix. */
    var port: string
    /** The poll interval, a `time.Duration`. */
    var interval: int
    var notifier: Notifier

    /** A `Checker{...}` literal. */
    constructor (hostname: string, port: string, interval: int, notifier: Notifier)
      ensures this.hostname == hostname && this.port == port
      ensures this.interval == interval && this.notifier == notifier
    {
      this.hostname := hostname;
      this.port := port;
      this.interval := interval;
      this.notifier := notifier;
    }

    /** `Start`: an empty port becomes ":80", then the poll loop of THIS
        checker begins, with its status unknown. The loop's ticker needs a
        positive interval. */
    method Start() returns (loop: PollLoop)
      requires interval > 0
      modifies this`port
      ensures port == if old(port) == "" then ":80" else old(port)
      ensures fresh(loop) && loop.checker == this && loop.period == interval
      ensures loop.Valid() && loop.Fresh()
    {
      if port == "" {
        port := ":80";
      }
      loop := new PollLoop(this);
    }

    /** `Start` as the source writes it: the port of THIS checker is
        defaulted, but the loop launched is that of the package singleton. */
    method StartAsWritten(singleton: Checker) returns (loop: PollLoop)
      requires singleton.interval > 0
      modifies this`port
      ensures port == if old(port) == "" then ":80" else old(port)
      ensures fresh(loop) && loop.checker == singleton && loop.period == singleton.interval
      ensures loop.Valid() && loop.Fresh()
    {
      if port == "" {
        port := ":80";
      }
      loop := new PollLoop(singleton);
    }
  }

  /** One run of the poll loop. `currentStatus` is the status last
      delivered, `calls` the arguments passed to the checker's notifier, and
      `done` records that the loop has received quit and returned. The ghost
      `outcomes` are the probe results of the ticks handled so far. */
  class PollLoop {
    const checker: Checker
    /** The ticker's period, read from the checker when the loop starts. */
    const period: int
    var currentStatus: int
    var calls: seq<bool>
    var done: bool
    ghost var outcomes: seq<bool>

    /** The debounce invariant: the status is that of the latest outcome
        and the notifier has received exactly the collapsed outcomes. */
    ghost predicate Valid()
      reads this
    {
      currentStatus == StatusAfter(outcomes) && calls == Collapse(outcomes)
    }

    /** Nothing has happened yet. */
    ghost predicate Fresh()
      reads this
    {
      outcomes == [] && calls == [] && currentStatus == Unknown && !done
    }

    /** The loop's start: the status is unknown and the ticker is created,
        which `time.NewTicker` refuses (by panicking) for a non-positive
        interval. */
    constructor (c: Checker)
      requires c.interval > 0
      ensures checker == c && period == c.interval
      ensures Valid() && Fresh()
    {
      checker := c;
      period := c.interval;
      currentStatus := Unknown;
      calls := [];
      done := false;
      outcomes := [];
    }

    /** One tick: probe the checker's target, and notify when the outcome
        differs from the status last delivered. `dial` is the TCP dial the
        probe made, if any. A call of a nil notifier panics, so a checker
        without one can tick only when this tick does not notify. */
    method Tick(net: NetState) returns (call: Option<bool>, dial: Option<Dial>)
      requires Valid() && !done
      requires checker.notifier == Unset ==> outcomes != [] && outcomes[|outcomes| - 1] == ProbeSucceeds(net)
      modifies this`currentStatus, this`calls, this`outcomes
      ensures Valid()
      ensures outcomes == old(outcomes) + [ProbeSucceeds(net)]
      ensures currentStatus == StatusOf(ProbeSucceeds(net))
      ensures call.Some? <==> old(outcomes) == [] || old(outcomes)[|old(outcomes)| - 1] != ProbeSucceeds(net)
      ensures call.Some? ==> call.value == ProbeSucceeds(net)
      ensures calls == old(calls) + (if call.Some? then [call.value] else [])
      ensures dial.Some? <==> InterfaceUp(net.enumFailed, net.interfaces)
      ensures dial.Some? ==> dial.value == Dial("tcp", checker.hostname + checker.port, DialTimeout)
    {
      var active;
      active, dial := Probe(net, checker.hostname + checker.port);
      call := None;
      if !active {
        if currentStatus != Down {
          call := Some(false);
          calls := calls + [false];
          currentStatus := Down;
        }
      } else {
        if currentStatus != Up {
          call := Some(true);
          calls := calls + [true];
          currentStatus := Up;
        }
      }
      StatusAfterDiffers(outcomes, active);
      CollapseSnoc(outcomes, active);
      outcomes := outcomes + [active];
    }

    /** Quit received: the ticker is stopped and the loop returns. */
    method Quit()
      requires !done
      modifies this`done
      ensures done
    {
      done := true;
    }

    /** One `select` outcome: a tick is probed and may notify; quit ends
        the loop. */
    method Handle(e: Event)
      requires Valid() && !done
      requires e.Tick? && checker.notifier == Unset ==>
        outcomes != [] && outcomes[|outcomes| - 1] == ProbeSucceeds(e.net)
      modifies this`currentStatus, this`calls, this`outcomes, this`done
      ensures Valid()
      ensures done <==> e.Quit?
      ensures outcomes == old(outcomes) + (if e.Tick? then [ProbeSucceeds(e.net)] else [])
    {
      match e {
        case Quit =>
          Quit();
        case Tick(net) =>
          var call, dial := Tick(net);
      }
    }

    /** The `for`/`select` loop over a sequence of events: ticks are
        handled until the first quit, and nothing after it. The checker
        has a notifier, since the first tick of a run may have to notify. */
    method Run(events: seq<Event>)
      requires Valid() && !done
      requires checker.notifier != Unset
      modifies this`currentStatus, this`calls, this`outcomes, this`done
      ensures Valid()
      ensures done == HasQuit(events)
      ensures outcomes == old(outcomes) + Outcomes(Handled(events))
    {
      var i := 0;
      while i < |events| && !done
        invariant 0 <= i <= |events|
        invariant Valid()
        invariant done == HasQuit(events[..i])
        invariant outcomes == old(outcomes) + Outcomes(Handled(events[..i]))
      {
        ghost var before := outcomes;
        Handle(events[i]);
        RunStep(old(outcomes), events, i, before, outcomes);
        i := i + 1;
      }
      if done {
        HandledAfterQuit(events[..i], events[i..]);
        assert events[..i] + events[i..] == events;
      } else {
        assert events[..i] == events;
      }
    }
  }

  /** The package-level state: the `NetworkIsReachable` flag, the
      `DefaultInterval` setting, the singleton checker, and the loop the
      last `Start` launched (null before the first). */
  class Facade {
    var networkIsReachable: bool
    var defaultInterval: int
    const singleton: Checker
    var loop: PollLoop?

    /** The flag is true unless a started loop has delivered a notification;
        then it holds the latest one. */
    ghost predicate Valid()
      reads this, singleton, loop
    {
      (loop != null ==>
         loop.checker == singleton && loop.Valid()
         && singleton.notifier == SetNetworkIsReachable) &&
      networkIsReachable ==
        (if loop == null || loop.done || loop.calls == [] then true
         else loop.calls[|loop.calls| - 1])
    }

    /** Package initialisation: the flag is true, the interval one minute,
        and the singleton a zero-valued `Checker`. */
    constructor ()
      ensures Valid() && loop == null
      ensures networkIsReachable && defaultInterval == Minute
      ensures fresh(singleton)
      ensures singleton.hostname == "" && singleton.port == "" && singleton.interval == 0
      ensures singleton.notifier == Unset
    {
      networkIsReachable := true;
      defaultInterval := Minute;
      singleton := new Checker("", "", 0, Unset);
      loop := null;
    }

    /** `Start(hostname)`: `split` is the outcome of splitting `hostname`
        into host and port, absent when that split fails. */
    method Start(hostname: string, split: Option<(string, string)>)
      requires Valid() && (loop == null || loop.done)
      requires defaultInterval > 0
      modifies this`loop, singleton
      ensures Valid()
      ensures singleton.hostname == if split.Some? then split.value.0 else hostname
      ensures singleton.port == if split.Some? then ":" + split.value.1 else ":80"
      ensures singleton.interval == defaultInterval
      ensures singleton.notifier == SetNetworkIsReachable
      ensures loop != null && fresh(loop) && loop.Fresh() && loop.period == defaultInterval
      ensures networkIsReachable
    {
      singleton.hostname := hostname;
      singleton.port := ":80";
      if split.Some? {
        singleton.hostname := split.value.0;
        singleton.port := ":" + split.value.1;
      }
      singleton.interval := defaultInterval;
      singleton.notifier := SetNetworkIsReachable;
      loop := singleton.Start();
    }

    /** A tick of the singleton's loop; a notification it makes sets the
        flag, so the flag then holds this tick's outcome. */
    method Tick(net: NetState) returns (dial: Option<Dial>)
      requires Valid() && loop != null && !loop.done
      modifies loop, this`networkIsReachable
      ensures Valid() && loop == old(loop) && !loop.done
      ensures loop.outcomes == old(loop.outcomes) + [ProbeSucceeds(net)]
      ensures dial.Some? <==> InterfaceUp(net.enumFailed, net.interfaces)
      ensures dial.Some? ==> dial.value == Dial("tcp", singleton.hostname + singleton.port, DialTimeout)
      ensures networkIsReachable == ProbeSucceeds(net)
    {
      ghost var calls0, outcomes0 := loop.calls, loop.outcomes;
      var call;
      call, dial := loop.Tick(net);
      if call.Some? {
        networkIsReachable := call.value;
      } else {
        assert outcomes0 != [] && calls0 == Collapse(outcomes0);
        assert loop.calls == calls0;
      }
      assert loop.calls[|loop.calls| - 1] == ProbeSucceeds(net);
    }

    /** `Stop()`: the singleton's loop receives quit, then the flag is
        reset to true. */
    method Stop()
      requires Valid() && loop != null && !loop.done
      modifies loop, this`networkIsReachable
      ensures Valid() && loop == old(loop) && loop.done
      ensures loop.outcomes == old(loop.outcomes) && loop.calls == old(loop.calls)
      ensures networkIsReachable
    {
      loop.Quit();
      networkIsReachable := true;
    }
  }

  /** A caller's `Checker` started, with `Start` as written, after the
      package `Start("a.com")`: the loop launched is a second loop of the
      singleton, so it ticks every `DefaultInterval`, dials "a.com:80" and
      delivers to the notifier that writes `NetworkIsReachable`, never to
      the caller's callback. */
  method UserCheckerPollsSingleton() returns (c: Checker, loop: PollLoop, dial: Option<Dial>)
    ensures loop.checker != c && c.port == ":80"
    ensures loop.period == Minute
    ensures dial == Some(Dial("tcp", "a.com:80", DialTimeout))
    ensures loop.calls == [true] && loop.checker.notifier == SetNetworkIsReachable
  {
    var f := new Facade();
    f.Start("a.com", None);
    c := new Checker("example.com", "", Minute, Callback);
    loop := c.StartAsWritten(f.singleton);
    var net := NetState(false, [Interface(FlagUp)], true);
    assert Usable(net.interfaces[0]);
    var call;
    call, dial := loop.Tick(net);
    assert f.singleton.hostname + f.singleton.port == "a.com:80";
  }

  /** The same caller's `Checker` with the corrected `Start`: its own loop
      dials "example.com:80" and notifies its own callback. */
  method UserCheckerPollsItself() returns (c: Checker, loop: PollLoop, dial: Option<Dial>)
    ensures loop.checker == c && c.port == ":80"
    ensures loop.period == Minute
    ensures dial == Some(Dial("tcp", "example.com:80", DialTimeout))
    ensures loop.calls == [true] && loop.checker.notifier == Callback
  {
    c := new Checker("example.com", "", Minute, Callback);
    loop := c.Start();
    var net := NetState(false, [Interface(FlagUp)], true);
    assert Usable(net.interfaces[0]);
    var call;
    call, dial := loop.Tick(net);
    assert c.hostname + c.port == "example.com:80";
  }

  /** The facade's life cycle on a target without a port: the default port
      is dialled, the flag follows each tick, and stopping resets it. */
  method FacadeScenarioDefaultPort()
  {
    var up := NetState(false, [Interface(FlagLoopback | FlagUp), Interface(FlagUp)], true);
    assert Usable(up.interfaces[1]);
    var loopbackOnly := NetState(false, [Interface(FlagLoopback | FlagUp)], true);
    assert !Usable(loopbackOnly.interfaces[0]);
    var f := new Facade();
    assert f.networkIsReachable;

    f.Start("example.com", None);
    var dial := f.Tick(up);
    assert f.singleton.hostname + f.singleton.port == "example.com:80";
    assert dial == Some(Dial("tcp", "example.com:80", DialTimeout));
    assert f.networkIsReachable;
    dial := f.Tick(loopbackOnly);
    assert dial == None && !f.networkIsReachable;
    f.Stop();
    assert f.networkIsReachable;
  }

  /** The facade started on a target with port 443 dials that port. */
  method FacadeScenarioExplicitPort()
  {
    var up := NetState(false, [Interface(FlagUp)], true);
    assert Usable(up.interfaces[0]);
    var f := new Facade();
    f.Start("example.com:443", Some(("example.com", "443")));
    assert f.singleton.port == ":443";
    var dial := f.Tick(up);
    assert f.singleton.hostname + f.singleton.port == "example.com:443";
    assert dial == Some(Dial("tcp", "example.com:443", DialTimeout));
    assert f.networkIsReachable;
  }
}
