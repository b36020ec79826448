# reachable, modelled in Dafny

A model of the Go package `reachable`. The package polls the network and tells its caller when connectivity to a target host comes up or goes away. Four modules make up the model:

- `Wrappers` holds the `Option` type.
- `Interfaces` models the two-stage probe that runs on each tick:
  - `hasInterfaceUp` scans the local interfaces and passes when one is up and not loopback.
  - Only if that scan passes does `canConnect` dial TCP to `Hostname + Port` with a fixed 3-second timeout.

  What the operating system and the network answer at a tick is an input value, a `NetState`. It holds the enumeration error, the listed interfaces with their `net.Flags` bits, and whether the dial would succeed.
- `Notifications` holds the edge-triggered notification policy, stated on values:
  - the tri-state `currentStatus`: -1 unknown, 0 down, 1 up;
  - `Collapse`, the notifications that a sequence of probe outcomes produces: each run of equal outcomes becomes one notification, and the first outcome always notifies;
  - the stream of `select` events (ticks and quit) and `Handled`, the ticks the loop handles before the first quit.
- `Reachable` holds the objects whose fields the package updates:
  - `Checker`, with its `Start` method.
  - `PollLoop`, the state of one `run` goroutine, driven one `select` outcome at a time. Its object invariant `Valid` says two things: the status is that of the latest probe outcome, and the notifier has received exactly `Collapse` of the outcomes so far.
  - `Facade`, the package-level state: `NetworkIsReachable`, `DefaultInterval`, the singleton checker, and the package `Start`/`Stop`. The facade's invariant says that `NetworkIsReachable` is true until a running loop has notified, and from then on holds the latest notification.

The model follows the code in three places where one might expect other behaviour:

- Each checker is meant to poll its own target, but `Checker.Start` launches the singleton's loop instead (see Findings).
- An unset or non-positive poll interval is not replaced by `DefaultInterval`. The loop uses the interval of the checker it polls as that checker holds it. Only the package `Start` sets an interval, to `DefaultInterval`. A non-positive interval makes the ticker panic.
- The dial timeout is fixed at three seconds and cannot be configured.

Two polling scenarios are proved as lemmas:
- `ConstantOutcomesNotifyOnce`: every dial succeeds, so there is exactly one `true` notification.
- `DownThenUp`: dials fail three times and then succeed, so there is one `false` notification and then one `true`.

## Model

| member | source | states |
|---|---|---|
| `Interfaces.HasInterfaceUp` | reachable.go:75-90 | The result is true exactly when enumeration succeeded and some listed interface has the up flag and not the loopback flag. A failed enumeration always gives false. |
| `Interfaces.Probe` | reachable.go:112-115 | A dial to the given address with network "tcp" and a 3-second timeout is made exactly when the interface check passes. The probe succeeds exactly when both stages succeed. When the interface check fails, no dial is made and the probe fails. |
| `Interfaces.Outcomes` | reachable.go:111-115 | One probe outcome per handled tick. |
| `Interfaces.OutcomesAt` | reachable.go:111-115 | Outcome k is the probe result of the network state at tick k. |
| `Interfaces.OutcomesSnoc` | reachable.go:111-115 | One more tick appends its probe result to the outcomes. |
| `Notifications.StatusAfter` | reachable.go:102-126 | The status is unknown (-1) exactly before the first tick. After the first tick it is 0 or 1, and it is up (1) exactly when the latest probe succeeded. |
| `Notifications.StatusAfterDiffers` | reachable.go:116-126 | The stored status differs from the new outcome's status exactly when there was no tick yet or the previous outcome differs. This is the condition under which the loop notifies. |
| `Notifications.Collapse` | reachable.go:116-126 | The notifications are never more than the outcomes. They are empty exactly when the outcomes are. The first notification is the first outcome, and the last notification is the latest outcome. |
| `Notifications.CollapseSnoc` | reachable.go:116-126 | A new outcome adds a notification exactly when it is the first outcome or differs from the previous one. |
| `Notifications.CollapseIsRunValues` | reachable.go:116-126 | The notifications equal an independent definition read from the front: one value per maximal run of equal outcomes. |
| `Notifications.CollapseHasNoAdjacentRepeats` | reachable.go:116-126 | No two consecutive notifications carry the same value. |
| `Notifications.CollapseKeepsAlternating` | reachable.go:116-126 | Outcomes that already alternate are all delivered, unchanged. |
| `Notifications.CollapseIdempotent` | reachable.go:116-126 | Collapsing the notifications again changes nothing. |
| `Notifications.RepeatsAreSilent` | reachable.go:116-126 | After an outcome, any number of repetitions of it deliver nothing further. |
| `Notifications.ConstantOutcomesNotifyOnce` | reachable.go:116-126 | A run of n ≥ 1 equal outcomes from a fresh loop delivers exactly one notification, the first. |
| `Notifications.DownThenUp` | reachable.go:116-126 | Three failed probes, then three successful ones, deliver exactly `false` and then `true`. |
| `Notifications.Handled` | reachable.go:104-111 | The handled ticks are never more than the events. |
| `Notifications.HandledAppend` | reachable.go:104-111 | The events in `p + q` handled are those of `p` alone when `p` contains a quit, and otherwise those of `p` followed by those of `q`. |
| `Notifications.HandledAfterQuit` | reachable.go:106-109 | Once a quit has arrived, appending further events changes neither whether a quit was seen nor which ticks were handled. |
| `Notifications.RunStep` | reachable.go:104-126 | Handling event i of a stream in which no quit has arrived yet extends the outcomes of the first i events to those of the first i + 1. A quit has then arrived exactly when event i is a quit. |
| `Notifications.QuitEndsTheRun` | reachable.go:106-109 | No event after a quit contributes a tick. |
| `Reachable.Checker.constructor` | reachable.go:24-35 | A `Checker` literal holds the given hostname, port, interval and notifier. |
| `Reachable.Checker.Start` | reachable.go:38-44 | This is the corrected `Start`, for a checker with a positive interval. An empty port becomes ":80" and any other port is kept. The loop launched is this checker's own: its period is this checker's interval, its status is unknown, and no outcome or notification has happened yet. |
| `Reachable.Checker.StartAsWritten` | reachable.go:38-44 | This is `Start` as the code writes it, for a singleton with a positive interval. The receiver's port is defaulted as above, but the loop launched belongs to the package singleton and runs with the singleton's interval. |
| `Reachable.PollLoop.constructor` | reachable.go:101-103 | The loop starts with status -1, no outcomes and no notifications. Its ticker period is the checker's interval. |
| `Reachable.PollLoop.Tick` | reachable.go:111-126 | A checker without a notifier can tick only when the tick does not notify, because calling a nil notifier panics. Each tick appends exactly one probe outcome and afterwards holds that outcome's status. It notifies exactly when the outcome is the first one or differs from the previous one, and then the value passed is the outcome. It dials `Hostname + Port` exactly when the interface check passes. The debounce invariant is kept. |
| `Reachable.PollLoop.Quit` | reachable.go:106-109 | Receiving quit ends the loop. |
| `Reachable.PollLoop.Handle` | reachable.go:105-126 | A quit ends the loop and adds no outcome. A tick leaves the loop running, appends exactly its probe outcome and keeps the debounce invariant. |
| `Reachable.PollLoop.Run` | reachable.go:101-129 | This covers a checker that has a notifier. Over a stream of events, the loop ends exactly when the stream contains a quit. Its outcomes are extended by the probe results of the ticks before the first quit, and of nothing after it. Afterwards the notifier has received exactly the collapsed outcomes. |
| `Reachable.Facade.constructor` | reachable.go:10-20 | At package initialisation `NetworkIsReachable` is true and `DefaultInterval` is one minute. The singleton is a zero-valued `Checker`. |
| `Reachable.Facade.Start` | reachable.go:53-66 | The singleton's hostname and port are set in two cases. If `hostname` splits into host h and port p, they become h and ":" + p. Otherwise they become `hostname` and ":80". The interval becomes `DefaultInterval` and the notifier the one that writes `NetworkIsReachable`. A fresh loop starts, and the flag stays true. |
| `Reachable.Facade.Tick` | reachable.go:62-64 | After a tick of the singleton's loop, `NetworkIsReachable` equals that tick's probe outcome. The dial goes to the singleton's address. |
| `Reachable.Facade.Stop` | reachable.go:69-73 | The singleton's loop is stopped and `NetworkIsReachable` is reset to true. No outcome or notification is added. |
| `Reachable.UserCheckerPollsSingleton` | reachable.go:43 | The package `Start("a.com")` runs first. A caller's `Checker{Hostname: "example.com", Interval: time.Minute, Notifier: f}` is then started with `Start` as written. The loop it launches is a second loop of the singleton, not the caller's. That loop ticks every `DefaultInterval`, dials "a.com:80" and delivers its first notification to the notifier that writes `NetworkIsReachable`, never to `f`. |
| `Reachable.UserCheckerPollsItself` | reachable.go:43 | With the corrected `Start`, the same checker's loop is its own. It ticks every minute, dials "example.com:80" and notifies `f`. |

## Left out

- The `quit` channel is not modelled. Creating it, sending on it in `Checker.Stop` and closing it in `run` become the `Quit` event and `PollLoop.Quit`. A stop is a call on the loop.
- `Checker.Stop` exists only through the facade's `Stop`. With `Start` as written, a caller's `Stop` sends on a channel that no loop receives from. That channel behaviour is not modelled.
- Goroutines, scheduling and real time are not modelled. The ticker is the sequence of `Tick` events, and its period is only recorded.
- `Reachable.PollLoop.constructor`: `time.NewTicker` panics on a non-positive interval at reachable.go:103, and the panic is not modelled as a state. The loop's constructor requires a positive interval, and so do `Checker.Start`, `Checker.StartAsWritten` and `Facade.Start`. Starting an unconfigured checker, or the unconfigured singleton, therefore crashes the process and is outside the model.
- `Reachable.PollLoop.Tick`: calling a nil `Notifier` panics at reachable.go:118 and reachable.go:123. The first tick always notifies, so such a loop crashes on its first tick. The panic is not modelled as a state. `Tick` and `Handle` require that a checker without a notifier is not asked to notify, and `Run` requires a notifier.
- `Reachable.Facade.Stop`: this requires a running loop. Two cases are outside the model. `Stop` before any `Start` sends on a nil channel and blocks forever. A second `Stop` sends on the channel that `run` closed at reachable.go:108, and that panics.
- Calling `Start` again while a loop is running is not modelled: that would leave two goroutines and a replaced channel. `Facade.Start` requires that no loop is running.
- `net.Interfaces`, `net.DialTimeout` and `net.SplitHostPort` are oracles:
  - their answers are inputs (`NetState`, and the `split` argument of `Facade.Start`);
  - the connection's `Close` is not modelled;
  - of an `Interface`, only its flags are modelled.
- The notifier callback is the loop's log `calls` of the values it was passed. The facade's callback is applied by `Facade.Tick` rather than by the loop. Notifications from a loop other than the facade's own, such as the second loop in Findings, are logged but not applied to the flag.
- `Reachable.PollLoop.Run`, `Reachable.PollLoop.Handle`: these do not return the dials made. Each `Tick` returns its own.
- The example program in `example/` is not part of this model.

## Findings

| source | as written | input that shows it | evidently intended | confidence | as-written member | corrected member |
|---|---|---|---|---|---|---|
| reachable.go:43 | `Checker.Start` defaults the receiver's port, then runs `singleton.run()` | after the package `Start("a.com")`, a caller's `Checker{Hostname: "example.com", Interval: time.Minute, Notifier: f}` is started. A second loop of the singleton results: it dials "a.com:80" every `DefaultInterval` and writes `NetworkIsReachable`, never calling `f`. With the singleton unconfigured, `time.NewTicker(0)` panics instead. | `c.run()`, so that each checker polls its own target with its own interval and notifier | not executed | `Reachable.UserCheckerPollsSingleton` | `Reachable.UserCheckerPollsItself` |
