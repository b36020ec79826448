/** The two-stage probe a poll tick performs: the scan of the local network
    interfaces for one that is up and not loopback, and, only when that scan
    succeeds, a TCP dial of the checker's target.

    What the operating system and the network answer at one tick is an input,
    a `NetState`: whether enumerating the interfaces failed, the interfaces
    it listed, and whether a dial would succeed. */
module Interfaces {
  import opened Wrappers

  /** The bits of Go's `net.Flags` (an unsigned word) that the scan reads,
      at the positions Go's `net` package gives them. */
  type Flags = bv32
  const FlagUp: Flags := 1
  const FlagLoopback: Flags := 4

  datatype Interface = Interface(flags: Flags)

  /** One tick's view of the world: the result of `net.Interfaces()` (an
      error flag and the listed interfaces) and the outcome a TCP dial
      would have. */
  datatype NetState = NetState(enumFailed: bool, interfaces: seq<Interface>, dialSucceeds: bool)

  /** Durations are Go `time.Duration` values, in nanoseconds. */
  const Second: int := 1_000_000_000
  /** The dial timeout is fixed, not configurable. */
  const DialTimeout: int := 3 * Second

  /** One call of `net.DialTimeout(network, address, timeout)`. */
  datatype Dial = Dial(network: string, address: string, timeout: int)

  /** An interface helps reachability when it is up and not loopback. */
  predicate Usable(x: Interface) {
    x.flags & FlagLoopback == 0 && x.flags & FlagUp != 0
  }

  /** The interface pre-check, stated on values: enumeration succeeded and
      some listed interface is usable. */
  predicate InterfaceUp(enumFailed: bool, ifaces: seq<Interface>) {
    !enumFailed && exists i :: 0 <= i < |ifaces| && Usable(ifaces[i])
  }

  /** The combined probe outcome, stated on values. */
  predicate ProbeSucceeds(net: NetState) {
    InterfaceUp(net.enumFailed, net.interfaces) && net.dialSucceeds
  }

  /** `hasInterfaceUp`: a failed enumeration is "not up"; otherwise the
      interfaces are scanned in order, loopback ones skipped, and the scan
      stops at the first one whose up flag is set. */
  method HasInterfaceUp(enumFailed: bool, ifaces: seq<Interface>) returns (up: bool)
    ensures up <==> InterfaceUp(enumFailed, ifaces)
    ensures enumFailed ==> !up
  {
    if enumFailed {
      return false;
    }
    for i := 0 to |ifaces|
      invariant forall j :: 0 <= j < i ==> !Usable(ifaces[j])
    {
      if ifaces[i].flags & FlagLoopback != 0 {
        continue;
      }
      if ifaces[i].flags & FlagUp != 0 {
        return true;
      }
    }
    return false;
  }

  /** One tick's probe of `address`: the interface check, then, only if it
      passed, `canConnect`, a TCP dial with the fixed timeout whose outcome
      is the probe's. `dial` is the dial made, if any. */
  method Probe(net: NetState, address: string) returns (active: bool, dial: Option<Dial>)
    ensures dial.Some? <==> InterfaceUp(net.enumFailed, net.interfaces)
    ensures dial.Some? ==> dial.value == Dial("tcp", address, DialTimeout)
    ensures active <==> ProbeSucceeds(net)
    ensures !InterfaceUp(net.enumFailed, net.interfaces) ==> !active && dial == None
  {
    active := HasInterfaceUp(net.enumFailed, net.interfaces);
    dial := None;
    if active {
      dial := Some(Dial("tcp", address, DialTimeout));
      active := net.dialSucceeds;
    }
  }

  /** The probe outcomes of a sequence of ticks, in order. */
  function Outcomes(nets: seq<NetState>): (r: seq<bool>)
    ensures |r| == |nets|
  {
    if nets == [] then []
    else Outcomes(nets[..|nets| - 1]) + [ProbeSucceeds(nets[|nets| - 1])]
  }

  /** Outcome `k` is the probe result of tick `k`. */
  lemma {:induction false} OutcomesAt(nets: seq<NetState>, k: nat)
    requires k < |nets|
    ensures Outcomes(nets)[k] <==> ProbeSucceeds(nets[k])
  {
    if k < |nets| - 1 {
      OutcomesAt(nets[..|nets| - 1], k);
    }
  }

  lemma OutcomesSnoc(nets: seq<NetState>, net: NetState)
    ensures Outcomes(nets + [net]) == Outcomes(nets) + [ProbeSucceeds(net)]
  {
    assert (nets + [net])[..|nets|] == nets;
  }
}
