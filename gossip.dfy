/**
 * The `Gossiper` of main.go:14-55 and the start-up sequence of `main`
 * (main.go:67-95). The membership engine is not modelled: its handle only
 * records, in order, the calls made on it, and the results it returns are
 * left unconstrained.
 */
module Gossip {
  import opened Wrappers
  import opened Bind

  /** `time.ParseDuration("1s")`, as a Go `time.Duration` in nanoseconds. */
  const LeaveTimeout: nat := 1_000_000_000

  /** A call made on the engine handle. */
  datatype Call =
    | CreateCall(config: Config)
    | JoinCall(addrs: seq<string>)
    | LeaveCall(timeout: nat)
    | ShutdownCall

  /** The engine handle (`*ml.Memberlist`): the calls made on it so far. */
  class Memberlist {
    var calls: seq<Call>

    constructor (c: Config)
      ensures calls == [CreateCall(c)]
    {
      calls := [CreateCall(c)];
    }

    /** `Join(addrs)`: the number of peers reached and the error are the engine's business. */
    method Join(addrs: seq<string>) returns (reached: int, failed: bool)
      modifies this
      ensures calls == old(calls) + [JoinCall(addrs)]
    {
      calls := calls + [JoinCall(addrs)];
      reached :| true;
      failed :| true;
    }

    /** `Leave(timeout)`: may fail or time out. */
    method Leave(timeout: nat) returns (failed: bool)
      modifies this
      ensures calls == old(calls) + [LeaveCall(timeout)]
    {
      calls := calls + [LeaveCall(timeout)];
      failed :| true;
    }

    /** `Shutdown()`: its error is discarded by every caller here. */
    method Shutdown() returns (failed: bool)
      modifies this
      ensures calls == old(calls) + [ShutdownCall]
    {
      calls := calls + [ShutdownCall];
      failed :| true;
    }
  }

  /**
   * The memberlist package as the program sees it: every configuration
   * `ml.Create` was called with and, at the same position, what that call
   * returned (`null` for an error).
   */
  class MemberlistPackage {
    var creations: seq<Config>
    var results: seq<Memberlist?>

    constructor ()
      ensures creations == [] && results == []
    {
      creations, results := [], [];
    }
  }

  /**
   * `ml.Create(c)`: the attempt is recorded in `pkg`; it yields either a new
   * handle whose first call is the creation, or an error.
   */
  method CreateMemberlist(pkg: MemberlistPackage, c: Config) returns (list: Memberlist?)
    modifies pkg
    ensures pkg.creations == old(pkg.creations) + [c]
    ensures pkg.results == old(pkg.results) + [list]
    ensures list != null ==> fresh(list) && list.calls == [CreateCall(c)]
  {
    var ok: bool :| true;
    if ok {
      list := new Memberlist(c);
    } else {
      list := null;
    }
    pkg.creations := pkg.creations + [c];
    pkg.results := pkg.results + [list];
  }

  /** One `JoinCall` per address, each forwarding exactly that one address. */
  function Joins(addrs: seq<string>): (r: seq<Call>)
    ensures |r| == |addrs|
    ensures forall i :: 0 <= i < |r| ==> r[i] == JoinCall([addrs[i]])
  {
    if addrs == [] then [] else [JoinCall([addrs[0]])] + Joins(addrs[1..])
  }

  /**
   * The calls a `Gossiper` has made on its engine: the creation, the joins
   * issued before leaving, and, once it has left, `Leave(1s)`, `Shutdown`
   * and the joins issued after that.
   */
  function History(c: Config, before: seq<string>, left: bool, after: seq<string>): seq<Call>
  {
    [CreateCall(c)] + Joins(before)
      + (if left then [LeaveCall(LeaveTimeout), ShutdownCall] + Joins(after) else [])
  }

  /**
   * What every lifecycle guarantees of its engine calls: the creation comes
   * first and only there; a `Leave` happens at most once, always with the
   * one-second timeout, and only after the node has left; every `Shutdown`
   * comes right after the `Leave`, and there is one exactly when the node has left.
   */
  lemma HistoryOrder(c: Config, before: seq<string>, left: bool, after: seq<string>)
    ensures var h := History(c, before, left, after);
      && h[0] == CreateCall(c)
      && (forall i :: 0 < i < |h| ==> !h[i].CreateCall?)
      && (forall i :: 0 <= i < |h| && h[i].LeaveCall? ==>
            left && i == 1 + |before| && h[i] == LeaveCall(LeaveTimeout))
      && (forall i :: 0 <= i < |h| && h[i] == ShutdownCall ==>
            0 < i && h[i - 1] == LeaveCall(LeaveTimeout))
      && (left ==> h[1 + |before|] == LeaveCall(LeaveTimeout) && h[2 + |before|] == ShutdownCall)
  {
  }

  /** Exactly one `Leave` and one `Shutdown` once the node has left, none before. */
  lemma HistoryCounts(c: Config, before: seq<string>, left: bool, after: seq<string>)
    ensures multiset(History(c, before, left, after))[LeaveCall(LeaveTimeout)] == (if left then 1 else 0)
    ensures multiset(History(c, before, left, after))[ShutdownCall] == (if left then 1 else 0)
  {
  }

  /** The node (`Gossiper`): its engine handle and the one-shot `shutdownCh`. */
  class Gossiper {
    const memberlist: Memberlist
    /** The value on `shutdownCh` has been sent: `Leave` has finished its work. */
    var signalled: bool
    /** `Wait` has received that value. */
    var received: bool

    ghost var config: Config
    ghost var joinedBefore: seq<string>
    ghost var joinedAfter: seq<string>

    ghost predicate Valid()
      reads this, memberlist
    {
      && (received ==> signalled)
      && (!signalled ==> joinedAfter == [])
      && memberlist.calls == History(config, joinedBefore, signalled, joinedAfter)
    }

    constructor (list: Memberlist, ghost c: Config)
      requires list.calls == [CreateCall(c)]
      ensures Valid() && memberlist == list && config == c
      ensures !signalled && !received
      ensures joinedBefore == [] && joinedAfter == []
    {
      memberlist := list;
      signalled, received := false, false;
      config, joinedBefore, joinedAfter := c, [], [];
    }

    /** `Join(addr)`: forwards exactly the one address and ignores the outcome. */
    method Join(addr: string)
      requires Valid()
      modifies this, memberlist
      ensures Valid() && config == old(config)
      ensures memberlist.calls == old(memberlist.calls) + [JoinCall([addr])]
      ensures signalled == old(signalled) && received == old(received)
    {
      var _, _ := memberlist.Join([addr]);
      if signalled {
        joinedAfter := joinedAfter + [addr];
        assert Joins(joinedAfter) == Joins(old(joinedAfter)) + [JoinCall([addr])];
      } else {
        joinedBefore := joinedBefore + [addr];
        assert Joins(joinedBefore) == Joins(old(joinedBefore)) + [JoinCall([addr])];
      }
    }

    /**
     * `Leave()`: `Leave(1s)` on the engine, then `Shutdown` whatever `Leave`
     * returned, and only then the send on `shutdownCh`.
     */
    method Leave()
      requires Valid() && !signalled
      modifies this, memberlist
      ensures Valid() && config == old(config)
      ensures memberlist.calls == old(memberlist.calls) + [LeaveCall(LeaveTimeout), ShutdownCall]
      ensures signalled && !received
    {
      var failed := memberlist.Leave(LeaveTimeout);
      var _ := memberlist.Shutdown();
      signalled := true;
    }

    /** `Wait()`: returns only once the value `Leave` sends has arrived, and takes it. */
    method Wait()
      requires Valid() && signalled && !received
      modifies this`received
      ensures Valid() && received
    {
      received := true;
    }
  }

  /**
   * `NewGossiper(c)`: an error exactly when `ml.Create` failed, else a fresh
   * node holding the handle `ml.Create` returned.
   */
  method NewGossiper(pkg: MemberlistPackage, c: Config) returns (g: Gossiper?)
    modifies pkg
    ensures pkg.creations == old(pkg.creations) + [c]
    ensures pkg.results == old(pkg.results) + [if g == null then null else g.memberlist]
    ensures g != null ==> fresh(g) && fresh(g.memberlist) && g.Valid() && g.config == c
    ensures g != null ==> g.memberlist.calls == [CreateCall(c)] && !g.signalled && !g.received
  {
    var list := CreateMemberlist(pkg, c);
    if list == null {
      return null;
    }
    g := new Gossiper(list, c);
  }

  /** The command-line flags, `None` where a flag was not given. */
  datatype Flags = Flags(bind: Option<string>, join: Option<string>, name: Option<string>)

  function FlagOr(given: Option<string>, default: string): string
  {
    if given.Some? then given.value else default
  }

  /** How `main` ends up before it prints the members and waits. */
  datatype Startup =
    | ConfigFatal(error: BindError)
    | EngineFatal
    | Running(node: Gossiper)

  /**
   * `main` up to the wait: resolves the flags (`--name` defaults to the host
   * name), builds the configuration from the engine's defaults `base`, stops
   * before `ml.Create` is called when `--bind` is invalid, otherwise calls it
   * exactly once with that configuration, is fatal exactly when that call
   * fails, otherwise creates the node on the returned handle and joins the
   * `--join` peer when one was given.
   */
  method Start(pkg: MemberlistPackage, flags: Flags, hostname: string, base: Config) returns (s: Startup)
    modifies pkg
    ensures var cfg := ConfigFromFlags(base, FlagOr(flags.bind, DefaultBind), FlagOr(flags.name, hostname));
      && (s.ConfigFatal? <==> cfg.Err?)
      && (s.ConfigFatal? ==>
            s.error == cfg.error && pkg.creations == old(pkg.creations) && pkg.results == old(pkg.results))
      && (!s.ConfigFatal? ==> cfg.Ok? && pkg.creations == old(pkg.creations) + [cfg.value])
      && (!s.ConfigFatal? ==>
            pkg.results == old(pkg.results) + [if s.Running? then s.node.memberlist else null])
      && (s.Running? ==>
            && fresh(s.node) && fresh(s.node.memberlist) && s.node.Valid()
            && !s.node.signalled && !s.node.received
            && cfg.Ok? && s.node.config == cfg.value
            && s.node.config.name == FlagOr(flags.name, hostname)
            && var join := FlagOr(flags.join, "");
               s.node.memberlist.calls ==
                 [CreateCall(cfg.value)] + (if join != "" then [JoinCall([join])] else []))
  {
    var bind := FlagOr(flags.bind, DefaultBind);
    var join := FlagOr(flags.join, "");
    var name := FlagOr(flags.name, hostname);
    var cfg := ConfigFromFlags(base, bind, name);
    if cfg.Err? {
      return ConfigFatal(cfg.error);
    }
    var g := NewGossiper(pkg, cfg.value);
    if g == null {
      return EngineFatal;
    }
    if join != "" {
      g.Join(join);
    }
    return Running(g);
  }
}
