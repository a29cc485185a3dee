/** Any calls on a Tunnel and its subscriptions are a run of the replay model. */
module TunnelRuns {
  import opened Common
  import Replay
  import Wake
  import opened Tunnels

  /** The subscriptions made so far, by the number the model knows them by. */
  ghost predicate Owns<T>(tunnel: Tunnel<T>, subs: map<nat, TunnelSubscription<T>>)
    reads tunnel, subs.Values
  {
    && subs.Keys == tunnel.spec.readers.Keys
    && forall r <- subs :: subs[r].tunnel == tunnel && subs[r].id == r && subs[r].Valid()
  }

  method PerformPut<T>(tunnel: Tunnel<T>, subs: map<nat, TunnelSubscription<T>>, e: Replay.Event<T>, open: set<nat>)
    requires tunnel.Valid() && Owns(tunnel, subs) && (e.Put? || e.Close? || e.Fail?)
    modifies tunnel
    ensures tunnel.Valid() && Owns(tunnel, subs) && tunnel.spec == Replay.Step(old(tunnel.spec), e)
  {
    match e {
      case Put(v) => var r := tunnel.Put(v, open);
      case Close => var calls := tunnel.Close(open);
      case Fail(err) => var calls := tunnel.Fail(err, open);
    }
  }

  method PerformSubscribe<T>(tunnel: Tunnel<T>, subs: map<nat, TunnelSubscription<T>>, id: nat, start: Replay.Start)
    returns (now: map<nat, TunnelSubscription<T>>)
    requires tunnel.Valid() && Owns(tunnel, subs)
    modifies tunnel
    ensures tunnel.Valid() && Owns(tunnel, now) && tunnel.spec == Replay.Step(old(tunnel.spec), Replay.Subscribe(id, start))
    ensures forall r <- now :: (r in subs && now[r] == subs[r]) || fresh(now[r])
  {
    now := subs;
    if id !in subs {
      var r := tunnel.Subscribe(start, id);
      if r.Ok? {
        now := subs[id := r.value];
      }
    }
  }

  /** One pass of a reader, sync or, with a future to park, async on `loop`. */
  method PerformRead<T>(tunnel: Tunnel<T>, subs: map<nat, TunnelSubscription<T>>, id: nat, park: Option<nat>, loop: nat)
    requires tunnel.Valid() && Owns(tunnel, subs)
    modifies tunnel, subs.Values
    ensures tunnel.Valid() && Owns(tunnel, subs) && tunnel.spec == Replay.Step(old(tunnel.spec), Replay.Read(id, park))
  {
    if id in subs {
      var s := subs[id];
      assert forall r <- subs :: r != id ==> subs[r] != s;
      if park.Some? && (forall w <- tunnel.waiters :: w.future != park.value) {
        var o := s.NextAsync(Wake.Waiter(loop, park.value));
      } else {
        var o := s.Next();
      }
    }
  }

  method PerformTimeOut<T>(tunnel: Tunnel<T>, subs: map<nat, TunnelSubscription<T>>, id: nat)
    requires tunnel.Valid() && Owns(tunnel, subs)
    modifies tunnel, subs.Values
    ensures tunnel.Valid() && Owns(tunnel, subs) && tunnel.spec == Replay.Step(old(tunnel.spec), Replay.TimeOut(id))
  {
    if id in subs && !subs[id].terminated {
      assert forall r <- subs :: r != id ==> subs[r] != subs[id];
      subs[id].TimeOut();
    }
  }

  method PerformCloseReader<T>(tunnel: Tunnel<T>, subs: map<nat, TunnelSubscription<T>>, id: nat, open: set<nat>)
    requires tunnel.Valid() && Owns(tunnel, subs)
    modifies tunnel, subs.Values
    ensures tunnel.Valid() && Owns(tunnel, subs) && tunnel.spec == Replay.Step(old(tunnel.spec), Replay.CloseReader(id))
  {
    if id in subs {
      assert forall r <- subs :: r != id ==> subs[r] != subs[id];
      var calls := subs[id].Close(open);
    }
  }

  method PerformDiscard<T>(tunnel: Tunnel<T>, subs: map<nat, TunnelSubscription<T>>, f: nat)
    requires tunnel.Valid() && Owns(tunnel, subs)
    modifies tunnel
    ensures tunnel.Valid() && Owns(tunnel, subs) && tunnel.spec == Replay.Step(old(tunnel.spec), Replay.Discard(f))
  {
    if w :| w in tunnel.waiters && w.future == f {
      tunnel.Discard(w);
    } else {
      tunnel.Discard(Wake.Waiter(0, f));
    }
  }

  /** Any calls on a new Tunnel and its subscriptions leave them where the model says,
      whichever loops are open. */
  method Execute<T>(limit: Option<nat>, grouped: bool, es: seq<Replay.Event<T>>, loop: nat, open: set<nat>)
    returns (tunnel: Tunnel<T>, subs: map<nat, TunnelSubscription<T>>)
    requires limit.Some? ==> limit.value > 0
    ensures tunnel.Valid() && Owns(tunnel, subs) && tunnel.spec == Replay.Run(Replay.Init<T>(limit), es)
  {
    tunnel := new Tunnel<T>(limit, grouped);
    subs := map[];
    for k := 0 to |es|
      invariant fresh(tunnel) && (forall r <- subs :: fresh(subs[r]))
      invariant tunnel.Valid() && Owns(tunnel, subs) && tunnel.spec == Replay.Run(Replay.Init<T>(limit), es[..k])
    {
      var e := es[k];
      assert es[..k + 1] == es[..k] + [e];
      Replay.RunSnoc(Replay.Init<T>(limit), es[..k], e);
      match e {
        case Subscribe(id, start) => subs := PerformSubscribe(tunnel, subs, id, start);
        case Discard(f) => PerformDiscard(tunnel, subs, f);
        case Read(id, park) => PerformRead(tunnel, subs, id, park, loop);
        case TimeOut(id) => PerformTimeOut(tunnel, subs, id);
        case CloseReader(id) => PerformCloseReader(tunnel, subs, id, open);
        case _ => PerformPut(tunnel, subs, e, open);
      }
    }
    assert es[..|es|] == es;
  }
}
