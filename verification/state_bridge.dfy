/**
  `createStateBridge`: one subscription to the store, one snapshot delivery per change
  notification, a `setData` that swallows the store's failure, and an idempotent `destroy`.
  The store itself is external: the session holds its value and passes it in.
 */
module StateBridge {
  import opened Optional
  import Codec

  /** The bridge's only mutable state: whether it still holds the dispose handle returned by
      the store's `onChange`. */
  datatype Bridge = Bridge(subscribed: bool)

  /** The result of construction: the bridge, and whether the "could not subscribe" warning
      was logged. */
  datatype Created = Created(bridge: Bridge, warned: bool)

  /** Construction. `subscribeThrows` is the store's answer to `onChange`; a throw is caught,
      so construction always yields a bridge. */
  function Create(subscribeThrows: bool): (c: Created)
    ensures c.bridge.subscribed != c.warned
    ensures c.warned <==> subscribeThrows
  {
    if subscribeThrows then Created(Bridge(false), true) else Created(Bridge(true), false)
  }

  /** The snapshots of a sequence of store values, in order. */
  function Snapshots(values: seq<Codec.Value>): (r: seq<Option<Codec.Json>>)
    ensures |r| == |values|
  {
    seq(|values|, i requires 0 <= i < |values| => Codec.Snapshot(values[i]))
  }

  /** The store's change notifications, in emission order, each given as the store value at
      that moment; the result is what the `onSnapshot` callback receives. Without a
      subscription no notification reaches the bridge. */
  method Deliver(b: Bridge, emitted: seq<Codec.Value>) returns (delivered: seq<Option<Codec.Json>>)
    ensures !b.subscribed ==> delivered == []
    ensures b.subscribed ==> |delivered| == |emitted|
    ensures b.subscribed ==> forall i | 0 <= i < |emitted| :: delivered[i] == Codec.Snapshot(emitted[i])
    ensures delivered == (if b.subscribed then Snapshots(emitted) else [])
  {
    delivered := [];
    if !b.subscribed {
      return;
    }
    var i := 0;
    while i < |emitted|
      invariant 0 <= i <= |emitted|
      invariant |delivered| == i
      invariant forall k | 0 <= k < i :: delivered[k] == Codec.Snapshot(emitted[k])
    {
      var snapshot := Codec.Snapshot(emitted[i]);
      delivered := delivered + [snapshot];
      i := i + 1;
    }
  }

  /** The outcome of `setData`: the store value afterwards and whether the error was logged. */
  datatype SetOutcome = SetOutcome(store: Codec.Value, failed: bool)

  /** `setData`: ask the store to take `data` as its whole value; `rejects` is the store's
      answer. A rejection is logged and leaves the store as it was. */
  function SetData(store: Codec.Value, data: Codec.Json, rejects: bool): (r: SetOutcome)
    ensures r.failed <==> rejects
    ensures rejects ==> r.store == store
    ensures !rejects ==> Codec.Snapshot(r.store) == Some(data)
  {
    if rejects then SetOutcome(store, true)
    else
      Codec.SerialiseEmbed(data);
      SetOutcome(Codec.Embed(data), false)
  }

  /** The outcome of `destroy`: the bridge afterwards and whether the dispose handle ran. */
  datatype Destroyed = Destroyed(bridge: Bridge, disposed: bool)

  function Destroy(b: Bridge): (d: Destroyed)
    ensures !d.bridge.subscribed
    ensures d.disposed <==> b.subscribed
  {
    Destroyed(Bridge(false), b.subscribed)
  }

  /** How many times the dispose handle runs over `n` successive `destroy` calls. */
  function DisposalsOver(b: Bridge, n: nat): nat
    decreases n
  {
    if n == 0 then 0
    else
      var d := Destroy(b);
      (if d.disposed then 1 else 0) + DisposalsOver(d.bridge, n - 1)
  }

  /** The dispose handle runs at most once, however often `destroy` is called, and never when
      subscribing failed. */
  lemma {:induction false} DisposeAtMostOnce(b: Bridge, n: nat)
    ensures DisposalsOver(b, n) == (if b.subscribed && n > 0 then 1 else 0)
    decreases n
  {
    if n > 0 {
      DisposeAtMostOnce(Destroy(b).bridge, n - 1);
    }
  }
}
