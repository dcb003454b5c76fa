/** What a control message that is acknowledged has done to the node's store, field by field. */
module CommandEffects {
  import A = Admission
  import CC = ControlClient
  import CP = ControlProtocol
  import opened Devices
  import NodeStore

  type Store = NodeStore.Store

  /** Devices are stored under their own id. */
  ghost predicate Keyed(s: Store)
  {
    forall d :: d in s.devices ==> s.devices[d].id == d
  }

  /** The journal and all devices but d are as they were. */
  ghost predicate OnlyDevice(s: Store, s': Store, d: DeviceId)
  {
    && s'.events == s.events && s'.sent == s.sent
    && (forall x :: x != d ==> (x in s'.devices <==> x in s.devices))
    && (forall x :: x != d && x in s.devices ==> s'.devices[x] == s.devices[x])
  }

  ghost predicate Upserted(s: Store, s': Store, row: Device)
  {
    && OnlyDevice(s, s', row.id) && row.id in s'.devices
    && s'.devices[row.id] == Device(
         row.id, row.credentialHash, row.plan, row.active, row.subscriptionEnds, row.periodEnds, row.quotaBytes,
         if row.id in s.devices && s.devices[row.id].periodEnds == row.periodEnds then s.devices[row.id].usedBytes else 0,
         row.leaseBytes, row.leaseExpires,
         if row.id in s.devices then s.devices[row.id].override_ else Override(0, 0, false, 0))
  }

  ghost predicate LeaseSet(s: Store, s': Store, d: DeviceId, bytes: int, expires: Time)
  {
    && OnlyDevice(s, s', d) && d in s.devices && d in s'.devices
    && var o := s.devices[d];
       s'.devices[d] == Device(o.id, o.credentialHash, o.plan, o.active, o.subscriptionEnds, o.periodEnds, o.quotaBytes,
                               o.usedBytes, bytes, expires, o.override_)
  }

  ghost predicate Deactivated(s: Store, s': Store, d: DeviceId)
  {
    && OnlyDevice(s, s', d) && (d in s'.devices <==> d in s.devices)
    && (d in s.devices ==>
          var o := s.devices[d];
          s'.devices[d] == Device(o.id, o.credentialHash, o.plan, false, o.subscriptionEnds, o.periodEnds, o.quotaBytes,
                                  o.usedBytes, o.leaseBytes, o.leaseExpires, o.override_))
  }

  ghost predicate Overridden(s: Store, s': Store, d: DeviceId, v: Override)
  {
    && OnlyDevice(s, s', d) && (d in s'.devices <==> d in s.devices)
    && (d in s.devices ==>
          var o := s.devices[d];
          s'.devices[d] == Device(o.id, o.credentialHash, o.plan, o.active, o.subscriptionEnds, o.periodEnds, o.quotaBytes,
                                  o.usedBytes, o.leaseBytes, o.leaseExpires, v))
  }

  ghost predicate Acknowledged(s: Store, s': Store, events: seq<nat>)
  {
    && s'.devices == s.devices && s'.events == s.events
    && (forall id :: id in s'.sent <==> id in s.sent || (id in events && 1 <= id <= |s.events|))
  }

  ghost predicate Effect(s: Store, s': Store, m: CC.Message)
  {
    match m
    case UsageAck(_, events) => Acknowledged(s, s', events)
    case Command(_, UpsertDevice(row)) => Upserted(s, s', row)
    case Command(_, QuotaLease(d, bytes, expires)) => LeaseSet(s, s', d, bytes, expires)
    case Command(_, RevokeDevice(d)) => Deactivated(s, s', d)
    case Command(_, OverrideDevice(d, v)) => Overridden(s, s', d, v)
    case Command(_, Other) => s' == s
  }

  /** No other device has this credential. */
  ghost predicate OwnHash(s: Store, d: DeviceId, hash: string)
  {
    forall x :: x in s.devices && x != d ==> s.devices[x].credentialHash != hash
  }

  /** What the store demands of a message. */
  ghost predicate Fit(s: Store, m: CC.Message)
  {
    match m
    case UsageAck(_, events) => |events| <= 5000
    case Command(_, UpsertDevice(row)) =>
      row.id != "" && row.credentialHash != "" && !row.plan.Unknown? && OwnHash(s, row.id, row.credentialHash)
    case Command(_, QuotaLease(d, _, _)) => d in s.devices && OwnHash(s, d, s.devices[d].credentialHash)
    case Command(_, _) => true
  }

  lemma UpsertEffect(s: Store, row: Device)
    requires OwnHash(s, row.id, row.credentialHash)
    ensures Upserted(s, NodeStore.Upsert(s, row.(usedBytes := 0)), row)
  {
    assert !NodeStore.HashTaken(s, row.(usedBytes := 0));
  }

  lemma LeaseEffect(s: Store, d: DeviceId, bytes: int, expires: Time)
    requires Keyed(s) && d in s.devices && OwnHash(s, d, s.devices[d].credentialHash)
    ensures LeaseSet(s, NodeStore.Upsert(s, NodeStore.Leased(s.devices[d], bytes, expires)), d, bytes, expires)
  {
    assert !NodeStore.HashTaken(s, NodeStore.Leased(s.devices[d], bytes, expires));
  }

  lemma HashTakenIs(s: Store, d: Device)
    ensures NodeStore.HashTaken(s, d) <==> !OwnHash(s, d.id, d.credentialHash)
  {
  }

  /** A handler refuses and changes nothing, or it has its effect; it succeeds exactly if the
      message fits and nothing outside the store failed. */
  lemma HandleExact(s: Store, m: CC.Message, out: CC.Outcome)
    requires Keyed(s)
    ensures var (s', ok) := CC.Handle(s, m, out);
            && (ok <==> Fit(s, m) && out.Done?)
            && (if Fit(s, m) && !out.Refused? then Effect(s, s', m) else s' == s)
  {
    match m
    case UsageAck(_, events) =>
    case Command(_, UpsertDevice(row)) =>
      HashTakenIs(s, row.(usedBytes := 0));
      if Fit(s, m) {
        UpsertEffect(s, row);
      }
    case Command(_, QuotaLease(d, bytes, expires)) =>
      if d in s.devices {
        HashTakenIs(s, NodeStore.Leased(s.devices[d], bytes, expires));
        if Fit(s, m) {
          LeaseEffect(s, d, bytes, expires);
        }
      }
    case Command(_, _) =>
  }

  /** One message with an id: a remembered one is acknowledged and changes nothing. Any other
      gets one reply, an ack exactly if it fits and nothing failed; the ack means that its effect
      is in the store and its id is remembered, with the others if they were no more than 2048. */
  lemma AckedEffect(c: CC.Client, m: CC.Message, out: CC.Outcome)
    requires Keyed(c.store) && m.id != ""
    ensures var (c', replies) := CC.Receive(c, m, out);
            if m.id in c.seen then c' == c && replies == [CC.Reply(m.id, true)]
            else
              var ok := Fit(c.store, m) && out.Done?;
              && replies == [CC.Reply(m.id, ok)]
              && (ok ==> Effect(c.store, c'.store, m))
              && (!ok ==> c'.store == c.store || (out.FailedLater? && Effect(c.store, c'.store, m)))
              && c'.seen == (if !ok then c.seen else if |c.seen| <= 2048 then c.seen + {m.id} else {m.id})
              && c'.applied == (if ok then c.applied[m.id := m] else c.applied)
              && c'.marks == c.marks + (if ok then 1 else 0)
  {
    HandleExact(c.store, m, out);
  }

  /** A message without an id is handled and neither answered nor remembered. */
  lemma Anonymous(c: CC.Client, m: CC.Message, out: CC.Outcome)
    requires Keyed(c.store) && m.id == ""
    ensures var (c', replies) := CC.Receive(c, m, out);
            && replies == [] && c' == c.(store := c'.store)
            && (if Fit(c.store, m) && !out.Refused? then Effect(c.store, c'.store, m) else c'.store == c.store)
  {
    HandleExact(c.store, m, out);
  }

  /** A device whose revocation was acknowledged is admitted by neither path, at no instant. */
  lemma RevokedIsOut(c: CC.Client, id: CC.MsgId, d: DeviceId, out: CC.Outcome, now: Time)
    requires Keyed(c.store) && id != "" && id !in c.seen && d in c.store.devices
    requires CC.Reply(id, true) in CC.Receive(c, CC.Command(id, CC.RevokeDevice(d)), out).1
    ensures var s := CC.Receive(c, CC.Command(id, CC.RevokeDevice(d)), out).0.store;
            d in s.devices && !A.Allowed(s.devices[d], now) && A.Authenticate(s.devices[d], now).Refused?
  {
    AckedEffect(c, CC.Command(id, CC.RevokeDevice(d)), out);
  }

  /** Every message keeps devices under their own id, so this holds of every store. */
  lemma KeyedStays(c: CC.Client, m: CC.Message, out: CC.Outcome)
    requires Keyed(c.store)
    ensures Keyed(CC.Receive(c, m, out).0.store)
  {
    HandleExact(c.store, m, out);
    var s, s' := c.store, CC.Handle(c.store, m, out).0;
    forall d | d in s'.devices
      ensures s'.devices[d].id == d
    {
      assert d in s.devices ==> s.devices[d].id == d;
    }
  }

  /** A restart forgets the ids and keeps the store. */
  lemma RestartExact(c: CC.Client)
    ensures CC.Restart(c) == CC.Client(c.store, {}, [], 0, 0, c.applied)
  {
  }

  /** Putting a command on the wire marks it sent. */
  lemma SendExact(w: CP.World, id: CC.MsgId)
    requires id in w.ctl.commands && w.ctl.commands[id].node in w.nodes
    ensures var row := w.ctl.commands[id];
            var x := w.nodes[row.node];
            CP.Step(w, CP.SendCommand(id))
            == CP.World(w.nodes[row.node := CP.Node(x.client, x.batches, x.replies, x.inbox + {CC.Command(id, row.body)})],
                        w.ctl.(commands := w.ctl.commands[id := CP.CommandRow(row.node, row.body, CP.Sent, row.everAcked)]),
                        w.ids)
  {
  }

  /** A node that receives a message handles it and puts its replies on the wire. */
  lemma ReceiveExact(w: CP.World, n: CP.NodeId, m: CC.Message, out: CC.Outcome)
    requires n in w.nodes && m in w.nodes[n].inbox
    ensures var x := w.nodes[n];
            var (c, replies) := CC.Receive(x.client, m, out);
            CP.Step(w, CP.Receive(n, m, out))
            == CP.World(w.nodes[n := CP.Node(c, x.batches, x.replies + (set r | r in replies), x.inbox)], w.ctl, w.ids)
  {
  }

  /** The controller takes a reply that is on the wire; a restart forgets the ids. */
  lemma TakeReplyExact(w: CP.World, n: CP.NodeId, r: CC.Reply)
    requires n in w.nodes
    ensures CP.Step(w, CP.TakeReply(n, r)) == if r in w.nodes[n].replies then w.(ctl := CP.Settle(w.ctl, n, r)) else w
    ensures CP.Step(w, CP.Restart(n))
            == w.(nodes := w.nodes[n := w.nodes[n].(client := CC.Restart(w.nodes[n].client))])
  {
  }

  /** An exchange without faults, for a command m queued for node n. */
  ghost function Exchange(w: CP.World, n: CP.NodeId, m: CC.Message, ok: bool): CP.World
  {
    CP.Step(CP.Step(CP.Step(w, CP.SendCommand(m.id)), CP.Receive(n, m, CC.Done)), CP.TakeReply(n, CC.Reply(m.id, ok)))
  }

  lemma ExchangeSteps(w: CP.World, n: CP.NodeId, m: CC.Message, ok: bool)
    requires m.Command? && m.id in w.ctl.commands && n in w.nodes
    requires w.ctl.commands[m.id].node == n && w.ctl.commands[m.id].body == m.body
    requires CC.Receive(w.nodes[n].client, m, CC.Done).1 == [CC.Reply(m.id, ok)]
    ensures var sent := w.ctl.(commands := w.ctl.commands[m.id := CP.CommandRow(n, m.body, CP.Sent, w.ctl.commands[m.id].everAcked)]);
            var v := Exchange(w, n, m, ok);
            && v.ctl == CP.Settle(sent, n, CC.Reply(m.id, ok))
            && n in v.nodes && v.nodes[n].client == CC.Receive(w.nodes[n].client, m, CC.Done).0
            && v.nodes == w.nodes[n := v.nodes[n]]
  {
    SendExact(w, m.id);
    var w1 := CP.Step(w, CP.SendCommand(m.id));
    ReceiveExact(w1, n, m, CC.Done);
    var w2 := CP.Step(w1, CP.Receive(n, m, CC.Done));
    TakeReplyExact(w2, n, CC.Reply(m.id, ok));
  }

  /** A command that is sent, received and answered without faults is marked acked, and has its
      effect on the node, exactly if it fits the store; else it is marked nacked and does nothing.
      No other row and no other node changes. */
  lemma CommandRound(w: CP.World, n: CP.NodeId, m: CC.Message)
    requires m.Command? && m.id in w.ctl.commands && n in w.nodes && m.id != ""
    requires w.ctl.commands[m.id].node == n && w.ctl.commands[m.id].body == m.body
    requires Keyed(w.nodes[n].client.store) && m.id !in w.nodes[n].client.seen
    ensures var s := w.nodes[n].client.store;
            var v := Exchange(w, n, m, Fit(s, m));
            && n in v.nodes && v.nodes == w.nodes[n := v.nodes[n]]
            && v.ctl == w.ctl.(commands := w.ctl.commands[m.id :=
                          if Fit(s, m) then CP.CommandRow(n, m.body, CP.Acked, true)
                          else CP.CommandRow(n, m.body, CP.Nacked, w.ctl.commands[m.id].everAcked)])
            && (if Fit(s, m) then Effect(s, v.nodes[n].client.store, m) else v.nodes[n].client.store == s)
  {
    AckedEffect(w.nodes[n].client, m, CC.Done);
    ExchangeSteps(w, n, m, Fit(w.nodes[n].client.store, m));
  }
}
