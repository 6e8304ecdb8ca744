/** Server and broadcaster threads together: steps of the relay interleaved with steps of the
    clients' sending threads in any order. */
module Delivery {
  import opened RoRnet
  import opened Replica
  import BroadcastQueue
  import Relay
  import RelayLogs
  import RelayRuns
  import RelayTheorems
  import Identity

  /** The channels of the connected clients, by user id. */
  datatype System = System(server: Relay.Server, channels: map<nat, BroadcastQueue.Channel>)

  const STARTED := System(Relay.STARTED, map[])

  function QueueAll(ch: BroadcastQueue.Channel, ms: seq<Message>): BroadcastQueue.Channel {
    if ms == [] then ch
    else BroadcastQueue.Next(QueueAll(ch, ms[..|ms| - 1]), BroadcastQueue.Enqueued(ms[|ms| - 1]))
  }

  /** The channel a client had before the step; a new client's channel has just been started. */
  function ChannelOf(sys: System, uid: nat): BroadcastQueue.Channel {
    if Relay.Find(sys.server.clients, uid) >= 0 && uid in sys.channels then sys.channels[uid]
    else BroadcastQueue.STARTED
  }

  /** The channel went through some steps, in which messages were queued one by one with anything the
      thread did in between, and now has accepted exactly what the log says. */
  ghost predicate Received(before: BroadcastQueue.Channel, after: BroadcastQueue.Channel, log: seq<Message>) {
    after.accepted == log && exists events :: BroadcastQueue.Leads(before, events, after)
  }

  /** A step of the relay; whatever it logs for a client goes through that client's queue. */
  ghost predicate ServerStep(cfg: Relay.Config, sys: System, e: Relay.Event, sys': System) {
    && Relay.Enabled(cfg, sys.server, e) && RelayRuns.Regular(sys.server, e)
    && sys'.server == Relay.Next(cfg, sys.server, e)
    && forall i :: 0 <= i < |sys'.server.clients| ==>
         var c := sys'.server.clients[i];
         c.user.uid in sys'.channels && Received(ChannelOf(sys, c.user.uid), sys'.channels[c.user.uid], c.log)
  }

  /** A step of one client's broadcaster thread, or of somebody stopping it. */
  ghost predicate ThreadStep(sys: System, uid: nat, e: BroadcastQueue.Event, sys': System) {
    && uid in sys.channels && !e.Enqueued? && BroadcastQueue.Enabled(sys.channels[uid], e)
    && sys' == sys.(channels := sys.channels[uid := BroadcastQueue.Next(sys.channels[uid], e)])
  }

  ghost predicate Step(cfg: Relay.Config, sys: System, sys': System) {
    (exists e :: ServerStep(cfg, sys, e, sys')) || (exists uid, e :: ThreadStep(sys, uid, e, sys'))
  }

  ghost predicate Trace(cfg: Relay.Config, t: seq<System>) {
    |t| > 0 && t[0] == STARTED && forall k :: 0 <= k < |t| - 1 ==> Step(cfg, t[k], t[k + 1])
  }

  ghost predicate ChannelsOk(sys: System) {
    forall i :: 0 <= i < |sys.server.clients| ==>
      var c := sys.server.clients[i];
      c.user.uid in sys.channels && BroadcastQueue.Consistent(sys.channels[c.user.uid]) &&
      sys.channels[c.user.uid].accepted == c.log
  }

  lemma ChannelOfConsistent(sys: System, uid: nat)
    requires ChannelsOk(sys)
    ensures BroadcastQueue.Consistent(ChannelOf(sys, uid))
  {
    BroadcastQueue.StartedConsistent();
    var i := Relay.Find(sys.server.clients, uid);
    if i >= 0 {
      assert Relay.Users(sys.server.clients)[i] == sys.server.clients[i].user;
    }
  }

  lemma ServerStepKeepsChannels(cfg: Relay.Config, sys: System, e: Relay.Event, sys': System)
    requires ChannelsOk(sys) && ServerStep(cfg, sys, e, sys')
    ensures ChannelsOk(sys')
  {
    forall i | 0 <= i < |sys'.server.clients|
      ensures var uid := sys'.server.clients[i].user.uid;
              BroadcastQueue.Consistent(sys'.channels[uid])
    {
      var c := sys'.server.clients[i];
      var before, after := ChannelOf(sys, c.user.uid), sys'.channels[c.user.uid];
      ChannelOfConsistent(sys, c.user.uid);
      assert Received(before, after, c.log);
      var events :| BroadcastQueue.Leads(before, events, after);
      BroadcastQueue.RunKeepsConsistent(before, events);
    }
  }

  lemma ThreadStepKeepsChannels(sys: System, uid: nat, e: BroadcastQueue.Event, sys': System)
    requires ChannelsOk(sys) && ThreadStep(sys, uid, e, sys')
    ensures ChannelsOk(sys')
  {
    if BroadcastQueue.Consistent(sys.channels[uid]) {
      BroadcastQueue.NextKeepsConsistent(sys.channels[uid], e);
    }
  }

  lemma {:induction false} TraceKeeps(cfg: Relay.Config, t: seq<System>)
    requires Trace(cfg, t)
    ensures RelayRuns.Inv(cfg, t[|t| - 1].server) && ChannelsOk(t[|t| - 1])
  {
    if |t| == 1 {
      RelayRuns.StartedInv(cfg);
    } else {
      var init := t[..|t| - 1];
      forall k | 0 <= k < |init| - 1 ensures Step(cfg, init[k], init[k + 1]) {
        assert Step(cfg, t[k], t[k + 1]);
      }
      TraceKeeps(cfg, init);
      var sys, sys' := t[|t| - 2], t[|t| - 1];
      assert Step(cfg, t[|t| - 2], t[|t| - 2 + 1]);
      if e :| ServerStep(cfg, sys, e, sys') {
        ServerStepKeepsChannels(cfg, sys, e, sys');
        RelayRuns.NextKeepsInv(cfg, sys.server, e);
      } else {
        var uid, e :| ThreadStep(sys, uid, e, sys');
        ThreadStepKeepsChannels(sys, uid, e, sys');
      }
    }
  }

  // ---------------------------------------------------------------- every run has its traces

  lemma {:induction false} QueueAllAccepts(ch: BroadcastQueue.Channel, ms: seq<Message>)
    ensures QueueAll(ch, ms).accepted == ch.accepted + ms
  {
    if ms != [] {
      QueueAllAccepts(ch, ms[..|ms| - 1]);
      assert ms == ms[..|ms| - 1] + [ms[|ms| - 1]];
    }
  }

  lemma {:induction false} QueueAllLeads(ch: BroadcastQueue.Channel, ms: seq<Message>)
    ensures exists events :: BroadcastQueue.Leads(ch, events, QueueAll(ch, ms))
  {
    if ms == [] {
      assert BroadcastQueue.Leads(ch, [], QueueAll(ch, ms));
    } else {
      var init, m := ms[..|ms| - 1], ms[|ms| - 1];
      QueueAllLeads(ch, init);
      var events :| BroadcastQueue.Leads(ch, events, QueueAll(ch, init));
      BroadcastQueue.LeadsOn(ch, events, QueueAll(ch, init), BroadcastQueue.Enqueued(m));
      assert BroadcastQueue.Leads(ch, events + [BroadcastQueue.Enqueued(m)], QueueAll(ch, ms));
    }
  }

  /** What the queues of the clients become when the server has them as `cs`. */
  ghost function Followed(sys: System, cs: seq<Relay.Client>): map<nat, BroadcastQueue.Channel> {
    map uid | uid in Identity.Uids(Relay.Users(cs)) ::
      QueueAll(ChannelOf(sys, uid), Added(ChannelOf(sys, uid).accepted, RelayLogs.LogOf(cs, uid)))
  }

  function Added(before: seq<Message>, after: seq<Message>): seq<Message> {
    if |before| <= |after| then after[|before|..] else []
  }

  lemma ChannelHasLog(sys: System, uid: nat)
    requires ChannelsOk(sys)
    ensures ChannelOf(sys, uid).accepted == RelayLogs.LogOf(sys.server.clients, uid)
  {
    var i := Relay.Find(sys.server.clients, uid);
    if i >= 0 {
      assert Relay.Users(sys.server.clients)[i] == sys.server.clients[i].user;
    }
  }

  lemma AddedUp(before: seq<Message>, after: seq<Message>)
    requires before <= after
    ensures before + Added(before, after) == after
  {
  }

  lemma ReceivesAll(before: BroadcastQueue.Channel, ms: seq<Message>)
    ensures Received(before, QueueAll(before, ms), before.accepted + ms)
  {
    QueueAllAccepts(before, ms);
    QueueAllLeads(before, ms);
  }

  lemma ClientFollows(sys: System, cs: seq<Relay.Client>, j: nat)
    requires ChannelsOk(sys) && Identity.DistinctUids(Relay.Users(cs)) && j < |cs|
    requires RelayLogs.LogOf(sys.server.clients, cs[j].user.uid) <= cs[j].log
    ensures var uid := cs[j].user.uid;
            uid in Followed(sys, cs) && Received(ChannelOf(sys, uid), Followed(sys, cs)[uid], cs[j].log)
  {
    var uid := cs[j].user.uid;
    var before := ChannelOf(sys, uid);
    assert Identity.Uids(Relay.Users(cs))[j] == uid;
    RelayLogs.FoundLog(cs, j);
    ChannelHasLog(sys, uid);
    AddedUp(before.accepted, cs[j].log);
    ReceivesAll(before, Added(before.accepted, cs[j].log));
  }

  lemma AllFollow(cfg: Relay.Config, sys: System, e: Relay.Event, cs: seq<Relay.Client>)
    requires RelayRuns.Inv(cfg, sys.server) && ChannelsOk(sys)
    requires Relay.Enabled(cfg, sys.server, e) && RelayRuns.Regular(sys.server, e)
    requires cs == Relay.Next(cfg, sys.server, e).clients
    ensures forall j :: 0 <= j < |cs| ==>
              cs[j].user.uid in Followed(sys, cs)
              && Received(ChannelOf(sys, cs[j].user.uid), Followed(sys, cs)[cs[j].user.uid], cs[j].log)
  {
    RelayRuns.FreeUidIsFresh(cfg, sys.server);
    RelayRuns.NextKeepsInv(cfg, sys.server, e);
    forall j | 0 <= j < |cs|
      ensures cs[j].user.uid in Followed(sys, cs)
              && Received(ChannelOf(sys, cs[j].user.uid), Followed(sys, cs)[cs[j].user.uid], cs[j].log)
    {
      RelayLogs.NextFollows(cfg, sys.server, e, j);
      assert RelayLogs.LogOf(sys.server.clients, cs[j].user.uid) <= cs[j].log;
      ClientFollows(sys, cs, j);
    }
  }

  /** Whatever the server does, the clients' queues can take it in: no step of the server is lost to the
      combined system. */
  lemma ServerStepIsPossible(cfg: Relay.Config, sys: System, e: Relay.Event)
    requires RelayRuns.Inv(cfg, sys.server) && ChannelsOk(sys)
    requires Relay.Enabled(cfg, sys.server, e) && RelayRuns.Regular(sys.server, e)
    ensures exists sys' :: ServerStep(cfg, sys, e, sys')
  {
    var server := Relay.Next(cfg, sys.server, e);
    AllFollow(cfg, sys, e, server.clients);
    assert ServerStep(cfg, sys, e, System(server, Followed(sys, server.clients)));
  }

  /** However the server and the sending threads are interleaved: whenever a client's thread is idle
      with an empty queue, what its socket has carried to an introduced client rebuilds the server's roster
      and the streams of all other clients; exactly, where registrations were announced as stored. */
  lemma DeliveredViewsAreReplicas(cfg: Relay.Config, t: seq<System>, i: nat)
    requires Trace(cfg, t) && i < |t[|t| - 1].server.clients|
    requires t[|t| - 1].server.clients[i].initialized
    ensures var sys := t[|t| - 1];
            var c := sys.server.clients[i];
            c.user.uid in sys.channels &&
            var ch := sys.channels[c.user.uid];
            ch.phase.Waiting? && ch.queue.entries == [] ==>
              && RelayTheorems.Replicates(Replay(ch.wire), sys.server.clients, c.user.uid)
              && (RelayTheorems.Agreed(sys.server.clients) ==>
                    RelayTheorems.OthersStreams(Replay(ch.wire), c.user.uid)
                      == RelayTheorems.StreamTable(sys.server.clients, c.user.uid))
  {
    TraceKeeps(cfg, t);
    var sys := t[|t| - 1];
    var c := sys.server.clients[i];
    var ch := sys.channels[c.user.uid];
    RelayTheorems.MirrorIsReplica(cfg, sys.server.clients, c);
    RelayTheorems.ReplicaIsExact(Replay(c.log), sys.server.clients, c.user.uid);
    if ch.phase.Waiting? && ch.queue.entries == [] {
      BroadcastQueue.CaughtUpViews(ch);
      BroadcastQueue.IdleSocketReplays(ch);
    }
  }

  /** At any moment the messages that may not be dropped arrive in the order the server issued them:
      what was sent, and carried by the socket message by message, then what is in hand, then what is queued. */
  lemma FirmMessagesInOrder(cfg: Relay.Config, t: seq<System>, i: nat)
    requires Trace(cfg, t) && i < |t[|t| - 1].server.clients|
    ensures var sys := t[|t| - 1];
            var c := sys.server.clients[i];
            c.user.uid in sys.channels &&
            var ch := sys.channels[c.user.uid];
            ch.phase.Waiting? || ch.phase.Sending? ==>
              && BroadcastQueue.Carried(ch.wire, ch.delivered)
              && BroadcastQueue.Firm(c.log)
                 == BroadcastQueue.Firm(ch.delivered) + BroadcastQueue.Firm(BroadcastQueue.AsSeq(ch.inHand))
                    + BroadcastQueue.Firm(ch.queue.entries)
  {
    TraceKeeps(cfg, t);
    var sys := t[|t| - 1];
    var ch := sys.channels[sys.server.clients[i].user.uid];
    if ch.phase.Waiting? || ch.phase.Sending? {
      BroadcastQueue.FirmWhileRunning(ch);
      assert ch.delivered + [] == ch.delivered;
    }
  }
}
