// No run of an application goes on for ever, under any order of deliveries.  What is
// left to the devices is the steps to come, the numbers still to be lowered, or the
// sources still to be heard of.
module Stops {
  import opened Vertices
  import opened Endings
  import HeatGals
  import AspGals
  import AspSync
  import HashMin
  import Pressure

  // ---------------------------------------------------------------------
  // Heat: the steps that a vertex has still to take

  type HeatWorld = World<HeatGals.HeatState, HeatGals.HeatMessage, ()>

  function HeatLeft(dev: HeatGals.HeatDev): nat { dev.s.time }

  lemma HeatSend(p: HeatGals.Setup, v: HeatWorld, w: HeatWorld, d: nat)
    requires Sends(HeatGals.HEAT, p.g, v, w, d)
    ensures HeatLeft(w.devs[d]) < HeatLeft(v.devs[d]) || (HeatLeft(w.devs[d]) == HeatLeft(v.devs[d]) && w.devs[d].rts == No)
  {
    hide OnEdges, HeatGals.Average;
    var dev := v.devs[d];
    assert w.devs[d] == HeatGals.Change(Dev(No, dev.s.(sent := true)));
  }

  lemma HeatReceive(v: HeatWorld, w: HeatWorld, m: Msg<HeatGals.HeatMessage, ()>)
    requires Receives(HeatGals.HEAT, v, w, m)
    ensures || HeatLeft(w.devs[m.to]) < HeatLeft(v.devs[m.to])
            || (HeatLeft(w.devs[m.to]) == HeatLeft(v.devs[m.to]) && w.devs[m.to].rts == v.devs[m.to].rts)
  {
    hide HeatGals.Average;
    assert w.devs[m.to] == HeatGals.Recv(v.devs[m.to], m.payload, m.edge, Clock(v.time));
  }

  lemma HeatReply(v: HeatWorld, w: HeatWorld, d: nat)
    requires Replies(HeatGals.HEAT, v, w, d)
    ensures w.devs[d] == v.devs[d]
  {
    assert HeatGals.HEAT.finish(v.devs[d], Clock(v.time)).0 == v.devs[d];
  }

  lemma HeatStep(v: HeatWorld, w: HeatWorld)
    requires Steps(HeatGals.HEAT, v, w)
    ensures !w.active && forall d | 0 <= d < |v.devs| :: HeatLeft(w.devs[d]) == HeatLeft(v.devs[d])
  {
    forall d | 0 <= d < |v.devs|
      ensures w.devs[d] == HeatGals.Step(v.devs[d], Clock(v.time)).0 && !HeatGals.HEAT.step(v.devs[d], Clock(v.time)).1
    {
    }
  }

  lemma HeatLowers(p: HeatGals.Setup, v: HeatWorld, w: HeatWorld)
    requires HeatGals.Proper(p) && HeatGals.HeatInv(p, v) && Next(HeatGals.HEAT, p.g, v, w)
    ensures Lower(RankOf(w, HeatLeft), RankOf(v, HeatLeft))
  {
    hide HeatGals.Proper, HeatGals.HeatInv, Sends, Receives, Replies, Steps, Ends, RankOf, Lower;
    if d :| Sends(HeatGals.HEAT, p.g, v, w, d) {
      HeatSend(p, v, w, d);
      SendLowers(HeatGals.HEAT, p.g, HeatLeft, v, w, d);
    } else if m :| Receives(HeatGals.HEAT, v, w, m) {
      HeatReceive(v, w, m);
      ReceiveLowers(HeatGals.HEAT, HeatLeft, v, w, m);
    } else if d :| Replies(HeatGals.HEAT, v, w, d) {
      HeatReply(v, w, d);
      ReplyLowers(HeatGals.HEAT, HeatLeft, v, w, d);
    } else if Steps(HeatGals.HEAT, v, w) {
      HeatStep(v, w);
      StepLowers(HeatGals.HEAT, HeatLeft, v, w);
    } else {
      EndLowers(HeatLeft, v, w);
    }
  }

  lemma HeatEnding(p: HeatGals.Setup)
    requires HeatGals.Proper(p)
    ensures Ending(HeatGals.HEAT, p.g, p.memory, HeatLeft)
  {
    hide HeatGals.Proper, Reach, Begin, RankOf, Lower, Next;
    forall v, w | Reachable(HeatGals.HEAT, p.g, p.memory, v) && Next(HeatGals.HEAT, p.g, v, w)
      ensures Lower(RankOf(w, HeatLeft), RankOf(v, HeatLeft))
    {
      var n: nat :| Reach(HeatGals.HEAT, p.g, Begin(HeatGals.HEAT, p.memory), v, n);
      HeatGals.HeatRuns(p, v, n);
      HeatLowers(p, v, w);
    }
  }

  lemma HeatStops(p: HeatGals.Setup, run: nat -> HeatWorld)
    requires HeatGals.Proper(p) && run(0) == Begin(HeatGals.HEAT, p.memory)
    ensures exists j: nat :: !Proceeds(HeatGals.HEAT, p.g, run, j)
  {
    hide Ending, Proceeds;
    HeatEnding(p);
    MustStop(HeatGals.HEAT, p.g, p.memory, HeatLeft, run);
  }

  // ---------------------------------------------------------------------
  // Breadth-first search in neighbourhoods: the steps that the clock has left

  type AspWorld = World<AspGals.ASPState, AspGals.ASPMessage, ()>

  function AspLeft(dev: AspGals.ASPDev): nat { if dev.s.time < 0xffff then 0xffff - dev.s.time else 0 }

  // Devices that are not ready stay as they are, or stop wanting to send
  lemma AspChange(p: AspGals.Setup, dev: AspGals.ASPDev, v: nat)
    requires AspGals.Proper(p) && v < |p.g| && AspGals.StateFits(p, dev.s, v)
    ensures var dev' := AspGals.Change(dev);
      AspLeft(dev') < AspLeft(dev) || (AspLeft(dev') == AspLeft(dev) && (dev'.rts == No || !dev.s.sent))
  {
    hide AspGals.Proper, AspGals.StateFits;
    if AspGals.Ready(dev.s) {
      AspGals.TimeLeft(p, dev.s, v);
    }
  }

  lemma AspSend(p: AspGals.Setup, v: AspWorld, w: AspWorld, d: nat)
    requires AspGals.Proper(p) && AspGals.AspInv(p, v) && Sends(AspGals.ASP, p.g, v, w, d)
    ensures AspLeft(w.devs[d]) < AspLeft(v.devs[d]) || (AspLeft(w.devs[d]) == AspLeft(v.devs[d]) && w.devs[d].rts == No)
  {
    hide AspGals.Proper, AspGals.Core, AspGals.StateFits, AspGals.Change, OnEdges;
    var dev := v.devs[d];
    var sent := dev.(s := dev.s.(sent := true));
    assert w.devs[d] == AspGals.Change(sent);
    AspGals.SentFits(p, dev.s, d);
    AspChange(p, sent, d);
  }

  lemma AspReceive(p: AspGals.Setup, v: AspWorld, w: AspWorld, m: Msg<AspGals.ASPMessage, ()>)
    requires AspGals.Proper(p) && AspGals.AspInv(p, v) && Receives(AspGals.ASP, v, w, m)
    ensures || AspLeft(w.devs[m.to]) < AspLeft(v.devs[m.to])
            || (AspLeft(w.devs[m.to]) == AspLeft(v.devs[m.to]) && (w.devs[m.to].rts != No ==> v.devs[m.to].rts != No))
  {
    hide AspGals.Proper, AspGals.Core, AspGals.StateFits, AspGals.Change;
    var dev := v.devs[m.to];
    assert AspGals.Settled(dev) && AspGals.StateFits(p, dev.s, m.to);
    assert w.devs[m.to] == AspGals.Recv(dev, m.payload, m.edge, Clock(v.time));
    if m.payload.time == dev.s.time {
      AspTaken(p, dev, m.payload, m.to);
    }
  }

  lemma AspTaken(p: AspGals.Setup, dev: AspGals.ASPDev, m: AspGals.ASPMessage, v: nat)
    requires AspGals.Proper(p) && v < |p.g| && AspGals.StateFits(p, dev.s, v) && m.time == dev.s.time
    ensures var dev' := AspGals.Change(dev.(s := AspGals.Take(dev.s, m)));
      AspLeft(dev') < AspLeft(dev) || (AspLeft(dev') == AspLeft(dev) && (dev'.rts == No || !dev.s.sent))
  {
    hide AspGals.Proper, AspGals.StateFits;
    if dev.s.toReach != 0 {
      AspGals.TimeLeft(p, dev.s, v);
    }
  }

  lemma AspReply(v: AspWorld, w: AspWorld, d: nat)
    requires Replies(AspGals.ASP, v, w, d)
    ensures w.devs[d] == v.devs[d]
  {
    assert AspGals.ASP.finish(v.devs[d], Clock(v.time)).0 == v.devs[d];
  }

  lemma AspStep(v: AspWorld, w: AspWorld)
    requires Steps(AspGals.ASP, v, w)
    ensures !w.active && forall d | 0 <= d < |v.devs| :: AspLeft(w.devs[d]) == AspLeft(v.devs[d])
  {
    forall d | 0 <= d < |v.devs|
      ensures w.devs[d] == AspGals.Step(v.devs[d], Clock(v.time)).0 && !AspGals.ASP.step(v.devs[d], Clock(v.time)).1
    {
    }
  }

  lemma AspLowers(p: AspGals.Setup, v: AspWorld, w: AspWorld)
    requires AspGals.Proper(p) && AspGals.AspInv(p, v) && Next(AspGals.ASP, p.g, v, w)
    ensures Lower(RankOf(w, AspLeft), RankOf(v, AspLeft))
  {
    hide AspGals.Proper, AspGals.AspInv, Sends, Receives, Replies, Steps, Ends, RankOf, Lower;
    if d :| Sends(AspGals.ASP, p.g, v, w, d) {
      AspSend(p, v, w, d);
      SendLowers(AspGals.ASP, p.g, AspLeft, v, w, d);
    } else if m :| Receives(AspGals.ASP, v, w, m) {
      AspReceive(p, v, w, m);
      ReceiveLowers(AspGals.ASP, AspLeft, v, w, m);
    } else if d :| Replies(AspGals.ASP, v, w, d) {
      AspReply(v, w, d);
      ReplyLowers(AspGals.ASP, AspLeft, v, w, d);
    } else if Steps(AspGals.ASP, v, w) {
      AspStep(v, w);
      StepLowers(AspGals.ASP, AspLeft, v, w);
    } else {
      EndLowers(AspLeft, v, w);
    }
  }

  lemma AspEnding(p: AspGals.Setup)
    requires AspGals.Proper(p)
    ensures Ending(AspGals.ASP, p.g, p.memory, AspLeft)
  {
    hide AspGals.Proper, Reach, Begin, RankOf, Lower, Next;
    forall v, w | Reachable(AspGals.ASP, p.g, p.memory, v) && Next(AspGals.ASP, p.g, v, w)
      ensures Lower(RankOf(w, AspLeft), RankOf(v, AspLeft))
    {
      var n: nat :| Reach(AspGals.ASP, p.g, Begin(AspGals.ASP, p.memory), v, n);
      AspGals.AspRuns(p, v, n);
      AspLowers(p, v, w);
    }
  }

  lemma AspStops(p: AspGals.Setup, run: nat -> AspWorld)
    requires AspGals.Proper(p) && run(0) == Begin(AspGals.ASP, p.memory)
    ensures exists j: nat :: !Proceeds(AspGals.ASP, p.g, run, j)
  {
    hide Ending, Proceeds;
    AspEnding(p);
    MustStop(AspGals.ASP, p.g, p.memory, AspLeft, run);
  }

  // ---------------------------------------------------------------------
  // Breadth-first search in global steps: the sources that a vertex has not heard of

  type SyncWorld = World<AspSync.ASPState, AspSync.ASPMessage, ()>

  function SyncLeft(sources: nat): AspSync.ASPDev -> nat {
    (dev: AspSync.ASPDev) => |AspGals.All(sources) - dev.s.reaching|
  }

  lemma SyncSend(p: AspSync.Setup, v: SyncWorld, w: SyncWorld, d: nat)
    requires Sends(AspSync.ASP, p.g, v, w, d)
    ensures w.devs[d] == Dev(No, v.devs[d].s)
  {
    hide OnEdges;
  }

  lemma SyncReceive(v: SyncWorld, w: SyncWorld, m: Msg<AspSync.ASPMessage, ()>)
    requires Receives(AspSync.ASP, v, w, m)
    ensures w.devs[m.to].s.reaching == v.devs[m.to].s.reaching && w.devs[m.to].rts == v.devs[m.to].rts
  {
  }

  lemma SyncReply(v: SyncWorld, w: SyncWorld, d: nat)
    requires Replies(AspSync.ASP, v, w, d)
    ensures w.devs[d] == v.devs[d]
  {
    assert AspSync.ASP.finish(v.devs[d], Clock(v.time)).0 == v.devs[d];
  }

  // Whoever asks for another step has heard of a source
  lemma SyncStep(p: AspSync.Setup, v: SyncWorld, w: SyncWorld)
    requires AspSync.Proper(p) && AspSync.AspInv(p, v) && Steps(AspSync.ASP, v, w)
    ensures forall d | 0 <= d < |v.devs| :: SyncLeft(p.sources)(w.devs[d]) <= SyncLeft(p.sources)(v.devs[d])
    ensures w.active ==> exists d :: 0 <= d < |v.devs| && SyncLeft(p.sources)(w.devs[d]) < SyncLeft(p.sources)(v.devs[d])
  {
    hide AspSync.Proper, AspSync.AspInv;
    forall d | 0 <= d < |v.devs|
      ensures w.devs[d] == AspSync.Step(v.devs[d], Clock(v.time)).0
      ensures SyncLeft(p.sources)(w.devs[d]) <= SyncLeft(p.sources)(v.devs[d])
      ensures AspSync.ASP.step(v.devs[d], Clock(v.time)).1 ==>
        SyncLeft(p.sources)(w.devs[d]) < SyncLeft(p.sources)(v.devs[d])
    {
      SyncHears(p, v, d);
    }
  }

  lemma SyncHears(p: AspSync.Setup, v: SyncWorld, d: nat)
    requires AspSync.Proper(p) && AspSync.AspInv(p, v) && Quiet(v) && d < |v.devs|
    ensures var r := AspSync.Step(v.devs[d], Clock(v.time));
      && SyncLeft(p.sources)(r.0) <= SyncLeft(p.sources)(v.devs[d])
      && (r.1 ==> SyncLeft(p.sources)(r.0) < SyncLeft(p.sources)(v.devs[d]))
  {
    var s := v.devs[d].s;
    var all := AspGals.All(p.sources);
    AspSync.StepBits(p, v, d);
    AspSync.BitsBelow(p, v.time + 1, d);
    hide AspSync.Proper, AspSync.AspInv, AspSync.At, AspSync.DevOk;
    var r := AspSync.Step(v.devs[d], Clock(v.time));
    assert r.0.s.reaching == s.reaching + s.newReaching;
    AspGals.SubsetSize(all - r.0.s.reaching, all - s.reaching);
    if r.1 {
      var i :| i in s.newReaching - s.reaching;
      assert i in all - s.reaching && i !in all - r.0.s.reaching;
    }
  }

  lemma SyncLowers(p: AspSync.Setup, v: SyncWorld, w: SyncWorld)
    requires AspSync.Proper(p) && AspSync.AspInv(p, v) && Next(AspSync.ASP, p.g, v, w)
    ensures Lower(RankOf(w, SyncLeft(p.sources)), RankOf(v, SyncLeft(p.sources)))
  {
    hide AspSync.Proper, AspSync.AspInv, Sends, Receives, Replies, Steps, Ends, RankOf, Lower;
    if d :| Sends(AspSync.ASP, p.g, v, w, d) {
      SyncSend(p, v, w, d);
      SendLowers(AspSync.ASP, p.g, SyncLeft(p.sources), v, w, d);
    } else if m :| Receives(AspSync.ASP, v, w, m) {
      SyncReceive(v, w, m);
      ReceiveLowers(AspSync.ASP, SyncLeft(p.sources), v, w, m);
    } else if d :| Replies(AspSync.ASP, v, w, d) {
      SyncReply(v, w, d);
      ReplyLowers(AspSync.ASP, SyncLeft(p.sources), v, w, d);
    } else if Steps(AspSync.ASP, v, w) {
      SyncStep(p, v, w);
      StepLowers(AspSync.ASP, SyncLeft(p.sources), v, w);
    } else {
      EndLowers(SyncLeft(p.sources), v, w);
    }
  }

  lemma SyncEnding(p: AspSync.Setup)
    requires AspSync.Proper(p)
    ensures Ending(AspSync.ASP, p.g, p.memory, SyncLeft(p.sources))
  {
    hide AspSync.Proper, Reach, Begin, RankOf, Lower, Next;
    forall v, w | Reachable(AspSync.ASP, p.g, p.memory, v) && Next(AspSync.ASP, p.g, v, w)
      ensures Lower(RankOf(w, SyncLeft(p.sources)), RankOf(v, SyncLeft(p.sources)))
    {
      var n: nat :| Reach(AspSync.ASP, p.g, Begin(AspSync.ASP, p.memory), v, n);
      AspSync.AspRuns(p, v, n);
      SyncLowers(p, v, w);
    }
  }

  lemma SyncStops(p: AspSync.Setup, run: nat -> SyncWorld)
    requires AspSync.Proper(p) && run(0) == Begin(AspSync.ASP, p.memory)
    ensures exists j: nat :: !Proceeds(AspSync.ASP, p.g, run, j)
  {
    hide Ending, Proceeds;
    SyncEnding(p);
    MustStop(AspSync.ASP, p.g, p.memory, SyncLeft(p.sources), run);
  }

  // ---------------------------------------------------------------------
  // Least numbers: how far a vertex is from the least of all, and whether it has
  // something to say in the next step

  type MinWorld = World<HashMin.HashMinState, int, ()>

  function LeastStart(memory: seq<HashMin.HashMinDev>): int {
    if memory == [] then 0
    else
      var x := memory[|memory| - 1].s.min;
      if |memory| == 1 || x < LeastStart(memory[..|memory| - 1]) then x else LeastStart(memory[..|memory| - 1])
  }

  lemma {:induction false} LeastStartIs(memory: seq<HashMin.HashMinDev>, u: nat)
    requires u < |memory|
    ensures LeastStart(memory) <= memory[u].s.min
    decreases |memory|
  {
    if u < |memory| - 1 {
      LeastStartIs(memory[..|memory| - 1], u);
    }
  }

  function MinLeft(least: int): HashMin.HashMinDev -> nat {
    (dev: HashMin.HashMinDev) =>
      (if dev.s.min > least then 2 * (dev.s.min - least) else 0) + if dev.s.changed then 1 else 0
  }

  lemma MinSend(p: HashMin.Setup, v: MinWorld, w: MinWorld, d: nat)
    requires Sends(HashMin.HASHMIN, p.g, v, w, d)
    ensures w.devs[d] == Dev(No, v.devs[d].s)
  {
    hide OnEdges;
  }

  lemma MinAbove(p: HashMin.Setup, v: MinWorld, m: Msg<int, ()>)
    requires HashMin.MinInv(p, v) && m in v.air && m.Deliver? && m.to < |p.g|
    ensures LeastStart(p.memory) <= m.payload
  {
    hide LeastStart, HashMin.Reaches, HashMin.Told;
    assert HashMin.Comes(p, m.payload, m.to);
    var u: nat :| u < |p.memory| && p.memory[u].s.min == m.payload;
    LeastStartIs(p.memory, u);
  }

  lemma MinSize(p: HashMin.Setup, v: MinWorld)
    requires HashMin.MinInv(p, v)
    ensures |v.devs| == |p.g|
  {
    hide HashMin.Told, HashMin.Comes;
  }

  lemma MinReceive(p: HashMin.Setup, v: MinWorld, w: MinWorld, m: Msg<int, ()>)
    requires HashMin.MinInv(p, v) && Receives(HashMin.HASHMIN, v, w, m)
    ensures var left := MinLeft(LeastStart(p.memory));
      || left(w.devs[m.to]) < left(v.devs[m.to])
      || (left(w.devs[m.to]) == left(v.devs[m.to]) && w.devs[m.to].rts == v.devs[m.to].rts)
  {
    hide LeastStart, HashMin.MinInv;
    assert m.to < |p.g| by { MinSize(p, v); }
    MinAbove(p, v, m);
    assert w.devs[m.to] == HashMin.Recv(v.devs[m.to], m.payload, m.edge, Clock(v.time));
  }

  lemma MinReply(v: MinWorld, w: MinWorld, d: nat)
    requires Replies(HashMin.HASHMIN, v, w, d)
    ensures w.devs[d] == v.devs[d]
  {
    assert HashMin.HASHMIN.finish(v.devs[d], Clock(v.time)).0 == v.devs[d];
  }

  lemma MinStep(p: HashMin.Setup, v: MinWorld, w: MinWorld)
    requires Steps(HashMin.HASHMIN, v, w)
    ensures var left := MinLeft(LeastStart(p.memory));
      && (forall d | 0 <= d < |v.devs| :: left(w.devs[d]) <= left(v.devs[d]))
      && (w.active ==> exists d :: 0 <= d < |v.devs| && left(w.devs[d]) < left(v.devs[d]))
  {
    hide LeastStart;
    var left := MinLeft(LeastStart(p.memory));
    forall d | 0 <= d < |v.devs|
      ensures left(w.devs[d]) <= left(v.devs[d])
      ensures HashMin.HASHMIN.step(v.devs[d], Clock(v.time)).1 ==> left(w.devs[d]) < left(v.devs[d])
    {
      assert w.devs[d] == HashMin.Step(v.devs[d], Clock(v.time)).0;
    }
  }

  lemma MinLowers(p: HashMin.Setup, v: MinWorld, w: MinWorld)
    requires HashMin.Proper(p) && HashMin.MinInv(p, v) && Next(HashMin.HASHMIN, p.g, v, w)
    ensures Lower(RankOf(w, MinLeft(LeastStart(p.memory))), RankOf(v, MinLeft(LeastStart(p.memory))))
  {
    hide HashMin.Proper, HashMin.MinInv, Sends, Receives, Replies, Steps, Ends, RankOf, Lower;
    if d :| Sends(HashMin.HASHMIN, p.g, v, w, d) {
      MinSend(p, v, w, d);
      SendLowers(HashMin.HASHMIN, p.g, MinLeft(LeastStart(p.memory)), v, w, d);
    } else if m :| Receives(HashMin.HASHMIN, v, w, m) {
      MinReceive(p, v, w, m);
      ReceiveLowers(HashMin.HASHMIN, MinLeft(LeastStart(p.memory)), v, w, m);
    } else if d :| Replies(HashMin.HASHMIN, v, w, d) {
      MinReply(v, w, d);
      ReplyLowers(HashMin.HASHMIN, MinLeft(LeastStart(p.memory)), v, w, d);
    } else if Steps(HashMin.HASHMIN, v, w) {
      MinStep(p, v, w);
      StepLowers(HashMin.HASHMIN, MinLeft(LeastStart(p.memory)), v, w);
    } else {
      EndLowers(MinLeft(LeastStart(p.memory)), v, w);
    }
  }

  lemma MinEnding(p: HashMin.Setup)
    requires HashMin.Proper(p)
    ensures Ending(HashMin.HASHMIN, p.g, p.memory, MinLeft(LeastStart(p.memory)))
  {
    hide HashMin.Proper, Reach, Begin, RankOf, Lower, Next;
    forall v, w | Reachable(HashMin.HASHMIN, p.g, p.memory, v) && Next(HashMin.HASHMIN, p.g, v, w)
      ensures Lower(RankOf(w, MinLeft(LeastStart(p.memory))), RankOf(v, MinLeft(LeastStart(p.memory))))
    {
      var n: nat :| Reach(HashMin.HASHMIN, p.g, Begin(HashMin.HASHMIN, p.memory), v, n);
      HashMin.MinRuns(p, v, n);
      MinLowers(p, v, w);
    }
  }

  lemma MinStops(p: HashMin.Setup, run: nat -> MinWorld)
    requires HashMin.Proper(p) && run(0) == Begin(HashMin.HASHMIN, p.memory)
    ensures exists j: nat :: !Proceeds(HashMin.HASHMIN, p.g, run, j)
  {
    hide Ending, Proceeds;
    MinEnding(p);
    MustStop(HashMin.HASHMIN, p.g, p.memory, MinLeft(LeastStart(p.memory)), run);
  }

  // ---------------------------------------------------------------------
  // Pressure: the steps to come

  type PressWorld = World<Pressure.PressureState, Pressure.PressureMessage, nat>

  function PressLeft(dev: Pressure.PressureDev): nat { dev.s.numSteps }

  lemma PressSend(p: Pressure.Setup, coin: Pressure.Coin, v: PressWorld, w: PressWorld, d: nat)
    requires Sends(Pressure.PRESSURE(coin), p.g, v, w, d)
    ensures w.devs[d] == Dev(No, v.devs[d].s)
  {
    hide OnEdges;
  }

  lemma PressReceive(coin: Pressure.Coin, v: PressWorld, w: PressWorld,
                     m: Msg<Pressure.PressureMessage, nat>)
    requires Receives(Pressure.PRESSURE(coin), v, w, m)
    ensures PressLeft(w.devs[m.to]) == PressLeft(v.devs[m.to]) && w.devs[m.to].rts == v.devs[m.to].rts
  {
    assert w.devs[m.to] == Pressure.Recv(coin, v.devs[m.to], m.payload, m.edge, Clock(v.time));
  }

  lemma PressReply(coin: Pressure.Coin, v: PressWorld, w: PressWorld, d: nat)
    requires Replies(Pressure.PRESSURE(coin), v, w, d)
    ensures w.devs[d] == v.devs[d]
  {
    assert Pressure.PRESSURE(coin).finish(v.devs[d], Clock(v.time)).0 == v.devs[d];
  }

  lemma PressStep(coin: Pressure.Coin, v: PressWorld, w: PressWorld)
    requires Steps(Pressure.PRESSURE(coin), v, w)
    ensures forall d | 0 <= d < |v.devs| :: PressLeft(w.devs[d]) <= PressLeft(v.devs[d])
    ensures w.active ==> exists d :: 0 <= d < |v.devs| && PressLeft(w.devs[d]) < PressLeft(v.devs[d])
  {
    forall d | 0 <= d < |v.devs|
      ensures PressLeft(w.devs[d]) <= PressLeft(v.devs[d])
      ensures Pressure.PRESSURE(coin).step(v.devs[d], Clock(v.time)).1 ==> PressLeft(w.devs[d]) < PressLeft(v.devs[d])
    {
      assert w.devs[d] == Pressure.Step(v.devs[d], Clock(v.time)).0;
    }
  }

  lemma PressLowers(p: Pressure.Setup, coin: Pressure.Coin, v: PressWorld, w: PressWorld)
    requires Pressure.Proper(p) && Pressure.PressInv(p, v) && Next(Pressure.PRESSURE(coin), p.g, v, w)
    ensures Lower(RankOf(w, PressLeft), RankOf(v, PressLeft))
  {
    hide Pressure.Proper, Pressure.PressInv, Sends, Receives, Replies, Steps, Ends, RankOf, Lower, Pressure.PRESSURE;
    if d :| Sends(Pressure.PRESSURE(coin), p.g, v, w, d) {
      PressSend(p, coin, v, w, d);
      SendLowers(Pressure.PRESSURE(coin), p.g, PressLeft, v, w, d);
    } else if m :| Receives(Pressure.PRESSURE(coin), v, w, m) {
      PressReceive(coin, v, w, m);
      ReceiveLowers(Pressure.PRESSURE(coin), PressLeft, v, w, m);
    } else if d :| Replies(Pressure.PRESSURE(coin), v, w, d) {
      PressReply(coin, v, w, d);
      ReplyLowers(Pressure.PRESSURE(coin), PressLeft, v, w, d);
    } else if Steps(Pressure.PRESSURE(coin), v, w) {
      PressStep(coin, v, w);
      StepLowers(Pressure.PRESSURE(coin), PressLeft, v, w);
    } else {
      EndLowers(PressLeft, v, w);
    }
  }

  lemma PressEnding(p: Pressure.Setup, coin: Pressure.Coin)
    requires Pressure.Proper(p)
    ensures Ending(Pressure.PRESSURE(coin), p.g, p.memory, PressLeft)
  {
    hide Pressure.Proper, Reach, Begin, RankOf, Lower, Next, Pressure.PRESSURE;
    forall v, w | Reachable(Pressure.PRESSURE(coin), p.g, p.memory, v) && Next(Pressure.PRESSURE(coin), p.g, v, w)
      ensures Lower(RankOf(w, PressLeft), RankOf(v, PressLeft))
    {
      var n: nat :| Reach(Pressure.PRESSURE(coin), p.g, Begin(Pressure.PRESSURE(coin), p.memory), v, n);
      Pressure.PressRuns(p, coin, v, n);
      PressLowers(p, coin, v, w);
    }
  }

  lemma PressStops(p: Pressure.Setup, coin: Pressure.Coin, run: nat -> PressWorld)
    requires Pressure.Proper(p) && run(0) == Begin(Pressure.PRESSURE(coin), p.memory)
    ensures exists j: nat :: !Proceeds(Pressure.PRESSURE(coin), p.g, run, j)
  {
    hide Ending, Proceeds;
    PressEnding(p, coin);
    MustStop(Pressure.PRESSURE(coin), p.g, p.memory, PressLeft, run);
  }
}
