/** The generator, the ring and the sender together. */
module PacketDelivery {
  import opened TrafficProfile
  import opened PacketCursor
  import opened PacketSchedule
  import opened PacketFactory

  /** From the rate profile to the sender, through the ring: what the sender has received
      at any time is the beginning of the schedule of the unrolled profile, so its
      timestamps strictly increase and stay before the deadline. */
  lemma SenderFollowsProfile(net: NetType, p: seq<TPoint>, deadline: nat, points: seq<TPoint>, moves: seq<Move>)
    requires Usable(p) && SanePoints(p) && p[0].ts < deadline as real
    requires IsUnrolling(p, deadline, points)
    ensures CursorOk(Start(points, deadline))
    ensures var plan := Schedule(points, deadline).packets;
            var received := Travel(Begin(BUFFER_CAPACITY), plan, BufferDepth(net), moves).s.ring.popped;
            received <= plan && InOrder(received, -1, deadline * 1_000_000_000)
  {
    ProfileToPackets(p, deadline, points);
    hide SystemOk, Travel, Schedule, Begin, BufferDepth;
    var plan := Schedule(points, deadline).packets;
    BufferNeverOverflows(net, plan, moves);
    var received := Travel(Begin(BUFFER_CAPACITY), plan, BufferDepth(net), moves).s.ring.popped;
    InOrderPrefix(received, plan, deadline * 1_000_000_000);
  }

  lemma InOrderPrefix(a: seq<TimedPacket>, b: seq<TimedPacket>, horizon: nat)
    requires a <= b && InOrder(b, -1, horizon)
    ensures InOrder(a, -1, horizon)
  {
    forall i | 0 <= i < |a| ensures a[i] == b[i] {
    }
  }
}
