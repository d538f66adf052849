/** The health verdict of one tunnel: the update pingLoop applies after each ping. */
module Health {
  import opened Wrappers
  import opened Model

  datatype Ping = Reply(ms: nat) | Lost

  datatype Event = Up | Down

  // The tunnel after one ping outcome has been recorded.
  function OnPing(t: Tunnel, p: Ping): Tunnel {
    match p
    case Lost =>
      var f := t.failures + 1;
      t.(failures := f, latency := if f >= MAX_FAILURES && t.latency >= 0 then -1 else t.latency)
    case Reply(ms) =>
      t.(failures := 0, latency := ms)
  }

  // The tunnel_up and tunnel_down events that go with it.
  function EventOf(t: Tunnel, p: Ping): Option<Event> {
    match p
    case Lost => if t.failures + 1 >= MAX_FAILURES && t.latency >= 0 then Some(Down) else None
    case Reply(_) => if t.latency < 0 then Some(Up) else None
  }

  // One incarnation of a tunnel: created by startOne, then pinged.
  function Replay(t: Tunnel, ps: seq<Ping>): Tunnel {
    if ps == [] then t else OnPing(Replay(t, ps[..|ps| - 1]), ps[|ps| - 1])
  }

  function Events(t: Tunnel, ps: seq<Ping>): seq<Event> {
    if ps == [] then []
    else
      var before := Events(t, ps[..|ps| - 1]);
      match EventOf(Replay(t, ps[..|ps| - 1]), ps[|ps| - 1])
      case None => before
      case Some(e) => before + [e]
  }

  predicate Fresh(t: Tunnel) {
    t.latency == -1 && t.failures == 0
  }

  // ---------------------------------------------------------------- the sliding window

  // One of the last three outcomes was a reply.
  predicate RecentReply(ps: seq<Ping>) {
    exists i | 0 <= i < |ps| :: |ps| - 3 <= i && ps[i].Reply?
  }

  // The most recent reply, if there is one.
  function LastReply(ps: seq<Ping>): Option<nat> {
    if ps == [] then None
    else match ps[|ps| - 1]
      case Reply(ms) => Some(ms)
      case Lost => LastReply(ps[..|ps| - 1])
  }

  function TrailingLost(ps: seq<Ping>): (n: nat)
    ensures n <= |ps|
    ensures forall i | |ps| - n <= i < |ps| :: ps[i].Lost?
    ensures n < |ps| ==> ps[|ps| - n - 1].Reply?
  {
    if ps == [] || ps[|ps| - 1].Reply? then 0 else TrailingLost(ps[..|ps| - 1]) + 1
  }

  // The counter and the verdict are functions of the recent outcomes alone.
  ghost predicate Tracks(t: Tunnel, ps: seq<Ping>) {
    && t.failures == TrailingLost(ps)
    && (t.latency >= 0 <==> RecentReply(ps))
    && (t.latency >= 0 ==> LastReply(ps) == Some(t.latency))
  }

  lemma RecentReplyCounts(ps: seq<Ping>)
    ensures RecentReply(ps) <==> TrailingLost(ps) < |ps| && TrailingLost(ps) < 3
  {
    var n := TrailingLost(ps);
    if n < |ps| && n < 3 {
      assert ps[|ps| - n - 1].Reply?;
    }
  }

  // Recording one more outcome slides the window by one.
  lemma OnPingTracks(t: Tunnel, ps: seq<Ping>, p: Ping)
    requires Tracks(t, ps)
    ensures Tracks(OnPing(t, p), ps + [p])
  {
    var qs := ps + [p];
    assert qs[..|ps|] == ps && qs[|ps|] == p;
    RecentReplyCounts(ps);
    RecentReplyCounts(qs);
  }

  // Over any history of one incarnation: alive exactly when one of the last three pings was
  // answered, with the latency of the most recent answer, so at most two failures are pending.
  lemma {:induction false} HealthIsWindow(t: Tunnel, ps: seq<Ping>)
    requires Fresh(t)
    ensures Tracks(Replay(t, ps), ps)
    ensures Replay(t, ps).latency >= 0 <==> exists i | 0 <= i < |ps| :: i >= |ps| - 3 && ps[i].Reply?
    ensures Replay(t, ps).latency >= 0 ==> Replay(t, ps).failures <= 2
    ensures Replay(t, ps) == t.(latency := Replay(t, ps).latency, failures := Replay(t, ps).failures)
  {
    if ps == [] {
      assert !RecentReply(ps);
    } else {
      var n := |ps| - 1;
      HealthIsWindow(t, ps[..n]);
      OnPingTracks(Replay(t, ps[..n]), ps[..n], ps[n]);
      assert ps[..n] + [ps[n]] == ps;
    }
    RecentReplyCounts(ps);
  }

  // One outcome: a loss counts, and the third or a later one turns a good verdict; an answer clears
  // the count and is the latency. Each turn of the verdict, and nothing else, is an event.
  lemma OutcomeMeans(t: Tunnel, p: Ping)
    ensures var t' := OnPing(t, p);
            && t' == t.(failures := t'.failures, latency := t'.latency)
            && (p.Reply? ==> t'.failures == 0 && t'.latency == p.ms)
            && (p.Lost? ==> t'.failures == t.failures + 1)
            && (p.Lost? ==> t'.latency == if t.failures >= 2 && t.latency >= 0 then -1 else t.latency)
    ensures EventOf(t, p) == Some(Up) <==> t.latency < 0 && OnPing(t, p).latency >= 0
    ensures EventOf(t, p) == Some(Down) <==> t.latency >= 0 && OnPing(t, p).latency < 0
  {
  }

  // After an answer, two losses keep the verdict and its latency; the third turns it, with the event.
  lemma ThirdLossTurns(t: Tunnel, ms: nat)
    ensures var t0 := OnPing(t, Reply(ms));
            var t1 := OnPing(t0, Lost);
            var t2 := OnPing(t1, Lost);
            && t0.latency == t1.latency == t2.latency == ms
            && EventOf(t0, Lost) == EventOf(t1, Lost) == None
            && OnPing(t2, Lost).latency == -1 && EventOf(t2, Lost) == Some(Down)
            && EventOf(OnPing(t2, Lost), Lost) == None
            && EventOf(OnPing(t2, Lost), Reply(ms)) == Some(Up)
  {
  }

  // Up and down events strictly alternate, starting with up.
  lemma {:induction false} EventsAlternate(t: Tunnel, ps: seq<Ping>)
    requires Fresh(t)
    ensures forall i | 0 <= i < |Events(t, ps)| :: Events(t, ps)[i] == if i % 2 == 0 then Up else Down
    ensures Replay(t, ps).latency >= 0 <==> |Events(t, ps)| % 2 == 1
  {
    if ps != [] {
      EventsAlternate(t, ps[..|ps| - 1]);
    }
  }
}
