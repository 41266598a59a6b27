/**
 * The sequence-number protocol of `packages/api/src/ws/snapshots.ts`: one counter and one baseline
 * for all clients, full snapshots to one client at a time, deltas to whoever can take them.
 */
module SnapshotChannel {
  import opened Envelope
  import opened EnvelopeLaws

  datatype Message =
    | Snapshot(seqNo: nat, payload: SnapshotPayload)
    | Tick(seqNo: nat, delta: TickPayload)

  const EMPTY_PAYLOAD := SnapshotPayload([], Some([]), [], [], [])

  function BaselineOf(baseline: Option<SnapshotPayload>): SnapshotPayload {
    if baseline.Some? then baseline.value else EMPTY_PAYLOAD
  }

  // ----- The server ------------------------------------------------------------------------

  class SnapshotSocket {
    var seqNo: nat
    var baseline: Option<SnapshotPayload>

    constructor ()
      ensures seqNo == 0 && baseline == None
    {
      seqNo, baseline := 0, None;
    }

    /** A connect or a resync: a fresh payload becomes everyone's baseline, one client gets it. */
    method SendSnapshot(current: SnapshotPayload) returns (m: Message)
      modifies this
      ensures seqNo == old(seqNo) + 1 && baseline == Some(current) && m == Snapshot(seqNo, current)
    {
      baseline := Some(current);
      seqNo := seqNo + 1;
      m := Snapshot(seqNo, current);
    }

    /** One delta against the baseline for all clients; the payload becomes the new baseline. */
    method Broadcast(current: SnapshotPayload) returns (m: Message)
      modifies this
      ensures seqNo == old(seqNo) + 1 && baseline == Some(current)
      ensures m == Tick(seqNo, Delta(BaselineOf(old(baseline)), current))
    {
      var prev := if baseline.Some? then baseline.value else EMPTY_PAYLOAD;
      baseline := Some(current);
      var delta := DiffTick(prev, current);
      seqNo := seqNo + 1;
      m := Tick(seqNo, delta);
    }
  }

  // ----- Clients -----------------------------------------------------------------------------

  type ClientId = nat

  /** A client that has its snapshot: the last number it saw, whether one was missing since, its picture. */
  datatype Client = Waiting | Following(lastSeq: nat, gap: bool, view: View)

  function Receive(c: Client, m: Message): Client {
    match m
    case Snapshot(seqNo, payload) => Following(seqNo, false, Picture(payload))
    case Tick(seqNo, delta) =>
      if c.Waiting? then c
      else Following(seqNo, c.gap || seqNo != c.lastSeq + 1, Patch(c.view, delta))
  }

  // ----- The channel as steps -----------------------------------------------------------------

  /** `sent` is the payload the server held at each number handed out so far. */
  datatype Channel = Channel(sent: seq<SnapshotPayload>, clients: map<ClientId, Client>)

  /**
   * A handler's baseline write, counter bump and send as one step. `open` says whether the one
   * client could be sent to; `reached` are the clients of a broadcast that were neither closed nor
   * backed up.
   */
  datatype Event =
    | Connect(client: ClientId)
    | Disconnect(client: ClientId)
    | SnapshotTo(client: ClientId, current: SnapshotPayload, sendable: bool)
    | BroadcastTo(current: SnapshotPayload, reached: set<ClientId>)

  function Baseline(ch: Channel): SnapshotPayload {
    if ch.sent == [] then EMPTY_PAYLOAD else ch.sent[|ch.sent| - 1]
  }

  function Step(ch: Channel, e: Event): Channel {
    match e
    case Connect(c) => if c in ch.clients then ch else ch.(clients := ch.clients[c := Waiting])
    case Disconnect(c) => ch.(clients := ch.clients - {c})
    case SnapshotTo(c, current, sendable) =>
      var n := |ch.sent| + 1;
      Channel(ch.sent + [current],
              if sendable && c in ch.clients then ch.clients[c := Receive(ch.clients[c], Snapshot(n, current))] else ch.clients)
    case BroadcastTo(current, reached) =>
      var m := Tick(|ch.sent| + 1, Delta(Baseline(ch), current));
      Channel(ch.sent + [current],
              map c | c in ch.clients :: if c in reached then Receive(ch.clients[c], m) else ch.clients[c])
  }

  function Run(ch: Channel, events: seq<Event>): Channel
    decreases events
  {
    if events == [] then ch else Run(Step(ch, events[0]), events[1..])
  }

  const SILENT := Channel([], map[])

  ghost predicate WellKeyedEvent(e: Event) {
    match e
    case SnapshotTo(_, current, _) => WellKeyed(current)
    case BroadcastTo(current, _) => WellKeyed(current)
    case _ => true
  }

  // ----- Without a gap the picture is current ---------------------------------------------------

  ghost predicate UpToDate(ch: Channel, c: Client) {
    c.Following? ==>
      && 1 <= c.lastSeq <= |ch.sent|
      && (!c.gap ==> Agrees(c.view, ch.sent[c.lastSeq - 1]))
  }

  ghost predicate AllUpToDate(ch: Channel) {
    forall id :: id in ch.clients ==> UpToDate(ch, ch.clients[id])
  }

  lemma OlderStaysUpToDate(ch: Channel, current: SnapshotPayload, c: Client)
    requires UpToDate(ch, c)
    ensures UpToDate(ch.(sent := ch.sent + [current]), c)
  {
    hide Agrees;
  }

  lemma TickKeepsUpToDate(ch: Channel, current: SnapshotPayload, c: Client, clients: map<ClientId, Client>)
    requires UpToDate(ch, c) && WellKeyed(current)
    ensures UpToDate(Channel(ch.sent + [current], clients), Receive(c, Tick(|ch.sent| + 1, Delta(Baseline(ch), current))))
  {
    hide Agrees, WellKeyed, Delta, Patch;
    if c.Following? && !c.gap && c.lastSeq == |ch.sent| {
      PatchRebuilds(c.view, Baseline(ch), current);
    }
  }

  lemma StepKeepsUpToDate(ch: Channel, e: Event)
    requires AllUpToDate(ch) && WellKeyedEvent(e)
    ensures AllUpToDate(Step(ch, e))
  {
    hide Agrees, WellKeyed, Delta, Patch, UpToDate, Receive;
    var t := Step(ch, e);
    forall id | id in t.clients ensures UpToDate(t, t.clients[id]) {
      match e
      case Connect(_) => QuietStep(ch, t, t.clients[id]);
      case Disconnect(_) => QuietStep(ch, t, t.clients[id]);
      case SnapshotTo(c, current, sendable) =>
        if id == c && sendable {
          SnapshotIsUpToDate(ch, current, ch.clients[id], t.clients);
        } else {
          OlderStaysUpToDate(ch, current, ch.clients[id]);
          QuietStep(ch.(sent := ch.sent + [current]), t, t.clients[id]);
        }
      case BroadcastTo(current, reached) =>
        if id in reached {
          TickKeepsUpToDate(ch, current, ch.clients[id], t.clients);
        } else {
          OlderStaysUpToDate(ch, current, ch.clients[id]);
          QuietStep(ch.(sent := ch.sent + [current]), t, t.clients[id]);
        }
    }
  }

  lemma QuietStep(ch: Channel, t: Channel, c: Client)
    requires c == Waiting || UpToDate(ch, c)
    requires t.sent == ch.sent
    ensures UpToDate(t, c)
  {
  }

  lemma SnapshotIsUpToDate(ch: Channel, current: SnapshotPayload, c: Client, clients: map<ClientId, Client>)
    ensures UpToDate(Channel(ch.sent + [current], clients), Receive(c, Snapshot(|ch.sent| + 1, current)))
  {
    PictureAgrees(current);
  }

  lemma {:induction false} RunKeepsUpToDate(ch: Channel, events: seq<Event>)
    requires AllUpToDate(ch) && forall e :: e in events ==> WellKeyedEvent(e)
    ensures AllUpToDate(Run(ch, events))
    decreases events
  {
    hide AllUpToDate, Step, WellKeyedEvent;
    if events != [] {
      StepKeepsUpToDate(ch, events[0]);
      RunKeepsUpToDate(Step(ch, events[0]), events[1..]);
    }
  }

  /**
   * In every run, a client that has seen no gap in the numbers since its snapshot shows the payload
   * the server held when it sent the last message the client received.
   */
  lemma NoGapMeansCurrent(events: seq<Event>, id: ClientId)
    requires forall e :: e in events ==> WellKeyedEvent(e)
    requires var ch := Run(SILENT, events); id in ch.clients && ch.clients[id].Following? && !ch.clients[id].gap
    ensures var ch := Run(SILENT, events);
      && 1 <= ch.clients[id].lastSeq <= |ch.sent|
      && Agrees(ch.clients[id].view, ch.sent[ch.clients[id].lastSeq - 1])
  {
    hide Run, Agrees;
    RunKeepsUpToDate(SILENT, events);
  }

  /** A snapshot that gets through heals its client: it is current again, whatever it had missed, and no other client changes. */
  lemma SnapshotHeals(ch: Channel, mine: ClientId, current: SnapshotPayload, other: ClientId)
    requires mine in ch.clients
    ensures var t := Step(ch, SnapshotTo(mine, current, true));
      && mine in t.clients && t.clients[mine].Following? && !t.clients[mine].gap
      && t.clients[mine].lastSeq == |t.sent| && Agrees(t.clients[mine].view, current)
      && t.sent == ch.sent + [current]
      && (other != mine ==> (other in t.clients <==> other in ch.clients) && (other in ch.clients ==> t.clients[other] == ch.clients[other]))
  {
    hide Agrees;
    PictureAgrees(current);
  }

  // ----- A missed number shows ------------------------------------------------------------------

  predicate TakesANumber(e: Event) { e.SnapshotTo? || e.BroadcastTo? }

  /** The event neither reaches the client nor removes it. */
  predicate PassesBy(e: Event, id: ClientId) {
    match e
    case Connect(_) => true
    case Disconnect(c) => c != id
    case SnapshotTo(c, _, sendable) => !(c == id && sendable)
    case BroadcastTo(_, reached) => id !in reached
  }

  lemma {:induction false} PassedBy(ch: Channel, events: seq<Event>, id: ClientId)
    requires id in ch.clients && forall e :: e in events ==> PassesBy(e, id)
    ensures var t := Run(ch, events);
      && id in t.clients && t.clients[id] == ch.clients[id] && |ch.sent| <= |t.sent|
      && (|ch.sent| < |t.sent| <==> exists e :: e in events && TakesANumber(e))
    decreases events
  {
    if events != [] {
      var next := Step(ch, events[0]);
      assert PassesBy(events[0], id);
      assert next.clients[id] == ch.clients[id];
      PassedBy(next, events[1..], id);
      assert forall e :: e in events <==> e == events[0] || e in events[1..];
    }
  }

  /**
   * However many events pass a following client by, its next tick marks a gap if and only if there was
   * one already, or some number was handed out that the client has not seen: a snapshot for another
   * client, a broadcast it was not reached by, a snapshot for itself that could not be sent.
   */
  lemma MissedNumbersShowAsGap(ch: Channel, events: seq<Event>, mine: ClientId, current: SnapshotPayload, reached: set<ClientId>)
    requires mine in ch.clients && ch.clients[mine].Following? && ch.clients[mine].lastSeq <= |ch.sent|
    requires mine in reached && forall e :: e in events ==> PassesBy(e, mine)
    ensures var before, t := ch.clients[mine], Step(Run(ch, events), BroadcastTo(current, reached));
      && mine in t.clients && t.clients[mine].Following?
      && (t.clients[mine].gap <==>
            before.gap || before.lastSeq < |ch.sent| || exists e :: e in events && TakesANumber(e))
  {
    hide Delta, Patch, Run, PassesBy;
    PassedBy(ch, events, mine);
  }
}
