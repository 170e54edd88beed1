/** The write sequences of the two feedback animations of the coffee-bar
    light, as lists of requests to one state URL. */
module Animations {
  import opened Wrappers
  import opened Http

  const MIN_BRIGHTNESS := 20
  /** Brightness of the bright half of an acknowledgement pulse. */
  const ACK_BRIGHTNESS := 110

  /** A frame of an animation: the light on at brightness `bri`. */
  function Frame(url: string, bri: int): Request
  {
    Put(url, Payload(Some(true), Some(bri)))
  }

  /** The write that puts the light back to a remembered `on`/`bri`. */
  function Restore(url: string, on: bool, bri: int): Request
  {
    Put(url, Payload(Some(on), Some(bri)))
  }

  /** Base brightness of the listening pulse: max(MIN_BRIGHTNESS, bri). */
  function ListeningBase(bri: int): int
  {
    if bri < MIN_BRIGHTNESS then MIN_BRIGHTNESS else bri
  }

  /** One cycle of the listening pulse: frames b + 20*x for x in range(2),
      then for x in reversed(range(1)). */
  function Cycle(url: string, b: int): seq<Request>
  {
    [Frame(url, b), Frame(url, b + 20), Frame(url, b)]
  }

  /** `k` cycles of the listening pulse, one after the other. */
  function Cycles(url: string, b: int, k: nat): (r: seq<Request>)
    ensures |r| == 3 * k
    decreases k
  {
    if k == 0 then [] else Cycle(url, b) + Cycles(url, b, k - 1)
  }

  /** Everything the listening thread writes when it finds its stop event
      clear `k` times: `k` cycles at base `b`, then the restore of the state
      captured when the thread object was built. */
  function ListeningPlan(url: string, b: int, k: nat, origOn: bool, origBri: int): seq<Request>
  {
    Cycles(url, b, k) + [Restore(url, origOn, origBri)]
  }

  /** `n` acknowledgement pulses: bright, then dim. */
  function Pulses(url: string, n: nat): seq<Request>
    decreases n
  {
    if n == 0 then [] else [Frame(url, ACK_BRIGHTNESS), Frame(url, MIN_BRIGHTNESS)] + Pulses(url, n - 1)
  }

  /** Everything `acknowledge` writes: two pulses, then the state read by
      its refresh. */
  function AckPlan(url: string, on: bool, bri: int): seq<Request>
  {
    Pulses(url, 2) + [Restore(url, on, bri)]
  }

  /** Frame i of k cycles is frame i mod 3 of one cycle. */
  lemma {:induction false} CyclesAt(url: string, b: int, k: nat, i: nat)
    requires i < 3 * k
    ensures Cycles(url, b, k)[i] == Cycle(url, b)[i % 3]
    decreases k
  {
    var c, more := Cycle(url, b), Cycles(url, b, k - 1);
    assert Cycles(url, b, k) == c + more;
    if i < 3 {
      assert i % 3 == i;
    } else {
      CyclesAt(url, b, k - 1, i - 3);
      assert (i - 3) % 3 == i % 3;
      assert (c + more)[i] == more[i - 3];
    }
  }

  /** Every frame of the listening pulse turns the light on, at a brightness
      between MIN_BRIGHTNESS and b + 20; the last write is the restore. */
  lemma ListeningFramesBounded(url: string, bri: int, k: nat, origOn: bool, origBri: int)
    ensures var b := ListeningBase(bri);
      var plan := ListeningPlan(url, b, k, origOn, origBri);
      |plan| == 3 * k + 1 &&
      plan[3 * k] == Restore(url, origOn, origBri) &&
      forall i :: 0 <= i < 3 * k ==>
        plan[i].url == url && plan[i].payload.on == Some(true) &&
        plan[i].payload.bri.Some? && MIN_BRIGHTNESS <= plan[i].payload.bri.value <= b + 20
  {
    var b := ListeningBase(bri);
    var plan := ListeningPlan(url, b, k, origOn, origBri);
    forall i | 0 <= i < 3 * k
      ensures plan[i].url == url && plan[i].payload.on == Some(true) &&
        plan[i].payload.bri.Some? && MIN_BRIGHTNESS <= plan[i].payload.bri.value <= b + 20
    {
      CyclesAt(url, b, k, i);
    }
  }

  /** The pulse stays within the 0..255 brightness range of the gateway
      exactly when it runs no cycle or the base is at most 235. */
  lemma ListeningWithinRange(url: string, bri: int, k: nat, origOn: bool, origBri: int)
    ensures var plan := ListeningPlan(url, ListeningBase(bri), k, origOn, origBri);
      (forall i :: 0 <= i < 3 * k ==>
         plan[i].payload.bri.Some? && 0 <= plan[i].payload.bri.value <= 255)
      <==> (k == 0 || bri <= 235)
  {
    var b := ListeningBase(bri);
    var plan := ListeningPlan(url, b, k, origOn, origBri);
    if k > 0 {
      CyclesAt(url, b, k, 1);
      assert plan[1].payload.bri == Some(b + 20);
    }
    ListeningFramesBounded(url, bri, k, origOn, origBri);
  }

  /** When no reply raises, the last write of the listening thread puts back
      the state captured when the thread object was built. */
  lemma ListeningEndsRestored(url: string, b: int, k: nat, origOn: bool, origBri: int,
                              pos: nat, rejected: set<nat>)
    requires !Failed(ListeningPlan(url, b, k, origOn, origBri), pos, rejected)
    ensures var s := Sent(ListeningPlan(url, b, k, origOn, origBri), pos, rejected);
      |s| == 3 * k + 1 && s[|s| - 1] == Restore(url, origOn, origBri)
  {
    SentAll(ListeningPlan(url, b, k, origOn, origBri), pos, rejected);
  }

  /** The acknowledgement writes bright, dim, bright, dim at full on, then
      the remembered state, whatever that state is. */
  lemma AckPlanShape(url: string, on: bool, bri: int)
    ensures AckPlan(url, on, bri) ==
      [Frame(url, 110), Frame(url, 20), Frame(url, 110), Frame(url, 20), Restore(url, on, bri)]
  {
  }
}
