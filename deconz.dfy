/** The device-control layer: a client bound to one light of the gateway,
    the coffee-bar light with its feedback animations, the thread that
    plays the listening pulse, and the coffee machine switch. */
module Deconz {
  import opened Wrappers
  import opened Http
  import opened Addressing
  import opened Animations

  /** The exceptions an operation of the layer can end with. */
  datatype Error =
    | AttributeError  // `_id` was never assigned (the collection GET failed)
    | ReadFailed      // the GET of the light's own state raised
    | HttpError       // a PUT was answered with a 4xx or 5xx status
    | AssertionError  // `acknowledge` was called while a thread is set

  datatype Outcome = Pass | Fail(error: Error)

  /** A client bound to one light, found by name when it is built. */
  class DeconzClient {
    const gateway: Gateway
    /** `_id`; None when the constructor returned before assigning it. */
    const id: Option<ResourceId>

    /** `collection` is the reply to GET {BASE_URL}: None for a status other
        than 200, else the entries of the decoded JSON object in order. */
    constructor (gateway: Gateway, name: string, collection: Option<seq<Entry>>)
      ensures this.gateway == gateway
      ensures collection.None? ==> id.None?
      ensures collection.Some? ==> id == Some(Resolve(collection.value, name))
    {
      this.gateway := gateway;
      if collection.None? {
        id := None;
      } else {
        id := Some(Resolve(collection.value, name));
      }
    }

    /** Sends `payload` unchanged to the state URL of the light. Without an
        id nothing is sent; a 4xx or 5xx reply raises after the request. */
    method SetState(payload: Payload) returns (outcome: Outcome)
      modifies gateway
      ensures id.None? ==> outcome == Fail(AttributeError) && gateway.sent == old(gateway.sent)
      ensures id.Some? ==>
        gateway.sent == old(gateway.sent) + [Put(StateUrl(id.value), payload)] &&
        outcome == (if |old(gateway.sent)| in gateway.rejected then Fail(HttpError) else Pass)
    {
      if id.None? {
        return Fail(AttributeError);
      }
      var ok := gateway.Put(StateUrl(id.value), payload);
      outcome := if ok then Pass else Fail(HttpError);
    }

    /** `_refresh`: the light's own state as returned by GET {BASE_URL}/{_id};
        `reply` is None when that read raises. */
    method Fetch(reply: Option<Snapshot>) returns (r: Result<Snapshot, Error>)
      ensures id.None? ==> r == Failure(AttributeError)
      ensures id.Some? && reply.None? ==> r == Failure(ReadFailed)
      ensures id.Some? && reply.Some? ==> r == Success(reply.value)
    {
      if id.None? {
        return Failure(AttributeError);
      }
      match reply
      case None => r := Failure(ReadFailed);
      case Some(s) => r := Success(s);
    }
  }

  /** The coffee machine: a switchable outlet. */
  class Kaffeemaschine {
    const client: DeconzClient

    constructor (gateway: Gateway, collection: Option<seq<Entry>>)
      ensures client.gateway == gateway
      ensures collection.None? ==> client.id.None?
      ensures collection.Some? ==> client.id == Some(Resolve(collection.value, "Kaffeemaschine"))
    {
      client := new DeconzClient(gateway, "Kaffeemaschine", collection);
    }

    /** Exactly one write, carrying only `on: true`. */
    method On() returns (outcome: Outcome)
      modifies client.gateway
      ensures client.gateway.sent == old(client.gateway.sent) +
        (if client.id.Some? then [Put(StateUrl(client.id.value), Payload(Some(true), None))] else [])
      ensures outcome == (if client.id.None? then Fail(AttributeError)
        else if |old(client.gateway.sent)| in client.gateway.rejected then Fail(HttpError)
        else Pass)
    {
      outcome := client.SetState(Payload(Some(true), None));
    }

    /** Exactly one write, carrying only `on: false`. */
    method Off() returns (outcome: Outcome)
      modifies client.gateway
      ensures client.gateway.sent == old(client.gateway.sent) +
        (if client.id.Some? then [Put(StateUrl(client.id.value), Payload(Some(false), None))] else [])
      ensures outcome == (if client.id.None? then Fail(AttributeError)
        else if |old(client.gateway.sent)| in client.gateway.rejected then Fail(HttpError)
        else Pass)
    {
      outcome := client.SetState(Payload(Some(false), None));
    }
  }

  /** The coffee-bar light, used as visual feedback. It is idle when
      `thread` is null and animating otherwise. */
  class KaffeeBarGui {
    const client: DeconzClient
    var on: bool
    var bri: int
    var thread: ShowListeningThread?

    /** The fields before the first refresh; only a client that has an id
        gets this far, the others fail in that refresh. */
    constructor (client: DeconzClient)
      requires client.id.Some?
      ensures this.client == client && !on && bri == 0 && thread == null
    {
      this.client := client;
      bri := 0;
      on := false;
      thread := null;
    }

    /** Idle when no listening thread is set, animating otherwise. */
    predicate Idle()
      reads this
    {
      thread == null
    }

    /** The state URL of the light. */
    function Url(): string
      requires client.id.Some?
    {
      StateUrl(client.id.value)
    }

    /** Reads the light's state into `on` and `bri`; nothing else changes. */
    method Refresh(reply: Option<Snapshot>) returns (outcome: Outcome)
      requires client.id.Some?
      modifies this`on, this`bri
      ensures reply.Some? ==>
        outcome == Pass && on == EqualsTrue(reply.value.on) && bri == reply.value.bri
      ensures reply.None? ==> outcome == Fail(ReadFailed) && on == old(on) && bri == old(bri)
    {
      var data := client.Fetch(reply);
      if data.Failure? {
        return Fail(data.error);
      }
      on := EqualsTrue(data.value.on);
      bri := data.value.bri;
      outcome := Pass;
    }

    /** Starts a new listening thread, replacing `thread` without stopping
        the one it held. */
    method ShowListening()
      modifies this`thread
      ensures fresh(thread) && !Idle()
      ensures thread.gui == this && thread.origOn == on && thread.origBri == bri
      ensures thread.started && !thread.stop
      ensures old(thread) != null ==> unchanged(old(thread))
    {
      thread := new ShowListeningThread(this);
      thread.Start();
    }

    /** Signals the current thread, if any, to stop, forgets it without
        waiting for it, and refreshes. No write is sent. */
    method Done(reply: Option<Snapshot>) returns (outcome: Outcome)
      requires client.id.Some?
      modifies this`on, this`bri, this`thread, thread
      ensures Idle()
      ensures old(thread) != null ==> old(thread).stop && old(thread).started == old(thread.started)
      ensures reply.Some? ==>
        outcome == Pass && on == EqualsTrue(reply.value.on) && bri == reply.value.bri
      ensures reply.None? ==> outcome == Fail(ReadFailed) && on == old(on) && bri == old(bri)
    {
      if thread != null {
        thread.stop := true;
        thread := null;
      }
      outcome := Refresh(reply);
    }

    /** Refreshes, then blinks twice (bright, dim) and writes back the
        refreshed state. Refused while a thread is set; a failed refresh
        sends nothing; a reply that raises ends the sequence. */
    method Acknowledge(reply: Option<Snapshot>) returns (outcome: Outcome)
      requires client.id.Some?
      modifies this`on, this`bri, client.gateway
      ensures !old(Idle()) ==>
        outcome == Fail(AssertionError) && on == old(on) && bri == old(bri) &&
        client.gateway.sent == old(client.gateway.sent)
      ensures old(Idle()) && reply.None? ==>
        outcome == Fail(ReadFailed) && on == old(on) && bri == old(bri) &&
        client.gateway.sent == old(client.gateway.sent)
      ensures old(Idle()) && reply.Some? ==>
        on == EqualsTrue(reply.value.on) && bri == reply.value.bri &&
        var plan := AckPlan(Url(), on, bri);
        var pos := |old(client.gateway.sent)|;
        client.gateway.sent == old(client.gateway.sent) + Sent(plan, pos, client.gateway.rejected) &&
        outcome == (if Failed(plan, pos, client.gateway.rejected) then Fail(HttpError) else Pass)
    {
      if !Idle() {
        return Fail(AssertionError);
      }
      outcome := Refresh(reply);
      if outcome.Fail? {
        return;
      }
      outcome := Blink(on, bri);
    }

    /** The writes of `acknowledge` after its refresh: two pulses, bright
        then dim, and the restore of `origOn`/`origBri`. */
    method Blink(origOn: bool, origBri: int) returns (outcome: Outcome)
      requires client.id.Some?
      modifies client.gateway
      ensures var plan, pos := AckPlan(Url(), origOn, origBri), |old(client.gateway.sent)|;
        client.gateway.sent == old(client.gateway.sent) + Sent(plan, pos, client.gateway.rejected) &&
        outcome == (if Failed(plan, pos, client.gateway.rejected) then Fail(HttpError) else Pass)
    {
      var orig := Payload(Some(origOn), Some(origBri));
      ghost var gateway, url := client.gateway, Url();
      ghost var restore := Restore(url, origOn, origBri);
      ghost var plan := AckPlan(url, origOn, origBri);
      ghost var whole, failed := gateway.sent + Sent(plan, |gateway.sent|, gateway.rejected),
        Failed(plan, |gateway.sent|, gateway.rejected);
      ghost var rest := plan;
      for i := 0 to 2
        invariant rest == Pulses(url, 2 - i) + [restore]
        invariant whole == gateway.sent + Sent(rest, |gateway.sent|, gateway.rejected)
        invariant failed == Failed(rest, |gateway.sent|, gateway.rejected)
      {
        ghost var next := Pulses(url, 1 - i) + [restore];
        ghost var log := gateway.sent;
        assert rest == [Frame(url, ACK_BRIGHTNESS)] + ([Frame(url, MIN_BRIGHTNESS)] + next);
        outcome := client.SetState(Payload(Some(true), Some(ACK_BRIGHTNESS)));
        SendNext(whole, failed, log, Frame(url, ACK_BRIGHTNESS), [Frame(url, MIN_BRIGHTNESS)] + next, gateway.rejected);
        if outcome.Fail? {
          return;
        }
        log := gateway.sent;
        outcome := client.SetState(Payload(Some(true), Some(MIN_BRIGHTNESS)));
        SendNext(whole, failed, log, Frame(url, MIN_BRIGHTNESS), next, gateway.rejected);
        if outcome.Fail? {
          return;
        }
        rest := next;
      }
      ghost var log := gateway.sent;
      assert rest == [restore] + [];
      outcome := client.SetState(orig);
      SendNext(whole, failed, log, restore, [], gateway.rejected);
    }
  }

  /** The thread that pulses the light while the assistant listens. */
  class ShowListeningThread {
    const gui: KaffeeBarGui
    /** The stop event. */
    var stop: bool
    /** Whether `start()` has been called. */
    var started: bool
    /** The light's state as the gui held it when the thread was built. */
    const origOn: bool
    const origBri: int

    constructor (gui: KaffeeBarGui)
      ensures this.gui == gui && !stop && !started
      ensures origOn == gui.on && origBri == gui.bri
    {
      this.gui := gui;
      stop := false;
      started := false;
      origOn := gui.on;
      origBri := gui.bri;
    }

    method Start()
      modifies this`started
      ensures started
    {
      started := true;
    }

    /** The thread body, for a run in which the stop event is found clear
        `k` times: `k` pulse cycles around max(MIN_BRIGHTNESS, gui.bri),
        then the restore of the captured state. A reply that raises ends
        the thread at once, without the restore. */
    method Run(k: nat) returns (outcome: Outcome)
      requires gui.client.id.Some?
      modifies gui.client.gateway
      ensures var plan := ListeningPlan(gui.Url(), ListeningBase(gui.bri), k, origOn, origBri);
        var pos := |old(gui.client.gateway.sent)|;
        gui.client.gateway.sent == old(gui.client.gateway.sent) + Sent(plan, pos, gui.client.gateway.rejected) &&
        outcome == (if Failed(plan, pos, gui.client.gateway.rejected) then Fail(HttpError) else Pass)
    {
      var b := ListeningBase(gui.bri);
      ghost var gateway, url := gui.client.gateway, gui.Url();
      ghost var restore := Restore(url, origOn, origBri);
      ghost var plan := ListeningPlan(url, b, k, origOn, origBri);
      ghost var whole, failed := gateway.sent + Sent(plan, |gateway.sent|, gateway.rejected),
        Failed(plan, |gateway.sent|, gateway.rejected);
      ghost var rest := plan;
      var cycle := 0;
      while cycle < k
        invariant cycle <= k
        invariant rest == Cycles(url, b, k - cycle) + [restore]
        invariant whole == gateway.sent + Sent(rest, |gateway.sent|, gateway.rejected)
        invariant failed == Failed(rest, |gateway.sent|, gateway.rejected)
      {
        ghost var log, tail := gateway.sent, Cycles(url, b, k - cycle - 1) + [restore];
        assert rest == Cycle(url, b) + tail;
        outcome := PulseCycle(b);
        SendPart(whole, failed, log, Cycle(url, b), tail, gateway.rejected);
        if outcome.Fail? {
          return;
        }
        rest := tail;
        cycle := cycle + 1;
      }
      ghost var log := gateway.sent;
      assert rest == [restore] + [];
      outcome := gui.client.SetState(Payload(Some(origOn), Some(origBri)));
      SendNext(whole, failed, log, restore, [], gateway.rejected);
    }

    /** One pass through the body of the thread's loop: frames b + 20*x for
        x in range(2), then for x in reversed(range(1)). */
    method PulseCycle(b: int) returns (outcome: Outcome)
      requires gui.client.id.Some?
      modifies gui.client.gateway
      ensures var pos := |old(gui.client.gateway.sent)|;
        gui.client.gateway.sent ==
          old(gui.client.gateway.sent) + Sent(Cycle(gui.Url(), b), pos, gui.client.gateway.rejected) &&
        outcome == (if Failed(Cycle(gui.Url(), b), pos, gui.client.gateway.rejected) then Fail(HttpError) else Pass)
    {
      ghost var gateway, url := gui.client.gateway, gui.Url();
      ghost var whole, failed := gateway.sent + Sent(Cycle(url, b), |gateway.sent|, gateway.rejected),
        Failed(Cycle(url, b), |gateway.sent|, gateway.rejected);
      for x := 0 to 2
        invariant whole == gateway.sent + Sent(Cycle(url, b)[x..], |gateway.sent|, gateway.rejected)
        invariant failed == Failed(Cycle(url, b)[x..], |gateway.sent|, gateway.rejected)
      {
        ghost var log := gateway.sent;
        assert Cycle(url, b)[x..] == [Frame(url, b + 20 * x)] + Cycle(url, b)[x + 1..];
        outcome := gui.client.SetState(Payload(Some(true), Some(b + 20 * x)));
        SendNext(whole, failed, log, Frame(url, b + 20 * x), Cycle(url, b)[x + 1..], gateway.rejected);
        if outcome.Fail? {
          return;
        }
      }
      for x := 1 downto 0
        invariant whole == gateway.sent + Sent(Cycle(url, b)[3 - x..], |gateway.sent|, gateway.rejected)
        invariant failed == Failed(Cycle(url, b)[3 - x..], |gateway.sent|, gateway.rejected)
      {
        ghost var log := gateway.sent;
        assert Cycle(url, b)[2..] == [Frame(url, b + 20 * x)] + Cycle(url, b)[3..];
        outcome := gui.client.SetState(Payload(Some(true), Some(b + 20 * x)));
        SendNext(whole, failed, log, Frame(url, b + 20 * x), Cycle(url, b)[3..], gateway.rejected);
        if outcome.Fail? {
          return;
        }
      }
      assert Sent(Cycle(url, b)[3..], |gateway.sent|, gateway.rejected) == [];
      outcome := Pass;
    }
  }

  /** Builds the coffee-bar light: resolves "Kaffeebar" and refreshes. The
      refresh raises when no id was assigned or when its read fails, and
      then no object is produced. */
  method NewKaffeeBarGui(gateway: Gateway, collection: Option<seq<Entry>>, reply: Option<Snapshot>)
    returns (r: Result<KaffeeBarGui, Error>)
    ensures collection.None? ==> r == Failure(AttributeError)
    ensures collection.Some? && reply.None? ==> r == Failure(ReadFailed)
    ensures r.Success? ==>
      fresh(r.value) && fresh(r.value.client) && r.value.client.gateway == gateway &&
      r.value.client.id == Some(Resolve(collection.value, "Kaffeebar")) &&
      r.value.on == EqualsTrue(reply.value.on) && r.value.bri == reply.value.bri &&
      r.value.thread == null
    ensures collection.Some? && reply.Some? ==> r.Success?
  {
    var client := new DeconzClient(gateway, "Kaffeebar", collection);
    if client.id.None? {
      return Failure(AttributeError);
    }
    var gui := new KaffeeBarGui(client);
    var outcome := gui.Refresh(reply);
    if outcome.Fail? {
      return Failure(outcome.error);
    }
    r := Success(gui);
  }
}
