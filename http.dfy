/** The gateway as the light controller sees it: the values its GET requests
    return, and the PUT requests it receives together with the status it
    answers to each of them. */
module Http {
  import opened Wrappers

  const KEY := "1B9FCFEEF1"
  /** Collection URL of the lights on the deCONZ gateway. */
  const BASE_URL := "http://192.168.0.214:8081/api/" + KEY + "/lights"

  /** A JSON scalar as decoded from a gateway reply. */
  datatype JsonValue = JBool(b: bool) | JInt(n: int) | JString(s: string) | JNull

  /** One entry of the lights collection: its key in the JSON object and its
      "name" attribute. The collection keeps the order of the JSON object. */
  datatype Entry = Entry(id: string, name: string)

  /** The "state" of one light as read by GET {BASE_URL}/{id}. */
  datatype Snapshot = Snapshot(on: JsonValue, bri: int)

  /** A partial state object: only the fields that are present are sent. */
  datatype Payload = Payload(on: Option<bool>, bri: Option<int>)

  /** One PUT request: its URL and its JSON body. */
  datatype Request = Put(url: string, payload: Payload)

  /** Python's `value == True` on a decoded JSON value: true for `true` and
      for the integer 1, false for everything else. */
  predicate EqualsTrue(v: JsonValue)
  {
    v == JBool(true) || v == JInt(1)
  }

  /** Whether some request of `plan`, sent from position `pos` of the
      gateway's log on, is answered with a status that raises. */
  predicate Failed(plan: seq<Request>, pos: nat, rejected: set<nat>)
  {
    exists p :: pos <= p < pos + |plan| && p in rejected
  }

  /** Failure of a non-empty plan is decided by its first reply or by the rest. */
  lemma FailedUnfold(plan: seq<Request>, pos: nat, rejected: set<nat>)
    requires plan != []
    ensures Failed(plan, pos, rejected) <==>
      pos in rejected || Failed(plan[1..], pos + 1, rejected)
  {
    if Failed(plan, pos, rejected) && pos !in rejected {
      var p :| pos <= p < pos + |plan| && p in rejected;
      assert pos + 1 <= p < pos + 1 + |plan[1..]|;
    }
  }

  /** The requests of `plan` that actually reach the gateway when they are
      sent one after the other from position `pos` on and the first reply
      that raises ends the sequence: everything up to and including that
      request. */
  function Sent(plan: seq<Request>, pos: nat, rejected: set<nat>): seq<Request>
    decreases |plan|
  {
    if plan == [] then []
    else if pos in rejected then [plan[0]]
    else [plan[0]] + Sent(plan[1..], pos + 1, rejected)
  }

  /** What is sent is a prefix of the plan. */
  lemma {:induction false} SentPrefix(plan: seq<Request>, pos: nat, rejected: set<nat>)
    ensures var r := Sent(plan, pos, rejected); |r| <= |plan| && r == plan[..|r|]
    decreases |plan|
  {
    if plan != [] && pos !in rejected {
      var tail := Sent(plan[1..], pos + 1, rejected);
      SentPrefix(plan[1..], pos + 1, rejected);
      assert plan[..|tail| + 1] == [plan[0]] + plan[1..][..|tail|];
    }
  }

  /** When no reply raises, the whole plan is sent. */
  lemma {:induction false} SentAll(plan: seq<Request>, pos: nat, rejected: set<nat>)
    requires !Failed(plan, pos, rejected)
    ensures Sent(plan, pos, rejected) == plan
    decreases |plan|
  {
    if plan != [] {
      FailedUnfold(plan, pos, rejected);
      SentAll(plan[1..], pos + 1, rejected);
    }
  }

  /** When some reply raises, the last request sent is the first one whose
      reply raises: its reply raises and none before it does. */
  lemma {:induction false} SentStopsAtFirstRejected(plan: seq<Request>, pos: nat, rejected: set<nat>)
    requires Failed(plan, pos, rejected)
    ensures var r := Sent(plan, pos, rejected);
      0 < |r| <= |plan| && pos + |r| - 1 in rejected && !Failed(plan[..|r| - 1], pos, rejected)
    decreases |plan|
  {
    FailedUnfold(plan, pos, rejected);
    if pos !in rejected {
      var tail := Sent(plan[1..], pos + 1, rejected);
      SentStopsAtFirstRejected(plan[1..], pos + 1, rejected);
      assert plan[..|tail|][1..] == plan[1..][..|tail| - 1];
      FailedUnfold(plan[..|tail|], pos, rejected);
    }
  }

  /** Sending the first request of `rest` when the gateway's log is `log`,
      for a reply that raises: the sequence ends with that request. */
  lemma SendRejected(log: seq<Request>, rest: seq<Request>, rejected: set<nat>)
    requires rest != [] && |log| in rejected
    ensures log + Sent(rest, |log|, rejected) == log + [rest[0]]
    ensures Failed(rest, |log|, rejected)
  {
  }

  /** Sending the first request of `rest` when the gateway's log is `log`,
      for a reply that does not raise: `rest[1..]` remains, to be sent
      after `log + [rest[0]]`. */
  lemma {:induction false} SendAccepted(log: seq<Request>, rest: seq<Request>, rejected: set<nat>)
    requires rest != [] && |log| !in rejected
    ensures log + Sent(rest, |log|, rejected) ==
      (log + [rest[0]]) + Sent(rest[1..], |log| + 1, rejected)
    ensures Failed(rest, |log|, rejected) == Failed(rest[1..], |log| + 1, rejected)
  {
    FailedUnfold(rest, |log|, rejected);
    var tail := Sent(rest[1..], |log| + 1, rejected);
    assert Sent(rest, |log|, rejected) == [rest[0]] + tail;
    assert log + ([rest[0]] + tail) == (log + [rest[0]]) + tail;
  }

  /** One write of a plan in progress. `whole` is the log the plan ends with
      and `failed` whether it ends on a reply that raises; `log` is the log
      before `req`, the next request, is sent and `tail` what follows it. */
  lemma SendNext(whole: seq<Request>, failed: bool, log: seq<Request>, req: Request,
                 tail: seq<Request>, rejected: set<nat>)
    requires whole == log + Sent([req] + tail, |log|, rejected)
    requires failed == Failed([req] + tail, |log|, rejected)
    ensures |log| in rejected ==> whole == log + [req] && failed
    ensures |log| !in rejected ==>
      whole == (log + [req]) + Sent(tail, |log| + 1, rejected) &&
      failed == Failed(tail, |log| + 1, rejected)
  {
    var rest := [req] + tail;
    assert rest[0] == req && rest[1..] == tail;
    if |log| in rejected {
      SendRejected(log, rest, rejected);
    } else {
      SendAccepted(log, rest, rejected);
    }
  }

  /** Sending a plan in two parts: once `part` has been sent from `log`,
      either it ended on a reply that raises, and so did the whole plan, or
      `tail` is what remains. */
  lemma {:induction false} SendPart(whole: seq<Request>, failed: bool, log: seq<Request>,
                                    part: seq<Request>, tail: seq<Request>, rejected: set<nat>)
    requires whole == log + Sent(part + tail, |log|, rejected)
    requires failed == Failed(part + tail, |log|, rejected)
    ensures var log' := log + Sent(part, |log|, rejected);
      (Failed(part, |log|, rejected) ==> whole == log' && failed) &&
      (!Failed(part, |log|, rejected) ==>
        whole == log' + Sent(tail, |log'|, rejected) && failed == Failed(tail, |log'|, rejected))
    decreases |part|
  {
    if part == [] {
      assert part + tail == tail;
    } else {
      assert part + tail == [part[0]] + (part[1..] + tail);
      SendNext(whole, failed, log, part[0], part[1..] + tail, rejected);
      FailedUnfold(part, |log|, rejected);
      if |log| !in rejected {
        var rest := Sent(part[1..], |log| + 1, rejected);
        SendPart(whole, failed, log + [part[0]], part[1..], tail, rejected);
        assert Sent(part, |log|, rejected) == [part[0]] + rest;
        assert (log + [part[0]]) + rest == log + ([part[0]] + rest);
      }
    }
  }

  /** The deCONZ gateway, reduced to what the controller observes of it. */
  class Gateway {
    /** Every PUT request received so far, in order. */
    var sent: seq<Request>
    /** The positions, in `sent`, of the PUT requests the gateway answers
        with a status for which `raise_for_status` raises (400 to 599). */
    const rejected: set<nat>

    constructor (rejected: set<nat>)
      ensures sent == [] && this.rejected == rejected
    {
      sent := [];
      this.rejected := rejected;
    }

    /** `requests.put(url, json=payload)` followed by `raise_for_status`:
        the request is logged, and `ok` is false when the reply raises. */
    method Put(url: string, payload: Payload) returns (ok: bool)
      modifies this
      ensures sent == old(sent) + [Request.Put(url, payload)]
      ensures ok <==> |old(sent)| !in rejected
    {
      ok := |sent| !in rejected;
      sent := sent + [Request.Put(url, payload)];
    }
  }
}
