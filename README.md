# Coffee-bar device control, modelled in Dafny

This project models the device-control layer of a voice-controlled coffee
bar (`lib/deconz.py`). The layer talks to a deCONZ gateway over HTTP. It has
four parts:

- **Name resolution.** `DeconzClient` reads the lights collection and keeps
  the key of the first light whose `name` matches. If no light matches, it
  falls back to the integer `0`.
- **The write primitive.** `set_state` PUTs a partial state object to
  `{BASE_URL}/{_id}/state`.
- **Two device facades.** `Kaffeemaschine` is a switch. `KaffeeBarGui` is the
  coffee-bar light, used as visual feedback: it is idle when `thread` is
  None and animating otherwise.
- **Two feedback animations.** The listening pulse runs on a
  `ShowListeningThread`. The acknowledgement blink is a fixed sequence.

The model has four modules:

- `Http` (http.dfy) is the gateway as the layer sees it. GET replies are
  inputs. Every PUT is appended to the gateway's log `sent` as a
  `Put(url, payload)` value of the datatype `Request`. The gateway's `rejected` set gives the log
  positions whose PUT gets a 4xx or 5xx reply. `Sent(plan, pos, rejected)`
  is the part of a planned write sequence that reaches the gateway: the sequence
  stops right after the first rejected request, because `raise_for_status`
  raises there. `Failed` says whether that happens.
- `Addressing` (addressing.dfy) covers name resolution and the state URL.
- `Animations` (animations.dfy) gives the write sequences of the two animations as
  functions, with lemmas about them.
- `Deconz` (deconz.dfy) holds the classes. Their fields change in place, as in
  the source. A single write (`SetState`, `On`, `Off`) states the one `Put`
  it appends to the log. Each animation method (`Run`, `PulseCycle`,
  `Acknowledge`, `Blink`) states its whole effect as
  `gateway.sent == old(gateway.sent) + Sent(plan, ...)`, where `plan` is one of the
  plan functions. Every writing method also says whether it ends with an
  exception, and which one.

Python exceptions are modelled as an `Outcome` or `Result` value: no `_id`
(`AttributeError`), a failed GET (`ReadFailed`), a 4xx/5xx reply to a PUT
(`HttpError`), and the failed `assert` in `acknowledge` (`AssertionError`).
Python inheritance (`KaffeeBarGui` and `Kaffeemaschine` extend
`DeconzClient`) is modelled by composition: each facade holds its client in a
`const client` field.

The thread's loop is modelled sequentially. The stop event is replaced by a
count `k`: the number of times the loop found the event clear. So the thread
writes `k` three-frame cycles and then one restore write, unless a reply
raises first.

Behaviour of the code worth knowing, which the model keeps:

- `done` does not wait for the thread. It sets the stop event, drops the
  reference and refreshes at once. The restore write can therefore come
  after `done` returns.
- `show_listening` replaces `thread` without stopping the thread already
  there. The old thread keeps running.
- A PUT that raises ends the animation. The thread dies without its restore
  write, and `acknowledge` raises without its restore write. Nothing skips
  the bad frame and goes on.
- A reply with a status other than 200 that is below 400 only logs an error,
  because `raise_for_status` does not raise for it.
- The listening pulse uses two brightness levels (`b` and `b+20`). It
  checks the stop event once per cycle, not after every sleep.
- A failed collection GET is not fatal by itself: the constructor returns
  without assigning `_id`. `KaffeeBarGui` then fails in its first refresh.
  `Kaffeemaschine` fails later, on its first `on`/`off`.
- There is no group `action` endpoint and no scene recall.

## Model

| member | source | states |
|---|---|---|
| Addressing.ResolveFirstMatch | lib/deconz.py:44-45 | if entry `i` is the first in collection order whose name equals the requested name, the resolved id is that entry's key |
| Addressing.ResolveNoMatch | lib/deconz.py:44-48 | if no entry carries the name, the id falls back to the integer 0 |
| Addressing.StateUrlRoundTrip | lib/deconz.py:51 | the key can be read back out of `{BASE_URL}/{_id}/state`: the URL names exactly the id it was built from |
| Addressing.StateUrlSame | lib/deconz.py:48-51 | two ids address the same state endpoint exactly when they render to the same text, so the fallback 0 writes to the light whose key is "0" |
| Deconz.DeconzClient.constructor | lib/deconz.py:38-48 | a non-200 collection GET leaves `_id` unassigned; otherwise `_id` is the resolution of the name over the collection |
| Deconz.DeconzClient.SetState | lib/deconz.py:50-57 | without `_id` nothing is sent (AttributeError); otherwise exactly one request is sent, carrying the given payload unchanged to the state URL, and the call raises exactly when that reply is a 4xx/5xx |
| Http.Gateway.Put | lib/deconz.py:52-55 | the PUT is appended to the gateway's log, and it fails exactly when the gateway rejects that log position |
| Deconz.DeconzClient.Fetch | lib/deconz.py:59-62 | `_refresh` fails with AttributeError without `_id`, fails when the GET raises, and otherwise returns the reply unchanged |
| Deconz.Kaffeemaschine.constructor | lib/deconz.py:101-103 | the coffee machine resolves the name "Kaffeemaschine" |
| Deconz.Kaffeemaschine.On | lib/deconz.py:105-106 | at most one write, `{on: true}` and no other field, to the machine's state URL; fails with AttributeError without `_id`, with HttpError on a 4xx/5xx reply, and passes otherwise |
| Deconz.Kaffeemaschine.Off | lib/deconz.py:108-109 | at most one write, `{on: false}` and no other field, with the same AttributeError/HttpError cases as `On` |
| Deconz.NewKaffeeBarGui | lib/deconz.py:65-71 | building the coffee-bar light fails with AttributeError when the collection GET failed and with ReadFailed when the refresh read fails; otherwise `_id` resolves "Kaffeebar", `on`/`bri` come from the refresh and `thread` is None |
| Deconz.KaffeeBarGui.constructor | lib/deconz.py:66-69 | before the first refresh, `bri` is 0, `on` is false and no thread is set |
| Deconz.KaffeeBarGui.Refresh | lib/deconz.py:73-76 | a successful read sets `on` to `state.on == True` and `bri` to `state.bri`; a failed read changes nothing; `thread` and the gateway are never touched |
| Deconz.KaffeeBarGui.ShowListening | lib/deconz.py:78-80 | a fresh, started thread with a clear stop event, capturing the current `on`/`bri`, becomes `thread`; the previous thread is left exactly as it was (not stopped) |
| Deconz.KaffeeBarGui.Done | lib/deconz.py:82-88 | the previous thread, if any, gets its stop event set and nothing else; `thread` ends None (idle) whatever the refresh does; no write is sent |
| Deconz.KaffeeBarGui.Acknowledge | lib/deconz.py:90-99 | while a thread is set it fails with AssertionError and changes nothing; a failed refresh sends nothing; otherwise it sends the acknowledgement plan built from the refreshed state, cut after the first rejected write, and fails exactly when a write was rejected |
| Deconz.KaffeeBarGui.Blink | lib/deconz.py:93-99 | the writes after the refresh are the acknowledgement plan (two bright/dim pulses, then the remembered state), cut after the first rejected write |
| Animations.AckPlanShape | lib/deconz.py:94-99 | the acknowledgement plan is `{on:true, bri:110}`, `{on:true, bri:20}`, `{on:true, bri:110}`, `{on:true, bri:20}`, then the remembered `{on, bri}`, whatever that state is |
| Deconz.ShowListeningThread.constructor | lib/deconz.py:15-20 | the thread captures the gui's `on`/`bri` as the state to restore and starts with a clear stop event |
| Deconz.ShowListeningThread.Start | lib/deconz.py:80 | the thread is marked started |
| Deconz.ShowListeningThread.Run | lib/deconz.py:22-34 | for `k` cycles, it sends `k` cycles at base `max(20, gui.bri)` and then the restore of the captured state; a rejected write ends the thread there, without the restore |
| Deconz.ShowListeningThread.PulseCycle | lib/deconz.py:25-32 | one pass of the loop body sends `b`, `b+20`, `b`, cut after the first rejected write |
| Animations.Cycles | lib/deconz.py:24-32 | `k` cycles are exactly `3k` writes |
| Animations.CyclesAt | lib/deconz.py:24-32 | write `i` of `k` cycles is frame `i mod 3` of one cycle |
| Animations.ListeningFramesBounded | lib/deconz.py:23-34 | the listening plan has `3k+1` writes; each of the first `3k` goes to the light's URL with `on == true` and `20 <= bri <= b+20`; the last restores the captured state |
| Animations.ListeningWithinRange | lib/deconz.py:23-26 | all listening frames stay within the gateway's 0..255 brightness range exactly when no cycle runs or the light's `bri` is at most 235 |
| Animations.ListeningEndsRestored | lib/deconz.py:33-34 | when no write is rejected, the thread sends all `3k+1` writes and the last one restores the captured state |
| Http.SentPrefix | lib/deconz.py:52-55 | the writes that reach the gateway are a prefix of the planned writes |
| Http.SentAll | lib/deconz.py:52-57 | when no reply raises, every planned write is sent |
| Http.SentStopsAtFirstRejected | lib/deconz.py:53-55 | when some reply raises, the last write sent is the first rejected one: no earlier write was rejected |

## Left out

- app.py: audio capture, the wake-word and inference SDK callbacks, WAV
  output and the environment set-up. None of it uses the device layer.
- HTTP itself, JSON decoding and the 0.025 s read timeout. Reads are inputs:
  the collection reply is either a non-200 status or an ordered list of
  entries, and the resource read either raises or yields a snapshot.
- HTTP status codes: a PUT's reply is only modelled as raising (a 4xx or 5xx
  status) or not raising. A non-200 reply that does not raise differs from
  200 only in what is logged.
- Transport failures: the collection GET (lib/deconz.py:39) and the PUT
  (lib/deconz.py:52) can raise on their own, for example on a connection
  error. Neither failure is modelled: the collection reply is either
  non-200 or a list of entries. `Http.Gateway.Put` always logs the request. A PUT that never
  reached the gateway therefore looks like one answered 4xx/5xx.
- Threads, `Event` waiting and `time.sleep`. The model is sequential, so it
  says nothing about interleaving.
- Deconz.ShowListeningThread.Run: the cycle count `k` is a parameter. The model
  does not link it to `stop`, which `Done` sets and `Run` never reads. The
  model makes no claim about when the thread stops or whether it stops at all.
- Deconz.KaffeeBarGui.Done: does not claim that the light is restored when
  `done` returns, because the code neither waits for the thread nor guards
  against a second thread.
- JSON details: `on == True` is modelled for booleans and integers, but the
  float `1.0` is not modelled. Collection entries without a `name` and
  snapshots without a `bri` (both `KeyError`) are not modelled. `bri` is
  assumed to be an integer.
- The module-level `refresh()` (lib/deconz.py:112-148). It refers to
  `ATTRIB`, `TARGET` and `VALUE`, which are never defined, so it cannot run
  as written.
- The `__main__` demo (lib/deconz.py:151-155) and all logging.
