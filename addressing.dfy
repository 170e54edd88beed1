/** How a device name becomes the URL its state is written to. */
module Addressing {
  import opened Wrappers
  import opened Http

  /** The value of `_id` once the constructor has assigned it: a key of the
      lights collection, or the integer 0 used when no name matched. */
  datatype ResourceId = Key(key: string) | IntZero

  /** The text `{_id}` contributes to a formatted URL. */
  function IdText(id: ResourceId): string
  {
    match id
    case Key(k) => k
    case IntZero => "0"
  }

  /** The keys of the entries whose name equals `name`, in collection order. */
  function MatchingIds(entries: seq<Entry>, name: string): seq<string>
    decreases |entries|
  {
    if entries == [] then []
    else if entries[0].name == name then [entries[0].id] + MatchingIds(entries[1..], name)
    else MatchingIds(entries[1..], name)
  }

  /** Name resolution: the first matching key, or 0 when the list of
      matching keys is empty (the IndexError branch). */
  function Resolve(entries: seq<Entry>, name: string): ResourceId
  {
    var ids := MatchingIds(entries, name);
    if |ids| > 0 then Key(ids[0]) else IntZero
  }

  /** Resolution picks the first entry, in collection order, carrying the name. */
  lemma {:induction false} ResolveFirstMatch(entries: seq<Entry>, name: string, i: nat)
    requires i < |entries| && entries[i].name == name
    requires forall j :: 0 <= j < i ==> entries[j].name != name
    ensures Resolve(entries, name) == Key(entries[i].id)
    decreases i
  {
    if i > 0 {
      assert entries[0].name != name;
      ResolveFirstMatch(entries[1..], name, i - 1);
    }
  }

  /** Without a matching entry the id falls back to 0. */
  lemma {:induction false} ResolveNoMatch(entries: seq<Entry>, name: string)
    requires forall j :: 0 <= j < |entries| ==> entries[j].name != name
    ensures Resolve(entries, name) == IntZero
    decreases |entries|
  {
    if entries != [] {
      ResolveNoMatch(entries[1..], name);
    }
  }

  /** URL of the state endpoint: f"{BASE_URL}/{_id}/state". */
  function StateUrl(id: ResourceId): string
  {
    BASE_URL + "/" + IdText(id) + "/state"
  }

  /** Reads the resource key back out of a state URL. */
  function KeyOfStateUrl(url: string): Option<string>
  {
    var prefix := BASE_URL + "/";
    var suffix := "/state";
    if |url| >= |prefix| + |suffix| && url[..|prefix|] == prefix && url[|url| - |suffix|..] == suffix
    then Some(url[|prefix|..|url| - |suffix|])
    else None
  }

  /** A state URL names exactly the id it was built from. */
  lemma StateUrlRoundTrip(id: ResourceId)
    ensures KeyOfStateUrl(StateUrl(id)) == Some(IdText(id))
  {
    var prefix, text, suffix := BASE_URL + "/", IdText(id), "/state";
    var url := StateUrl(id);
    assert url == prefix + text + suffix;
    assert url[..|prefix|] == prefix;
    assert url[|url| - |suffix|..] == suffix;
    assert url[|prefix|..|url| - |suffix|] == text;
  }

  /** Two ids address the same state endpoint exactly when they render to the
      same text; in particular the fallback 0 addresses the resource "0". */
  lemma StateUrlSame(a: ResourceId, b: ResourceId)
    ensures StateUrl(a) == StateUrl(b) <==> IdText(a) == IdText(b)
  {
    StateUrlRoundTrip(a);
    StateUrlRoundTrip(b);
  }
}
