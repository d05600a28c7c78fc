/**
 * The three chain stages `render`, `massing` and `export`.  Each sets one
 * boolean flag in the payload dictionary it receives and hands the same
 * dictionary on.  The one-second sleeps and the Celery queue are not modelled.
 */
module Workers {

  import opened Common

  const RenderedKey: string := "rendered"
  const MassingKey: string := "massing"
  const ExportedKey: string := "exported"

  /** `data[flag] = True`: the flag is set and every other entry is kept. */
  function WithFlag(m: map<string, Json>, flag: string): (r: map<string, Json>)
    ensures flag in r && r[flag] == JBool(true)
    ensures forall k :: k != flag ==> (k in r <==> k in m)
    ensures forall k :: k != flag && k in m ==> r[k] == m[k]
  {
    m[flag := JBool(true)]
  }

  /** Setting a flag that is already set changes nothing, so every stage is idempotent. */
  lemma WithFlagIdempotent(m: map<string, Json>, flag: string)
    ensures WithFlag(WithFlag(m, flag), flag) == WithFlag(m, flag)
  {
  }

  /**
   * `export(massing(render(p)))`: all three flags are set, and every other
   * key of `p` keeps its value.
   */
  lemma ChainFlags(m: map<string, Json>)
    ensures var r := WithFlag(WithFlag(WithFlag(m, RenderedKey), MassingKey), ExportedKey);
      && r.Keys == m.Keys + {RenderedKey, MassingKey, ExportedKey}
      && r[RenderedKey] == JBool(true) && r[MassingKey] == JBool(true) && r[ExportedKey] == JBool(true)
      && forall k :: k in m && k !in {RenderedKey, MassingKey, ExportedKey} ==> r[k] == m[k]
  {
  }

  /** A mutable payload dictionary shared between caller and stage. */
  class Payload {
    var entries: map<string, Json>

    constructor (entries: map<string, Json>)
      ensures this.entries == entries
    {
      this.entries := entries;
    }
  }

  /**
   * `render(payload=None)`: `payload or {}` means that a missing or empty
   * payload is replaced by a fresh dictionary (the caller's empty one is
   * left as it was), while a non-empty payload is updated in place and
   * returned.
   */
  method Render(payload: Payload?) returns (data: Payload)
    modifies payload
    ensures payload != null && old(payload.entries) != map[] ==>
      data == payload && data.entries == WithFlag(old(payload.entries), RenderedKey)
    ensures payload == null || old(payload.entries) == map[] ==>
      fresh(data) && data.entries == map[RenderedKey := JBool(true)]
    ensures payload != null && old(payload.entries) == map[] ==> payload.entries == map[]
  {
    if payload != null && payload.entries != map[] {
      data := payload;
    } else {
      data := new Payload(map[]);
    }
    data.entries := data.entries[RenderedKey := JBool(true)];
  }

  /** `massing(payload)`: a payload is required and is updated in place. */
  method Massing(payload: Payload) returns (data: Payload)
    modifies payload
    ensures data == payload
    ensures data.entries == WithFlag(old(payload.entries), MassingKey)
  {
    data := payload;
    data.entries := data.entries[MassingKey := JBool(true)];
  }

  /** `export(payload)`: a payload is required and is updated in place. */
  method Export(payload: Payload) returns (data: Payload)
    modifies payload
    ensures data == payload
    ensures data.entries == WithFlag(old(payload.entries), ExportedKey)
  {
    data := payload;
    data.entries := data.entries[ExportedKey := JBool(true)];
  }
}
