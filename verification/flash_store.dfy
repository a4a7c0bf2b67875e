/**
 Publishing a configuration to the session's flash store. The builder writes
 every configuration entry under its own key in the `sweet_alert.` namespace
 and then the whole configuration, serialised as JSON, under
 `sweet_alert.alert`. The serialiser is a parameter: its format is not modelled.

 The builder never touches a session key outside that namespace, so a session
 is modelled by its namespace alone: the entry named `k` stands for the store
 key `SessionKey(k)`, that is `sweet_alert.k`. Prefixing is injective
 (SessionKeyInjective), so no two names share a store key.

 Flashing only ever writes: session entries of keys that have since left the
 configuration are not cleared.
 */
module FlashStore {
  import opened Values

  type Session = map<string, Value>

  /** Namespace of every key the builder flashes. */
  const Namespace := "sweet_alert."

  /** Name, inside the namespace, of the JSON snapshot. */
  const SnapshotName := "alert"

  /** The store key of the namespaced entry `name`. */
  function SessionKey(name: string): (sk: string)
    ensures |sk| >= |Namespace| && NameOf(sk) == name
  {
    assert (Namespace + name)[|Namespace|..] == name;
    Namespace + name
  }

  /** The name a store key of the namespace stands for. */
  function NameOf(sk: string): string
    requires |sk| >= |Namespace|
  {
    sk[|Namespace|..]
  }

  /** Distinct names are flashed under distinct store keys. */
  lemma SessionKeyInjective(a: string, b: string)
    ensures SessionKey(a) == SessionKey(b) ==> a == b
  {
    if SessionKey(a) == SessionKey(b) {
      assert NameOf(SessionKey(a)) == NameOf(SessionKey(b));
    }
  }

  /** `r` is the session `s` after one flash of `c`: the snapshot name holds the
      JSON of `c`, every other entry of `c` sits under its own name, every other
      name keeps its entry (stale ones included), and nothing else appears. */
  predicate FlashedFrom(s: Session, c: Config, json: Config -> string, r: Session)
  {
    && SnapshotName in r && r[SnapshotName] == Str(json(c))
    && (forall k :: k in c && k != SnapshotName ==> k in r && r[k] == c[k])
    && (forall k :: k in s && k !in c && k != SnapshotName ==> k in r && r[k] == s[k])
    && (forall k :: k in r ==> k in s || k in c || k == SnapshotName)
  }

  /** The session after flashing `c`: the per-entry writes, then the snapshot,
      which wins over a configuration entry that is itself named `alert`. */
  function Flash(s: Session, c: Config, json: Config -> string): (r: Session)
    ensures FlashedFrom(s, c, json, r)
  {
    (s + c)[SnapshotName := Str(json(c))]
  }

  /** `r` is `s` after the per-entry writes of the entries named in `done`. */
  predicate EntriesWritten(s: Session, c: Config, done: set<string>, r: Session)
  {
    && (forall k :: k in done ==> k in r && k in c && r[k] == c[k])
    && (forall k :: k in s && k !in done ==> k in r && r[k] == s[k])
    && (forall k :: k in r ==> k in s || k in done)
  }

  /** `flashConfig()`: one flash write per configuration entry, in whatever
      order the entries come, then the JSON snapshot. */
  method FlashConfig(s: Session, c: Config, json: Config -> string) returns (r: Session)
    ensures FlashedFrom(s, c, json, r)
  {
    r := s;
    var todo := c.Keys;
    while todo != {}
      invariant todo <= c.Keys
      invariant EntriesWritten(s, c, c.Keys - todo, r)
      decreases todo
    {
      var k :| k in todo;
      r := r[k := c[k]];
      todo := todo - {k};
    }
    r := r[SnapshotName := Str(json(c))];
  }

  /** A flash is determined by the session, the configuration and the
      serialiser: whatever satisfies FlashedFrom, the loop of flashConfig
      included, is exactly Flash. */
  lemma FlashedFromIsFlash(s: Session, c: Config, json: Config -> string, r: Session)
    requires FlashedFrom(s, c, json, r)
    ensures r == Flash(s, c, json)
  {
    assert r.Keys == Flash(s, c, json).Keys;
  }
}
