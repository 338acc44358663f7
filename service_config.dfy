/**
 * An account configuration as the mail framework keeps it: a map from
 * service name to that service's settings. Each service has a type and a
 * version (set through setType and setVersion) and a key/value map of
 * string settings.
 *
 * Two behaviours of the framework's QMailAccountConfiguration are taken as
 * given: adding a service that is already present leaves it as it is, and
 * reading a key that was never written gives the empty string.
 */
module ServiceConfig {
  import opened Wrappers

  datatype ServiceType = Source | Sink | Storage

  /** One service's configuration; None stands for a type or version never set. */
  datatype Service = Service(kind: Option<ServiceType>, version: Option<int>, values: map<string, string>)

  /** The configuration a newly added service starts with. */
  const Fresh: Service := Service(None, None, map[])

  type Config = map<string, Service>

  /** The storage service every account carries. */
  const StorageService: string := "qmfstoragemanager"
  /** The service that sends mail. */
  const SendService: string := "smtp"

  /** addServiceConfiguration(s): a new service with no settings, unless s is already there. */
  function AddService(c: Config, s: string): (r: Config)
    ensures r.Keys == c.Keys + {s}
    ensures s !in c ==> r[s] == Fresh
    ensures forall t :: t in c ==> r[t] == c[t]
  {
    if s in c then c else c[s := Fresh]
  }

  /** removeServiceConfiguration(s): s and its settings are gone, every other service is kept. */
  function RemoveService(c: Config, s: string): (r: Config)
    ensures r.Keys == c.Keys - {s}
    ensures forall t :: t in r ==> r[t] == c[t]
  {
    c - {s}
  }

  /** value(k) of service s: the stored string, or "" when there is none. */
  function Value(c: Config, s: string, k: string): string {
    if s in c && k in c[s].values then c[s].values[k] else ""
  }

  /** setValue(k, v) on service s: that one key now holds v and nothing else changes. */
  function SetValue(c: Config, s: string, k: string, v: string): (r: Config)
    requires s in c
    ensures r.Keys == c.Keys
    ensures Value(r, s, k) == v
    ensures forall t, j :: (t != s || j != k) ==> Value(r, t, j) == Value(c, t, j)
    ensures forall t :: t in c ==> r[t].kind == c[t].kind && r[t].version == c[t].version
  {
    c[s := c[s].(values := c[s].values[k := v])]
  }

  /** setType(kind) and setVersion(version) on service s; its settings are kept. */
  function SetTypeAndVersion(c: Config, s: string, kind: ServiceType, version: int): (r: Config)
    requires s in c
    ensures r.Keys == c.Keys
    ensures r[s].kind == Some(kind) && r[s].version == Some(version)
    ensures forall t, j :: Value(r, t, j) == Value(c, t, j)
    ensures forall t :: t in c && t != s ==> r[t] == c[t]
  {
    c[s := c[s].(kind := Some(kind), version := Some(version))]
  }

  /** Several setValue calls on service s at once: the keys of kv take its values, every other key is kept. */
  function SetValues(c: Config, s: string, kv: map<string, string>): (r: Config)
    requires s in c
    ensures r.Keys == c.Keys
    ensures forall k :: Value(r, s, k) == if k in kv then kv[k] else Value(c, s, k)
    ensures forall t, k :: t != s ==> Value(r, t, k) == Value(c, t, k)
    ensures forall t :: t in c ==> r[t].kind == c[t].kind && r[t].version == c[t].version
    ensures forall t :: t in c && t != s ==> r[t] == c[t]
  {
    c[s := c[s].(values := c[s].values + kv)]
  }

  /** Writing a batch into two configurations where service s is the same gives s the same values. */
  lemma SetValuesOnSameService(c: Config, d: Config, s: string, kv: map<string, string>)
    requires s in c && s in d && c[s] == d[s]
    ensures SetValues(c, s, kv)[s] == SetValues(d, s, kv)[s]
  {
  }

  /** Writing nothing changes nothing. */
  lemma SetValuesEmpty(c: Config, s: string)
    requires s in c
    ensures SetValues(c, s, map[]) == c
  {
    assert c[s].values + map[] == c[s].values;
  }

  /** One more setValue after a batch of writes is the batch with that write added. */
  lemma SetValueExtends(c: Config, s: string, kv: map<string, string>, k: string, v: string)
    requires s in c
    ensures SetValue(SetValues(c, s, kv), s, k, v) == SetValues(c, s, kv[k := v])
  {
    assert (c[s].values + kv)[k := v] == c[s].values + kv[k := v];
  }

  /** Adding a service twice is adding it once. */
  lemma AddServiceIdempotent(c: Config, s: string)
    ensures AddService(AddService(c, s), s) == AddService(c, s)
  {
  }

  /** A service removed and added again starts over with no settings. */
  lemma RemoveThenAddIsFresh(c: Config, s: string, k: string)
    ensures AddService(RemoveService(c, s), s)[s] == Fresh
    ensures Value(AddService(RemoveService(c, s), s), s, k) == ""
  {
  }

  /** Writing the same key twice keeps only the second value. */
  lemma SetValueOverwrites(c: Config, s: string, k: string, v: string, w: string)
    requires s in c
    ensures SetValue(SetValue(c, s, k, v), s, k, w) == SetValue(c, s, k, w)
  {
    assert c[s].values[k := v][k := w] == c[s].values[k := w];
  }

  /** Writes to different keys or services can be done in either order. */
  lemma SetValueCommutes(c: Config, s: string, k: string, v: string, s': string, k': string, v': string)
    requires s in c && s' in c
    requires s != s' || k != k'
    ensures SetValue(SetValue(c, s, k, v), s', k', v') == SetValue(SetValue(c, s', k', v'), s, k, v)
  {
    if s == s' {
      assert c[s].values[k := v][k' := v'] == c[s].values[k' := v'][k := v];
    }
  }
}
