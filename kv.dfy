/** The server's key-value store and the key layout the handlers use:
    `boletim:<id>` for a report and `boletim:numero:<n>` for its number index,
    `pessoa:<id>`, `policial:<id>` and `policial:matricula:<m>` for officers
    and their badge index, and `log:<id>` for audit entries. */
module KvStore {
  import opened Base
  import opened Text
  import opened Json

  type Store = map<string, Json>

  const BoletimPrefix := "boletim:"
  const NumeroPrefix := "boletim:numero:"
  const PessoaPrefix := "pessoa:"
  const PolicialPrefix := "policial:"
  const MatriculaPrefix := "policial:matricula:"
  const LogPrefix := "log:"

  /** `kv.get(k)`: `undefined` for an absent key. */
  function Lookup(store: Store, k: string): Option<Json>
  {
    Get(store, k)
  }

  /** `keys` lists every key of the store that starts with `prefix`, each
      once, in an order the store chooses (`kv.getByPrefix`). */
  predicate IsListing(store: Store, prefix: string, keys: seq<string>)
  {
    && Distinct(keys)
    && (forall k :: k in keys ==> k in store && StartsWith(k, prefix))
    && (forall k :: k in store && StartsWith(k, prefix) ==> k in keys)
  }

  /** The values stored under `keys`, in that order. */
  function Values(store: Store, keys: seq<string>): (r: seq<Json>)
    requires forall k :: k in keys ==> k in store
    ensures |r| == |keys|
  {
    seq(|keys|, i requires 0 <= i < |keys| => store[keys[i]])
  }

  /** A listing holds exactly the values stored under the prefixed keys. */
  lemma ListingValues(store: Store, prefix: string, keys: seq<string>)
    requires IsListing(store, prefix, keys)
    ensures forall v :: v in Values(store, keys) <==>
      exists k :: k in store && StartsWith(k, prefix) && store[k] == v
  {
    forall v | v in Values(store, keys)
      ensures exists k :: k in store && StartsWith(k, prefix) && store[k] == v
    {
      var i :| 0 <= i < |keys| && Values(store, keys)[i] == v;
      assert keys[i] in keys;
    }
    forall v | exists k :: k in store && StartsWith(k, prefix) && store[k] == v
      ensures v in Values(store, keys)
    {
      var k :| k in store && StartsWith(k, prefix) && store[k] == v;
      var i :| 0 <= i < |keys| && keys[i] == k;
      assert Values(store, keys)[i] == v;
    }
  }

  /** The audit entry `logAction` writes. A missing actor id is dropped when
      the entry is serialised. */
  function LogEntry(id: string, actor: Option<Json>, acao: string, now: nat, detalhes: string): (e: Json)
    ensures IsLogEntry(e) && Stamp(e) == now
  {
    JObj(map["id" := JStr(id), "acao" := JStr(acao), "timestamp" := JNum(now), "detalhes" := JStr(detalhes)]
      + (if actor.Some? then map["policialId" := actor.value] else map[]))
  }

  /** An audit entry: an object with an action name and a timestamp. */
  predicate IsLogEntry(v: Json)
  {
    v.JObj? && "acao" in v.fields && v.fields["acao"].JStr?
    && "timestamp" in v.fields && v.fields["timestamp"].JNum?
  }

  /** `new Date(e.timestamp).getTime()` for an entry. */
  function Stamp(v: Json): int
  {
    if v.JObj? && "timestamp" in v.fields && v.fields["timestamp"].JNum? then v.fields["timestamp"].n else 0
  }

  /** Every `log:` key holds an audit entry. */
  predicate LogsWellFormed(store: Store)
  {
    forall k :: k in store && StartsWith(k, LogPrefix) ==> IsLogEntry(store[k])
  }

  /** A key built on the report, person or officer prefix is never a `log:`
      key, so writing it cannot disturb the audit trail. */
  lemma {:induction false} RecordKeyNotLog(prefix: string, id: string)
    requires prefix in {BoletimPrefix, NumeroPrefix, PessoaPrefix, PolicialPrefix, MatriculaPrefix}
    ensures !StartsWith(prefix + id, LogPrefix)
  {
    assert (prefix + id)[0] == prefix[0];
  }

  /** Writing a record key keeps the audit trail well formed. */
  lemma SetRecordKeepsLogs(store: Store, prefix: string, id: string, v: Json)
    requires LogsWellFormed(store)
    requires prefix in {BoletimPrefix, NumeroPrefix, PessoaPrefix, PolicialPrefix, MatriculaPrefix}
    ensures LogsWellFormed(store[prefix + id := v])
  {
    RecordKeyNotLog(prefix, id);
  }

  /** Writing an audit entry keeps the audit trail well formed. */
  lemma SetLogKeepsLogs(store: Store, id: string, e: Json)
    requires LogsWellFormed(store) && IsLogEntry(e)
    ensures LogsWellFormed(store[LogPrefix + id := e])
  {
  }
}
