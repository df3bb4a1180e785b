/** The record types of internal/service/model.go. */
module ServiceModel {

  /** One backend description. `port` is Go's signed `int`: zero and negative
      values can be represented; only the manager's validity filter rejects 0. */
  datatype Service = Service(name: string, host: string, port: int, path: string, protocol: string)

  /** The ordered sequence of services; the renderer emits blocks in this order. */
  datatype ServiceConfig = ServiceConfig(services: seq<Service>)

  /** The five fields of a `Service`, each bound to a fixed JSON key. */
  datatype Field = Name | Host | Port | Path | Protocol

  predicate IsLowerAscii(s: string) {
    forall i :: 0 <= i < |s| ==> 'a' <= s[i] <= 'z'
  }

  /** The struct tag of each field: the key the JSON decoder binds it to. */
  function JsonKey(f: Field): (key: string)
    ensures |key| > 0 && IsLowerAscii(key)
  {
    match f
    case Name => "name"
    case Host => "host"
    case Port => "port"
    case Path => "path"
    case Protocol => "protocol"
  }

  /** No two fields share a key, so every key of a record object selects one field. */
  lemma JsonKeyInjective(f: Field, g: Field)
    requires JsonKey(f) == JsonKey(g)
    ensures f == g
  {
  }

  /** Whether field `f` of `s` holds Go's zero value for its type, which is
      also what the JSON decoder leaves in a field whose key is absent. */
  predicate HoldsZeroValue(s: Service, f: Field) {
    match f
    case Name => s.name == ""
    case Host => s.host == ""
    case Port => s.port == 0
    case Path => s.path == ""
    case Protocol => s.protocol == ""
  }
}
